/** Locks, semaphores, condition waits and the bounded buffer as objects changed in place on top of the
    thread pool. A loop around a sleep is given as one turn of it: the part up to the sleep, where control
    may pass to another thread, or up to the end of the call. */
module SyncObjects {
  import opened Scheduler
  import opened Queues
  import opened ThreadPool
  import Turns
  import Ring
  import Buffer

  class Lock {
    const prim: Prim
    var held: bool
    var helder: int

    constructor (prim: Prim)
      ensures this.prim == prim && !held && helder == -1
    {
      this.prim := prim;
      held, helder := false, -1;
    }

    ghost function Value(): Turns.Lock
      reads this
    {
      Turns.Lock(held, helder)
    }

    method AcquireTurn(pool: Pool) returns (done: bool)
      requires pool.Valid() && prim in pool.prims && this !in pool.repr
      modifies this, pool.repr - {pool.addrs}
      ensures pool.Shape() && pool.Current() && pool.repr == old(pool.repr) && pool.prims == old(pool.prims)
      ensures old(!held || Legal(pool.Model(), SleepOp(prim))) ==> pool.Valid()
      ensures Turns.Turn(Value(), Some(pool.Model()), done) == Turns.Acquire(old(Value()), old(pool.Model()), prim)
    {
      hide Inv, Pool.Shape, Pool.WaitMap, Pool.StatusMap, Pool.Queue;
      if held {
        pool.ThreadSleep(prim);
        return false;
      }
      helder := pool.tRunning.t.id;
      held := true;
      Untouched(pool);
      done := true;
    }

    method Release(pool: Pool)
      requires pool.Valid() && prim in pool.prims && this !in pool.repr
      modifies this, pool.repr - {pool.addrs}
      ensures pool.Valid() && pool.repr == old(pool.repr) && pool.prims == old(pool.prims)
      ensures !held && helder == -1 && pool.Model() == Wakeup(old(pool.Model()), prim)
    {
      hide Inv, Pool.Shape, Pool.WaitMap, Pool.StatusMap, Pool.Queue;
      helder := -1;
      held := false;
      Untouched(pool);
      pool.ThreadWakeup(prim);
    }

    /** The condition wait up to its sleep, or through the acquire if the sleep returns at once. */
    method CvWaitTurn(pool: Pool, cv: Prim) returns (done: bool)
      requires pool.Valid() && prim in pool.prims && cv in pool.prims && this !in pool.repr
      modifies this, pool.repr - {pool.addrs}
      ensures pool.Shape() && pool.Current() && pool.repr == old(pool.repr) && pool.prims == old(pool.prims)
      ensures old(pool.tRunning.t.id != BOOT) ==> pool.Valid()
      ensures Turns.Turn(Value(), Some(pool.Model()), done) ==
              Turns.WaitOn(Wakeup(old(pool.Model()), prim), cv, prim)
    {
      hide Inv, Pool.Shape, Pool.StatusMap, Pool.Queue;
      Release(pool);
      if pool.readyNum == 0 {
        InvFacts(pool.Model());
        pool.ThreadSleep(cv);
        done := AcquireTurn(pool);
      } else {
        pool.ThreadSleep(cv);
        done := false;
      }
    }
  }

  /** Assigning fields of an object outside the pool leaves the pool as it is. */
  twostate lemma Untouched(pool: Pool)
    requires old(pool.Valid()) && unchanged(pool) && forall o | o in old(pool.repr) :: unchanged(o)
    ensures pool.Valid() && pool.Model() == old(pool.Model())
  {
    pool.PoolFieldsOnly();
  }

  twostate lemma Kept(pool: Pool)
    requires old(pool.Shape()) && unchanged(pool) && forall o | o in old(pool.repr) :: unchanged(o)
    ensures pool.Shape() && (old(pool.Valid()) ==> pool.Valid()) && pool.Model() == old(pool.Model())
  {
    pool.PoolFieldsOnly();
  }

  class Semaphore {
    const prim: Prim
    var count: nat

    constructor (prim: Prim)
      ensures this.prim == prim && count == 0
    {
      this.prim := prim;
      count := 0;
    }

    method PTurn(pool: Pool) returns (done: bool)
      requires pool.Valid() && prim in pool.prims && this !in pool.repr
      modifies this, pool.repr - {pool.addrs}
      ensures pool.Shape() && pool.Current() && pool.repr == old(pool.repr) && pool.prims == old(pool.prims)
      ensures old(count > 0 || Legal(pool.Model(), SleepOp(prim))) ==> pool.Valid()
      ensures Turns.Turn(count, Some(pool.Model()), done) == Turns.Down(old(count), old(pool.Model()), prim)
    {
      hide Inv, Pool.Shape, Pool.WaitMap, Pool.StatusMap, Pool.Queue;
      if count == 0 {
        pool.ThreadSleep(prim);
        return false;
      }
      assert count > 0;
      count := count - 1;
      Untouched(pool);
      done := true;
    }

    method V(pool: Pool)
      requires pool.Valid() && prim in pool.prims && this !in pool.repr
      modifies this, pool.repr - {pool.addrs}
      ensures pool.Valid() && pool.repr == old(pool.repr) && pool.prims == old(pool.prims)
      ensures count == old(count) + 1 && pool.Model() == Wakeup(old(pool.Model()), prim)
    {
      hide Inv, Pool.Shape, Pool.WaitMap, Pool.StatusMap, Pool.Queue;
      count := count + 1;
      assert count > 0;
      Untouched(pool);
      pool.ThreadWakeup(prim);
    }
  }

  /** How a thread comes to a turn: with a call of a client just received, or from its sleep. */
  datatype Cause = Call(caller: nat) | Woken

  /** The saved callers: a call is saved in the running thread's slot, and a woken thread keeps its own. */
  function Slots(slot: map<Tid, nat>, run: Tid, cause: Cause): map<Tid, nat> {
    match cause
    case Call(caller) => slot[run := caller]
    case Woken => slot
  }

  /** The server's handling of the two calls of the bounded buffer. `slot` has the saved caller of each
      thread, and `waitCount` grows with each return from the sleep. */
  class BoundedBuffer {
    var buffer: int
    var waitCount: int
    var slot: map<Tid, nat>
    const bufferLimit: int
    const producerList: Prim
    const consumerList: Prim

    constructor (limit: int, waits: int, producerList: Prim, consumerList: Prim)
      ensures buffer == 0 && bufferLimit == limit && waitCount == waits && slot == map[]
      ensures this.producerList == producerList && this.consumerList == consumerList
    {
      buffer, bufferLimit, waitCount, slot := 0, limit, waits, map[];
      this.producerList, this.consumerList := producerList, consumerList;
    }

    ghost predicate Usable(pool: Pool)
      reads *
    {
      pool.Valid() && producerList in pool.prims && consumerList in pool.prims && this !in pool.repr
    }

    /** What comes before the buffer is tested. */
    method Enter(pool: Pool, cause: Cause)
      requires Usable(pool)
      modifies this`slot, this`waitCount
      ensures Usable(pool) && pool.Model() == old(pool.Model())
      ensures slot == Slots(old(slot), pool.Model().run, cause)
      ensures waitCount == old(waitCount) + if cause == Woken then 1 else 0
    {
      hide Inv, Pool.Shape, Pool.WaitMap, Pool.StatusMap, Pool.Queue;
      match cause {
        case Call(caller) => slot := slot[pool.tRunning.t.id := caller];
        case Woken => waitCount := waitCount + 1;
      }
      Untouched(pool);
    }

    method ProduceTurn(pool: Pool, cause: Cause) returns (done: bool)
      requires Usable(pool) && buffer <= bufferLimit
      modifies this, pool.repr - {pool.addrs}
      ensures pool.Shape() && pool.Current() && pool.repr == old(pool.repr) && pool.prims == old(pool.prims)
      ensures old(buffer < bufferLimit || Legal(pool.Model(), SleepOp(producerList))) ==> Usable(pool)
      ensures Turns.Turn(buffer, Some(pool.Model()), done) ==
              Turns.Move(old(buffer), bufferLimit, true, old(pool.Model()), producerList, consumerList)
      ensures slot == Slots(old(slot), old(pool.Model()).run, cause)
      ensures waitCount == old(waitCount) + if cause == Woken then 1 else 0
    {
      hide Inv, Pool.Shape, Pool.WaitMap, Pool.StatusMap, Pool.Queue;
      Enter(pool, cause);
      if buffer == bufferLimit {
        pool.ThreadSleep(producerList);
        return false;
      }
      assert buffer < bufferLimit;
      buffer := buffer + 1;
      Untouched(pool);
      pool.ThreadWakeup(consumerList);
      done := true;
    }

    method ConsumeTurn(pool: Pool, cause: Cause) returns (done: bool)
      requires Usable(pool) && buffer >= 0
      modifies this, pool.repr - {pool.addrs}
      ensures pool.Shape() && pool.Current() && pool.repr == old(pool.repr) && pool.prims == old(pool.prims)
      ensures old(buffer > 0 || Legal(pool.Model(), SleepOp(consumerList))) ==> Usable(pool)
      ensures Turns.Turn(buffer, Some(pool.Model()), done) ==
              Turns.Move(old(buffer), bufferLimit, false, old(pool.Model()), consumerList, producerList)
      ensures slot == Slots(old(slot), old(pool.Model()).run, cause)
      ensures waitCount == old(waitCount) + if cause == Woken then 1 else 0
    {
      hide Inv, Pool.Shape, Pool.WaitMap, Pool.StatusMap, Pool.Queue;
      Enter(pool, cause);
      if buffer == 0 {
        pool.ThreadSleep(consumerList);
        return false;
      }
      assert buffer > 0;
      buffer := buffer - 1;
      Untouched(pool);
      pool.ThreadWakeup(producerList);
      done := true;
    }
  }

  /** The server's handling of the ring's calls. */
  class TokenServer {
    var waitCount: int
    var slot: map<Tid, nat>

    constructor ()
      ensures waitCount == 0 && slot == map[]
    {
      waitCount, slot := 0, map[];
    }

    ghost predicate Usable(pool: Pool, want: Lock, provide: Lock)
      reads *
    {
      && pool.Valid() && {want.prim, provide.prim} <= pool.prims
      && want !in pool.repr && provide !in pool.repr && this !in pool.repr
      && (want == provide <==> want.prim == provide.prim)
    }

    method SaveCaller(pool: Pool, caller: nat)
      requires pool.Valid() && this !in pool.repr
      modifies this`slot
      ensures pool.Valid() && pool.Model() == old(pool.Model())
      ensures slot == old(slot)[pool.Model().run := caller]
    {
      hide Inv, Pool.Shape, Pool.WaitMap, Pool.StatusMap, Pool.Queue;
      slot := slot[pool.tRunning.t.id := caller];
      Untouched(pool);
    }

    /** WAIT: the caller is saved and the wanted token tried for. */
    method WaitTurn(pool: Pool, want: Lock, caller: nat) returns (done: bool)
      requires Usable(pool, want, want)
      modifies this, want, pool.repr - {pool.addrs}
      ensures pool.Shape() && pool.Current() && pool.repr == old(pool.repr) && pool.prims == old(pool.prims)
      ensures slot == old(slot)[old(pool.Model()).run := caller] && waitCount == old(waitCount)
      ensures Turns.Turn(want.Value(), Some(pool.Model()), done) ==
              Turns.Acquire(old(want.Value()), old(pool.Model()), want.prim)
    {
      hide Inv, Pool.Shape, Pool.WaitMap, Pool.StatusMap, Pool.Queue;
      SaveCaller(pool, caller);
      done := want.AcquireTurn(pool);
    }

    /** SEND_WAIT: the caller is saved, the provided token released and the wanted one tried for. */
    method SendWaitTurn(pool: Pool, want: Lock, provide: Lock, caller: nat) returns (done: bool)
      requires Usable(pool, want, provide)
      modifies this, want, provide, pool.repr - {pool.addrs}
      ensures pool.Shape() && pool.Current() && pool.repr == old(pool.repr) && pool.prims == old(pool.prims)
      ensures slot == old(slot)[old(pool.Model()).run := caller] && waitCount == old(waitCount) + 1
      ensures want != provide ==> !provide.held && provide.helder == -1
      ensures Turns.Turn(want.Value(), Some(pool.Model()), done) ==
              Turns.SendWait(old(want.Value()), old(pool.Model()), provide.prim, want.prim)
    {
      hide Inv, Pool.Shape, Pool.WaitMap, Pool.StatusMap, Pool.Queue;
      SaveCaller(pool, caller);
      waitCount := waitCount + 1;
      Untouched(pool);
      provide.Release(pool);
      done := want.AcquireTurn(pool);
    }
  }

  // ---------- The protocols take the same turns ----------

  /** The ring, for the token the running thread wants, takes the turn of the lock object. */
  lemma RingTakesTurn(s: Ring.State)
    requires Ring.Core(s) && Ring.Trying(s)
    ensures
      var w := s.pc[s.sched.run].token;
      && w < |s.held| == |s.helder| && w in s.sched.waits
      && var s' := Ring.Acquire(s);
      && w < |s'.held| == |s'.helder|
      && Turns.Acquire(s.Token(w), s.sched, w) == Turns.Turn(s'.Token(w), Some(s'.sched), !s.held[w])
  {
    hide Inv;
    if s.held[s.pc[s.sched.run].token] {
      Ring.NeverSpins(s);
      SleepFrame(s.sched, s.pc[s.sched.run].token);
    }
  }

  lemma RingElsewhere(s: Ring.State)
    requires Ring.Core(s) && Ring.Trying(s)
    ensures
      var w := s.pc[s.sched.run].token;
      var s' := Ring.Acquire(s);
      && |s'.held| == |s.held| && |s'.helder| == |s.helder| && s'.slot == s.slot && s'.waitCount == s.waitCount
      && forall j: nat | j < |s.held| && j < |s.helder| && j != w :: s'.Token(j) == s.Token(j)
  {
    hide Inv;
  }

  /** A SEND_WAIT of the ring is the turn of the server object: caller, count, both tokens and scheduler. */
  lemma RingSendsTurn(s: Ring.State, c: nat)
    requires Ring.Stable(s) && Ring.Enabled(s, Ring.Receive(c)) && s.phase[c].CallSend?
    ensures
      var w := s.Want(c);
      var s' := Ring.Step(s, Ring.Receive(c));
      && w < |s.held| == |s.helder| && c < |s'.held| == |s'.helder| && w < |s'.held|
      && w in s.sched.waits && c in s.sched.waits
      && var t := Turns.SendWait(s.Token(w), s.sched, c, w);
      && t.value == s'.Token(w) && t.sched == Some(s'.sched)
      && (w != c ==> !s'.held[c] && s'.helder[c] == -1)
      && s'.slot == Slots(s.slot, s.sched.run, Call(c)) && s'.waitCount == s.waitCount + 1
  {
    hide Inv, Wakeup, Sleep, Ring.Serving, Ring.Sleeping, Ring.Counters;
    Ring.BegunKeeps(s, Ring.Receive(c));
    var b := Ring.BeginSend(s, c);
    assert Ring.Begun(s, Ring.Receive(c)) == b;
    WakeupFrame(s.sched, c);
    assert b.pc[b.sched.run].token == s.Want(c) && b.held == s.held[c := false] && b.helder == s.helder[c := -1];
    RingTakesTurn(b);
    RingElsewhere(b);
  }

  /** So are the saved callers and the wait count of the buffer's events. */
  lemma BufferSaves(s: Buffer.State, e: Buffer.Event)
    requires Buffer.Core(s) && Buffer.Enabled(s, e) && (e.Receive? ==> !s.phase[e.c].CallExit?)
    ensures
      var s' := Buffer.Step(s, e);
      var cause := if e.Receive? then Call(e.c) else Woken;
      && s'.slot == Slots(s.slot, s.Run(), cause)
      && s'.waitCount == s.waitCount + if cause == Woken then 1 else 0
  {
    hide Inv, Wakeup, Sleep, Buffer.Serving, Buffer.Accounts, Buffer.NothingLost;
  }

  /** The bounded buffer takes the turn of the buffer object. */
  lemma BufferTakesTurn(s: Buffer.State)
    requires Buffer.Core(s) && Buffer.Trying(s)
    ensures
      var kind := s.pc[s.Run()].kind;
      && kind in s.sched.waits && !kind in s.sched.waits
      && var s' := Buffer.TryOnce(s);
      Turns.Move(s.buffer, s.limit, kind, s.sched, kind, !kind) ==
        Turns.Turn(s'.buffer, Some(s'.sched), !Buffer.Blocked(s, kind))
  {
    hide Inv;
    InvFacts(s.sched);
    if s.sched.ready != [] {
      SleepFrame(s.sched, s.pc[s.Run()].kind);
    }
  }
}
