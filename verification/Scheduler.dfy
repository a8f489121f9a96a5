/** The scheduler of the user-level thread library as a state machine over thread ids:
    one running thread, a FIFO ready queue and one FIFO wait queue per synchronisation
    primitive. A C assertion that fails, or a null thread that is dereferenced, is `None`. */
module Scheduler {
  import opened Sequences

  datatype Option<+T> = None | Some(value: T)

  datatype Status = Running | Ready | Waiting

  type Tid = nat

  /** The boot thread: it is never queued. */
  const BOOT: Tid := 0

  const MAX_CAPACITY := 2000

  /** `run` is the id behind `t_running` and `cur` is `co_current_id`. `status` has a key for
      every thread in the table. `woken` is a history variable: how many threads
      `Wakeup` has moved to the ready queue. */
  datatype Sched<P> = Sched(
    run: Tid,
    cur: Tid,
    ready: seq<Tid>,
    waits: map<P, seq<Tid>>,
    status: map<Tid, Status>,
    newId: nat,
    num: int,
    readyNum: int,
    waitingNum: int,
    woken: nat)

  // ---------- Operations ----------

  function Initial<P>(): Sched<P> {
    Sched(BOOT, BOOT, [], map[], map[BOOT := Running], 1, 1, 0, 0, 0)
  }

  /** Initialising a primitive empties its wait queue. */
  function NewPrim<P>(s: Sched<P>, p: P): Sched<P> {
    s.(waits := s.waits[p := []])
  }

  /** Destroying a primitive takes its wait queue away. */
  function DropPrim<P>(s: Sched<P>, p: P): Sched<P> {
    s.(waits := s.waits - {p})
  }

  function RunningToReady<P>(s: Sched<P>, t: Tid): Sched<P> {
    s.(status := s.status[t := Ready], ready := s.ready + [t], readyNum := s.readyNum + 1)
  }

  function RunningToLockWaiting<P>(s: Sched<P>, p: P): Sched<P>
    requires p in s.waits
  {
    s.(status := s.status[s.run := Waiting],
       waits := s.waits[p := s.waits[p] + [s.run]],
       waitingNum := s.waitingNum + 1)
  }

  /** The library's `ready_to_running`: the target is taken out of the ready queue wherever it is. */
  function ReadyToRunning<P>(s: Sched<P>, t: Tid): Option<Sched<P>> {
    if s.readyNum <= 0 || t !in s.ready then None
    else Some(s.(status := s.status[t := Running], run := t,
                 ready := Without(s.ready, t), readyNum := s.readyNum - 1))
  }

  function Sleep<P>(s: Sched<P>, p: P): Option<Sched<P>>
    requires p in s.waits
  {
    if s.readyNum == 0 then Some(s)
    else if s.ready == [] then None
    else
      var s1 := RunningToLockWaiting(s, p);
      var next := s1.ready[0];
      Some(s1.(ready := s1.ready[1..], status := s1.status[next := Running],
               run := next, readyNum := s1.readyNum - 1, cur := next))
  }

  function Wakeup<P>(s: Sched<P>, p: P): Sched<P>
    requires p in s.waits
  {
    if s.waits[p] == [] then s
    else
      var t := s.waits[p][0];
      RunningToReady(s.(waits := s.waits[p := s.waits[p][1..]], woken := s.woken + 1), t)
  }

  /** The running thread joins the tail of `p`'s queue and the waiter `t` runs in its place. */
  function ChangePlaces<P>(s: Sched<P>, p: P, t: Tid): Option<Sched<P>>
    requires p in s.waits
  {
    var s1 := RunningToLockWaiting(s, p);
    if s1.waitingNum <= 0 then None
    else Some(s1.(status := s1.status[t := Running], run := t,
                  waitingNum := s1.waitingNum - 1, cur := t))
  }

  function WakeupWait<P>(s: Sched<P>, p: P): Option<Sched<P>>
    requires p in s.waits
  {
    if s.waits[p] == [] then Some(s)
    else ChangePlaces(s.(waits := s.waits[p := s.waits[p][1..]]), p, s.waits[p][0])
  }

  function Create<P>(s: Sched<P>): Option<Sched<P>> {
    if s.newId >= MAX_CAPACITY then None
    else Some(s.(newId := s.newId + 1, status := s.status[s.newId := Ready],
                 num := s.num + 1, readyNum := s.readyNum + 1, ready := s.ready + [s.newId]))
  }

  function Resume<P>(s: Sched<P>, t: Tid): Option<Sched<P>> {
    if s.run == t || t !in s.status then None
    else
      var s1 := if s.run != BOOT then RunningToReady(s, s.run) else s.(status := s.status[BOOT := Ready]);
      var s2 := s1.(cur := t);
      if t != BOOT then ReadyToRunning(s2, t) else Some(s2.(status := s2.status[BOOT := Running]))
  }

  function Yield<P>(s: Sched<P>): Option<Sched<P>> {
    if s.readyNum == 0 then Resume(s, BOOT)
    else if s.ready == [] then None
    else Resume(s, s.ready[0])
  }

  function Exit<P>(s: Sched<P>): Option<Sched<P>> {
    if s.cur !in s.status then None
    else
      var s1 := s.(status := s.status - {s.cur}, num := s.num - 1);
      if s.readyNum != 0 then
        if s.ready == [] || s.ready[0] !in s1.status then None
        else ReadyToRunning(s1.(cur := s.ready[0]), s.ready[0])
      else if BOOT !in s1.status then None
      else Some(s1.(cur := BOOT, status := s1.status[BOOT := Running]))
  }

  datatype Op<P(==)> =
    | NewPrimOp(p: P)
    | CreateOp
    | SleepOp(p: P)
    | WakeupOp(p: P)
    | WakeupWaitOp(p: P)
    | YieldOp
    | ResumeOp(t: Tid)
    | ExitOp
  {
    predicate On(s: Sched<P>) {
      SleepOp? || WakeupOp? || WakeupWaitOp? ==> p in s.waits
    }
  }

  function Apply<P>(s: Sched<P>, op: Op<P>): Option<Sched<P>>
    requires op.On(s)
  {
    match op
    case NewPrimOp(p) => Some(NewPrim(s, p))
    case CreateOp => Create(s)
    case SleepOp(p) => Sleep(s, p)
    case WakeupOp(p) => Some(Wakeup(s, p))
    case WakeupWaitOp(p) => WakeupWait(s, p)
    case YieldOp => Yield(s)
    case ResumeOp(t) => Resume(s, t)
    case ExitOp => Exit(s)
  }

  // ---------- The invariant ----------

  /** No thread stands twice in a queue or in two wait queues, and the boot thread stands in none. */
  ghost predicate Queues<P>(s: Sched<P>) {
    && NoDup(s.ready)
    && (forall p | p in s.waits :: NoDup(s.waits[p]))
    && (forall p, q, t | p in s.waits && q in s.waits && t in s.waits[p] && t in s.waits[q] :: p == q)
    && (forall t | t in s.ready :: t in s.status && t != BOOT)
    && (forall p, t | p in s.waits && t in s.waits[p] :: t in s.status && t != BOOT)
  }

  /** The status of a thread says in which of the three places it is. */
  ghost predicate Statuses<P>(s: Sched<P>) {
    forall t | t in s.status && t != BOOT ::
      && (s.status[t] == Running <==> t == s.run)
      && (s.status[t] == Ready <==> t in s.ready)
      && (s.status[t] == Waiting <==> exists p | p in s.waits :: t in s.waits[p])
  }

  /** Every live thread other than the boot thread is in exactly one place, and its status agrees. */
  ghost predicate Partition<P>(s: Sched<P>) {
    Queues(s) && Statuses(s)
  }

  ghost predicate Inv<P>(s: Sched<P>) {
    && Partition(s)
    && s.cur == s.run && s.run in s.status && BOOT in s.status
    && (forall t | t in s.status :: t < s.newId)
    && s.num == |s.status|
    && s.readyNum == |s.ready|
    && s.waitingNum == TotalLength(s.waits) + s.woken
  }

  /** What a caller must check first. Each condition is the guard of a branch of the code. */
  predicate Legal<P>(s: Sched<P>, op: Op<P>)
    requires op.On(s)
  {
    match op
    case NewPrimOp(p) => p in s.waits ==> s.waits[p] == []
    case CreateOp => s.newId < MAX_CAPACITY
    case SleepOp(_) => s.run != BOOT || s.ready == []
    case WakeupOp(_) => true
    case WakeupWaitOp(p) => s.run != BOOT || s.waits[p] == []
    case YieldOp => s.ready != []
    case ResumeOp(t) => t in s.ready
    case ExitOp => s.run != BOOT && s.ready != []
  }

  ghost predicate Keeps<P>(s: Sched<P>, op: Op<P>)
    requires op.On(s)
  {
    Apply(s, op).Some? && Inv(Apply(s, op).value)
  }

  // ---------- Each operation keeps the invariant exactly when it is legal ----------

  lemma Queued<P>(s: Sched<P>, t: Tid, p: P)
    requires Inv(s) && p in s.waits && t in s.waits[p]
    ensures t in s.status && t != BOOT && t != s.run && t !in s.ready && s.status[t] == Waiting
  {
  }

  /** What the invariant says about the scheduler's registers. */
  lemma InvFacts<P>(s: Sched<P>)
    requires Inv(s)
    ensures NoDup(s.ready) && s.readyNum == |s.ready| && s.cur == s.run && s.run !in s.ready
    ensures forall p | p in s.waits :: s.run !in s.waits[p] && NoDup(s.waits[p])
    ensures s.waitingNum >= 0
    ensures forall t | t in s.ready :: t in s.status && t != BOOT
    ensures BOOT in s.status && s.run in s.status && forall t | t in s.status :: t < s.newId
  {
  }

  /** A live thread that neither runs nor is ready waits on some primitive. */
  lemma Parked<P>(s: Sched<P>, t: Tid) returns (p: P)
    requires Inv(s) && t in s.status && t != BOOT && t != s.run && t !in s.ready
    ensures p in s.waits && t in s.waits[p]
  {
    p :| p in s.waits && t in s.waits[p];
  }

  lemma InitialInv<P>()
    ensures Inv(Initial<P>())
  {
  }

  lemma NewPrimExactly<P>(s: Sched<P>, p: P)
    requires Inv(s)
    ensures Legal(s, NewPrimOp(p)) <==> Inv(NewPrim(s, p))
  {
    var s' := NewPrim(s, p);
    if p !in s.waits {
      TotalLengthInsert(s.waits, p);
      forall t | t in s.status && t != BOOT && s.status[t] == Waiting
        ensures exists q | q in s'.waits :: t in s'.waits[q]
      {
        var q :| q in s.waits && t in s.waits[q];
        assert t in s'.waits[q];
      }
    } else if s.waits[p] == [] {
      assert s' == s;
    } else {
      var t := s.waits[p][0];
      assert t in s.waits[p];
      Queued(s, t, p);
      assert forall q | q in s'.waits :: t !in s'.waits[q];
    }
  }

  /** The library asserts that nobody waits on what it destroys, and that is exactly what is needed. */
  lemma DropPrimExactly<P>(s: Sched<P>, p: P)
    requires Inv(s) && p in s.waits
    ensures s.waits[p] == [] <==> Inv(DropPrim(s, p))
  {
    var s' := DropPrim(s, p);
    TotalLengthPick(s.waits, p);
    if s.waits[p] == [] {
      forall t | t in s.status && t != BOOT && s.status[t] == Waiting
        ensures exists q | q in s'.waits :: t in s'.waits[q]
      {
        var q :| q in s.waits && t in s.waits[q];
        assert t in s'.waits[q];
      }
    }
  }

  lemma CreateStatuses<P>(s: Sched<P>)
    requires Inv(s) && s.newId < MAX_CAPACITY
    ensures Statuses(Create(s).value)
  {
    hide NoDup, TotalLength;
    AppendProperties(s.ready, s.newId);
    assert s.newId !in s.status && forall p | p in s.waits :: s.newId !in s.waits[p];
  }

  lemma CreateKeeps<P>(s: Sched<P>)
    requires Inv(s) && s.newId < MAX_CAPACITY
    ensures Inv(Create(s).value)
  {
    hide Statuses, NoDup, TotalLength;
    CreateStatuses(s);
    AppendProperties(s.ready, s.newId);
    assert Create(s).value.status.Keys == s.status.Keys + {s.newId};
  }

  lemma SleepQueues<P>(s: Sched<P>, s': Sched<P>, p: P)
    requires Inv(s) && p in s.waits && s.ready != [] && s.run != BOOT
    requires s'.run == s.ready[0] && s'.ready == s.ready[1..]
    requires s'.waits == s.waits[p := s.waits[p] + [s.run]]
    requires s'.status == s.status[s.run := Waiting][s'.run := Running]
    ensures Queues(s')
  {
    AppendProperties(s.waits[p], s.run);
    TailProperties(s.ready);
  }

  lemma SleepStatuses<P>(s: Sched<P>, s': Sched<P>, p: P)
    requires Inv(s) && p in s.waits && s.ready != [] && s.run != BOOT
    requires s'.run == s.ready[0] && s'.ready == s.ready[1..]
    requires s'.waits == s.waits[p := s.waits[p] + [s.run]]
    requires s'.status == s.status[s.run := Waiting][s'.run := Running]
    ensures Statuses(s')
  {
    assert s'.run in s.ready;
    TailProperties(s.ready);
    StillWaiting(s, s', p, s.run);
    assert s.run in s'.waits[p];
  }

  lemma SleepKeeps<P>(s: Sched<P>, p: P)
    requires Inv(s) && p in s.waits && s.ready != [] && s.run != BOOT
    ensures Sleep(s, p).Some? && Inv(Sleep(s, p).value)
  {
    var s' := Sleep(s, p).value;
    TotalLengthUpdate(s.waits, p, s.waits[p] + [s.run]);
    assert s'.status.Keys == s.status.Keys;
    SleepQueues(s, s', p);
    SleepStatuses(s, s', p);
  }

  lemma WakeupQueues<P>(s: Sched<P>, p: P)
    requires Inv(s) && p in s.waits && s.waits[p] != []
    ensures Queues(Wakeup(s, p))
  {
    Queued(s, s.waits[p][0], p);
    TailProperties(s.waits[p]);
    AppendProperties(s.ready, s.waits[p][0]);
  }

  lemma WakeupStatuses<P>(s: Sched<P>, p: P)
    requires Inv(s) && p in s.waits && s.waits[p] != []
    ensures Statuses(Wakeup(s, p))
  {
    Queued(s, s.waits[p][0], p);
    TailProperties(s.waits[p]);
    StillWaiting(s, Wakeup(s, p), p, s.waits[p][0]);
  }

  lemma WakeupKeeps<P>(s: Sched<P>, p: P)
    requires Inv(s) && p in s.waits
    ensures Inv(Wakeup(s, p))
  {
    if s.waits[p] != [] {
      Queued(s, s.waits[p][0], p);
      TotalLengthUpdate(s.waits, p, s.waits[p][1..]);
      assert Wakeup(s, p).status.Keys == s.status.Keys;
      WakeupQueues(s, p);
      WakeupStatuses(s, p);
    }
  }

  /** Taking `t` off the queue of `p` leaves every other waiting thread on a queue. */
  lemma StillWaiting<P>(s: Sched<P>, s': Sched<P>, p: P, t: Tid)
    requires Inv(s) && p in s.waits && s'.waits.Keys == s.waits.Keys
    requires forall q | q in s.waits && q != p :: s'.waits[q] == s.waits[q]
    requires forall x | x in s.waits[p] && x != t :: x in s'.waits[p]
    ensures forall x | x in s.status && x != BOOT && x != t && s.status[x] == Waiting ::
              exists q | q in s'.waits :: x in s'.waits[q]
  {
    forall x | x in s.status && x != BOOT && x != t && s.status[x] == Waiting
      ensures exists q | q in s'.waits :: x in s'.waits[q]
    {
      var q :| q in s.waits && x in s.waits[q];
      assert x in s'.waits[q];
    }
  }

  lemma WakeupWaitQueues<P>(s: Sched<P>, s': Sched<P>, p: P)
    requires Inv(s) && p in s.waits && s.waits[p] != [] && s.run != BOOT
    requires s'.run == s.waits[p][0] && s'.ready == s.ready
    requires s'.waits == s.waits[p := s.waits[p][1..] + [s.run]]
    requires s'.status == s.status[s.run := Waiting][s'.run := Running]
    ensures Queues(s')
  {
    TailProperties(s.waits[p]);
    AppendProperties(s.waits[p][1..], s.run);
  }

  lemma WakeupWaitStatuses<P>(s: Sched<P>, s': Sched<P>, p: P)
    requires Inv(s) && p in s.waits && s.waits[p] != [] && s.run != BOOT
    requires s'.run == s.waits[p][0] && s'.ready == s.ready
    requires s'.waits == s.waits[p := s.waits[p][1..] + [s.run]]
    requires s'.status == s.status[s.run := Waiting][s'.run := Running]
    ensures Statuses(s')
  {
    Queued(s, s'.run, p);
    TailProperties(s.waits[p]);
    StillWaiting(s, s', p, s'.run);
    assert s.run in s'.waits[p];
    forall q, x | q in s.waits && x in s'.waits[q]
      ensures x != s'.run && if x == s.run then q == p else x in s.waits[q]
    {
    }
  }

  lemma WakeupWaitKeeps<P>(s: Sched<P>, p: P)
    requires Inv(s) && p in s.waits && (s.run != BOOT || s.waits[p] == [])
    ensures WakeupWait(s, p).Some? && Inv(WakeupWait(s, p).value)
  {
    if s.waits[p] != [] {
      var queue := s.waits[p][1..] + [s.run];
      TotalLengthUpdate(s.waits, p, queue);
      var s' := WakeupWait(s, p).value;
      assert s'.waits == s.waits[p := queue];
      Queued(s, s.waits[p][0], p);
      assert s'.status.Keys == s.status.Keys;
      WakeupWaitQueues(s, s', p);
      WakeupWaitStatuses(s, s', p);
    }
  }

  lemma ResumeKeeps<P>(s: Sched<P>, t: Tid)
    requires Inv(s) && t in s.ready
    ensures Resume(s, t).Some? && Inv(Resume(s, t).value)
  {
    var queue := if s.run == BOOT then s.ready else s.ready + [s.run];
    WithoutProperties(queue, t);
    var s' := Resume(s, t).value;
    assert s'.ready == Without(queue, t);
    assert s'.status.Keys == s.status.Keys;
  }

  lemma ExitKeeps<P>(s: Sched<P>)
    requires Inv(s) && s.run != BOOT && s.ready != []
    ensures Exit(s).Some? && Inv(Exit(s).value)
  {
    var s' := Exit(s).value;
    assert s'.ready == s.ready[1..];
    assert s'.status.Keys == s.status.Keys - {s.run};
  }

  /** Safety of one step, in both directions: under the invariant an operation runs without a
      failing assertion and leaves the invariant intact if and only if its guard holds. */
  lemma LegalExactly<P>(s: Sched<P>, op: Op<P>)
    requires Inv(s) && op.On(s)
    ensures Legal(s, op) <==> Keeps(s, op)
  {
    match op
    case NewPrimOp(p) => NewPrimExactly(s, p);
    case CreateOp => if Legal(s, op) { CreateKeeps(s); }
    case SleepOp(p) => SleepExactly(s, p);
    case WakeupOp(p) => WakeupKeeps(s, p);
    case WakeupWaitOp(p) => WakeupWaitExactly(s, p);
    case YieldOp =>
      if s.ready == [] { ResumeExactly(s, BOOT); } else { ResumeKeeps(s, s.ready[0]); }
    case ResumeOp(t) => ResumeExactly(s, t);
    case ExitOp => ExitExactly(s);
  }

  lemma BootNeverQueued<P>(s: Sched<P>, p: P)
    requires p in s.waits && BOOT in s.waits[p]
    ensures !Inv(s)
  {
  }

  lemma SleepExactly<P>(s: Sched<P>, p: P)
    requires Inv(s) && p in s.waits
    ensures Legal(s, SleepOp(p)) <==> Keeps(s, SleepOp(p))
  {
    hide Inv;
    InvFacts(s);
    if s.ready != [] {
      if s.run != BOOT {
        SleepKeeps(s, p);
      } else {
        BootNeverQueued(Sleep(s, p).value, p);
      }
    }
  }

  lemma WakeupWaitExactly<P>(s: Sched<P>, p: P)
    requires Inv(s) && p in s.waits
    ensures Legal(s, WakeupWaitOp(p)) <==> Keeps(s, WakeupWaitOp(p))
  {
    hide Inv;
    InvFacts(s);
    if s.run != BOOT || s.waits[p] == [] {
      WakeupWaitKeeps(s, p);
    } else if WakeupWait(s, p).Some? {
      BootNeverQueued(WakeupWait(s, p).value, p);
    }
  }

  lemma ResumeExactly<P>(s: Sched<P>, t: Tid)
    requires Inv(s)
    ensures t in s.ready <==> Resume(s, t).Some? && Inv(Resume(s, t).value)
  {
    if t in s.ready {
      ResumeKeeps(s, t);
    } else if Resume(s, t).Some? {
      assert t == BOOT;
      assert s.run in Resume(s, t).value.ready;
    }
  }

  lemma ExitExactly<P>(s: Sched<P>)
    requires Inv(s)
    ensures Legal(s, ExitOp) <==> Exit(s).Some? && Inv(Exit(s).value)
  {
    if Legal(s, ExitOp) {
      ExitKeeps(s);
    }
  }

  /** What the unguarded exit leads to: with nothing ready the last thread hands over to the boot
      thread but stays `t_running`, so when the boot thread next creates and resumes a thread, the
      exited thread is put back into the ready queue. */
  lemma BootResumeRequeuesExited<P>(s: Sched<P>)
    requires Inv(s) && s.run != BOOT && s.ready == [] && s.newId < MAX_CAPACITY
    ensures Exit(s).Some? && Create(Exit(s).value).Some?
    ensures
      var r := Resume(Create(Exit(s).value).value, s.newId);
      s.run !in Exit(s).value.status && r.Some? && r.value.ready == [s.run]
  {
    InvFacts(s);
    var s1 := Exit(s).value;
    var s2 := Create(s1).value;
    assert s2.ready == [s.newId];
    assert s2.ready + [s.run] == [s.newId, s.run];
    assert Without(s2.ready + [s.run], s.newId) == [s.run];
  }

  /** What the unguarded sleep of the boot thread leads to: dispatched again from the ready queue, the boot
      thread is the running link when nobody is ready, and its yield, with which it waits for a thread it
      joins, hands over to itself, on which an assertion fails. */
  lemma BootSleepStrands<P>(p: P)
    ensures
      var s1 := Create(NewPrim(Initial(), p)).value;
      var s2 := Sleep(s1, p).value;
      var s3 := Wakeup(s2, p);
      var s4 := Sleep(s3, p).value;
      && s1.run == BOOT && s2.run == 1 && s3.ready == [BOOT]
      && s4.run == BOOT && s4.ready == [] && s4.waits[p] == [1] && s4.status[1] == Waiting && Yield(s4) == None
  {
    var s1 := Create(NewPrim(Initial(), p)).value;
    assert s1.ready == [1];
    var s2 := Sleep(s1, p).value;
    assert s2.ready == [] && s2.waits[p] == [BOOT];
    var s3 := Wakeup(s2, p);
    assert s3.ready == [BOOT] && s3.waits[p] == [];
    var s4 := Sleep(s3, p).value;
    assert s4.waits[p] == [1];
  }

  // ---------- What each operation leaves alone ----------

  lemma WakeupFrame<P>(s: Sched<P>, p: P)
    requires Inv(s) && p in s.waits
    ensures var s' := Wakeup(s, p);
      && Inv(s') && s'.run == s.run && s'.waits.Keys == s.waits.Keys && s'.status.Keys == s.status.Keys
      && (forall q | q in s.waits && q != p :: s'.waits[q] == s.waits[q])
      && s'.waits[p] == (if s.waits[p] == [] then [] else s.waits[p][1..])
      && s'.ready == s.ready + (if s.waits[p] == [] then [] else s.waits[p][..1])
  {
    WakeupKeeps(s, p);
    if s.waits[p] != [] {
      assert s.waits[p][0] in s.waits[p];
      assert s.waits[p][0] in s.status;
    }
  }

  lemma SleepFrame<P>(s: Sched<P>, p: P)
    requires Inv(s) && p in s.waits && s.ready != [] && s.run != BOOT
    ensures Sleep(s, p).Some?
    ensures var s' := Sleep(s, p).value;
      && Inv(s') && s'.run == s.ready[0] && s'.ready == s.ready[1..] && s'.run != BOOT
      && s'.waits == s.waits[p := s.waits[p] + [s.run]] && s'.status.Keys == s.status.Keys
  {
    SleepKeeps(s, p);
    assert s.ready[0] in s.ready;
  }

  lemma ResumeFrame<P>(s: Sched<P>, t: Tid)
    requires Inv(s) && t in s.ready
    ensures Resume(s, t).Some?
    ensures var s' := Resume(s, t).value;
      && Inv(s') && s'.run == t != BOOT && s'.waits == s.waits && s'.status.Keys == s.status.Keys
  {
    ResumeKeeps(s, t);
  }

  /** A resume takes the target out from wherever it stands and puts the caller behind everybody else;
      the boot thread is set aside instead. */
  lemma ResumeOrder<P>(s: Sched<P>, i: nat)
    requires Inv(s) && i < |s.ready|
    ensures Resume(s, s.ready[i]).Some?
    ensures Resume(s, s.ready[i]).value.ready ==
            s.ready[..i] + s.ready[i + 1..] + if s.run == BOOT then [] else [s.run]
  {
    hide Inv, Without;
    var t := s.ready[i];
    assert t in s.ready;
    InvFacts(s);
    var queue := if s.run == BOOT then s.ready else s.ready + [s.run];
    assert t in queue;
    assert Resume(s, t).Some? && Resume(s, t).value.ready == Without(queue, t);
    hide Resume;
    assert queue[i] == t;
    WithoutAt(queue, i);
    assert queue[..i] + queue[i + 1..] == s.ready[..i] + s.ready[i + 1..] + if s.run == BOOT then [] else [s.run];
  }

  /** The longest waiter runs in the caller's place, and the caller goes to the tail of its queue. */
  lemma WakeupWaitFrame<P>(s: Sched<P>, p: P)
    requires Inv(s) && p in s.waits && s.waits[p] != [] && s.run != BOOT
    ensures WakeupWait(s, p).Some?
    ensures var s' := WakeupWait(s, p).value;
      && Inv(s') && s'.run == s.waits[p][0] && s'.ready == s.ready
      && s'.waits == s.waits[p := s.waits[p][1..] + [s.run]] && s'.status.Keys == s.status.Keys
  {
    hide Inv;
    WakeupWaitExactly(s, p);
    InvFacts(s);
    WaiterKnown(s, p);
  }

  lemma WaiterKnown<P>(s: Sched<P>, p: P)
    requires Inv(s) && p in s.waits && s.waits[p] != []
    ensures s.waits[p][0] in s.status
  {
    assert s.waits[p][0] in s.waits[p];
  }

  lemma ExitFrame<P>(s: Sched<P>)
    requires Inv(s) && s.run != BOOT && s.ready != []
    ensures Exit(s).Some?
    ensures var s' := Exit(s).value;
      && Inv(s') && s'.run == s.ready[0] != BOOT && s'.ready == s.ready[1..]
      && s'.waits == s.waits && s'.status.Keys == s.status.Keys - {s.run}
  {
    ExitKeeps(s);
    assert s.ready[0] in s.ready;
  }

  lemma CreateFrame<P>(s: Sched<P>)
    requires Inv(s) && s.newId < MAX_CAPACITY
    ensures Create(s).Some?
    ensures var s' := Create(s).value;
      && Inv(s') && s'.run == s.run && s'.ready == s.ready + [s.newId] && s'.waits == s.waits
      && s.newId !in s.status && s'.status.Keys == s.status.Keys + {s.newId} && s.newId != BOOT
  {
    CreateKeeps(s);
  }

  /** An operation that parks the running thread, and one that makes a waiter ready. */
  predicate Parks<P>(s: Sched<P>, op: Op<P>) {
    op.SleepOp? && s.ready != []
  }

  predicate Wakes<P>(s: Sched<P>, op: Op<P>)
    requires op.On(s)
  {
    op.WakeupOp? && s.waits[op.p] != []
  }

  /** The counters, and the boot thread: its status changes only when it hands over. */
  lemma StepRegisters<P>(s: Sched<P>, op: Op<P>)
    requires Inv(s) && op.On(s) && Legal(s, op) && Apply(s, op).Some?
    ensures var s' := Apply(s, op).value;
      && s'.waitingNum == s.waitingNum + (if Parks(s, op) then 1 else 0)
      && s'.woken == s.woken + (if Wakes(s, op) then 1 else 0)
      && s'.newId == s.newId + (if op.CreateOp? then 1 else 0)
      && BOOT in s.status && BOOT in s'.status
      && s'.status[BOOT] == if s.run == BOOT != s'.run then Ready else s.status[BOOT]
  {
    match op
    case WakeupOp(p) => if s.waits[p] != [] { Queued(s, s.waits[p][0], p); }
    case WakeupWaitOp(p) => if s.waits[p] != [] { Queued(s, s.waits[p][0], p); }
    case YieldOp => InvFacts(s); assert s.ready[0] in s.ready;
    case SleepOp(_) => if s.ready != [] { assert s.ready[0] in s.ready; }
    case ExitOp => assert s.ready[0] in s.ready;
    case _ =>
  }

  // ---------- Whole runs ----------

  ghost predicate LegalRun<P>(s: Sched<P>, ops: seq<Op<P>>)
    decreases |ops|
  {
    ops == [] ||
    (ops[0].On(s) && Legal(s, ops[0]) && Apply(s, ops[0]).Some? && LegalRun(Apply(s, ops[0]).value, ops[1..]))
  }

  ghost function After<P>(s: Sched<P>, ops: seq<Op<P>>): Sched<P>
    requires LegalRun(s, ops)
    decreases |ops|
  {
    if ops == [] then s else After(Apply(s, ops[0]).value, ops[1..])
  }

  /** The guarded run `ops` leads from `s` to `s'`. */
  ghost predicate Runs<P>(s: Sched<P>, ops: seq<Op<P>>, s': Sched<P>) {
    LegalRun(s, ops) && After(s, ops) == s'
  }

  lemma RunsNone<P>(s: Sched<P>)
    ensures Runs(s, [], s)
  {
  }

  lemma RunsOne<P>(s: Sched<P>, op: Op<P>)
    requires Inv(s) && op.On(s) && Legal(s, op)
    ensures Apply(s, op).Some? && Runs(s, [op], Apply(s, op).value)
  {
    LegalExactly(s, op);
    hide Inv, Apply, Legal;
    var s' := Apply(s, op).value;
    assert [op][1..] == [] && LegalRun(s', []) && After(s', []) == s';
  }

  lemma RunsThen<P>(s: Sched<P>, op: Op<P>, ops: seq<Op<P>>, s': Sched<P>)
    requires Inv(s) && op.On(s) && Legal(s, op) && Apply(s, op).Some? && Runs(Apply(s, op).value, ops, s')
    ensures Runs(s, [op] + ops, s')
  {
    hide Inv, Apply, Legal;
    assert ([op] + ops)[1..] == ops;
  }

  lemma {:induction false} RunKeepsInv<P>(s: Sched<P>, ops: seq<Op<P>>)
    requires Inv(s) && LegalRun(s, ops)
    ensures Inv(After(s, ops))
    decreases |ops|
  {
    if ops != [] {
      LegalExactly(s, ops[0]);
      RunKeepsInv(Apply(s, ops[0]).value, ops[1..]);
    }
  }

  ghost function ParksIn<P>(s: Sched<P>, ops: seq<Op<P>>): nat
    requires LegalRun(s, ops)
    decreases |ops|
  {
    if ops == [] then 0
    else (if Parks(s, ops[0]) then 1 else 0) + ParksIn(Apply(s, ops[0]).value, ops[1..])
  }

  ghost function WakesIn<P>(s: Sched<P>, ops: seq<Op<P>>): nat
    requires LegalRun(s, ops)
    decreases |ops|
  {
    if ops == [] then 0
    else (if Wakes(s, ops[0]) then 1 else 0) + WakesIn(Apply(s, ops[0]).value, ops[1..])
  }

  /** Over any run the waiting counter grows by the sleeps that found somebody ready and never falls, though
      wake-ups make the queues shorter again. */
  lemma {:induction false} CountersOverRuns<P>(s: Sched<P>, ops: seq<Op<P>>)
    requires Inv(s) && LegalRun(s, ops)
    ensures
      var s' := After(s, ops);
      && s'.waitingNum == s.waitingNum + ParksIn(s, ops)
      && s'.woken == s.woken + WakesIn(s, ops)
      && TotalLength(s'.waits) == TotalLength(s.waits) + ParksIn(s, ops) - WakesIn(s, ops)
    decreases |ops|
  {
    RunKeepsInv(s, ops);
    if ops != [] {
      LegalExactly(s, ops[0]);
      StepRegisters(s, ops[0]);
      hide Inv;
      CountersOverRuns(Apply(s, ops[0]).value, ops[1..]);
    }
  }

  /** Does this step dispatch the head of the ready queue? */
  predicate HeadDispatch<P>(s: Sched<P>, op: Op<P>) {
    op.YieldOp? || op.ExitOp? || (op.SleepOp? && s.ready != [])
  }

  /** One step: a queued thread that is not dispatched moves up one place on a head dispatch, and
      never moves back. `k'` is its new place. */
  lemma StepTowardsHead<P>(s: Sched<P>, op: Op<P>, k: nat) returns (k': nat)
    requires Inv(s) && op.On(s) && Legal(s, op) && Apply(s, op).Some? && k < |s.ready|
    requires Apply(s, op).value.run != s.ready[k]
    ensures k' < |Apply(s, op).value.ready| && Apply(s, op).value.ready[k'] == s.ready[k]
    ensures k' <= k && (HeadDispatch(s, op) ==> k' == k - 1)
  {
    match op
    case ResumeOp(t) => k' := ResumeTowardsHead(s, t, k);
    case YieldOp => k' := ResumeTowardsHead(s, s.ready[0], k);
    case SleepOp(p) => k' := k - 1;
    case ExitOp => k' := k - 1;
    case _ => k' := k;
  }

  lemma ResumeTowardsHead<P>(s: Sched<P>, t: Tid, k: nat) returns (k': nat)
    requires Inv(s) && t in s.ready && Resume(s, t).Some? && k < |s.ready| && s.ready[k] != t
    ensures k' < |Resume(s, t).value.ready| && Resume(s, t).value.ready[k'] == s.ready[k]
    ensures k' <= k && (t == s.ready[0] ==> k' == k - 1)
  {
    hide Inv, Resume;
    InvFacts(s);
    var i :| 0 <= i < |s.ready| && s.ready[i] == t;
    ResumeOrder(s, i);
    k' := if k < i then k else k - 1;
  }

  ghost function HeadDispatches<P>(s: Sched<P>, ops: seq<Op<P>>): nat
    requires LegalRun(s, ops)
    decreases |ops|
  {
    if ops == [] then 0
    else (if HeadDispatch(s, ops[0]) then 1 else 0) + HeadDispatches(Apply(s, ops[0]).value, ops[1..])
  }

  /** Bounded bypass over any run: the thread at place `k` of the ready queue is dispatched before
      the head has been dispatched `k + 1` times, whatever else is resumed, woken or created. */
  lemma {:induction false} BoundedBypass<P>(s: Sched<P>, ops: seq<Op<P>>, k: nat) returns (n: nat)
    requires Inv(s) && LegalRun(s, ops) && k < |s.ready| && HeadDispatches(s, ops) > k
    ensures 0 < n <= |ops| && LegalRun(s, ops[..n]) && After(s, ops[..n]).run == s.ready[k]
    ensures HeadDispatches(s, ops[..n]) <= k + 1
    decreases |ops|
  {
    var s' := Apply(s, ops[0]).value;
    LegalExactly(s, ops[0]);
    if s'.run == s.ready[k] {
      n := 1;
      assert ops[..1] == [ops[0]];
    } else {
      var k' := StepTowardsHead(s, ops[0], k);
      var m := BoundedBypass(s', ops[1..], k');
      n := m + 1;
      assert ops[..n][0] == ops[0] && ops[..n][1..] == ops[1..][..m];
    }
  }
}
