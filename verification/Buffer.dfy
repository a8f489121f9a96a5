/** The bounded buffer: producer and consumer clients, one server thread per client. A thread runs
    until it sleeps on a full or an empty buffer, so one step serves one call, or finishes one that
    slept, or ends the thread that receives a client's last call. */
module Buffer {
  import opened Sequences
  import opened Scheduler
  import opened Counting
  import opened Boot
  import Turns

  /** The two wait queues: `true` is the list of producers, `false` that of consumers. */
  type Kind = bool

  datatype Pc = AtReceive | Looping(kind: Kind)

  /** `k` is the client's own loop counter; `server`, a history variable, is the thread that
      received the call. */
  datatype Phase =
    | Calling(k: nat)
    | InCall(k: nat, server: Tid)
    | CallExit
    | Done

  /** `produced` and `consumed` are history variables. `slot` holds each thread's saved caller. */
  datatype State = State(
    limit: nat,
    rounds: nat,
    kinds: seq<Kind>,
    sched: Sched<Kind>,
    buffer: int,
    pc: map<Tid, Pc>,
    slot: map<Tid, nat>,
    phase: seq<Phase>,
    waitCount: int,
    produced: int,
    consumed: int)
  {
    function N(): nat { |phase| }

    function Run(): Tid { sched.run }
  }

  // ---------- Steps ----------

  /** The guard of the wait loop. */
  predicate Blocked(s: State, kind: Kind) {
    Turns.Stopped(s.buffer, s.limit, kind)
  }

  function Next(s: State, k: nat): Phase {
    if k + 1 < s.rounds then Calling(k + 1) else CallExit
  }

  /** A call arrives: its caller is saved and the wait loop entered. */
  function Begin(s: State, c: nat): State
    requires c < s.N() == |s.kinds| && s.phase[c].Calling?
  {
    s.(slot := s.slot[s.Run() := c],
       pc := s.pc[s.Run() := Looping(s.kinds[c])],
       phase := s.phase[c := InCall(s.phase[c].k, s.Run())])
  }

  /** The sleep on a blocked buffer. With nothing ready it returns at once and the loop spins. */
  function Block(s: State, kind: Kind): State
    requires kind in s.sched.waits
  {
    match Sleep(s.sched, kind)
    case Some(sched) => s.(sched := sched)
    case None => s
  }

  /** Past the loop: one item moves, one thread of the other kind is woken, the saved caller is answered. */
  function Complete(s: State, kind: Kind): State
    requires !kind in s.sched.waits && s.Run() in s.slot && s.slot[s.Run()] < s.N()
    requires s.phase[s.slot[s.Run()]].InCall?
  {
    var c := s.slot[s.Run()];
    s.(buffer := Turns.Moved(s.buffer, kind),
       produced := if kind then s.produced + 1 else s.produced,
       consumed := if kind then s.consumed else s.consumed + 1,
       sched := Wakeup(s.sched, !kind),
       pc := s.pc[s.Run() := AtReceive],
       phase := s.phase[c := Next(s, s.phase[c].k)])
  }

  function Try(s: State, kind: Kind): State
    requires kind in s.sched.waits && !kind in s.sched.waits && s.Run() in s.slot
    requires s.slot[s.Run()] < s.N() && s.phase[s.slot[s.Run()]].InCall?
  {
    if Blocked(s, kind) then Block(s, kind) else Complete(s, kind)
  }

  // ---------- The invariant ----------

  ghost predicate Shape(s: State) {
    && Scheduler.Inv(s.sched) && s.Run() != BOOT
    && s.sched.waits.Keys == {true, false}
    && s.pc.Keys == s.sched.status.Keys - {BOOT}
    && s.N() == |s.kinds| && s.limit > 0
  }

  /** A thread in a loop serves exactly the caller it saved, and vice versa. */
  ghost predicate Serving(s: State)
    requires Shape(s)
  {
    && (forall t | t in s.pc && s.pc[t].Looping? ::
          && t in s.slot && s.slot[t] < s.N() && s.pc[t].kind == s.kinds[s.slot[t]]
          && s.phase[s.slot[t]].InCall? && s.phase[s.slot[t]].server == t)
    && (forall c: nat | c < s.N() && s.phase[c].InCall? ::
          var t := s.phase[c].server;
          t in s.pc && s.pc[t] == Looping(s.kinds[c]) && t in s.slot && s.slot[t] == c)
    && (forall b, t | b in s.sched.waits && t in s.sched.waits[b] :: t in s.pc && s.pc[t] == Looping(b))
  }

  ghost function NotDone(s: State): set<nat> {
    set c | c in Interval(0, s.N()) && !s.phase[c].Done?
  }

  /** How many items client `c` has moved. */
  ghost function Moved(s: State, c: nat): int
    requires c < s.N()
  {
    match s.phase[c]
    case Calling(k) => k
    case InCall(k, _) => k
    case CallExit => s.rounds
    case Done => s.rounds
  }

  ghost function MovedBy(s: State, kind: Kind): seq<int>
    requires s.N() == |s.kinds|
  {
    seq(s.N(), c requires 0 <= c < s.N() => if s.kinds[c] == kind then Moved(s, c) else 0)
  }

  ghost predicate Accounts(s: State)
    requires Shape(s)
  {
    && |s.pc.Keys| == |NotDone(s)|
    && 0 <= s.buffer <= s.limit && s.buffer == s.produced - s.consumed
    && (forall c: nat | c < s.N() && (s.phase[c].Calling? || s.phase[c].InCall?) :: s.phase[c].k < s.rounds)
    && s.produced == Sum(MovedBy(s, true)) && s.consumed == Sum(MovedBy(s, false))
  }

  /** Threads of a kind that have been woken, or have just entered the loop, and are yet to test it. */
  ghost function Pending(s: State, kind: Kind): set<Tid>
    requires kind in s.sched.waits
  {
    set t | t in s.pc && s.pc[t] == Looping(kind) && t !in s.sched.waits[kind]
  }

  function Room(s: State, kind: Kind): int { if kind then s.limit - s.buffer else s.buffer }

  /** No lost wake-up: while threads of a kind sleep, enough of that kind are pending to use all the room. */
  ghost predicate NothingLost(s: State)
    requires Shape(s)
  {
    forall kind | kind in s.sched.waits && s.sched.waits[kind] != [] :: |Pending(s, kind)| >= Room(s, kind)
  }

  ghost predicate Core(s: State) {
    Shape(s) && Serving(s) && Accounts(s) && NothingLost(s)
  }

  ghost predicate Receiving(s: State) { s.Run() in s.pc && s.pc[s.Run()] == AtReceive }

  ghost predicate Trying(s: State) { s.Run() in s.pc && s.pc[s.Run()].Looping? }

  /** Producers and consumers are never both asleep with nobody pending. */
  lemma NeverBothAsleep(s: State)
    requires Core(s) && s.sched.waits[true] != [] && s.sched.waits[false] != []
    ensures Pending(s, true) != {} || Pending(s, false) != {}
  {
    hide Scheduler.Inv;
  }

  // ---------- Every step keeps it ----------

  lemma MovedUpdate(s: State, s': State, c: nat)
    requires c < s.N() == s'.N() == |s.kinds| && s'.kinds == s.kinds && s'.rounds == s.rounds
    requires s'.phase == s.phase[c := s'.phase[c]]
    ensures Sum(MovedBy(s', s.kinds[c])) == Sum(MovedBy(s, s.kinds[c])) + Moved(s', c) - Moved(s, c)
    ensures Sum(MovedBy(s', !s.kinds[c])) == Sum(MovedBy(s, !s.kinds[c]))
  {
    assert MovedBy(s', s.kinds[c]) == MovedBy(s, s.kinds[c])[c := Moved(s', c)];
    SumUpdate(MovedBy(s, s.kinds[c]), c, Moved(s', c));
    assert MovedBy(s', !s.kinds[c]) == MovedBy(s, !s.kinds[c]);
  }

  lemma BeginAccounts(s: State, c: nat)
    requires Core(s) && Receiving(s) && c < s.N() && s.phase[c].Calling?
    ensures Shape(Begin(s, c)) && Accounts(Begin(s, c))
  {
    hide Scheduler.Inv, Serving, NothingLost;
    var s' := Begin(s, c);
    MovedUpdate(s, s', c);
    assert s'.pc.Keys == s.pc.Keys;
    assert NotDone(s') == NotDone(s);
  }

  lemma BeginServing(s: State, c: nat)
    requires Core(s) && Receiving(s) && c < s.N() && s.phase[c].Calling? && Shape(Begin(s, c))
    ensures Serving(Begin(s, c))
  {
    hide Scheduler.Inv, Accounts, NothingLost;
    InvFacts(s.sched);
  }

  lemma BeginNothingLost(s: State, c: nat)
    requires Core(s) && Receiving(s) && c < s.N() && s.phase[c].Calling? && Shape(Begin(s, c))
    ensures NothingLost(Begin(s, c))
  {
    hide Scheduler.Inv, Accounts, Serving;
    InvFacts(s.sched);
    var b := s.kinds[c];
    PendingChange(s, Begin(s, c), b);
    PendingChange(s, Begin(s, c), !b);
  }

  /** The running thread enters, leaves or stays out of its loop, and `kind`'s queue does not change. */
  lemma PendingChange(s: State, s': State, kind: Kind)
    requires kind in s.sched.waits && kind in s'.sched.waits && s'.sched.waits[kind] == s.sched.waits[kind]
    requires s.Run() in s.pc && s.Run() !in s.sched.waits[kind]
    requires forall t | t != s.Run() :: (t in s.pc <==> t in s'.pc) && (t in s.pc ==> s'.pc[t] == s.pc[t])
    ensures Pending(s', kind) ==
            if s.Run() in s'.pc && s'.pc[s.Run()] == Looping(kind) then Pending(s, kind) + {s.Run()}
            else Pending(s, kind) - {s.Run()}
    ensures s.Run() in Pending(s, kind) <==> s.pc[s.Run()] == Looping(kind)
  {
  }

  lemma BeginKeeps(s: State, c: nat)
    requires Core(s) && Receiving(s) && c < s.N() && s.phase[c].Calling?
    ensures Core(Begin(s, c)) && Trying(Begin(s, c))
  {
    hide Serving, Accounts, NothingLost;
    BeginAccounts(s, c);
    BeginServing(s, c);
    BeginNothingLost(s, c);
  }

  lemma BlockAccounts(s: State, kind: Kind)
    requires Core(s) && kind in s.sched.waits && s.sched.ready != []
    ensures Shape(Block(s, kind)) && Accounts(Block(s, kind))
  {
    hide Scheduler.Inv, Sleep, Serving, NothingLost;
    SleepFrame(s.sched, kind);
    var s' := Block(s, kind);
    assert NotDone(s') == NotDone(s);
    assert MovedBy(s', true) == MovedBy(s, true) && MovedBy(s', false) == MovedBy(s, false);
  }

  lemma BlockServing(s: State)
    requires Core(s) && Trying(s) && s.sched.ready != [] && Shape(Block(s, s.pc[s.Run()].kind))
    ensures Serving(Block(s, s.pc[s.Run()].kind))
  {
    hide Scheduler.Inv, Sleep, Accounts, NothingLost;
    SleepFrame(s.sched, s.pc[s.Run()].kind);
  }

  lemma BlockNothingLost(s: State)
    requires Core(s) && Trying(s) && Blocked(s, s.pc[s.Run()].kind) && s.sched.ready != []
    requires Shape(Block(s, s.pc[s.Run()].kind))
    ensures NothingLost(Block(s, s.pc[s.Run()].kind))
  {
    hide Scheduler.Inv, Sleep, Accounts, Serving;
    var b := s.pc[s.Run()].kind;
    SleepFrame(s.sched, b);
    InvFacts(s.sched);
    PendingChange(s, Block(s, b), !b);
  }

  lemma BlockKeeps(s: State)
    requires Core(s) && Trying(s) && Blocked(s, s.pc[s.Run()].kind) && s.sched.ready != []
    ensures Core(Block(s, s.pc[s.Run()].kind))
  {
    hide Serving, Accounts, NothingLost;
    BlockAccounts(s, s.pc[s.Run()].kind);
    BlockServing(s);
    BlockNothingLost(s);
  }

  lemma CompleteShape(s: State)
    requires Core(s) && Trying(s)
    ensures Shape(Complete(s, s.pc[s.Run()].kind))
  {
    hide Scheduler.Inv, Wakeup, NothingLost, Accounts;
    WakeupFrame(s.sched, !s.pc[s.Run()].kind);
  }

  lemma CompleteMoved(s: State)
    requires Core(s) && Trying(s)
    ensures
      var kind := s.pc[s.Run()].kind;
      var s' := Complete(s, kind);
      && Sum(MovedBy(s', kind)) == Sum(MovedBy(s, kind)) + 1 && Sum(MovedBy(s', !kind)) == Sum(MovedBy(s, !kind))
  {
    hide Scheduler.Inv, Wakeup, NothingLost;
    MovedUpdate(s, Complete(s, s.pc[s.Run()].kind), s.slot[s.Run()]);
  }

  lemma CompleteAccounts(s: State)
    requires Core(s) && Trying(s) && !Blocked(s, s.pc[s.Run()].kind)
    requires Shape(Complete(s, s.pc[s.Run()].kind))
    ensures Accounts(Complete(s, s.pc[s.Run()].kind))
  {
    hide Scheduler.Inv, Wakeup, NothingLost, MovedBy, Interval, Sum;
    CompleteMoved(s);
    var s' := Complete(s, s.pc[s.Run()].kind);
    assert s'.pc.Keys == s.pc.Keys;
    assert NotDone(s') == NotDone(s);
  }

  lemma CompleteServing(s: State)
    requires Core(s) && Trying(s) && !Blocked(s, s.pc[s.Run()].kind)
    requires Shape(Complete(s, s.pc[s.Run()].kind))
    ensures Serving(Complete(s, s.pc[s.Run()].kind))
  {
    hide Scheduler.Inv, Wakeup, NothingLost, Accounts, Blocked, Turns.Moved;
    InvFacts(s.sched);
    WakeupFrame(s.sched, !s.pc[s.Run()].kind);
  }

  lemma CompleteNothingLost(s: State)
    requires Core(s) && Trying(s) && !Blocked(s, s.pc[s.Run()].kind)
    requires Shape(Complete(s, s.pc[s.Run()].kind))
    ensures NothingLost(Complete(s, s.pc[s.Run()].kind))
  {
    hide Scheduler.Inv, Wakeup, Accounts;
    var b := s.pc[s.Run()].kind;
    var s' := Complete(s, b);
    InvFacts(s.sched);
    WakeupFrame(s.sched, !b);
    PendingChange(s, s', b);
    PendingWakes(s, !b);
    PendingChange(s.(sched := Wakeup(s.sched, !b)), s', !b);
  }

  lemma PendingPops(s: State, s': State, kind: Kind)
    requires kind in s.sched.waits && kind in s'.sched.waits && s'.pc == s.pc
    requires NoDup(s.sched.waits[kind]) && s.sched.waits[kind] != []
    requires s'.sched.waits[kind] == s.sched.waits[kind][1..]
    requires s.sched.waits[kind][0] in s.pc && s.pc[s.sched.waits[kind][0]] == Looping(kind)
    ensures Pending(s', kind) == Pending(s, kind) + {s.sched.waits[kind][0]}
    ensures s.sched.waits[kind][0] !in Pending(s, kind)
  {
    TailProperties(s.sched.waits[kind]);
  }

  /** Waking a thread of `kind` makes it pending. */
  lemma PendingWakes(s: State, kind: Kind)
    requires Shape(s) && Serving(s) && kind in s.sched.waits
    ensures var s' := s.(sched := Wakeup(s.sched, kind));
      && Shape(s') && s'.Run() == s.Run() && s'.Run() !in s'.sched.waits[kind]
      && if s.sched.waits[kind] == [] then Pending(s', kind) == Pending(s, kind) && s'.sched.waits[kind] == []
         else |Pending(s', kind)| == |Pending(s, kind)| + 1
  {
    hide Scheduler.Inv, Wakeup, NoDup;
    InvFacts(s.sched);
    WakeupFrame(s.sched, kind);
    var q := s.sched.waits[kind];
    if q != [] {
      assert q[0] in q;
      TailProperties(q);
      PendingPops(s, s.(sched := Wakeup(s.sched, kind)), kind);
    }
  }

  lemma CompleteKeeps(s: State)
    requires Core(s) && Trying(s) && !Blocked(s, s.pc[s.Run()].kind)
    ensures Core(Complete(s, s.pc[s.Run()].kind))
  {
    hide Scheduler.Inv, Accounts, NothingLost;
    CompleteShape(s);
    CompleteAccounts(s);
    CompleteServing(s);
    CompleteNothingLost(s);
  }

  /** A terminating client takes the thread that received its call with it. */
  ghost function End(s: State, c: nat): State
    requires Shape(s) && s.sched.ready != [] && c < s.N()
  {
    ExitFrame(s.sched);
    s.(sched := Exit(s.sched).value, pc := s.pc - {s.Run()}, phase := s.phase[c := Done])
  }

  lemma EndAccounts(s: State, c: nat)
    requires Core(s) && Receiving(s) && c < s.N() && s.phase[c].CallExit? && s.sched.ready != []
    ensures Shape(End(s, c)) && Accounts(End(s, c))
  {
    hide Scheduler.Inv, Exit, Serving, NothingLost, MovedBy;
    ExitFrame(s.sched);
    EndMoved(s, c);
    var s' := End(s, c);
    assert s'.pc.Keys == s.pc.Keys - {s.Run()};
    assert NotDone(s') == NotDone(s) - {c};
  }

  lemma EndMoved(s: State, c: nat)
    requires Shape(s) && c < s.N() && s.phase[c].CallExit? && s.sched.ready != []
    ensures MovedBy(End(s, c), true) == MovedBy(s, true) && MovedBy(End(s, c), false) == MovedBy(s, false)
  {
    hide Scheduler.Inv, Exit;
    ExitFrame(s.sched);
  }

  lemma EndServing(s: State, c: nat)
    requires Core(s) && Receiving(s) && c < s.N() && s.phase[c].CallExit? && s.sched.ready != []
    requires Shape(End(s, c))
    ensures Serving(End(s, c))
  {
    hide Scheduler.Inv, Exit, Accounts, NothingLost;
    InvFacts(s.sched);
    ExitFrame(s.sched);
  }

  lemma EndKeeps(s: State, c: nat)
    requires Core(s) && Receiving(s) && c < s.N() && s.phase[c].CallExit? && s.sched.ready != []
    ensures Core(End(s, c))
  {
    hide Scheduler.Inv, Exit, Accounts, Serving;
    EndAccounts(s, c);
    EndServing(s, c);
    InvFacts(s.sched);
    ExitFrame(s.sched);
    PendingChange(s, End(s, c), true);
    PendingChange(s, End(s, c), false);
  }

  // ---------- When the buffer can run dry ----------

  ghost function Of(s: State, kind: Kind): seq<bool> {
    seq(|s.kinds|, c requires 0 <= c < |s.kinds| => s.kinds[c] == kind)
  }

  /** How many more items the producers make than the consumers take, over all rounds. */
  ghost function Surplus(s: State): int {
    s.rounds * Count(Of(s, true)) - s.rounds * Count(Of(s, false))
  }

  /** What is made and never taken fits the buffer. */
  ghost predicate Fits(s: State) { 0 <= Surplus(s) <= s.limit }

  ghost predicate Finished(s: State, kind: Kind)
    requires s.N() == |s.kinds|
  {
    forall c: nat | c < s.N() && s.kinds[c] == kind :: Moved(s, c) == s.rounds
  }

  lemma MovedBounded(s: State)
    requires Core(s)
    ensures forall c: nat | c < s.N() :: Moved(s, c) <= s.rounds
  {
    hide Scheduler.Inv;
  }

  /** The items a kind has moved: its whole quota exactly when all its clients are through. */
  lemma KindTotal(s: State, kind: Kind)
    requires Core(s)
    ensures Sum(MovedBy(s, kind)) <= s.rounds * Count(Of(s, kind))
    ensures Finished(s, kind) <==> Sum(MovedBy(s, kind)) == s.rounds * Count(Of(s, kind))
  {
    hide Scheduler.Inv, Serving, NothingLost, Moved;
    MovedBounded(s);
    var a, b := MovedBy(s, kind), Of(s, kind);
    SumUpTo(a, b, s.rounds);
    assert forall c: nat | c < s.N() ::
        a[c] == (if s.kinds[c] == kind then Moved(s, c) else 0) && b[c] == (s.kinds[c] == kind);
  }

  // ---------- Nothing ready, nothing to receive ----------

  /** No thread is ready, no client has a call to make, and the running thread, if in a loop, is blocked. */
  ghost predicate Quiet(s: State) {
    && s.sched.ready == [] && s.Run() in s.pc
    && (s.pc[s.Run()].Looping? ==> Blocked(s, s.pc[s.Run()].kind))
    && forall c: nat | c < s.N() :: !s.phase[c].Calling?
  }

  lemma QuietPending(s: State, kind: Kind, t: Tid)
    requires Core(s) && Quiet(s) && kind in s.sched.waits && t in Pending(s, kind)
    ensures t == s.Run()
  {
    hide Scheduler.Inv, Accounts, NothingLost;
    if t != s.Run() {
      var b := Parked(s.sched, t);
    }
  }

  lemma QuietLooper(s: State, t: Tid)
    requires Core(s) && Quiet(s) && t in s.pc && s.pc[t].Looping?
    ensures Blocked(s, s.pc[t].kind)
  {
    hide Scheduler.Inv;
    var b := s.pc[t].kind;
    if t != s.Run() {
      var q := Parked(s.sched, t);
      assert q == b;
      if Pending(s, b) != {} {
        var u :| u in Pending(s, b);
        QuietPending(s, b, u);
      }
    }
  }

  lemma QuietFinished(s: State, t: Tid)
    requires Core(s) && Quiet(s) && t in s.pc && s.pc[t].Looping?
    ensures Finished(s, !s.pc[t].kind)
  {
    hide Scheduler.Inv, NothingLost;
    QuietLooper(s, t);
    forall c: nat | c < s.N() && s.kinds[c] == !s.pc[t].kind ensures Moved(s, c) == s.rounds {
      if s.phase[c].InCall? {
        QuietLooper(s, s.phase[c].server);
      }
    }
  }

  /** With production and consumption in step, nobody is left in a loop. */
  lemma QuietMeansIdle(s: State, t: Tid)
    requires Core(s) && Fits(s) && Quiet(s) && t in s.pc
    ensures !s.pc[t].Looping?
  {
    hide Scheduler.Inv, NothingLost;
    if s.pc[t].Looping? {
      assert Moved(s, s.slot[t]) < s.rounds;
      QuietLooper(s, t);
      QuietFinished(s, t);
      KindTotal(s, true);
      KindTotal(s, false);
    }
  }

  /** A thread in a loop serves one live client, and no two threads serve the same one. */
  lemma Looper(s: State, t: Tid)
    requires Core(s) && t in s.pc && s.pc[t].Looping?
    ensures t in s.slot && s.slot[t] in NotDone(s)
    ensures s.phase[s.slot[t]].InCall? && s.phase[s.slot[t]].server == t
  {
    hide Scheduler.Inv, NothingLost, Accounts;
  }

  lemma AllLoopingAllServed(s: State, c: nat)
    requires Core(s) && (forall t | t in s.pc :: s.pc[t].Looping?) && c < s.N() && !s.phase[c].Done?
    ensures s.phase[c].InCall?
  {
    assert |s.pc.Keys| == |NotDone(s)| by { hide Scheduler.Inv, NothingLost, Serving; }
    hide Core;
    forall t | t in s.pc ensures t in s.slot && s.slot[t] in NotDone(s) &&
        s.phase[s.slot[t]].InCall? && s.phase[s.slot[t]].server == t {
      Looper(s, t);
    }
    var callers := map t | t in s.pc :: s.slot[t];
    assert callers.Keys == s.pc.Keys;
    Onto(callers, NotDone(s), c);
  }

  lemma NobodyReadyAllLoop(s: State, t: Tid)
    requires Core(s) && s.sched.ready == [] && t in s.pc && t != s.Run()
    ensures s.pc[t].Looping?
  {
    hide Scheduler.Inv, Accounts, NothingLost;
    var b := Parked(s.sched, t);
  }

  /** The wait loop never spins: whenever the running thread is blocked, some thread is ready. */
  lemma NeverSpins(s: State)
    requires Core(s) && Fits(s) && Trying(s) && Blocked(s, s.pc[s.Run()].kind)
    ensures s.sched.ready != []
  {
    hide Scheduler.Inv, Shape, Serving, Accounts, NothingLost;
    if s.sched.ready == [] {
      forall t | t in s.pc ensures s.pc[t].Looping? {
        if t != s.Run() { NobodyReadyAllLoop(s, t); }
      }
      forall c: nat | c < s.N() ensures !s.phase[c].Calling? {
        if !s.phase[c].Done? { AllLoopingAllServed(s, c); }
      }
      QuietMeansIdle(s, s.Run());
    }
  }

  // ---------- Steps and runs ----------

  datatype Event = Receive(c: nat) | Retry

  ghost predicate Enabled(s: State, e: Event) {
    match e
    case Receive(c) =>
      Receiving(s) && c < s.N() && (s.phase[c].Calling? || (s.phase[c].CallExit? && s.sched.ready != []))
    case Retry => Trying(s)
  }

  /** The loop of the running thread, once round. */
  ghost function TryOnce(s: State): State
    requires Core(s) && Trying(s)
  {
    Try(s, s.pc[s.Run()].kind)
  }

  /** Each return from the sleep is counted before the buffer is tested again. */
  function Retried(s: State): State { s.(waitCount := s.waitCount + 1) }

  lemma RetriedAccounts(s: State)
    requires Shape(s) && Accounts(s)
    ensures Shape(Retried(s)) && Accounts(Retried(s))
  {
    hide Scheduler.Inv, Interval, Sum;
    var s' := Retried(s);
    assert NotDone(s') == NotDone(s);
    assert MovedBy(s', true) == MovedBy(s, true) && MovedBy(s', false) == MovedBy(s, false);
  }

  lemma RetriedQueues(s: State)
    requires Shape(s) && Serving(s) && NothingLost(s)
    ensures Shape(Retried(s)) && Serving(Retried(s)) && NothingLost(Retried(s))
  {
    hide Scheduler.Inv;
    assert forall kind | kind in s.sched.waits :: Pending(Retried(s), kind) == Pending(s, kind);
  }

  lemma RetriedKeeps(s: State)
    requires Core(s)
    ensures Core(Retried(s))
  {
    hide Shape, Serving, Accounts, NothingLost;
    RetriedAccounts(s);
    RetriedQueues(s);
  }

  ghost function Step(s: State, e: Event): State
    requires Core(s) && Enabled(s, e)
  {
    match e
    case Receive(c) =>
      if s.phase[c].CallExit? then End(s, c)
      else
        BeginKeeps(s, c);
        TryOnce(Begin(s, c))
    case Retry =>
      RetriedKeeps(s);
      TryOnce(Retried(s))
  }

  /** With nothing ready a blocked loop leaves everything as it is. */
  lemma BlockIdle(s: State)
    requires Core(s) && Trying(s) && s.sched.ready == []
    ensures Block(s, s.pc[s.Run()].kind) == s
  {
    hide Scheduler.Inv, Serving, Accounts, NothingLost;
    InvFacts(s.sched);
  }

  lemma TryOnceKeeps(s: State)
    requires Core(s) && Trying(s)
    ensures Core(TryOnce(s))
  {
    hide Serving, Accounts, NothingLost;
    if !Blocked(s, s.pc[s.Run()].kind) {
      CompleteKeeps(s);
    } else if s.sched.ready != [] {
      BlockKeeps(s);
    } else {
      BlockIdle(s);
    }
  }

  /** Whatever the numbers of producers and consumers, every step keeps the books. */
  lemma StepKeeps(s: State, e: Event)
    requires Core(s) && Enabled(s, e)
    ensures Core(Step(s, e))
  {
    hide Serving, Accounts, NothingLost;
    match e
    case Receive(c) =>
      if s.phase[c].CallExit? {
        EndKeeps(s, c);
      } else {
        BeginKeeps(s, c);
        TryOnceKeeps(Begin(s, c));
      }
    case Retry =>
      RetriedKeeps(s);
      TryOnceKeeps(Retried(s));
  }

  // ---------- What a step does to the scheduler ----------

  /** The scheduler's operation that an event consists of: the exit of a thread, or else one turn of the loop
      of a producer or consumer. */
  ghost function Ops(s: State, e: Event): seq<Op<Kind>>
    requires Core(s) && Enabled(s, e)
  {
    match e
    case Receive(c) => if s.phase[c].CallExit? then [ExitOp] else [TurnOp(s, s.kinds[c])]
    case Retry => [TurnOp(s, s.pc[s.Run()].kind)]
  }

  /** Stopped by the buffer the thread sleeps among its own kind; else it wakes one of the other. */
  function TurnOp(s: State, kind: Kind): Op<Kind> {
    if s.buffer == (if kind then s.limit else 0) then SleepOp(kind) else WakeupOp(!kind)
  }

  lemma TryRuns(s: State)
    requires Core(s) && Trying(s)
    ensures Runs(s.sched, [TurnOp(s, s.pc[s.Run()].kind)], TryOnce(s).sched)
  {
    hide Scheduler.Inv, Serving, Accounts, NothingLost;
    InTable(s);
    RunsOne(s.sched, TurnOp(s, s.pc[s.Run()].kind));
  }

  lemma InTable(s: State)
    requires Core(s) && Trying(s)
    ensures s.Run() in s.slot && s.slot[s.Run()] < s.N() && s.phase[s.slot[s.Run()]].InCall?
  {
    hide Scheduler.Inv, Accounts, NothingLost;
  }

  /** Every event is a guarded run of the scheduler. */
  lemma StepRuns(s: State, e: Event)
    requires Core(s) && Enabled(s, e)
    ensures Runs(s.sched, Ops(s, e), Step(s, e).sched)
  {
    hide Scheduler.Inv, Serving, Accounts, NothingLost, TryOnce, Runs, Exit;
    match e
    case Receive(c) =>
      if s.phase[c].CallExit? {
        RunsOne(s.sched, ExitOp);
      } else {
        BeginKeeps(s, c);
        TryRuns(Begin(s, c));
      }
    case Retry =>
      RetriedKeeps(s);
      TryRuns(Retried(s));
  }

  lemma SurplusSame(s: State, s': State)
    requires s'.kinds == s.kinds && s'.rounds == s.rounds
    ensures Surplus(s') == Surplus(s)
  {
    assert Of(s', true) == Of(s, true) && Of(s', false) == Of(s, false);
  }

  lemma StepFixed(s: State, e: Event)
    requires Core(s) && Enabled(s, e)
    ensures Step(s, e).limit == s.limit && Surplus(Step(s, e)) == Surplus(s)
  {
    hide Scheduler.Inv, Serving, Accounts, NothingLost, Surplus;
    SurplusSame(s, Step(s, e));
  }

  ghost predicate CanRun(s: State, es: seq<Event>)
    requires Core(s)
    decreases |es|
  {
    es == [] || (Enabled(s, es[0]) && (StepKeeps(s, es[0]); CanRun(Step(s, es[0]), es[1..])))
  }

  ghost function After(s: State, es: seq<Event>): (s': State)
    requires Core(s) && CanRun(s, es)
    ensures Core(s')
    decreases |es|
  {
    if es == [] then s
    else
      StepKeeps(s, es[0]);
      After(Step(s, es[0]), es[1..])
  }

  // ---------- The end ----------

  ghost predicate AllThrough(s: State) {
    forall c: nat | c < s.N() :: s.phase[c].CallExit? || s.phase[c].Done?
  }

  /** Only a system whose surplus fits the buffer can ever get all its clients through, and it then
      leaves exactly the surplus behind. */
  lemma ThroughOnlyIfFits(s: State)
    requires Core(s) && AllThrough(s)
    ensures Fits(s) && s.buffer == Surplus(s)
  {
    hide Scheduler.Inv, NothingLost, Serving;
    KindTotal(s, true);
    KindTotal(s, false);
  }

  lemma NotAllInCalls(s: State)
    requires Core(s) && Receiving(s)
    ensures exists c: nat | c < s.N() :: !s.phase[c].Done? && !s.phase[c].InCall?
  {
    hide Scheduler.Inv, NothingLost;
    if forall c: nat | c < s.N() && !s.phase[c].Done? :: s.phase[c].InCall? {
      var servers := map c | c in NotDone(s) :: s.phase[c].server;
      assert servers.Keys == NotDone(s);
      Pigeonhole(servers, s.pc.Keys - {s.Run()});
    }
  }

  lemma RunInTable(s: State)
    requires Core(s)
    ensures s.Run() in s.pc
  {
  }

  /** The system never gets stuck: when no step is possible every client has had all its calls
      answered, and the surplus is in the buffer. */
  lemma StuckOnlyAtTheEnd(s: State)
    requires Core(s) && Fits(s) && forall e :: !Enabled(s, e)
    ensures AllThrough(s) && s.buffer == Surplus(s)
  {
    hide Scheduler.Inv, Shape, Serving, Accounts, NothingLost;
    RunInTable(s);
    assert !Enabled(s, Retry);
    forall c: nat | c < s.N() ensures !s.phase[c].Calling? {
      assert !Enabled(s, Receive(c));
    }
    NotAllInCalls(s);
    var c: nat :| c < s.N() && !s.phase[c].Done? && !s.phase[c].InCall?;
    assert !Enabled(s, Receive(c));
    forall d: nat | d < s.N() ensures s.phase[d].CallExit? || s.phase[d].Done? {
      if s.phase[d].InCall? {
        CalledServerLoops(s, d);
        QuietMeansIdle(s, s.phase[d].server);
      }
    }
    ThroughOnlyIfFits(s);
  }

  lemma CalledServerLoops(s: State, d: nat)
    requires Core(s) && d < s.N() && s.phase[d].InCall?
    ensures s.phase[d].server in s.pc && s.pc[s.phase[d].server].Looping?
  {
  }

  // ---------- Every run ends ----------

  ghost function Rank(rounds: nat, p: Phase): int {
    match p
    case Calling(k) => 2 * (rounds - k) + 1
    case InCall(k, _) => 2 * (rounds - k)
    case CallExit => 1
    case Done => 0
  }

  ghost function Ranks(s: State): seq<int> {
    seq(s.N(), c requires 0 <= c < s.N() => Rank(s.rounds, s.phase[c]))
  }

  /** Calls still to be made, twice, and woken threads still to test the buffer: a woken thread may
      find that another got there first, but each item moved wakes only one. */
  ghost function Measure(s: State): int
    requires Shape(s)
  {
    2 * Sum(Ranks(s)) + |Pending(s, true)| + |Pending(s, false)|
  }

  lemma RankChange(s: State, s': State, c: nat)
    requires c < s.N() == s'.N() && s'.rounds == s.rounds && s'.phase == s.phase[c := s'.phase[c]]
    ensures Sum(Ranks(s')) == Sum(Ranks(s)) - Rank(s.rounds, s.phase[c]) + Rank(s.rounds, s'.phase[c])
  {
    assert Ranks(s') == Ranks(s)[c := Rank(s.rounds, s'.phase[c])];
    SumUpdate(Ranks(s), c, Rank(s.rounds, s'.phase[c]));
  }

  lemma BeginDescends(s: State, c: nat)
    requires Core(s) && Receiving(s) && c < s.N() && s.phase[c].Calling? && Core(Begin(s, c))
    ensures Measure(Begin(s, c)) < Measure(s)
  {
    hide Scheduler.Inv, Serving, Accounts, NothingLost;
    InvFacts(s.sched);
    RankChange(s, Begin(s, c), c);
    PendingChange(s, Begin(s, c), true);
    PendingChange(s, Begin(s, c), false);
  }

  lemma BlockDescends(s: State)
    requires Core(s) && Trying(s) && s.sched.ready != [] && Core(Block(s, s.pc[s.Run()].kind))
    ensures Measure(Block(s, s.pc[s.Run()].kind)) < Measure(s)
  {
    hide Scheduler.Inv, Sleep, Serving, Accounts, NothingLost;
    InvFacts(s.sched);
    var b := s.pc[s.Run()].kind;
    var s' := Block(s, b);
    SleepFrame(s.sched, b);
    assert Ranks(s') == Ranks(s);
    assert Pending(s', !b) == Pending(s, !b);
    assert Pending(s', b) == Pending(s, b) - {s.Run()} && s.Run() in Pending(s, b);
  }

  lemma CompletePending(s: State)
    requires Core(s) && Trying(s) && Core(Complete(s, s.pc[s.Run()].kind))
    ensures var s' := Complete(s, s.pc[s.Run()].kind);
      |Pending(s', true)| + |Pending(s', false)| <= |Pending(s, true)| + |Pending(s, false)|
  {
    hide Scheduler.Inv, Wakeup, NothingLost, Accounts;
    InvFacts(s.sched);
    var b := s.pc[s.Run()].kind;
    var s' := Complete(s, b);
    WakeupFrame(s.sched, !b);
    PendingChange(s, s', b);
    PendingWakes(s, !b);
    PendingChange(s.(sched := Wakeup(s.sched, !b)), s', !b);
  }

  lemma CompleteDescends(s: State)
    requires Core(s) && Trying(s) && Core(Complete(s, s.pc[s.Run()].kind))
    ensures Measure(Complete(s, s.pc[s.Run()].kind)) < Measure(s)
  {
    hide Scheduler.Inv, Wakeup, NothingLost, Pending, Ranks;
    CompletePending(s);
    RankChange(s, Complete(s, s.pc[s.Run()].kind), s.slot[s.Run()]);
  }

  lemma EndPending(s: State, c: nat)
    requires Core(s) && Receiving(s) && c < s.N() && s.sched.ready != [] && Shape(End(s, c))
    ensures Pending(End(s, c), true) <= Pending(s, true) && Pending(End(s, c), false) <= Pending(s, false)
  {
    hide Scheduler.Inv, Exit, Serving, Accounts, NothingLost;
    ExitFrame(s.sched);
  }

  lemma Smaller(a: set<Tid>, b: set<Tid>)
    requires a <= b
    ensures |a| <= |b|
  {
    assert |b| == |a| + |b - a|;
  }

  lemma EndDescends(s: State, c: nat)
    requires Core(s) && Receiving(s) && c < s.N() && s.phase[c].CallExit? && s.sched.ready != []
    requires Core(End(s, c))
    ensures Measure(End(s, c)) < Measure(s)
  {
    hide Scheduler.Inv, Exit, Serving, Accounts, NothingLost, Pending, Ranks;
    EndPending(s, c);
    Smaller(Pending(End(s, c), true), Pending(s, true));
    Smaller(Pending(End(s, c), false), Pending(s, false));
    RankChange(s, End(s, c), c);
  }

  /** The running thread is stopped by the buffer and nobody is ready to change that. */
  ghost predicate Spinning(s: State) {
    Trying(s) && Blocked(s, s.pc[s.Run()].kind) && s.sched.ready == []
  }

  lemma TryOnceDescends(s: State)
    requires Core(s) && Trying(s) && !Spinning(s)
    ensures Core(TryOnce(s)) && Measure(TryOnce(s)) < Measure(s)
  {
    hide Serving, Accounts, NothingLost, Measure;
    if Blocked(s, s.pc[s.Run()].kind) {
      BlockKeeps(s);
      BlockDescends(s);
    } else {
      CompleteKeeps(s);
      CompleteDescends(s);
    }
  }

  lemma ReceiveDescends(s: State, c: nat)
    requires Core(s) && Enabled(s, Receive(c)) && s.phase[c].Calling?
    ensures Core(Begin(s, c)) && Trying(Begin(s, c)) && Core(TryOnce(Begin(s, c)))
    ensures Measure(TryOnce(Begin(s, c))) < Measure(s)
  {
    hide Serving, Accounts, NothingLost, Measure;
    BeginKeeps(s, c);
    BeginDescends(s, c);
    if Spinning(Begin(s, c)) {
      BlockIdle(Begin(s, c));
    } else {
      TryOnceDescends(Begin(s, c));
    }
  }

  lemma RetriedMeasure(s: State)
    requires Core(s)
    ensures Core(Retried(s)) && Measure(Retried(s)) == Measure(s)
  {
    RetriedKeeps(s);
    hide Core, Scheduler.Inv;
    assert Ranks(Retried(s)) == Ranks(s);
    assert Pending(Retried(s), true) == Pending(s, true) && Pending(Retried(s), false) == Pending(s, false);
  }

  /** Every step but the turn of a spinning loop brings the system nearer its end. */
  lemma StepDescends(s: State, e: Event)
    requires Core(s) && Enabled(s, e) && (e == Retry ==> !Spinning(s))
    ensures Core(Step(s, e)) && Measure(Step(s, e)) < Measure(s)
  {
    hide Core, Measure, End, TryOnce, Blocked;
    StepKeeps(s, e);
    match e
    case Receive(c) =>
      assert c < s.N();
      if s.phase[c].CallExit? { EndDescends(s, c); } else { ReceiveDescends(s, c); }
    case Retry =>
      RetriedMeasure(s);
      SpinningSame(s);
      TryOnceDescends(Retried(s));
  }

  lemma SpinningSame(s: State)
    ensures Spinning(Retried(s)) <==> Spinning(s)
  {
  }

  lemma {:induction false} MeasureNonNegative(s: State, k: nat)
    requires Core(s) && k <= s.N()
    ensures Sum(Ranks(s)[..k]) >= 0
  {
    hide Scheduler.Inv, Serving, NothingLost;
    if k > 0 {
      MeasureNonNegative(s, k - 1);
      SumNext(Ranks(s), k);
    }
  }

  lemma MeasureBounded(s: State)
    requires Core(s)
    ensures Measure(s) >= 0
  {
    hide Core;
    MeasureNonNegative(s, s.N());
    assert Ranks(s)[..s.N()] == Ranks(s);
  }

  /** A system whose surplus fits never spins, and so all its runs end. */
  lemma {:induction false} RunsEnd(s: State, es: seq<Event>)
    requires Core(s) && Fits(s) && CanRun(s, es)
    ensures |es| <= Measure(s)
    decreases |es|
  {
    hide Scheduler.Inv, Serving, Accounts, NothingLost, Surplus, Measure;
    if es != [] {
      StepKeeps(s, es[0]);
      if Spinning(s) {
        NeverSpins(s);
      }
      StepDescends(s, es[0]);
      StepFixed(s, es[0]);
      RunsEnd(Step(s, es[0]), es[1..]);
    } else {
      MeasureBounded(s);
    }
  }

  // ---------- Where every system ends up ----------

  /** Nothing can happen any more but the turns of a spinning loop. */
  ghost predicate Still(s: State) {
    forall e | Enabled(s, e) :: e == Retry && Spinning(s)
  }

  /** From every state the system can come to a standstill, and it does so whatever the order of calls as
      long as a spinning loop is not counted as progress. */
  lemma {:induction false} ReachesStill(s: State) returns (es: seq<Event>)
    requires Core(s)
    ensures CanRun(s, es) && Still(After(s, es))
    decreases Measure(s)
  {
    hide Core, Measure, Enabled, Spinning;
    if Still(s) {
      es := [];
    } else {
      var e :| Enabled(s, e) && !(e == Retry && Spinning(s));
      MeasureBounded(s);
      StepDescends(s, e);
      var rest := ReachesStill(Step(s, e));
      es := [e] + rest;
      assert es[1..] == rest;
    }
  }

  /** At a standstill all clients are through exactly when the surplus fits. */
  lemma StillMeans(s: State)
    requires Core(s) && Still(s)
    ensures AllThrough(s) <==> Fits(s)
  {
    hide Core, Surplus, AllThrough, Enabled;
    if AllThrough(s) {
      ThroughOnlyIfFits(s);
    }
    if Fits(s) {
      if Spinning(s) {
        NeverSpins(s);
      }
      StuckOnlyAtTheEnd(s);
    }
  }

  /** A system whose surplus does not fit comes to rest in one of two ways: a loop spins with nobody
      ready, or clients sleep in their calls while the running thread has nothing left to receive but a
      last call, whose exit would return to the boot thread. */
  lemma UnfitEnds(s: State)
    requires Core(s) && Still(s) && !Fits(s)
    ensures s.sched.ready == []
    ensures
      || Spinning(s)
      || (Receiving(s) && exists c: nat | c < s.N() :: s.phase[c].InCall? && Asleep(s, s.phase[c].server))
  {
    hide Scheduler.Inv, Serving, Accounts, NothingLost, Surplus;
    StillMeans(s);
    RunInTable(s);
    if !Spinning(s) {
      assert !Enabled(s, Retry);
      NotAllInCalls(s);
      var c: nat :| c < s.N() && !s.phase[c].Done? && !s.phase[c].InCall?;
      assert !Enabled(s, Receive(c));
      var d: nat :| d < s.N() && !s.phase[d].CallExit? && !s.phase[d].Done?;
      assert !Enabled(s, Receive(d));
      CalledServerSleeps(s, d);
    }
  }

  ghost predicate Asleep(s: State, t: Tid) {
    exists kind | kind in s.sched.waits :: t in s.sched.waits[kind]
  }

  lemma CalledServerSleeps(s: State, d: nat)
    requires Core(s) && Receiving(s) && d < s.N() && s.phase[d].InCall? && s.sched.ready == []
    ensures Asleep(s, s.phase[d].server)
  {
    hide Scheduler.Inv, Accounts, NothingLost;
    var b := Parked(s.sched, s.phase[d].server);
  }

  // ---------- The start ----------

  ghost function AllReceiving(n: nat): (pc: map<Tid, Pc>)
    ensures forall t :: t in pc <==> 1 <= t <= n
    ensures forall t | t in pc :: pc[t] == AtReceive
    ensures |pc.Keys| == n
  {
    if n == 0 then map[] else
      assert AllReceiving(n - 1)[n := AtReceive].Keys == AllReceiving(n - 1).Keys + {n};
      AllReceiving(n - 1)[n := AtReceive]
  }

  /** An empty buffer, and one server thread for each client. */
  ghost function Start(kinds: seq<Kind>, limit: nat, rounds: nat): State
    requires 0 < |kinds| < MAX_CAPACITY
  {
    State(limit, rounds, kinds, Booted([true, false], |kinds|), 0, AllReceiving(|kinds|), map[],
          seq(|kinds|, _ => if rounds > 0 then Calling(0) else CallExit), |kinds| / 2, 0, 0)
  }

  lemma {:induction false} NothingMoved(s: State, kind: Kind, k: nat)
    requires k <= s.N() == |s.kinds| && forall c: nat | c < s.N() :: Moved(s, c) == 0
    ensures Sum(MovedBy(s, kind)[..k]) == 0
  {
    if k > 0 {
      NothingMoved(s, kind, k - 1);
      SumNext(MovedBy(s, kind), k);
    }
  }

  lemma StartShape(kinds: seq<Kind>, limit: nat, rounds: nat)
    requires 0 < |kinds| < MAX_CAPACITY && limit > 0
    ensures Shape(Start(kinds, limit, rounds)) && Receiving(Start(kinds, limit, rounds))
  {
    hide Scheduler.Inv, Booted;
    var s := Start(kinds, limit, rounds);
    assert s.sched.waits.Keys == {true, false};
    assert s.pc.Keys == s.sched.status.Keys - {BOOT};
  }

  lemma StartMoved(kinds: seq<Kind>, limit: nat, rounds: nat, kind: Kind)
    requires 0 < |kinds| < MAX_CAPACITY
    ensures Sum(MovedBy(Start(kinds, limit, rounds), kind)) == 0
  {
    hide Booted;
    var s := Start(kinds, limit, rounds);
    NothingMoved(s, kind, s.N());
    assert MovedBy(s, kind)[..s.N()] == MovedBy(s, kind);
  }

  lemma StartAccounts(kinds: seq<Kind>, limit: nat, rounds: nat)
    requires 0 < |kinds| < MAX_CAPACITY && Shape(Start(kinds, limit, rounds))
    ensures Accounts(Start(kinds, limit, rounds))
  {
    hide Scheduler.Inv, Booted, Shape, MovedBy;
    var s := Start(kinds, limit, rounds);
    assert NotDone(s) == Interval(0, s.N());
    StartMoved(kinds, limit, rounds, true);
    StartMoved(kinds, limit, rounds, false);
  }

  lemma StartIsCore(kinds: seq<Kind>, limit: nat, rounds: nat)
    requires 0 < |kinds| < MAX_CAPACITY && limit > 0
    ensures Core(Start(kinds, limit, rounds)) && Receiving(Start(kinds, limit, rounds))
  {
    hide Scheduler.Inv, Shape, Booted, Accounts;
    StartShape(kinds, limit, rounds);
    StartAccounts(kinds, limit, rounds);
  }

  lemma {:induction false} ConfigurationFixed(s: State, es: seq<Event>)
    requires Core(s) && CanRun(s, es)
    ensures After(s, es).limit == s.limit && Surplus(After(s, es)) == Surplus(s)
    decreases |es|
  {
    hide Scheduler.Inv, Serving, Accounts, NothingLost, Surplus;
    if es != [] {
      StepKeeps(s, es[0]);
      StepFixed(s, es[0]);
      ConfigurationFixed(Step(s, es[0]), es[1..]);
    }
  }

  /** For any mix of clients and any order in which calls arrive: the buffer stays within its bounds,
      and a run that gets all clients through leaves the surplus in it. If the surplus fits the
      buffer every run is bounded, and one that cannot go on has got all clients through. */
  lemma BufferRuns(kinds: seq<Kind>, limit: nat, rounds: nat, es: seq<Event>)
    requires 0 < |kinds| < MAX_CAPACITY && limit > 0
    requires var s := Start(kinds, limit, rounds); Core(s) && CanRun(s, es)
    ensures
      var s0 := Start(kinds, limit, rounds);
      var s := After(s0, es);
      && 0 <= s.buffer <= limit && s.buffer == s.produced - s.consumed
      && (AllThrough(s) ==> Fits(s0) && s.buffer == Surplus(s0))
      && (Fits(s0) ==> |es| <= Measure(s0) && ((forall e :: !Enabled(s, e)) ==> AllThrough(s)))
  {
    hide Scheduler.Inv, Serving, NothingLost, Booted, Surplus, Measure, AllThrough, MovedBy, NotDone, Sum;
    var s0 := Start(kinds, limit, rounds);
    var s := After(s0, es);
    ConfigurationFixed(s0, es);
    if AllThrough(s) {
      ThroughOnlyIfFits(s);
    }
    if Fits(s0) {
      RunsEnd(s0, es);
      if forall e :: !Enabled(s, e) {
        StuckOnlyAtTheEnd(s);
      }
    }
  }

  /** The system can get all its clients through exactly when its surplus fits the buffer: if it does
      some run succeeds, and all that stop do; if not no run ever does. */
  lemma FinishesExactly(kinds: seq<Kind>, limit: nat, rounds: nat)
    requires 0 < |kinds| < MAX_CAPACITY && limit > 0
    ensures Core(Start(kinds, limit, rounds))
    ensures
      var s := Start(kinds, limit, rounds);
      (exists es :: CanRun(s, es) && AllThrough(After(s, es))) <==> Fits(s)
  {
    hide Core, Start, Surplus, AllThrough, Still, Measure;
    StartIsCore(kinds, limit, rounds);
    var s := Start(kinds, limit, rounds);
    forall es | CanRun(s, es) && AllThrough(After(s, es)) ensures Fits(s) {
      ThroughOnlyIfFits(After(s, es));
      ConfigurationFixed(s, es);
    }
    if Fits(s) {
      var es := ReachesStill(s);
      ConfigurationFixed(s, es);
      StillMeans(After(s, es));
    }
  }

  ghost function Retries(es: seq<Event>): nat {
    if es == [] then 0 else (if es[0] == Retry then 1 else 0) + Retries(es[1..])
  }

  /** The wait count that is printed grows by one for each return from a sleep. */
  lemma {:induction false} WaitsCounted(s: State, es: seq<Event>)
    requires Core(s) && CanRun(s, es)
    ensures After(s, es).waitCount == s.waitCount + Retries(es)
    decreases |es|
  {
    hide Core, Enabled;
    if es != [] {
      StepKeeps(s, es[0]);
      StepWaits(s, es[0]);
      WaitsCounted(Step(s, es[0]), es[1..]);
    }
  }

  lemma StepWaits(s: State, e: Event)
    requires Core(s) && Enabled(s, e)
    ensures Step(s, e).waitCount == s.waitCount + if e == Retry then 1 else 0
  {
    hide Scheduler.Inv, Serving, Accounts, NothingLost;
  }

  /** From the start, half the number of clients is counted in advance. */
  lemma WaitsPrinted(kinds: seq<Kind>, limit: nat, rounds: nat, es: seq<Event>)
    requires 0 < |kinds| < MAX_CAPACITY && Core(Start(kinds, limit, rounds)) && CanRun(Start(kinds, limit, rounds), es)
    ensures After(Start(kinds, limit, rounds), es).waitCount == |kinds| / 2 + Retries(es)
  {
    hide Core, Booted, Enabled;
    WaitsCounted(Start(kinds, limit, rounds), es);
  }

  // ---------- The clients as the driver starts them ----------

  /** Clients with an odd number produce, the others consume. */
  ghost function Alternating(n: nat): seq<Kind> {
    seq(n, c => c % 2 == 1)
  }

  lemma {:induction false} CountAlternating(n: nat, b: seq<bool>, kind: Kind)
    requires |b| == n && forall c | 0 <= c < n :: b[c] == ((c % 2 == 1) == kind)
    ensures Count(b) == if kind then n / 2 else (n + 1) / 2
  {
    if n > 0 {
      CountAlternating(n - 1, b[..n - 1], kind);
    }
  }

  lemma AlternatingCounts(n: nat, limit: nat, rounds: nat, kind: Kind)
    requires 0 < n < MAX_CAPACITY
    ensures
      var s := Start(Alternating(n), limit, rounds);
      && Count(Of(s, kind)) == (if kind then n / 2 else (n + 1) / 2) && s.rounds == rounds && s.limit == limit
  {
    hide Booted, Count;
    CountAlternating(n, Of(Start(Alternating(n), limit, rounds), kind), kind);
  }

  lemma AlternatingFits(n: nat, limit: nat, rounds: nat)
    requires 0 < n < MAX_CAPACITY
    ensures Fits(Start(Alternating(n), limit, rounds)) <==> n % 2 == 0 || rounds == 0
  {
    hide Booted, Count, Of, Start;
    AlternatingCounts(n, limit, rounds, true);
    AlternatingCounts(n, limit, rounds, false);
    TimesNext(rounds, n / 2, n % 2 == 1);
  }

  /** So all clients can get through exactly when their number is even, or nobody has anything to do. */
  lemma AlternatingFinishes(n: nat, limit: nat, rounds: nat)
    requires 0 < n < MAX_CAPACITY && limit > 0
    ensures Core(Start(Alternating(n), limit, rounds))
    ensures
      var s := Start(Alternating(n), limit, rounds);
      (exists es :: CanRun(s, es) && AllThrough(After(s, es))) <==> n % 2 == 0 || rounds == 0
  {
    hide Core, Start, Fits;
    FinishesExactly(Alternating(n), limit, rounds);
    AlternatingFits(n, limit, rounds);
  }

  // ---------- Replies ----------

  /** The reply at the end of a call goes to the client whose call this very thread received and which
      still waits for it; nobody else's call is answered. */
  lemma ReplyReachesCaller(s: State)
    requires Core(s) && Trying(s) && !Blocked(s, s.pc[s.Run()].kind)
    ensures
      var c := s.slot[s.Run()];
      var s' := TryOnce(s);
      && s.phase[c].InCall? && s.phase[c].server == s.Run() && s.kinds[c] == s.pc[s.Run()].kind
      && !s'.phase[c].InCall? && forall d: nat | d < s.N() && d != c :: s'.phase[d] == s.phase[d]
  {
    hide Scheduler.Inv, Wakeup, Accounts, NothingLost;
  }
}
