/** The token ring: `n` clients, `n` server threads and `n` tokens, all tokens taken at the start.
    Client `i` wants token `i + 1` (client `n - 1` wants token 0) and provides token `i`. A thread
    runs until it sleeps, so one step serves one call, or finishes one that slept. */
module Ring {
  import opened Sequences
  import opened Scheduler
  import opened Counting
  import opened Boot
  import Turns

  /** Where a server thread stands: at the receive, or in the acquire loop of a token. */
  datatype Pc = AtReceive | Acquiring(token: nat)

  /** Where a client stands. `k` is the client's own loop counter; `server`, a history variable, is the
      server thread that received the call. */
  datatype Phase =
    | CallWait
    | InWait(server: Tid)
    | CallSend(k: nat)
    | InSend(k: nat, server: Tid)
    | CallExit
    | Done
  {
    predicate InCall() { InWait? || InSend? }

    /** Blocked on a token, counting a first WAIT that is still to come. */
    predicate Blocked() { CallWait? || InCall() }
  }

  /** `released` and `acquired` are history variables: how often client `i` has released its token
      and been granted the one it wants. `slot` holds the saved caller of each thread. */
  datatype State = State(
    rounds: nat,
    sched: Sched<nat>,
    held: seq<bool>,
    helder: seq<int>,
    pc: map<Tid, Pc>,
    slot: map<Tid, nat>,
    phase: seq<Phase>,
    released: seq<int>,
    acquired: seq<int>,
    waitCount: int)
  {
    function N(): nat { |phase| }

    function Want(c: nat): nat { if c == N() - 1 then 0 else c + 1 }

    /** The lock that is token `j`. */
    function Token(j: nat): Turns.Lock
      requires j < |held| && j < |helder|
    {
      Turns.Lock(held[j], helder[j])
    }

    function Prev(token: nat): int { if token == 0 then N() - 1 else token - 1 }
  }

  // ---------- Steps ----------

  /** What a client does once its call is answered. */
  function Next(s: State, p: Phase): Phase {
    match p
    case InWait(_) => if 0 < s.rounds then CallSend(0) else CallExit
    case InSend(k, _) => if k + 1 < s.rounds then CallSend(k + 1) else CallExit
    case _ => p
  }

  /** The acquire loop of the running thread up to the grant and reply, or up to the sleep. The reply
      goes to the caller saved in the running thread's slot. With nothing ready the sleep is a
      no-op and the loop spins. */
  function Acquire(s: State): State
    requires s.sched.run in s.pc && s.pc[s.sched.run].Acquiring?
    requires s.pc[s.sched.run].token < |s.held| == |s.helder| && s.pc[s.sched.run].token in s.sched.waits
    requires s.sched.run in s.slot && s.slot[s.sched.run] < s.N() == |s.acquired|
  {
    var w := s.pc[s.sched.run].token;
    var c := s.slot[s.sched.run];
    var t := Turns.Acquire(s.Token(w), s.sched, w);
    if t.done then
      s.(held := s.held[w := t.value.held],
         helder := s.helder[w := t.value.helder],
         pc := s.pc[s.sched.run := AtReceive],
         phase := s.phase[c := Next(s, s.phase[c])],
         acquired := s.acquired[c := s.acquired[c] + 1])
    else
      match t.sched
      case Some(sched) => s.(sched := sched)
      case None => s
  }

  /** A WAIT call: the caller is saved, then the wanted token is acquired. */
  function BeginWait(s: State, c: nat): State
    requires c < s.N()
  {
    s.(slot := s.slot[s.sched.run := c],
       pc := s.pc[s.sched.run := Acquiring(s.Want(c))],
       phase := s.phase[c := InWait(s.sched.run)])
  }

  /** A SEND_WAIT call: the caller is saved, its token is released, then the wanted one is acquired. */
  function BeginSend(s: State, c: nat): State
    requires c < s.N() == |s.held| == |s.helder| == |s.released| && s.phase[c].CallSend? && c in s.sched.waits
  {
    s.(slot := s.slot[s.sched.run := c],
       pc := s.pc[s.sched.run := Acquiring(s.Want(c))],
       phase := s.phase[c := InSend(s.phase[c].k, s.sched.run)],
       waitCount := s.waitCount + 1,
       held := s.held[c := Turns.FREE.held],
       helder := s.helder[c := Turns.FREE.helder],
       sched := Wakeup(s.sched, c),
       released := s.released[c := s.released[c] + 1])
  }

  // ---------- The invariant ----------

  ghost predicate Shape(s: State) {
    && s.N() > 0
    && |s.held| == |s.helder| == |s.released| == |s.acquired| == s.N()
    && Scheduler.Inv(s.sched)
    && (forall j :: j in s.sched.waits <==> 0 <= j < s.N())
    && (forall t :: t in s.sched.status <==> 0 <= t <= s.N())
    && (forall t :: t in s.pc <==> 1 <= t <= s.N())
    && s.sched.run != BOOT
  }

  /** A thread in the acquire loop serves exactly the caller it saved, and vice versa. */
  ghost predicate Serving(s: State) {
    && (forall t | t in s.pc && s.pc[t].Acquiring? ::
          && t in s.slot && s.slot[t] < s.N() && s.pc[t].token == s.Want(s.slot[t])
          && s.phase[s.slot[t]].InCall() && s.phase[s.slot[t]].server == t)
    && (forall c: nat | c < s.N() && s.phase[c].InCall() ::
          var t := s.phase[c].server;
          t in s.pc && s.pc[t].Acquiring? && t in s.slot && s.slot[t] == c)
  }

  /** A sleeping thread is in the acquire loop of the token it sleeps on; a woken one finds the token
      free; and nobody sleeps on a free token. */
  ghost predicate Sleeping(s: State)
    requires Shape(s)
  {
    && (forall j, t | j in s.sched.waits && t in s.sched.waits[j] :: t in s.pc && s.pc[t] == Acquiring(j))
    && (forall t | t in s.sched.ready && t in s.pc && s.pc[t].Acquiring? ::
          s.pc[t].token < s.N() && !s.held[s.pc[t].token])
    && (forall j: nat | j < s.N() && !s.held[j] :: s.sched.waits[j] == [])
  }

  function FirstWait(s: State, c: nat): int { if c == s.N() - 1 then 0 else 1 }

  ghost predicate Counted(s: State, c: nat)
    requires c < s.N() == |s.released| == |s.acquired|
  {
    match s.phase[c]
    case CallWait => c != s.N() - 1 && s.released[c] == 0 && s.acquired[c] == 0
    case InWait(_) => c != s.N() - 1 && s.released[c] == 0 && s.acquired[c] == 0
    case CallSend(k) => k < s.rounds && s.released[c] == k && s.acquired[c] == k + FirstWait(s, c)
    case InSend(k, _) => k < s.rounds && s.released[c] == k + 1 && s.acquired[c] == k + FirstWait(s, c)
    case CallExit => s.released[c] == s.rounds && s.acquired[c] == s.rounds + FirstWait(s, c)
    case Done => s.released[c] == s.rounds && s.acquired[c] == s.rounds + FirstWait(s, c)
  }

  /** A token is free exactly when it was released once more than it was acquired. Only one that has been
      acquired records a thread; those taken at the start do not. */
  ghost predicate TokenCounted(s: State, j: nat)
    requires Shape(s) && j < s.N()
  {
    && s.released[j] - s.acquired[s.Prev(j)] == (if s.held[j] then 0 else 1)
    && (if s.held[j] && s.released[j] > 0 then 1 <= s.helder[j] <= s.N() else s.helder[j] == -1)
  }

  ghost predicate Counters(s: State)
    requires Shape(s)
  {
    && (forall c: nat | c < s.N() :: Counted(s, c))
    && (forall j: nat | j < s.N() :: TokenCounted(s, j))
    && s.waitCount == Sum(s.released)
  }

  ghost predicate Core(s: State) {
    Shape(s) && Serving(s) && Sleeping(s) && Counters(s)
  }

  // ---------- The baton ----------

  ghost function Free(s: State): seq<bool> {
    seq(|s.held|, j requires 0 <= j < |s.held| => !s.held[j])
  }

  ghost function Unblocked(s: State): seq<bool> {
    seq(s.N(), c requires 0 <= c < s.N() => !s.phase[c].Blocked())
  }

  lemma {:induction false} UnblockedSum(s: State, k: nat)
    requires Shape(s) && Counters(s) && k <= s.N()
    ensures Count(Unblocked(s)[..k]) == Sum(s.acquired[..k]) - Sum(s.released[..k]) + if k == s.N() then 1 else 0
  {
    hide Scheduler.Inv;
    if k > 0 {
      UnblockedSum(s, k - 1);
      assert Counted(s, k - 1);
      CountNext(Unblocked(s), k);
      SumNext(s.acquired, k);
      SumNext(s.released, k);
    }
  }

  lemma {:induction false} FreeSum(s: State, k: nat)
    requires Shape(s) && Counters(s) && 0 < k <= s.N()
    ensures Count(Free(s)[..k]) == Sum(s.released[..k]) - Sum(s.acquired[..k - 1]) - s.acquired[s.N() - 1]
  {
    hide Scheduler.Inv;
    assert TokenCounted(s, k - 1);
    CountNext(Free(s), k);
    SumNext(s.released, k);
    if k > 1 {
      FreeSum(s, k - 1);
      SumNext(s.acquired, k - 1);
    }
  }

  /** The baton: the clients that are not blocked and the tokens that are free are together one. */
  lemma Baton(s: State)
    requires Shape(s) && Counters(s)
    ensures Count(Unblocked(s)) + Count(Free(s)) == 1
  {
    var n := s.N();
    UnblockedSum(s, n);
    FreeSum(s, n);
    assert Unblocked(s)[..n] == Unblocked(s) && Free(s)[..n] == Free(s);
    assert s.released[..n] == s.released && s.acquired[..n] == s.acquired;
  }

  /** While some client is not blocked every token is held and every other client is blocked, so a
      release never hits a free token. */
  lemma HolderOfBaton(s: State, c: nat)
    requires Shape(s) && Counters(s) && c < s.N() && !s.phase[c].Blocked()
    ensures forall j: nat | j < s.N() :: s.held[j]
    ensures forall d: nat | d < s.N() && d != c :: s.phase[d].Blocked()
  {
    Baton(s);
    CountOne(Unblocked(s), c);
    forall j: nat | j < s.N() ensures s.held[j] {
      if Free(s)[j] { CountOne(Free(s), j); }
    }
    forall d: nat | d < s.N() && d != c ensures s.phase[d].Blocked() {
      if Unblocked(s)[d] {
        if c < d { CountTwo(Unblocked(s), c, d); } else { CountTwo(Unblocked(s), d, c); }
      }
    }
  }

  /** When every client is blocked some token is free. */
  lemma FreeToken(s: State) returns (j: nat)
    requires Shape(s) && Counters(s) && forall c: nat | c < s.N() :: s.phase[c].Blocked()
    ensures j < s.N() && !s.held[j]
  {
    Baton(s);
    CountNone(Unblocked(s));
    if forall j: nat | j < s.N() :: s.held[j] {
      CountNone(Free(s));
    }
    j :| j < s.N() && !s.held[j];
  }

  // ---------- Every step keeps the invariant ----------

  ghost predicate Receiving(s: State) {
    s.sched.run in s.pc && s.pc[s.sched.run] == AtReceive
  }

  ghost predicate Trying(s: State) {
    s.sched.run in s.pc && s.pc[s.sched.run].Acquiring?
  }

  /** Only one client wants a given token, so only one thread can be after it. */
  lemma OneTaker(s: State, t: Tid, u: Tid)
    requires Shape(s) && Serving(s) && t in s.pc && u in s.pc
    requires s.pc[t].Acquiring? && s.pc[t] == s.pc[u]
    ensures t == u
  {
    hide Scheduler.Inv;
    assert s.Want(s.slot[t]) == s.Want(s.slot[u]);
  }

  lemma OneWaiter(s: State, j: nat)
    requires Core(s) && j < s.N()
    ensures |s.sched.waits[j]| <= 1
  {
    hide Scheduler.Inv;
    InvFacts(s.sched);
    var q := s.sched.waits[j];
    if |q| > 1 {
      OneTaker(s, q[0], q[1]);
    }
  }

  lemma BeginWaitServing(s: State, c: nat)
    requires Core(s) && Receiving(s) && c < s.N() && s.phase[c] == CallWait
    ensures Serving(BeginWait(s, c))
  {
    hide Scheduler.Inv, Sleeping, Counters;
  }

  lemma BeginWaitSleeping(s: State, c: nat)
    requires Core(s) && Receiving(s) && c < s.N() && s.phase[c] == CallWait
    ensures Sleeping(BeginWait(s, c))
  {
    hide Scheduler.Inv, Serving, Counters;
    InvFacts(s.sched);
  }

  lemma BeginWaitKeeps(s: State, c: nat)
    requires Core(s) && Receiving(s) && c < s.N() && s.phase[c] == CallWait
    ensures Core(BeginWait(s, c)) && Trying(BeginWait(s, c))
  {
    hide Scheduler.Inv, Serving, Sleeping;
    BeginWaitServing(s, c);
    BeginWaitSleeping(s, c);
    var s' := BeginWait(s, c);
    forall d: nat | d < s.N() ensures Counted(s', d) {
      assert Counted(s, d);
    }
    forall j: nat | j < s.N() ensures TokenCounted(s', j) {
      assert TokenCounted(s, j);
    }
  }

  lemma BeginSendServing(s: State, c: nat)
    requires Core(s) && Receiving(s) && c < s.N() && s.phase[c].CallSend?
    ensures Serving(BeginSend(s, c))
  {
    hide Scheduler.Inv;
  }

  lemma BeginSendShape(s: State, c: nat)
    requires Core(s) && Receiving(s) && c < s.N() && s.phase[c].CallSend?
    ensures Shape(BeginSend(s, c))
  {
    hide Scheduler.Inv;
    WakeupKeeps(s.sched, c);
    WakeupFrame(s.sched, c);
  }

  lemma BeginSendSleeping(s: State, c: nat)
    requires Core(s) && Receiving(s) && c < s.N() && s.phase[c].CallSend?
    requires Shape(BeginSend(s, c))
    ensures Sleeping(BeginSend(s, c))
  {
    hide Scheduler.Inv, Wakeup, Counters, Serving, NoDup;
    InvFacts(s.sched);
    OneWaiter(s, c);
    WakeupFrame(s.sched, c);
    assert forall t | t in s.sched.waits[c] :: t != s.sched.run && s.pc[t] == Acquiring(c);
  }

  lemma BeginSendCounters(s: State, c: nat)
    requires Core(s) && Receiving(s) && c < s.N() && s.phase[c].CallSend?
    requires Shape(BeginSend(s, c))
    ensures Counters(BeginSend(s, c))
  {
    hide Scheduler.Inv;
    var s' := BeginSend(s, c);
    HolderOfBaton(s, c);
    SumUpdate(s.released, c, s.released[c] + 1);
    forall d: nat | d < s.N() ensures Counted(s', d) {
      assert Counted(s, d);
    }
    forall j: nat | j < s.N() ensures TokenCounted(s', j) {
      assert TokenCounted(s, j);
    }
  }

  lemma BeginSendKeeps(s: State, c: nat)
    requires Core(s) && Receiving(s) && c < s.N() && s.phase[c].CallSend?
    ensures Core(BeginSend(s, c)) && Trying(BeginSend(s, c))
  {
    hide Scheduler.Inv;
    BeginSendShape(s, c);
    BeginSendSleeping(s, c);
    BeginSendServing(s, c);
    BeginSendCounters(s, c);
  }

  lemma GrantServing(s: State)
    requires Core(s) && Trying(s) && !s.held[s.pc[s.sched.run].token]
    ensures Serving(Acquire(s)) && Receiving(Acquire(s))
  {
    hide Scheduler.Inv;
  }

  lemma GrantKeeps(s: State)
    requires Core(s) && Trying(s) && !s.held[s.pc[s.sched.run].token]
    ensures Core(Acquire(s)) && Receiving(Acquire(s))
  {
    hide Scheduler.Inv, Serving, Sleeping;
    GrantServing(s);
    GrantSleeping(s);
    GrantCounters(s);
  }

  lemma GrantCounters(s: State)
    requires Core(s) && Trying(s) && !s.held[s.pc[s.sched.run].token]
    ensures Shape(Acquire(s)) && Counters(Acquire(s))
  {
    hide Scheduler.Inv;
    var s' := Acquire(s);
    assert Counted(s, s.slot[s.sched.run]);
    forall d: nat | d < s.N() ensures Counted(s', d) {
      assert Counted(s, d);
    }
    forall j: nat | j < s.N() ensures TokenCounted(s', j) {
      assert TokenCounted(s, j);
    }
  }

  lemma GrantSleeping(s: State)
    requires Core(s) && Trying(s) && !s.held[s.pc[s.sched.run].token]
    ensures Shape(Acquire(s)) && Sleeping(Acquire(s))
  {
    hide Scheduler.Inv;
    InvFacts(s.sched);
    var r := s.sched.run;
    forall t | t in s.sched.ready && t in s.pc && s.pc[t].Acquiring? ensures s.pc[t].token != s.pc[r].token {
      if s.pc[t].token == s.pc[r].token {
        OneTaker(s, t, r);
      }
    }
  }

  lemma BlockSleeping(s: State)
    requires Core(s) && Trying(s) && s.held[s.pc[s.sched.run].token] && s.sched.ready != []
    ensures Shape(Acquire(s)) && Sleeping(Acquire(s))
    ensures Trying(Acquire(s)) ==>
              var j := Acquire(s).pc[Acquire(s).sched.run].token; j < |Acquire(s).held| && !Acquire(s).held[j]
  {
    hide Scheduler.Inv, Sleep, Counters;
    InvFacts(s.sched);
    SleepFrame(s.sched, s.pc[s.sched.run].token);
    assert Acquire(s).sched.run in s.sched.ready;
    assert forall t | t in Acquire(s).sched.ready :: t in s.sched.ready;
  }

  lemma BlockKeeps(s: State)
    requires Core(s) && Trying(s) && s.held[s.pc[s.sched.run].token] && s.sched.ready != []
    ensures Core(Acquire(s))
    ensures var s' := Acquire(s); Trying(s') ==> !s'.held[s'.pc[s'.sched.run].token]
  {
    hide Scheduler.Inv, Sleep, Sleeping;
    BlockSleeping(s);
    SleepFrame(s.sched, s.pc[s.sched.run].token);
    var s' := Acquire(s);
    forall d: nat | d < s.N() ensures Counted(s', d) {
      assert Counted(s, d);
    }
    forall j: nat | j < s.N() ensures TokenCounted(s', j) {
      assert TokenCounted(s, j);
    }
  }

  // ---------- The acquire loop never spins ----------

  ghost function Clients(s: State): set<nat> { Interval(0, s.N()) }

  /** If nobody is ready every other thread sleeps, so all threads serve clients. */
  lemma AllThreadsServe(s: State)
    requires Core(s) && Trying(s) && s.sched.ready == []
    ensures forall t | t in s.pc :: s.pc[t].Acquiring?
  {
    hide Scheduler.Inv;
    forall t | t in s.pc ensures s.pc[t].Acquiring? {
      if t != s.sched.run {
        var j := Parked(s.sched, t);
      }
    }
  }

  lemma AllClientsServed(s: State, c: nat)
    requires Core(s) && (forall t | t in s.pc :: s.pc[t].Acquiring?) && c < s.N()
    ensures s.phase[c].InCall()
  {
    hide Scheduler.Inv;
    var callers := map t | t in s.pc :: s.slot[t];
    assert callers.Keys == Interval(1, s.N() + 1);
    forall t, u | t in callers && u in callers && callers[t] == callers[u] ensures t == u {
      OneTaker(s, t, u);
    }
    Onto(callers, Clients(s), c);
  }

  /** The no-op branch of the sleep is never taken: whenever the running thread is about to sleep on
      a held token, some thread is ready. */
  lemma NeverSpins(s: State)
    requires Core(s) && Trying(s) && s.held[s.pc[s.sched.run].token]
    ensures s.sched.ready != []
  {
    if s.sched.ready == [] {
      AllThreadsServe(s);
      forall c: nat | c < s.N() ensures s.phase[c].InCall() {
        AllClientsServed(s, c);
      }
      var j := FreeToken(s);
      NobodyAfter(s, j);
    }
  }

  /** A free token whose client is in its call, with nobody ready, can only be the running thread's. */
  lemma NobodyAfter(s: State, j: nat)
    requires Core(s) && Trying(s) && j < s.N() && !s.held[j] && s.phase[s.Prev(j)].InCall() && s.sched.ready == []
    ensures s.pc[s.sched.run].token == j
  {
    hide Scheduler.Inv, Counters;
    var c: nat := s.Prev(j);
    var t := s.phase[c].server;
    assert s.Want(c) == j;
    assert s.pc[t] == Acquiring(j) && t in s.sched.status;
    if t != s.sched.run {
      var i := Parked(s.sched, t);
    }
  }

  // ---------- Steps and runs ----------

  /** The running thread receives a call, or goes round its acquire loop again after a sleep. */
  datatype Event = Receive(c: nat) | Retry

  ghost predicate Stable(s: State) {
    Core(s) && (Trying(s) ==> !s.held[s.pc[s.sched.run].token])
  }

  ghost predicate Enabled(s: State, e: Event) {
    match e
    case Receive(c) =>
      Receiving(s) && c < s.N() && (s.phase[c].CallWait? || s.phase[c].CallSend? || s.phase[c].CallExit?)
    case Retry => Trying(s)
  }

  /** The state in which the running thread enters, or re-enters, the acquire loop. */
  ghost function Begun(s: State, e: Event): State
    requires Stable(s) && Enabled(s, e) && (e.Receive? ==> !s.phase[e.c].CallExit?)
  {
    match e
    case Receive(c) => if s.phase[c].CallWait? then BeginWait(s, c) else BeginSend(s, c)
    case Retry => s
  }

  lemma BegunKeeps(s: State, e: Event)
    requires Stable(s) && Enabled(s, e) && (e.Receive? ==> !s.phase[e.c].CallExit?)
    ensures Core(Begun(s, e)) && Trying(Begun(s, e))
  {
    hide Core;
    match e
    case Receive(c) =>
      assert Core(s) && c < s.N();
      if s.phase[c].CallWait? { BeginWaitKeeps(s, c); } else { BeginSendKeeps(s, c); }
    case Retry =>
  }

  ghost function Step(s: State, e: Event): State
    requires Stable(s) && Enabled(s, e)
  {
    if e.Receive? && s.phase[e.c].CallExit? then s.(phase := s.phase[e.c := Done])
    else
      BegunKeeps(s, e);
      Acquire(Begun(s, e))
  }

  lemma AcquireKeeps(s: State)
    requires Core(s) && Trying(s)
    ensures Stable(Acquire(s))
  {
    if s.held[s.pc[s.sched.run].token] {
      NeverSpins(s);
      BlockKeeps(s);
    } else {
      GrantKeeps(s);
    }
  }

  lemma ExitKeeps(s: State, c: nat)
    requires Stable(s) && c < s.N() && s.phase[c].CallExit?
    ensures Stable(s.(phase := s.phase[c := Done]))
  {
    hide Scheduler.Inv;
    var s' := s.(phase := s.phase[c := Done]);
    forall d: nat | d < s.N() ensures Counted(s', d) {
      assert Counted(s, d);
    }
    forall j: nat | j < s.N() ensures TokenCounted(s', j) {
      assert TokenCounted(s, j);
    }
  }

  lemma StepKeeps(s: State, e: Event)
    requires Stable(s) && Enabled(s, e)
    ensures Stable(Step(s, e))
  {
    if e.Receive? && s.phase[e.c].CallExit? {
      ExitKeeps(s, e.c);
    } else {
      BegunKeeps(s, e);
      AcquireKeeps(Begun(s, e));
    }
  }

  ghost predicate CanRun(s: State, es: seq<Event>)
    requires Stable(s)
    decreases |es|
  {
    es == [] || (Enabled(s, es[0]) && (StepKeeps(s, es[0]); CanRun(Step(s, es[0]), es[1..])))
  }

  ghost function After(s: State, es: seq<Event>): (s': State)
    requires Stable(s) && CanRun(s, es)
    ensures Stable(s')
    decreases |es|
  {
    if es == [] then s
    else
      StepKeeps(s, es[0]);
      After(Step(s, es[0]), es[1..])
  }

  // ---------- What a step does to the scheduler ----------

  /** The scheduler's operations that an event consists of: the wake-up of the one who waits for a released
      token, and the sleep on a held one. */
  ghost function Ops(s: State, e: Event): seq<Op<nat>>
    requires Stable(s) && Enabled(s, e)
  {
    if e.Receive? && s.phase[e.c].CallExit? then []
    else
      BegunKeeps(s, e);
      var w := Begun(s, e).pc[s.sched.run].token;
      (if e.Receive? && s.phase[e.c].CallSend? then [WakeupOp(e.c)] else [])
      + if Begun(s, e).held[w] then [SleepOp(w)] else []
  }

  lemma AcquireRuns(s: State)
    requires Core(s) && Trying(s)
    ensures
      var w := s.pc[s.sched.run].token;
      Runs(s.sched, if s.held[w] then [SleepOp(w)] else [], Acquire(s).sched)
  {
    hide Scheduler.Inv, Sleeping, Counters;
    if s.held[s.pc[s.sched.run].token] {
      RunsOne(s.sched, SleepOp(s.pc[s.sched.run].token));
    }
  }

  /** Every event is a guarded run of the scheduler. */
  lemma StepRuns(s: State, e: Event)
    requires Stable(s) && Enabled(s, e)
    ensures Runs(s.sched, Ops(s, e), Step(s, e).sched)
  {
    hide Core, Wakeup, Acquire, Runs;
    if e.Receive? && s.phase[e.c].CallExit? {
      RunsNone(s.sched);
    } else {
      BegunKeeps(s, e);
      var b := Begun(s, e);
      Wanted(b);
      AcquireRuns(b);
      var ops := if b.held[b.pc[b.sched.run].token] then [SleepOp(b.pc[b.sched.run].token)] else [];
      assert [] + ops == ops;
      if e.Receive? && s.phase[e.c].CallSend? {
        Releases(s, e.c);
        RunsThen(s.sched, WakeupOp(e.c), ops, Step(s, e).sched);
      }
    }
  }

  lemma Releases(s: State, c: nat)
    requires Core(s) && c < s.N() && s.phase[c].CallSend?
    ensures c in s.sched.waits && c < |s.held| == |s.helder| == |s.released|
    ensures BeginSend(s, c).sched == Wakeup(s.sched, c) && Wakeup(s.sched, c).run == s.sched.run
    ensures Scheduler.Inv(s.sched)
  {
    hide Scheduler.Inv;
  }

  // ---------- Rounds advance together ----------

  lemma {:induction false} NoFurtherThanLast(s: State, j: nat)
    requires Shape(s) && Counters(s) && j < s.N()
    ensures s.released[j] <= s.released[s.N() - 1]
    decreases s.N() - j
  {
    if j < s.N() - 1 {
      NoFurtherThanLast(s, j + 1);
      assert Counted(s, j) && TokenCounted(s, j + 1);
    }
  }

  lemma {:induction false} AtMostOneBehind(s: State, j: nat)
    requires Shape(s) && Counters(s) && j < s.N()
    ensures s.released[s.N() - 1] - 1 <= s.acquired[s.N() - 1] <= s.released[j]
    decreases j
  {
    assert Counted(s, s.N() - 1);
    assert TokenCounted(s, j);
    if j > 0 {
      assert Counted(s, j - 1);
      AtMostOneBehind(s, j - 1);
    }
  }

  /** The numbers of releases performed by any two clients differ by at most one. */
  lemma RoundsTogether(s: State, i: nat, j: nat)
    requires Core(s) && i < s.N() && j < s.N()
    ensures -1 <= s.released[i] - s.released[j] <= 1
  {
    NoFurtherThanLast(s, i);
    NoFurtherThanLast(s, j);
    AtMostOneBehind(s, i);
    AtMostOneBehind(s, j);
  }

  // ---------- Progress and termination ----------

  /** A thread at the receive always has a client that is not in a call. */
  lemma SomeoneOutside(s: State) returns (c: nat)
    requires Core(s) && Receiving(s)
    ensures c < s.N() && !s.phase[c].InCall()
  {
    hide Scheduler.Inv, Counters, Sleeping, Interval;
    if forall c: nat | c < s.N() :: s.phase[c].InCall() {
      var servers := map c: nat | c in Clients(s) :: s.phase[c].server;
      assert servers.Keys == Clients(s);
      Pigeonhole(servers, Interval(1, s.N() + 1) - {s.sched.run});
    }
    c :| c < s.N() && !s.phase[c].InCall();
  }

  lemma NotOverdrawn(s: State, c: nat)
    requires Shape(s) && Counters(s) && c < s.N() - 1
    ensures s.acquired[c] <= s.rounds
  {
    assert TokenCounted(s, c + 1) && Counted(s, c + 1);
  }

  /** Only client `n - 1` ever gets through all its rounds, and then everybody has done all releases. */
  lemma WhoFinishes(s: State, c: nat)
    requires Core(s) && c < s.N() && (s.phase[c].CallExit? || s.phase[c].Done?)
    ensures c == s.N() - 1
    ensures forall j: nat | j < s.N() :: s.released[j] == s.rounds
    ensures s.waitCount == s.N() * s.rounds
  {
    hide Scheduler.Inv;
    assert Counted(s, c);
    if c < s.N() - 1 {
      NotOverdrawn(s, c);
    }
    forall j: nat | j < s.N() ensures s.released[j] == s.rounds {
      NoFurtherThanLast(s, j);
      AtMostOneBehind(s, j);
      assert Counted(s, j);
    }
    SumConstant(s.released, s.rounds);
  }

  /** The ring never gets stuck: when no step is possible, client `n - 1` has terminated, every client
      has released its token in every round, and the printed wait count is `n * rounds`. */
  lemma StuckOnlyAtTheEnd(s: State)
    requires Stable(s) && forall e :: !Enabled(s, e)
    ensures s.phase[s.N() - 1].Done?
    ensures forall j: nat | j < s.N() :: s.released[j] == s.rounds
    ensures s.waitCount == s.N() * s.rounds
  {
    assert !Enabled(s, Retry);
    assert s.sched.run in s.sched.status;
    var c := SomeoneOutside(s);
    assert !Enabled(s, Receive(c));
    WhoFinishes(s, c);
  }

  /** How many more steps a client in this phase can cause. */
  ghost function Rank(rounds: nat, p: Phase): int {
    match p
    case CallWait => 2 * rounds + 3
    case InWait(_) => 2 * rounds + 2
    case CallSend(k) => 2 * (rounds - k) + 1
    case InSend(k, _) => 2 * (rounds - k)
    case CallExit => 1
    case Done => 0
  }

  ghost function Ranks(s: State): seq<int> {
    seq(s.N(), c requires 0 <= c < s.N() => Rank(s.rounds, s.phase[c]))
  }

  /** No client is further from its end in `s'` than in `s`. */
  ghost predicate NoneBack(s: State, s': State) {
    && s'.N() == s.N() && s'.rounds == s.rounds
    && forall c: nat | c < s.N() :: Rank(s.rounds, s'.phase[c]) <= Rank(s.rounds, s.phase[c])
  }

  lemma RankChange(s: State, s': State, c: nat)
    requires c < s.N() == s'.N() && s'.rounds == s.rounds && s'.phase == s.phase[c := s'.phase[c]]
    ensures Sum(Ranks(s')) == Sum(Ranks(s)) - Rank(s.rounds, s.phase[c]) + Rank(s.rounds, s'.phase[c])
    ensures NoneBack(s, s') <==> Rank(s.rounds, s'.phase[c]) <= Rank(s.rounds, s.phase[c])
  {
    assert Ranks(s') == Ranks(s)[c := Rank(s.rounds, s'.phase[c])];
    SumUpdate(Ranks(s), c, Rank(s.rounds, s'.phase[c]));
  }

  lemma BegunRank(s: State, e: Event)
    requires Stable(s) && Enabled(s, e) && e.Receive? && !s.phase[e.c].CallExit?
    ensures Sum(Ranks(Begun(s, e))) == Sum(Ranks(s)) - 1 && NoneBack(s, Begun(s, e))
  {
    hide Scheduler.Inv;
    RankChange(s, Begun(s, e), e.c);
  }

  lemma GrantRank(s: State)
    requires Core(s) && Trying(s) && !s.held[s.pc[s.sched.run].token]
    ensures Sum(Ranks(Acquire(s))) < Sum(Ranks(s)) && NoneBack(s, Acquire(s))
  {
    hide Scheduler.Inv;
    assert Counted(s, s.slot[s.sched.run]);
    RankChange(s, Acquire(s), s.slot[s.sched.run]);
  }

  lemma BlockRank(s: State)
    requires Core(s) && Trying(s) && s.held[s.pc[s.sched.run].token]
    ensures Sum(Ranks(Acquire(s))) == Sum(Ranks(s)) && NoneBack(s, Acquire(s))
  {
    hide Scheduler.Inv;
    assert Ranks(Acquire(s)) == Ranks(s);
  }

  /** Every step brings some client nearer its end, and none takes one back. */
  lemma StepDescends(s: State, e: Event)
    requires Stable(s) && Enabled(s, e)
    ensures Sum(Ranks(Step(s, e))) < Sum(Ranks(s)) && NoneBack(s, Step(s, e))
  {
    hide Scheduler.Inv;
    if e.Receive? && s.phase[e.c].CallExit? {
      RankChange(s, Step(s, e), e.c);
    } else {
      BegunKeeps(s, e);
      var s1 := Begun(s, e);
      if e.Receive? { BegunRank(s, e); }
      if s1.held[s1.pc[s1.sched.run].token] { BlockRank(s1); } else { GrantRank(s1); }
    }
  }

  lemma {:induction false} RanksNonNegative(s: State, k: nat)
    requires Shape(s) && Counters(s) && k <= s.N()
    ensures Sum(Ranks(s)[..k]) >= 0
  {
    if k > 0 {
      RanksNonNegative(s, k - 1);
      assert Counted(s, k - 1);
      SumNext(Ranks(s), k);
    }
  }

  /** No run is longer than the calls its clients have left: every run ends. */
  lemma {:induction false} RunsEnd(s: State, es: seq<Event>)
    requires Stable(s) && CanRun(s, es)
    ensures |es| + Sum(Ranks(After(s, es))) <= Sum(Ranks(s))
    ensures |es| <= Sum(Ranks(s))
    decreases |es|
  {
    if es != [] {
      StepKeeps(s, es[0]);
      StepDescends(s, es[0]);
      RunsEnd(Step(s, es[0]), es[1..]);
    } else {
      assert Ranks(s)[..s.N()] == Ranks(s);
      RanksNonNegative(s, s.N());
    }
  }

  // ---------- The start ----------

  ghost function Tokens(n: nat): (q: seq<nat>)
    ensures forall j :: j in q <==> 0 <= j < n
  {
    if n == 0 then [] else Tokens(n - 1) + [n - 1]
  }

  ghost function AllReceiving(n: nat): (pc: map<Tid, Pc>)
    ensures forall t :: t in pc <==> 1 <= t <= n
    ensures forall t | t in pc :: pc[t] == AtReceive
  {
    if n == 0 then map[] else AllReceiving(n - 1)[n := AtReceive]
  }

  /** Clients are numbered by the id their INIT reply carries, and all tokens are held. */
  ghost function Start(n: nat, rounds: nat): State
    requires 0 < n < MAX_CAPACITY
  {
    State(rounds, Booted(Tokens(n), n), seq(n, _ => true), seq(n, _ => -1),
          AllReceiving(n), map[],
          seq(n, c => if c < n - 1 then CallWait else if rounds > 0 then CallSend(0) else CallExit),
          seq(n, _ => 0), seq(n, _ => 0), 0)
  }

  lemma {:induction false} RanksBounded(s: State, k: nat)
    requires k <= s.N() && forall c: nat | c < s.N() :: Rank(s.rounds, s.phase[c]) <= 2 * s.rounds + 3
    ensures Sum(Ranks(s)[..k]) <= k * (2 * s.rounds + 3)
  {
    if k > 0 {
      RanksBounded(s, k - 1);
      SumNext(Ranks(s), k);
      assert k * (2 * s.rounds + 3) == (k - 1) * (2 * s.rounds + 3) + (2 * s.rounds + 3);
    }
  }

  lemma StartIsStable(n: nat, rounds: nat)
    requires 0 < n < MAX_CAPACITY
    ensures Stable(Start(n, rounds)) && Receiving(Start(n, rounds))
  {
    hide Scheduler.Inv, Booted;
    var s := Start(n, rounds);
    assert Shape(s);
    forall j: nat | j < n ensures TokenCounted(s, j) && Counted(s, j) {
    }
    SumConstant(s.released, 0);
  }

  // ---------- The ring, for any number of clients and rounds and any order of calls ----------

  /** Every run is bounded, and at every point of it the baton is one and no two clients are more
      than one round apart. */
  lemma RingAlways(n: nat, rounds: nat, es: seq<Event>, i: nat, j: nat)
    requires 0 < n < MAX_CAPACITY && Stable(Start(n, rounds)) && CanRun(Start(n, rounds), es)
    requires var s := After(Start(n, rounds), es); i < s.N() && j < s.N()
    ensures
      var s := After(Start(n, rounds), es);
      && Count(Unblocked(s)) + Count(Free(s)) == 1
      && -1 <= s.released[i] - s.released[j] <= 1
      && |es| <= n * (2 * rounds + 3)
  {
    hide Scheduler.Inv, Booted, Serving, Sleeping;
    RunsEnd(Start(n, rounds), es);
    StartRanks(n, rounds);
    Baton(After(Start(n, rounds), es));
    RoundsTogether(After(Start(n, rounds), es), i, j);
  }

  lemma StartRanks(n: nat, rounds: nat)
    requires 0 < n < MAX_CAPACITY
    ensures Sum(Ranks(Start(n, rounds))) <= n * (2 * rounds + 3)
  {
    hide Scheduler.Inv, Booted;
    var s0 := Start(n, rounds);
    RanksBounded(s0, n);
    assert Ranks(s0)[..n] == Ranks(s0);
  }

  /** A run can only stop with client `n - 1` terminated and every round of every client performed. */
  lemma RingStopsComplete(n: nat, rounds: nat, es: seq<Event>)
    requires 0 < n < MAX_CAPACITY && Stable(Start(n, rounds)) && CanRun(Start(n, rounds), es)
    requires forall e :: !Enabled(After(Start(n, rounds), es), e)
    ensures
      var s := After(Start(n, rounds), es);
      && s.N() == n && s.phase[n - 1].Done? && s.waitCount == n * rounds
      && forall j: nat | j < n :: s.released[j] == rounds
  {
    hide Scheduler.Inv, Shape, Booted, Serving, Sleeping, Counters, Enabled;
    ConfigurationFixed(Start(n, rounds), es);
    StuckOnlyAtTheEnd(After(Start(n, rounds), es));
  }

  lemma {:induction false} ConfigurationFixed(s: State, es: seq<Event>)
    requires Stable(s) && CanRun(s, es)
    ensures After(s, es).N() == s.N() && After(s, es).rounds == s.rounds
    decreases |es|
  {
    hide Scheduler.Inv, Serving, Sleeping, Counters;
    if es != [] {
      StepKeeps(s, es[0]);
      ConfigurationFixed(Step(s, es[0]), es[1..]);
    }
  }

  // ---------- Replies ----------

  /** The reply sent when an acquire succeeds goes to the client whose call this very thread received
      and which still waits for it; nobody else's call is answered. */
  lemma ReplyReachesCaller(s: State)
    requires Core(s) && Trying(s) && !s.held[s.pc[s.sched.run].token]
    ensures
      var c := s.slot[s.sched.run];
      var s' := Acquire(s);
      && s.phase[c].InCall() && s.phase[c].server == s.sched.run && !s'.phase[c].InCall()
      && s.Want(c) == s.pc[s.sched.run].token
      && forall d: nat | d < s.N() && d != c :: s'.phase[d] == s.phase[d]
  {
    hide Scheduler.Inv;
  }

  lemma AcquireUntouched(s: State, t: Tid)
    requires Core(s) && Trying(s) && t in s.pc && t != s.sched.run
    ensures t in Acquire(s).pc && Acquire(s).pc[t] == s.pc[t] && Acquire(s).slot == s.slot
  {
    hide Scheduler.Inv;
  }

  /** While a thread sleeps no other thread touches its saved caller or its place in the code. */
  lemma SleeperUntouched(s: State, e: Event, t: Tid)
    requires Stable(s) && Enabled(s, e) && t in s.pc && t != s.sched.run
    ensures t in Step(s, e).pc && Step(s, e).pc[t] == s.pc[t]
    ensures t in s.slot ==> t in Step(s, e).slot && Step(s, e).slot[t] == s.slot[t]
  {
    hide Scheduler.Inv, Acquire, Serving, Sleeping, Counters;
    if !(e.Receive? && s.phase[e.c].CallExit?) {
      BegunKeeps(s, e);
      assert Begun(s, e).sched.run == s.sched.run;
      AcquireUntouched(Begun(s, e), t);
    }
  }

  /** Over a whole run in which `t` is not dispatched, its saved caller and its place stay as they are. */
  ghost predicate NeverRuns(s: State, es: seq<Event>, t: Tid)
    requires Stable(s) && CanRun(s, es)
    decreases |es|
  {
    es == [] || (t != s.sched.run && (StepKeeps(s, es[0]); NeverRuns(Step(s, es[0]), es[1..], t)))
  }

  lemma {:induction false} SleeperKept(s: State, es: seq<Event>, t: Tid)
    requires Stable(s) && CanRun(s, es) && t in s.pc && NeverRuns(s, es, t)
    ensures t in After(s, es).pc && After(s, es).pc[t] == s.pc[t]
    ensures t in s.slot ==> t in After(s, es).slot && After(s, es).slot[t] == s.slot[t]
    decreases |es|
  {
    hide Stable, Enabled;
    if es != [] {
      StepKeeps(s, es[0]);
      SleeperUntouched(s, es[0], t);
      SleeperKept(Step(s, es[0]), es[1..], t);
    }
  }

  /** In every reachable state, whatever comes next: if the acquire then has to sleep, some thread is
      ready and control passes to it. */
  lemma RingNeverSpins(n: nat, rounds: nat, es: seq<Event>, e: Event)
    requires 0 < n < MAX_CAPACITY && Stable(Start(n, rounds)) && CanRun(Start(n, rounds), es)
    requires var s := After(Start(n, rounds), es); Enabled(s, e) && (e.Receive? ==> !s.phase[e.c].CallExit?)
    ensures
      var s := After(Start(n, rounds), es);
      var b := Begun(s, e);
      && Core(b) && Trying(b)
      && (b.held[b.pc[b.sched.run].token] ==>
            b.sched.ready != [] && Step(s, e).sched.run == b.sched.ready[0] != b.sched.run)
  {
    hide Core, Booted, Start;
    var s := After(Start(n, rounds), es);
    BegunKeeps(s, e);
    var b := Begun(s, e);
    Wanted(b);
    if b.held[b.pc[b.sched.run].token] {
      NeverSpins(b);
      SleepsHere(b);
    }
  }

  lemma Wanted(s: State)
    requires Core(s) && Trying(s)
    ensures s.pc[s.sched.run].token < |s.held|
  {
    hide Scheduler.Inv;
  }

  lemma SleepsHere(s: State)
    requires Core(s) && Trying(s) && s.held[s.pc[s.sched.run].token] && s.sched.ready != []
    ensures Acquire(s).sched.run == s.sched.ready[0] != s.sched.run
  {
    hide Scheduler.Inv, Sleep;
    InvFacts(s.sched);
    assert s.sched.ready[0] in s.sched.ready;
    SleepFrame(s.sched, s.pc[s.sched.run].token);
  }

  function Waits(p: Phase): int { if p.InCall() then 1 else 0 }

  predicate IsCall(s: State, e: Event, c: nat) {
    e == Receive(c) && c < s.N() && !s.phase[c].CallExit?
  }

  lemma GrantAnswers(s: State, c: nat)
    requires Core(s) && Trying(s) && c < s.N()
    ensures
      var s' := Acquire(s);
      c < s'.N() && c < |s'.acquired| && s'.acquired[c] + Waits(s'.phase[c]) == s.acquired[c] + Waits(s.phase[c])
  {
    hide Scheduler.Inv;
  }

  lemma BegunWaits(s: State, e: Event, c: nat)
    requires Stable(s) && Enabled(s, e) && (e.Receive? ==> !s.phase[e.c].CallExit?) && c < s.N()
    ensures
      var b := Begun(s, e);
      b.N() == s.N() && b.acquired == s.acquired
      && Waits(b.phase[c]) == Waits(s.phase[c]) + if IsCall(s, e, c) then 1 else 0
  {
    hide Scheduler.Inv;
  }

  lemma StepAnswers(s: State, e: Event, c: nat)
    requires Stable(s) && Enabled(s, e) && c < s.N()
    ensures
      var s' := Step(s, e);
      && c < s'.N() == s.N() && c < |s'.acquired|
      && s'.acquired[c] + Waits(s'.phase[c]) ==
         s.acquired[c] + Waits(s.phase[c]) + if IsCall(s, e, c) then 1 else 0
  {
    hide Scheduler.Inv, Acquire, Begun, Serving, Sleeping, Counters;
    if !(e.Receive? && s.phase[e.c].CallExit?) {
      BegunKeeps(s, e);
      BegunWaits(s, e, c);
      GrantAnswers(Begun(s, e), c);
      StepKeeps(s, e);
      SameClients(Begun(s, e));
    }
  }

  lemma SameClients(s: State)
    requires Core(s) && Trying(s)
    ensures Acquire(s).N() == s.N()
  {
    hide Scheduler.Inv;
  }

  ghost function Calls(s: State, es: seq<Event>, c: nat): nat
    requires Stable(s) && CanRun(s, es)
    decreases |es|
  {
    if es == [] then 0
    else
      StepKeeps(s, es[0]);
      (if IsCall(s, es[0], c) then 1 else 0) + Calls(Step(s, es[0]), es[1..], c)
  }

  lemma {:induction false} RunAnswers(s: State, es: seq<Event>, c: nat)
    requires Stable(s) && CanRun(s, es) && c < s.N()
    ensures
      var s' := After(s, es);
      && c < s'.N() && c < |s'.acquired|
      && s'.acquired[c] + Waits(s'.phase[c]) == s.acquired[c] + Waits(s.phase[c]) + Calls(s, es, c)
    decreases |es|
  {
    hide Stable, Enabled, IsCall, Waits;
    Lengths(s);
    if es != [] {
      StepKeeps(s, es[0]);
      StepAnswers(s, es[0], c);
      RunAnswers(Step(s, es[0]), es[1..], c);
    }
  }

  lemma Lengths(s: State)
    requires Stable(s)
    ensures |s.acquired| == s.N()
  {
  }

  /** Every WAIT and SEND_WAIT call is answered at most once: from the start on, a client has had as many
      replies as it has made calls, one fewer while it waits for the last. */
  lemma CallsAnswered(n: nat, rounds: nat, es: seq<Event>, c: nat)
    requires 0 < n < MAX_CAPACITY && Stable(Start(n, rounds)) && CanRun(Start(n, rounds), es) && c < n
    ensures
      var s := After(Start(n, rounds), es);
      && c < s.N() && c < |s.acquired|
      && s.acquired[c] == Calls(Start(n, rounds), es, c) - if s.phase[c].InCall() then 1 else 0
  {
    hide Stable, Booted;
    RunAnswers(Start(n, rounds), es, c);
  }

  lemma StartTaken(n: nat, rounds: nat, c: nat)
    requires 0 < n < MAX_CAPACITY && c < n - 1
    ensures var s := Start(n, rounds);
      && s.sched.run == n && s.sched.ready != [] && s.sched.ready[0] == 1
      && s.N() == n && s.phase[c].CallWait? && forall j | 0 <= j < |s.held| :: s.held[j]
  {
    hide Scheduler.Inv, Booted;
  }

  /** The first call finds its token taken, unless it is the last client's, and dispatches thread 1. */
  lemma FirstHandOver(n: nat, rounds: nat, c: nat)
    requires 0 < n < MAX_CAPACITY && c < n - 1 && Stable(Start(n, rounds)) && Enabled(Start(n, rounds), Receive(c))
    ensures Step(Start(n, rounds), Receive(c)).sched.run == 1
  {
    hide Core, Start, Acquire;
    var s := Start(n, rounds);
    StartTaken(n, rounds, c);
    assert After(s, []) == s;
    RingNeverSpins(n, rounds, [], Receive(c));
    BegunKeeps(s, Receive(c));
    Wanted(Begun(s, Receive(c)));
  }
}
