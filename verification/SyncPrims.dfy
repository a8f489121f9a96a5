/** Locks, semaphores and condition variables over the scheduler. All three are retry loops around
    the sleep, so a woken thread may find that another thread got there first. Control passes to
    another thread only inside a sleep, a yield, a resume or an exit: one step is what the running
    thread does up to that point. */
module SyncPrims {
  import opened Sequences
  import opened Scheduler
  import opened Boot
  import opened Turns

  type Name = nat

  /** What a thread goes on with when it is next dispatched. */
  datatype Pc =
    | Idle
    | Acquiring(lock: Name)
    | Downing(sem: Name)
    | InCvWait(cv: Name, lock: Name)

  /** `own` is a history variable: who has acquired a lock and not released it. */
  datatype State = State(
    sched: Sched<Name>,
    locks: map<Name, Lock>,
    sems: map<Name, nat>,
    cvs: set<Name>,
    pc: map<Tid, Pc>,
    own: map<Name, set<Tid>>)
  {
    function Run(): Tid { sched.run }
  }

  // ---------- The operations ----------

  /** After a turn that ended in a sleep, to go on with `pc` when dispatched again. */
  function Slept(s: State, o: Option<Sched<Name>>, pc: Pc): State {
    match o
    case Some(sched) => s.(sched := sched, pc := s.pc[s.Run() := pc])
    case None => s
  }

  function SleepOn(s: State, p: Name, pc: Pc): State
    requires p in s.sched.waits
  {
    Slept(s, Sleep(s.sched, p), pc)
  }

  /** After a turn that got the lock. */
  function Granted(s: State, l: Name, lock: Lock): State
    requires l in s.own
  {
    s.(locks := s.locks[l := lock], own := s.own[l := s.own[l] + {s.Run()}], pc := s.pc[s.Run() := Idle])
  }

  /** The acquire loop up to the grant or the sleep. */
  function TryAcquire(s: State, l: Name): State
    requires l in s.locks && l in s.own && l in s.sched.waits
  {
    var t := Acquire(s.locks[l], s.sched, l);
    if t.done then Granted(s, l, t.value) else Slept(s, t.sched, Acquiring(l))
  }

  function Release(s: State, l: Name): State
    requires l in s.locks && l in s.own && l in s.sched.waits
  {
    s.(locks := s.locks[l := FREE], own := s.own[l := s.own[l] - {s.Run()}], sched := Wakeup(s.sched, l))
  }

  /** The P loop up to the decrement or the sleep. */
  function TryDown(s: State, m: Name): State
    requires m in s.sems && m in s.sched.waits
  {
    var t := Down(s.sems[m], s.sched, m);
    if t.done then s.(sems := s.sems[m := t.value], pc := s.pc[s.Run() := Idle])
    else Slept(s, t.sched, Downing(m))
  }

  function Up(s: State, m: Name): State
    requires m in s.sems && m in s.sched.waits
  {
    s.(sems := s.sems[m := s.sems[m] + 1], sched := Wakeup(s.sched, m))
  }

  /** The wait on a condition variable: release, sleep, and once dispatched again the acquire loop. */
  function CvWait(s: State, cv: Name, l: Name): State
    requires cv in s.sched.waits && l in s.locks && l in s.own && l in s.sched.waits
  {
    var s1 := Release(s, l);
    var t := WaitOn(s1.sched, cv, l);
    if t.done then Granted(s1, l, t.value) else Slept(s1, t.sched, InCvWait(cv, l))
  }

  /** Destroying a lock or semaphore, which fails if a thread is in its queue. */
  function Destroy(s: State, p: Name): Option<State>
    requires p in s.sched.waits
  {
    if s.sched.waits[p] != [] then None
    else Some(s.(sched := DropPrim(s.sched, p), locks := s.locks - {p}, sems := s.sems - {p}, own := s.own - {p}))
  }

  /** Will a thread that goes on with `pc` look at the lock or semaphore `p`? */
  predicate Uses(pc: Pc, p: Name) {
    pc == Acquiring(p) || pc == Downing(p) || (pc.InCvWait? && pc.lock == p)
  }

  /** When destroying is safe: nobody is in the queue, and no thread will look at it again. */
  predicate Disused(s: State, p: Name) {
    p in s.sched.waits && s.sched.waits[p] == [] && forall t | t in s.pc :: !Uses(s.pc[t], p)
  }

  datatype Event =
    | AcquireCall(l: Name)
    | ReleaseCall(l: Name)
    | PCall(m: Name)
    | VCall(m: Name)
    | CvWaitCall(cv: Name, l: Name)
    | CvSignalCall(cv: Name)
    | DestroyCall(p: Name)
    | CreateCall
    | YieldCall
    | ResumeCall(t: Tid)
    | ExitCall
    | Continue

  predicate Known(s: State, e: Event) {
    && (e.AcquireCall? || e.ReleaseCall? || e.CvWaitCall? ==> e.l in s.locks)
    && (e.PCall? || e.VCall? ==> e.m in s.sems)
    && (e.CvWaitCall? || e.CvSignalCall? ==> e.cv in s.cvs)
  }

  /** What the running thread may do next: go on with a loop it is in, or else make a call. */
  predicate Enabled(s: State, e: Event) {
    && s.Run() in s.pc && Known(s, e)
    && (e.Continue? <==> s.pc[s.Run()] != Idle)
    && (e.CreateCall? ==> s.sched.newId < MAX_CAPACITY)
    && (e.ResumeCall? ==> e.t in s.sched.ready)
    && (e.DestroyCall? ==> (e.p in s.locks || e.p in s.sems) && Disused(s, e.p))
    && (e.YieldCall? || e.ExitCall? ==> s.sched.ready != [])
  }

  ghost function Step(s: State, e: Event): State
    requires Inv(s) && Enabled(s, e)
  {
    match e
    case AcquireCall(l) => TryAcquire(s, l)
    case ReleaseCall(l) => Release(s, l)
    case PCall(m) => TryDown(s, m)
    case VCall(m) => Up(s, m)
    case CvWaitCall(cv, l) => CvWait(s, cv, l)
    case CvSignalCall(cv) => s.(sched := Wakeup(s.sched, cv))
    case DestroyCall(p) => Destroy(s, p).value
    case CreateCall =>
      CreateFrame(s.sched);
      s.(sched := Create(s.sched).value, pc := s.pc[s.sched.newId := Idle])
    case YieldCall =>
      ResumeFrame(s.sched, s.sched.ready[0]);
      s.(sched := Resume(s.sched, s.sched.ready[0]).value)
    case ResumeCall(t) =>
      ResumeFrame(s.sched, t);
      s.(sched := Resume(s.sched, t).value)
    case ExitCall =>
      ExitFrame(s.sched);
      s.(sched := Exit(s.sched).value, pc := s.pc - {s.Run()})
    case Continue =>
      match s.pc[s.Run()]
      case Acquiring(l) => TryAcquire(s, l)
      case InCvWait(_, l) => TryAcquire(s, l)
      case Downing(m) => TryDown(s, m)
      case Idle => s
  }

  // ---------- The invariant ----------

  ghost predicate Shape(s: State) {
    && Scheduler.Inv(s.sched) && s.Run() != BOOT
    && s.pc.Keys == s.sched.status.Keys - {BOOT}
    && s.sched.waits.Keys == s.locks.Keys + s.sems.Keys + s.cvs
    && s.locks.Keys !! s.sems.Keys && s.locks.Keys !! s.cvs && s.sems.Keys !! s.cvs
    && s.own.Keys == s.locks.Keys
  }

  /** A thread in a loop is in a loop on something that exists, and sleeps only on that. */
  ghost predicate Loops(s: State)
    requires Shape(s)
  {
    && (forall t | t in s.pc :: Grounded(s, s.pc[t]))
    && (forall p, t | p in s.sched.waits && t in s.sched.waits[p] :: t in s.pc && SleepsOn(s.pc[t], p))
  }

  predicate Grounded(s: State, pc: Pc) {
    match pc
    case Idle => true
    case Acquiring(l) => l in s.locks
    case Downing(m) => m in s.sems
    case InCvWait(cv, l) => cv in s.cvs && l in s.locks
  }

  predicate SleepsOn(pc: Pc, p: Name) {
    match pc
    case Idle => false
    case Acquiring(l) => l == p
    case Downing(m) => m == p
    case InCvWait(cv, _) => cv == p
  }

  /** Threads woken from `p`'s queue, or spinning, that have yet to go round their loop on `p`. */
  ghost function Pending(s: State, p: Name): set<Tid>
    requires p in s.sched.waits
  {
    set t | t in s.pc && SleepsOn(s.pc[t], p) && t !in s.sched.waits[p]
  }

  /** No lost wake-up: a free lock with waiters has a woken acquirer, and a semaphore with waiters
      has at least as many woken threads as its count. */
  ghost predicate NothingLost(s: State)
    requires Shape(s)
  {
    && (forall l | l in s.locks && !s.locks[l].held && s.sched.waits[l] != [] :: Pending(s, l) != {})
    && (forall m | m in s.sems && s.sched.waits[m] != [] :: |Pending(s, m)| >= s.sems[m])
  }

  ghost predicate Inv(s: State) {
    Shape(s) && Loops(s) && NothingLost(s)
  }

  // ---------- Every step keeps it ----------

  /** A lock or semaphore whose queue and whose loops did not change keeps its pending threads. */
  lemma PendingSame(s: State, s': State, q: Name, r: Tid)
    requires q in s.sched.waits && q in s'.sched.waits && s'.sched.waits[q] == s.sched.waits[q]
    requires forall t | t != r :: (t in s.pc <==> t in s'.pc) && (t in s.pc ==> s'.pc[t] == s.pc[t])
    requires r in s.pc ==> !SleepsOn(s.pc[r], q)
    requires r in s'.pc ==> !SleepsOn(s'.pc[r], q)
    ensures Pending(s', q) == Pending(s, q)
  {
  }

  /** The running thread is in no loop on a lock or semaphore other than `p`. */
  ghost predicate OnlyOn(s: State, p: Name) {
    s.Run() in s.pc && forall q | (q in s.locks || q in s.sems) && q != p :: !SleepsOn(s.pc[s.Run()], q)
  }

  lemma SleepCases(s: Sched<Name>, p: Name)
    requires Scheduler.Inv(s) && p in s.waits && s.run != BOOT
    ensures Sleep(s, p).Some?
    ensures var s' := Sleep(s, p).value;
      if s.ready == [] then s' == s
      else Scheduler.Inv(s') && s'.run == s.ready[0] && s'.run != BOOT && s'.status.Keys == s.status.Keys
           && s'.waits == s.waits[p := s.waits[p] + [s.run]]
  {
    InvFacts(s);
    if s.ready != [] {
      SleepFrame(s, p);
    }
  }

  lemma SleepOnShape(s: State, p: Name, pc: Pc)
    requires Inv(s) && p in s.sched.waits && s.Run() in s.pc && SleepsOn(pc, p) && Grounded(s, pc)
    ensures Shape(SleepOn(s, p, pc)) && Loops(SleepOn(s, p, pc))
  {
    hide Scheduler.Inv, NothingLost, Sleep;
    InvFacts(s.sched);
    SleepCases(s.sched, p);
  }

  lemma SleepOnKeeps(s: State, p: Name, pc: Pc)
    requires Inv(s) && p in s.sched.waits && OnlyOn(s, p) && SleepsOn(pc, p) && Grounded(s, pc)
    requires p in s.locks ==> s.locks[p].held
    requires p in s.sems ==> s.sems[p] == 0
    ensures Inv(SleepOn(s, p, pc))
  {
    hide Scheduler.Inv, Loops, Sleep, Pending;
    SleepCases(s.sched, p);
    SleepOnShape(s, p, pc);
    var s' := SleepOn(s, p, pc);
    forall q | q in s.locks.Keys + s.sems.Keys && q != p ensures Pending(s', q) == Pending(s, q) {
      PendingSame(s, s', q, s.Run());
    }
  }

  /** A step of the running thread alone: it leaves its loop on `p` and no queue changes. */
  lemma LeaveLoopKeeps(s: State, s': State, p: Name)
    requires Inv(s) && OnlyOn(s, p) && s'.sched == s.sched && s'.cvs == s.cvs
    requires s'.pc == s.pc[s.Run() := Idle]
    requires s'.locks.Keys == s.locks.Keys && s'.own.Keys == s.own.Keys && s'.sems.Keys == s.sems.Keys
    ensures Shape(s') && Loops(s')
    ensures forall q | q in s.locks.Keys + s.sems.Keys && q != p :: Pending(s', q) == Pending(s, q)
    ensures p in s.sched.waits ==> Pending(s', p) == Pending(s, p) - {s.Run()}
  {
    hide Scheduler.Inv, NothingLost;
    InvFacts(s.sched);
    forall q | q in s.locks.Keys + s.sems.Keys && q != p ensures Pending(s', q) == Pending(s, q) {
      PendingSame(s, s', q, s.Run());
    }
  }

  lemma GrantKeeps(s: State, l: Name)
    requires Inv(s) && l in s.locks && OnlyOn(s, l) && !s.locks[l].held
    ensures Inv(TryAcquire(s, l))
  {
    hide Scheduler.Inv, Loops;
    LeaveLoopKeeps(s, TryAcquire(s, l), l);
  }

  lemma TryAcquireKeeps(s: State, l: Name)
    requires Inv(s) && l in s.locks && OnlyOn(s, l)
    ensures Inv(TryAcquire(s, l))
  {
    if s.locks[l].held {
      hide Inv;
      assert l in s.sched.waits && l !in s.sems by { ShapeFacts(s, l); }
      SleepOnKeeps(s, l, Acquiring(l));
    } else {
      GrantKeeps(s, l);
    }
  }

  lemma ShapeFacts(s: State, p: Name)
    requires Inv(s)
    ensures p in s.locks ==> p in s.sched.waits && p in s.own && p !in s.sems && p !in s.cvs
    ensures p in s.sems ==> p in s.sched.waits && p !in s.cvs
    ensures p in s.cvs ==> p in s.sched.waits
  {
  }

  lemma DecrementKeeps(s: State, m: Name)
    requires Inv(s) && m in s.sems && OnlyOn(s, m) && s.sems[m] > 0
    ensures Inv(TryDown(s, m))
  {
    hide Scheduler.Inv, Loops;
    LeaveLoopKeeps(s, TryDown(s, m), m);
  }

  lemma TryDownKeeps(s: State, m: Name)
    requires Inv(s) && m in s.sems && OnlyOn(s, m)
    ensures Inv(TryDown(s, m))
  {
    if s.sems[m] == 0 {
      hide Inv;
      assert m in s.sched.waits && m !in s.locks by { ShapeFacts(s, m); }
      SleepOnKeeps(s, m, Downing(m));
    } else {
      DecrementKeeps(s, m);
    }
  }

  /** Waking a thread from `p`'s queue makes it, and only it, pending on `p`. */
  lemma WakeupPending(s: State, s': State, p: Name)
    requires Shape(s) && Loops(s) && p in s.sched.waits
    requires s'.pc == s.pc && s'.sched == Wakeup(s.sched, p)
    ensures p in s'.sched.waits && s'.sched.waits.Keys == s.sched.waits.Keys
    ensures s.sched.waits[p] == [] ==> Pending(s', p) == Pending(s, p)
    ensures s.sched.waits[p] != [] ==>
              && Pending(s', p) == Pending(s, p) + {s.sched.waits[p][0]}
              && s.sched.waits[p][0] !in Pending(s, p)
    ensures forall q | q in s.sched.waits && q != p :: Pending(s', q) == Pending(s, q)
  {
    hide Scheduler.Inv, Wakeup;
    InvFacts(s.sched);
    WakeupFrame(s.sched, p);
    if s.sched.waits[p] != [] {
      TailProperties(s.sched.waits[p]);
      assert s.sched.waits[p][0] in s.sched.waits[p];
    }
  }

  lemma WakeupShape(s: State, s': State, p: Name)
    requires Shape(s) && Loops(s) && p in s.sched.waits
    requires s'.pc == s.pc && s'.sched == Wakeup(s.sched, p) && s'.cvs == s.cvs
    requires s'.locks.Keys == s.locks.Keys && s'.sems.Keys == s.sems.Keys && s'.own.Keys == s.own.Keys
    ensures Shape(s') && Loops(s')
  {
    hide Scheduler.Inv, Wakeup;
    WakeupFrame(s.sched, p);
    if s.sched.waits[p] != [] {
      forall t | t in s'.sched.waits[p] ensures t in s.sched.waits[p] {
      }
    }
  }

  lemma ReleaseKeeps(s: State, l: Name)
    requires Inv(s) && l in s.locks
    ensures Inv(Release(s, l)) && Release(s, l).Run() == s.Run()
  {
    hide Scheduler.Inv, Wakeup;
    var s' := Release(s, l);
    WakeupFrame(s.sched, l);
    WakeupShape(s, s', l);
    WakeupPending(s, s', l);
  }

  lemma UpKeeps(s: State, m: Name)
    requires Inv(s) && m in s.sems
    ensures Inv(Up(s, m))
  {
    hide Scheduler.Inv, Wakeup;
    var s' := Up(s, m);
    WakeupFrame(s.sched, m);
    WakeupShape(s, s', m);
    WakeupPending(s, s', m);
  }

  lemma SignalKeeps(s: State, cv: Name)
    requires Inv(s) && cv in s.cvs
    ensures Inv(s.(sched := Wakeup(s.sched, cv)))
  {
    hide Scheduler.Inv, Wakeup;
    var s' := s.(sched := Wakeup(s.sched, cv));
    WakeupFrame(s.sched, cv);
    WakeupShape(s, s', cv);
    WakeupPending(s, s', cv);
  }

  lemma CvWaitKeeps(s: State, cv: Name, l: Name)
    requires Inv(s) && cv in s.cvs && l in s.locks && s.Run() in s.pc && s.pc[s.Run()] == Idle
    ensures Inv(CvWait(s, cv, l))
  {
    hide Inv;
    ShapeFacts(s, cv);
    ShapeFacts(s, l);
    ReleaseKeeps(s, l);
    var s1 := Release(s, l);
    ShapeFacts(s1, cv);
    ShapeFacts(s1, l);
    if s1.sched.readyNum == 0 {
      TryAcquireKeeps(s1, l);
    } else {
      SleepOnKeeps(s1, cv, InCvWait(cv, l));
    }
  }

  /** A step that changes no queue, no lock and no semaphore, and no loop of any thread. */
  lemma SwitchKeeps(s: State, s': State)
    requires Inv(s) && Scheduler.Inv(s'.sched) && s'.Run() != BOOT && s'.sched.waits == s.sched.waits
    requires s'.(sched := s.sched, pc := s.pc) == s
    requires s'.pc.Keys == s'.sched.status.Keys - {BOOT}
    requires forall t | t in s.pc && s.pc[t] != Idle :: t in s'.pc && s'.pc[t] == s.pc[t]
    requires forall t | t in s'.pc && s'.pc[t] != Idle :: t in s.pc && s.pc[t] == s'.pc[t]
    ensures Inv(s')
  {
    hide Scheduler.Inv;
    forall q | q in s.sched.waits ensures Pending(s', q) == Pending(s, q) {
    }
  }

  /** No wake-up is ever lost, whatever calls the threads make, with all the barging the retry
      loops allow. */
  lemma StepKeeps(s: State, e: Event)
    requires Inv(s) && Enabled(s, e)
    ensures Inv(Step(s, e))
  {
    hide Scheduler.Inv, Wakeup, Sleep, Create, Resume, Exit, NothingLost, TryAcquire, TryDown, Release, Up, CvWait;
    match e
    case AcquireCall(l) => TryAcquireKeeps(s, l);
    case ReleaseCall(l) => ReleaseKeeps(s, l);
    case PCall(m) => TryDownKeeps(s, m);
    case VCall(m) => UpKeeps(s, m);
    case CvWaitCall(cv, l) => CvWaitKeeps(s, cv, l);
    case CvSignalCall(cv) => SignalKeeps(s, cv);
    case Continue => ContinueKeeps(s);
    case DestroyCall(p) => DestroyExactly(s, p);
    case _ => SchedulingKeeps(s, e);
  }

  lemma ContinueKeeps(s: State)
    requires Inv(s) && Enabled(s, Continue)
    ensures Inv(Step(s, Continue))
  {
    hide Scheduler.Inv;
    match s.pc[s.Run()]
    case Acquiring(l) => TryAcquireKeeps(s, l);
    case InCvWait(_, l) => TryAcquireKeeps(s, l);
    case Downing(m) => TryDownKeeps(s, m);
  }

  // ---------- Destroying ----------

  lemma DestroyedShape(s: State, p: Name)
    requires Shape(s) && (p in s.locks || p in s.sems) && Destroy(s, p).Some?
    ensures Shape(Destroy(s, p).value)
  {
    hide Scheduler.Inv;
    DropPrimExactly(s.sched, p);
  }

  lemma DestroyedLosesNothing(s: State, p: Name)
    requires Inv(s) && (p in s.locks || p in s.sems) && Destroy(s, p).Some? && Shape(Destroy(s, p).value)
    ensures NothingLost(Destroy(s, p).value)
  {
    hide Scheduler.Inv, Loops;
    var s' := Destroy(s, p).value;
    forall q | q in s'.sched.waits ensures Pending(s', q) == Pending(s, q) {
    }
  }

  /** An empty queue is not enough: a thread that was woken, or that waits on a condition with the lock, is
      in no queue of the lock and will still look at it. */
  lemma DestroyExactly(s: State, p: Name)
    requires Inv(s) && (p in s.locks || p in s.sems)
    ensures (Destroy(s, p).Some? && Inv(Destroy(s, p).value)) <==>
            Disused(s, p)
  {
    hide Scheduler.Inv, NothingLost;
    if s.sched.waits[p] == [] {
      DestroyedShape(s, p);
      if Disused(s, p) {
        DestroyedLosesNothing(s, p);
      }
    }
  }

  lemma SchedulingKeeps(s: State, e: Event)
    requires Inv(s) && Enabled(s, e) && (e.CreateCall? || e.YieldCall? || e.ResumeCall? || e.ExitCall?)
    ensures Inv(Step(s, e))
  {
    hide Scheduler.Inv, Create, Resume, Exit, NothingLost, Loops;
    match e
    case CreateCall => CreateFrame(s.sched); SwitchKeeps(s, Step(s, e));
    case YieldCall => ResumeFrame(s.sched, s.sched.ready[0]); SwitchKeeps(s, Step(s, e));
    case ResumeCall(t) => ResumeFrame(s.sched, t); SwitchKeeps(s, Step(s, e));
    case ExitCall => ExitFrame(s.sched); SwitchKeeps(s, Step(s, e));
  }

  /** A pending thread is running or ready, so it will go round its loop. */
  lemma PendingWillRetry(s: State, p: Name, t: Tid)
    requires Inv(s) && p in s.sched.waits && t in Pending(s, p)
    ensures t == s.Run() || t in s.sched.ready
  {
    hide Scheduler.Inv, NothingLost;
    if t != s.Run() && t !in s.sched.ready {
      var q := Parked(s.sched, t);
    }
  }

  /** What a thread goes on with after a fruitless turn: a condition waiter is then in the acquire loop. */
  function Looping(pc: Pc): Pc { if pc.InCvWait? then Acquiring(pc.lock) else pc }

  /** What is left when nobody is ready: a turn is fruitless exactly on a held lock or an empty semaphore. */
  lemma SpinsExactly(s: State)
    requires Inv(s) && Enabled(s, Continue)
    ensures Step(s, Continue) == s.(pc := s.pc[s.Run() := Looping(s.pc[s.Run()])]) <==>
            s.sched.ready == [] && match s.pc[s.Run()]
              case Acquiring(l) => s.locks[l].held
              case InCvWait(_, l) => s.locks[l].held
              case Downing(m) => s.sems[m] == 0
              case Idle => false
  {
    hide Scheduler.Inv;
    InvFacts(s.sched);
    if s.sched.ready != [] {
      assert s.sched.ready[0] in s.sched.ready;
    }
  }

  /** After one fruitless turn the state never changes again. */
  lemma SpinsOn(s: State)
    requires Inv(s) && Enabled(s, Continue)
    requires Step(s, Continue) == s.(pc := s.pc[s.Run() := Looping(s.pc[s.Run()])])
    ensures var s' := Step(s, Continue); Inv(s') && Enabled(s', Continue) && Step(s', Continue) == s'
  {
    hide Scheduler.Inv, Step, Loops, NothingLost;
    StepKeeps(s, Continue);
    SpinsExactly(s);
    var s' := Step(s, Continue);
    SpinsExactly(s');
    assert s'.(pc := s'.pc[s'.Run() := Looping(s'.pc[s'.Run()])]) == s';
  }

  // ---------- What a step does to the scheduler ----------

  /** The scheduler's operations that an event consists of. A sleep with nobody ready is one as well. */
  function Ops(s: State, e: Event): seq<Op<Name>>
    requires s.Run() in s.pc && Known(s, e) && Grounded(s, s.pc[s.Run()])
  {
    match e
    case AcquireCall(l) => Tests(s, Acquiring(l))
    case ReleaseCall(l) => [WakeupOp(l)]
    case PCall(m) => Tests(s, Downing(m))
    case VCall(m) => [WakeupOp(m)]
    case CvWaitCall(cv, l) => [WakeupOp(l), SleepOp(cv)]
    case CvSignalCall(cv) => [WakeupOp(cv)]
    case DestroyCall(_) => []
    case CreateCall => [CreateOp]
    case YieldCall => [YieldOp]
    case ResumeCall(t) => [ResumeOp(t)]
    case ExitCall => [ExitOp]
    case Continue => Tests(s, s.pc[s.Run()])
  }

  /** One test of the guard of a loop: on a held lock or an empty semaphore the thread sleeps. */
  function Tests(s: State, pc: Pc): seq<Op<Name>>
    requires Grounded(s, pc)
  {
    match Looping(pc)
    case Acquiring(l) => if s.locks[l].held then [SleepOp(l)] else []
    case Downing(m) => if s.sems[m] == 0 then [SleepOp(m)] else []
    case _ => []
  }

  lemma TryRuns(s: State, l: Name)
    requires Inv(s) && l in s.locks
    ensures Runs(s.sched, Tests(s, Acquiring(l)), TryAcquire(s, l).sched)
  {
    hide Scheduler.Inv, Loops, NothingLost;
    if s.locks[l].held {
      RunsOne(s.sched, SleepOp(l));
    }
  }

  lemma DownRuns(s: State, m: Name)
    requires Inv(s) && m in s.sems
    ensures Runs(s.sched, Tests(s, Downing(m)), TryDown(s, m).sched)
  {
    hide Scheduler.Inv, Loops, NothingLost;
    if s.sems[m] == 0 {
      RunsOne(s.sched, SleepOp(m));
    }
  }

  lemma CvWaitRuns(s: State, cv: Name, l: Name)
    requires Inv(s) && cv in s.cvs && l in s.locks
    ensures Runs(s.sched, [WakeupOp(l), SleepOp(cv)], CvWait(s, cv, l).sched)
  {
    hide Scheduler.Inv, Wakeup, Loops, NothingLost;
    WakeupFrame(s.sched, l);
    InvFacts(Wakeup(s.sched, l));
    RunsOne(Wakeup(s.sched, l), SleepOp(cv));
    RunsThen(s.sched, WakeupOp(l), [SleepOp(cv)], CvWait(s, cv, l).sched);
  }

  lemma GroundedHere(s: State)
    requires Inv(s) && s.Run() in s.pc
    ensures Grounded(s, s.pc[s.Run()])
  {
    hide Scheduler.Inv, NothingLost;
  }

  /** Every event but the destroying of something is a guarded run of the scheduler. */
  lemma StepRuns(s: State, e: Event)
    requires Inv(s) && Enabled(s, e) && !e.DestroyCall?
    ensures Grounded(s, s.pc[s.Run()]) && Runs(s.sched, Ops(s, e), Step(s, e).sched)
  {
    hide Scheduler.Inv, Wakeup, Sleep, Create, Resume, Exit, Loops, NothingLost;
    hide TryAcquire, TryDown, CvWait, Runs, Tests;
    GroundedHere(s);
    match e
    case AcquireCall(l) => TryRuns(s, l);
    case ReleaseCall(l) => RunsOne(s.sched, WakeupOp(l));
    case PCall(m) => DownRuns(s, m);
    case VCall(m) => RunsOne(s.sched, WakeupOp(m));
    case CvWaitCall(cv, l) => CvWaitRuns(s, cv, l);
    case CvSignalCall(cv) => RunsOne(s.sched, WakeupOp(cv));
    case CreateCall => RunsOne(s.sched, CreateOp);
    case YieldCall => InvFacts(s.sched); RunsOne(s.sched, YieldOp);
    case ResumeCall(t) => RunsOne(s.sched, ResumeOp(t));
    case ExitCall => RunsOne(s.sched, ExitOp);
    case Continue => ContinueRuns(s);
  }

  lemma ContinueRuns(s: State)
    requires Inv(s) && Enabled(s, Continue) && Grounded(s, s.pc[s.Run()])
    ensures Runs(s.sched, Tests(s, s.pc[s.Run()]), Step(s, Continue).sched)
  {
    hide Scheduler.Inv, Loops, NothingLost, TryAcquire, TryDown, Runs;
    match s.pc[s.Run()]
    case Acquiring(l) => TryRuns(s, l);
    case InCvWait(_, l) => TryRuns(s, l);
    case Downing(m) => DownRuns(s, m);
  }

  /** The lock an event or the loop it goes round is about, if any. */
  function About(s: State, e: Event): Option<Name>
    requires s.Run() in s.pc
  {
    match e
    case AcquireCall(l) => Some(l)
    case ReleaseCall(l) => Some(l)
    case CvWaitCall(_, l) => Some(l)
    case DestroyCall(p) => Some(p)
    case Continue =>
      (match s.pc[s.Run()]
       case Acquiring(l) => Some(l)
       case InCvWait(_, l) => Some(l)
       case _ => None)
    case _ => None
  }

  /** A step leaves other threads where they stand. A new thread starts in no loop, and a call that does not
      wait leaves its caller in none. */
  lemma StepStands(s: State, e: Event)
    requires Inv(s) && Enabled(s, e)
    ensures var pc := Step(s, e).pc;
      && (forall t | t in s.pc && t != s.Run() :: t in pc && pc[t] == s.pc[t])
      && (forall t | t in pc && t !in s.pc :: e.CreateCall? && t == s.sched.newId && pc[t] == Idle)
      && (s.Run() in pc <==> !e.ExitCall?)
      && (!e.AcquireCall? && !e.PCall? && !e.CvWaitCall? && !e.Continue? && !e.ExitCall? ==> pc[s.Run()] == Idle)
  {
    hide Scheduler.Inv, Wakeup, Sleep, Create, Resume, Exit, Loops, NothingLost, CvWait;
    match e
    case CreateCall =>
      CreateFrame(s.sched);
      assert s.sched.newId !in s.pc;
    case CvWaitCall(cv, l) => CvWaitStands(s, cv, l);
    case _ =>
  }

  lemma CvWaitStands(s: State, cv: Name, l: Name)
    requires Inv(s) && s.Run() in s.pc && cv in s.cvs && l in s.locks
    ensures CvWait(s, cv, l).pc.Keys == s.pc.Keys
    ensures forall t | t in s.pc && t != s.Run() :: CvWait(s, cv, l).pc[t] == s.pc[t]
  {
    hide Scheduler.Inv, Wakeup, Sleep, Loops, NothingLost;
    WakeupFrame(s.sched, l);
  }

  /** A step leaves all locks but the one it is about as they are, and all conditions. */
  lemma StepElsewhere(s: State, e: Event, l: Name)
    requires Inv(s) && Enabled(s, e) && l in s.locks && About(s, e) != Some(l)
    ensures var s' := Step(s, e);
      && l in s'.locks && s'.locks[l] == s.locks[l] && l in s'.own && s'.own[l] == s.own[l] && s'.cvs == s.cvs
  {
    hide Scheduler.Inv, Wakeup, Sleep, Create, Resume, Exit, Loops, NothingLost;
  }

  /** A yield runs the head of the ready queue and puts the caller behind everybody else; a resume runs the
      thread it names. */
  lemma YieldsToHead(s: State, e: Event)
    requires Inv(s) && Enabled(s, e) && (e.YieldCall? || e.ResumeCall?)
    ensures
      var s' := Step(s, e);
      if e.YieldCall? then s'.Run() == s.sched.ready[0] && s'.sched.ready == s.sched.ready[1..] + [s.Run()]
      else s'.Run() == e.t
  {
    hide Scheduler.Inv, Resume, Loops, NothingLost;
    match e
    case YieldCall =>
      ResumeFrame(s.sched, s.sched.ready[0]);
      ResumeOrder(s.sched, 0);
    case ResumeCall(t) => ResumeFrame(s.sched, t);
  }

  // ---------- Nobody is passed over ----------

  /** How often the event dispatches the head of the ready queue. */
  ghost function Dispatches(s: State, e: Event): nat
    requires Inv(s) && Enabled(s, e)
  {
    if e.DestroyCall? then 0
    else
      StepRuns(s, e);
      HeadDispatches(s.sched, Ops(s, e))
  }

  /** A queued thread that the event does not dispatch moves up by the dispatches of the head, and never
      moves back. `k'` is its new place. */
  lemma StepTowardsHead(s: State, e: Event, k: nat) returns (k': nat)
    requires Inv(s) && Enabled(s, e) && k < |s.sched.ready| && Step(s, e).Run() != s.sched.ready[k]
    ensures k' < |Step(s, e).sched.ready| && Step(s, e).sched.ready[k'] == s.sched.ready[k]
    ensures k' + Dispatches(s, e) <= k
  {
    hide Scheduler.Inv, Loops, NothingLost, Step, Tests, Apply, HeadDispatch;
    if e.DestroyCall? {
      DestroyRuns(s, e);
      k' := k;
    } else {
      StepRuns(s, e);
      if e.CvWaitCall? {
        k' := TwoTowardsHead(s.sched, WakeupOp(e.l), SleepOp(e.cv), k);
      } else if Ops(s, e) == [] {
        k' := k;
      } else {
        TestsOnce(s, e);
        k' := OneTowardsHead(s.sched, Ops(s, e)[0], k);
      }
    }
  }

  lemma DestroyRuns(s: State, e: Event)
    requires Inv(s) && Enabled(s, e) && e.DestroyCall?
    ensures Step(s, e).sched == s.sched.(waits := s.sched.waits - {e.p})
  {
    hide Scheduler.Inv, Loops, NothingLost;
  }

  lemma TestsOnce(s: State, e: Event)
    requires Inv(s) && Enabled(s, e) && Grounded(s, s.pc[s.Run()]) && !e.CvWaitCall? && Ops(s, e) != []
    ensures |Ops(s, e)| == 1 && Ops(s, e) == [Ops(s, e)[0]]
  {
    hide Inv;
  }

  lemma OneTowardsHead(s: Sched<Name>, op: Op<Name>, k: nat) returns (k': nat)
    requires Scheduler.Inv(s) && LegalRun(s, [op]) && k < |s.ready| && Scheduler.After(s, [op]).run != s.ready[k]
    ensures var s' := Scheduler.After(s, [op]);
      k' < |s'.ready| && s'.ready[k'] == s.ready[k] && k' + HeadDispatches(s, [op]) <= k
  {
    hide Scheduler.Inv, Apply, Legal, HeadDispatch;
    assert [op][1..] == [];
    var s' := Apply(s, op).value;
    assert Scheduler.After(s, [op]) == Scheduler.After(s', []) == s' && HeadDispatches(s', []) == 0;
    k' := Scheduler.StepTowardsHead(s, op, k);
  }

  lemma TwoTowardsHead(s: Sched<Name>, wake: Op<Name>, op: Op<Name>, k: nat) returns (k': nat)
    requires Scheduler.Inv(s) && LegalRun(s, [wake, op]) && k < |s.ready| && wake.WakeupOp?
    requires Scheduler.After(s, [wake, op]).run != s.ready[k]
    ensures var s' := Scheduler.After(s, [wake, op]);
      k' < |s'.ready| && s'.ready[k'] == s.ready[k] && k' + HeadDispatches(s, [wake, op]) <= k
  {
    hide Scheduler.Inv, Legal, HeadDispatch;
    assert [wake, op][1..] == [op];
    InvFacts(s);
    WakeupFrame(s, wake.p);
    hide Apply;
    var k1 := Scheduler.StepTowardsHead(s, wake, k);
    k' := OneTowardsHead(Apply(s, wake).value, op, k1);
  }

  // ---------- Mutual exclusion ----------

  /** A lock is held exactly when one thread owns it, and `helder` names that thread. */
  ghost predicate Exclusive(s: State)
    requires Shape(s)
  {
    forall l | l in s.locks ::
      if s.locks[l].held then s.locks[l].helder >= 0 && s.own[l] == {s.locks[l].helder as Tid}
      else s.own[l] == {} && s.locks[l].helder == -1
  }

  /** Only the owner of a lock releases it or waits on a condition with it. */
  predicate Disciplined(s: State, e: Event)
    requires Known(s, e)
  {
    e.ReleaseCall? || e.CvWaitCall? ==> e.l in s.own && s.Run() in s.own[e.l]
  }

  /** A release keeps mutual exclusion exactly when the lock is free or the caller is its recorded holder. */
  lemma ReleaseExactly(s: State, l: Name)
    requires Inv(s) && Exclusive(s) && l in s.locks
    ensures Shape(Release(s, l))
    ensures Exclusive(Release(s, l)) <==> !s.locks[l].held || s.locks[l].helder == s.Run()
    ensures s.Run() in s.own[l] <==> s.locks[l].held && s.locks[l].helder == s.Run()
  {
    hide Scheduler.Inv, Wakeup;
    ReleaseKeeps(s, l);
    var s' := Release(s, l);
    if s.locks[l].held && s.Run() !in s.own[l] {
      assert s.locks[l].helder as Tid in s'.own[l];
    }
  }

  lemma ExclusiveTry(s: State, l: Name)
    requires Inv(s) && Exclusive(s) && l in s.locks && Shape(TryAcquire(s, l))
    ensures Exclusive(TryAcquire(s, l))
  {
    hide Scheduler.Inv, Loops, NothingLost;
  }

  lemma ExclusiveCvWait(s: State, cv: Name, l: Name)
    requires Inv(s) && Exclusive(s) && cv in s.cvs && l in s.locks && s.Run() in s.own[l]
    requires Shape(CvWait(s, cv, l))
    ensures Exclusive(CvWait(s, cv, l))
  {
    hide Scheduler.Inv, Loops, NothingLost;
    ReleaseExactly(s, l);
    ReleaseKeeps(s, l);
    var s1 := Release(s, l);
    if s1.sched.readyNum == 0 {
      ExclusiveTry(s1, l);
    }
  }

  lemma SameLocks(s: State, e: Event)
    requires Inv(s) && Enabled(s, e)
    requires !e.AcquireCall? && !e.ReleaseCall? && !e.CvWaitCall? && !e.DestroyCall?
    requires e.Continue? ==> s.pc[s.Run()].Downing?
    ensures Step(s, e).locks == s.locks && Step(s, e).own == s.own
  {
    hide Scheduler.Inv, Wakeup, Sleep, Create, Resume, Exit, NothingLost;
    match e
    case Continue =>
    case CreateCall => CreateFrame(s.sched);
    case YieldCall => ResumeFrame(s.sched, s.sched.ready[0]);
    case ResumeCall(t) => ResumeFrame(s.sched, t);
    case ExitCall => ExitFrame(s.sched);
    case _ =>
  }

  /** Mutual exclusion holds through every disciplined step, condition waits included. */
  lemma StepExclusive(s: State, e: Event)
    requires Inv(s) && Exclusive(s) && Enabled(s, e) && Disciplined(s, e)
    ensures Inv(Step(s, e)) && Exclusive(Step(s, e))
  {
    hide Scheduler.Inv, Wakeup, Sleep, Create, Resume, Exit, Loops, NothingLost, Exclusive;
    hide TryAcquire, TryDown, Release, Up, CvWait;
    StepKeeps(s, e);
    match e
    case AcquireCall(l) => ExclusiveTry(s, l);
    case ReleaseCall(l) => ReleaseExactly(s, l);
    case CvWaitCall(cv, l) => ExclusiveCvWait(s, cv, l);
    case Continue => ExclusiveContinue(s);
    case DestroyCall(p) => ExclusiveDestroy(s, p);
    case _ =>
      SameLocks(s, e);
      ExclusiveSame(s, Step(s, e));
  }

  lemma ExclusiveDestroy(s: State, p: Name)
    requires Inv(s) && Exclusive(s) && Enabled(s, DestroyCall(p)) && Shape(Step(s, DestroyCall(p)))
    ensures Exclusive(Step(s, DestroyCall(p)))
  {
    hide Scheduler.Inv, Loops, NothingLost;
  }

  lemma ExclusiveSame(s: State, s': State)
    requires Shape(s) && Shape(s') && Exclusive(s) && s'.locks == s.locks && s'.own == s.own
    ensures Exclusive(s')
  {
    hide Scheduler.Inv;
  }

  lemma ExclusiveContinue(s: State)
    requires Inv(s) && Exclusive(s) && Enabled(s, Continue) && Shape(Step(s, Continue))
    ensures Exclusive(Step(s, Continue))
  {
    hide Scheduler.Inv, NothingLost, TryAcquire;
    match s.pc[s.Run()]
    case Acquiring(l) => ExclusiveTry(s, l);
    case InCvWait(_, l) => ExclusiveTry(s, l);
    case Downing(_) => SameLocks(s, Continue);
  }

  /** A thread leaves an acquire loop, and so returns from an acquire or a condition wait, only
      with the lock. */
  lemma ReturnsOwning(s: State)
    requires Inv(s) && Enabled(s, Continue) && (s.pc[s.Run()].Acquiring? || s.pc[s.Run()].InCvWait?)
    ensures
      var s' := Step(s, Continue);
      var l := s.pc[s.Run()].lock;
      && s.Run() in s'.pc && (s'.pc[s.Run()] == Idle || s'.pc[s.Run()] == Acquiring(l))
      && (s'.pc[s.Run()] == Idle ==>
            s'.Run() == s.Run() && s'.locks[l] == Lock(true, s.Run()) && s.Run() in s'.own[l])
  {
    hide Scheduler.Inv;
    InvFacts(s.sched);
  }

  /** A lock that is not held records no thread's id. */
  ghost predicate FreeIsNobodys(s: State) {
    forall l | l in s.locks && !s.locks[l].held :: s.locks[l].helder < 0
  }

  lemma StepFrees(s: State, e: Event)
    requires Inv(s) && Enabled(s, e) && FreeIsNobodys(s)
    ensures FreeIsNobodys(Step(s, e))
  {
    hide Scheduler.Inv, Wakeup, Sleep, Create, Resume, Exit, Loops, NothingLost;
  }

  // ---------- Signals ----------

  /** The release and the sleep of a condition wait are one step: either the caller is then last in
      the condition's queue, or nobody is ready and it keeps running. No signal falls between. */
  lemma NoGapInCvWait(s: State, cv: Name, l: Name)
    requires Inv(s) && Enabled(s, CvWaitCall(cv, l))
    ensures
      var s' := CvWait(s, cv, l);
      if s.sched.ready == [] && s.sched.waits[l] == [] then
        s'.Run() == s.Run() && s'.pc[s.Run()] == Idle && s'.locks[l] == Lock(true, s.Run())
      else
        s'.sched.waits[cv] == s.sched.waits[cv] + [s.Run()] && s'.pc[s.Run()] == InCvWait(cv, l)
        && s'.Run() == (if s.sched.ready != [] then s.sched.ready[0] else s.sched.waits[l][0])
  {
    hide Scheduler.Inv, Wakeup, Loops, NothingLost;
    WakeupFrame(s.sched, l);
    InvFacts(Release(s, l).sched);
    if s.sched.ready != [] || s.sched.waits[l] != [] {
      SleepFrame(Release(s, l).sched, cv);
    }
  }

  lemma SchedulingWaits(s: State, e: Event)
    requires Inv(s) && Enabled(s, e) && (e.CreateCall? || e.YieldCall? || e.ResumeCall? || e.ExitCall?)
    ensures Step(s, e).sched.waits == s.sched.waits && Step(s, e).cvs == s.cvs
  {
    hide Scheduler.Inv, Create, Resume, Exit, Loops, NothingLost;
    match e
    case CreateCall => CreateFrame(s.sched);
    case YieldCall => ResumeFrame(s.sched, s.sched.ready[0]);
    case ResumeCall(t) => ResumeFrame(s.sched, t);
    case ExitCall => ExitFrame(s.sched);
  }

  lemma DestroyWaits(s: State, p: Name, cv: Name)
    requires Inv(s) && Enabled(s, DestroyCall(p)) && cv in s.cvs
    ensures var s' := Step(s, DestroyCall(p));
      cv in s'.cvs && cv in s'.sched.waits && s'.sched.waits[cv] == s.sched.waits[cv]
  {
    hide Scheduler.Inv, Loops, NothingLost;
  }

  /** One step moves a waiter of a condition one place up on a signal, and never otherwise. */
  lemma SignalStep(s: State, e: Event, cv: Name, k: nat)
    requires Inv(s) && Enabled(s, e) && cv in s.cvs && k < |s.sched.waits[cv]|
    requires e == CvSignalCall(cv) ==> k > 0
    ensures
      var k' := if e == CvSignalCall(cv) then k - 1 else k;
      var s' := Step(s, e);
      && cv in s'.cvs && cv in s'.sched.waits
      && k' < |s'.sched.waits[cv]| && s'.sched.waits[cv][k'] == s.sched.waits[cv][k]
  {
    hide Scheduler.Inv, Wakeup, Create, Resume, Exit, Loops, NothingLost;
    hide TryAcquire, TryDown, CvWait;
    match e
    case AcquireCall(l) => TryWaits(s, l, cv);
    case ReleaseCall(l) => WakeupFrame(s.sched, l);
    case PCall(m) => DownWaits(s, m, cv);
    case VCall(m) => WakeupFrame(s.sched, m);
    case CvWaitCall(c, l) => CvWaitWaits(s, c, l, cv);
    case CvSignalCall(c) => WakeupFrame(s.sched, c);
    case DestroyCall(p) => DestroyWaits(s, p, cv);
    case Continue => ContinueWaits(s, cv);
    case _ => SchedulingWaits(s, e);
  }

  lemma TryWaits(s: State, l: Name, cv: Name)
    requires Inv(s) && l in s.locks && cv in s.cvs
    ensures TryAcquire(s, l).cvs == s.cvs && cv in TryAcquire(s, l).sched.waits
    ensures TryAcquire(s, l).sched.waits[cv] == s.sched.waits[cv]
  {
    hide Scheduler.Inv;
  }

  lemma DownWaits(s: State, m: Name, cv: Name)
    requires Inv(s) && m in s.sems && cv in s.cvs
    ensures TryDown(s, m).cvs == s.cvs && cv in TryDown(s, m).sched.waits
    ensures TryDown(s, m).sched.waits[cv] == s.sched.waits[cv]
  {
    hide Scheduler.Inv;
  }

  lemma ContinueWaits(s: State, cv: Name)
    requires Inv(s) && Enabled(s, Continue) && cv in s.cvs
    ensures Step(s, Continue).cvs == s.cvs && cv in Step(s, Continue).sched.waits
    ensures Step(s, Continue).sched.waits[cv] == s.sched.waits[cv]
  {
    hide Scheduler.Inv;
    match s.pc[s.Run()]
    case Acquiring(l) => TryWaits(s, l, cv);
    case InCvWait(_, l) => TryWaits(s, l, cv);
    case Downing(m) => DownWaits(s, m, cv);
  }

  lemma CvWaitWaits(s: State, c: Name, l: Name, cv: Name)
    requires Inv(s) && c in s.cvs && l in s.locks && cv in s.cvs
    ensures CvWait(s, c, l).cvs == s.cvs && cv in CvWait(s, c, l).sched.waits
    ensures s.sched.waits[cv] <= CvWait(s, c, l).sched.waits[cv]
  {
    hide Scheduler.Inv, Wakeup;
    WakeupFrame(s.sched, l);
    ReleaseKeeps(s, l);
    var s1 := Release(s, l);
    if s1.sched.readyNum == 0 {
      TryWaits(s1, l, cv);
    }
  }

  // ---------- Whole runs ----------

  ghost predicate CanRun(s: State, es: seq<Event>)
    requires Inv(s)
    decreases |es|
  {
    es == [] || (Enabled(s, es[0]) && (StepKeeps(s, es[0]); CanRun(Step(s, es[0]), es[1..])))
  }

  ghost function After(s: State, es: seq<Event>): (s': State)
    requires Inv(s) && CanRun(s, es)
    ensures Inv(s')
    decreases |es|
  {
    if es == [] then s
    else
      StepKeeps(s, es[0]);
      After(Step(s, es[0]), es[1..])
  }

  ghost predicate DisciplinedRun(s: State, es: seq<Event>)
    requires Inv(s) && CanRun(s, es)
    decreases |es|
  {
    es == [] || (Disciplined(s, es[0]) && (StepKeeps(s, es[0]); DisciplinedRun(Step(s, es[0]), es[1..])))
  }

  lemma {:induction false} RunExclusive(s: State, es: seq<Event>)
    requires Inv(s) && Exclusive(s) && CanRun(s, es) && DisciplinedRun(s, es)
    ensures Exclusive(After(s, es))
    decreases |es|
  {
    hide Scheduler.Inv;
    if es != [] {
      StepExclusive(s, es[0]);
      RunExclusive(Step(s, es[0]), es[1..]);
    }
  }

  ghost function Signals(es: seq<Event>, cv: Name): nat {
    if es == [] then 0 else (if es[0] == CvSignalCall(cv) then 1 else 0) + Signals(es[1..], cv)
  }

  /** No signal is lost over a whole run: the thread at place `k` of the queue is woken by the
      `k + 1`st signal and by no other, whatever else happens in between. */
  lemma {:induction false} SignalsInOrder(s: State, es: seq<Event>, cv: Name, k: nat)
    requires Inv(s) && CanRun(s, es) && cv in s.cvs && k < |s.sched.waits[cv]| && Signals(es, cv) <= k
    ensures
      var s' := After(s, es);
      cv in s'.cvs && cv in s'.sched.waits && k - Signals(es, cv) < |s'.sched.waits[cv]|
      && s'.sched.waits[cv][k - Signals(es, cv)] == s.sched.waits[cv][k]
    decreases |es|
  {
    hide Scheduler.Inv, Step, Loops, NothingLost;
    if es != [] {
      StepKeeps(s, es[0]);
      SignalStep(s, es[0], cv, k);
      SignalsInOrder(Step(s, es[0]), es[1..], cv, if es[0] == CvSignalCall(cv) then k - 1 else k);
    }
  }

  ghost function DispatchesIn(s: State, es: seq<Event>): nat
    requires Inv(s) && CanRun(s, es)
    decreases |es|
  {
    if es == [] then 0
    else
      StepKeeps(s, es[0]);
      Dispatches(s, es[0]) + DispatchesIn(Step(s, es[0]), es[1..])
  }

  /** Bounded bypass, whatever the locks, semaphores and conditions do: the thread at place `k` of the ready
      queue runs before the head has been dispatched `k + 1` times. */
  lemma {:induction false} BoundedBypass(s: State, es: seq<Event>, k: nat) returns (n: nat)
    requires Inv(s) && CanRun(s, es) && k < |s.sched.ready| && DispatchesIn(s, es) > k
    ensures 0 < n <= |es| && CanRun(s, es[..n]) && After(s, es[..n]).Run() == s.sched.ready[k]
    ensures CanRun(s, es[..n - 1]) && DispatchesIn(s, es[..n - 1]) <= k
    decreases |es|
  {
    hide Scheduler.Inv, Loops, NothingLost, Step, Dispatches, Enabled, Shape;
    var s' := Step(s, es[0]);
    StepKeeps(s, es[0]);
    if s'.Run() == s.sched.ready[k] {
      n := 1;
      assert es[..1] == [es[0]] && es[..1][1..] == [] && es[..0] == [];
    } else {
      var k' := StepTowardsHead(s, es[0], k);
      var m := BoundedBypass(s', es[1..], k');
      n := m + 1;
      assert es[..n][0] == es[0] && es[..n][1..] == es[1..][..m];
      assert es[..m][0] == es[0] && es[..m][1..] == es[1..][..m - 1];
    }
  }

  /** From locks as they are created, whoever releases them: a free lock never records a thread. */
  lemma {:induction false} FreeAlways(s: State, es: seq<Event>)
    requires Inv(s) && CanRun(s, es) && FreeIsNobodys(s)
    ensures FreeIsNobodys(After(s, es))
    decreases |es|
  {
    hide Scheduler.Inv, Step, Loops, NothingLost, FreeIsNobodys;
    if es != [] {
      StepKeeps(s, es[0]);
      StepFrees(s, es[0]);
      FreeAlways(Step(s, es[0]), es[1..]);
    }
  }

  // ---------- Semaphores count ----------

  /** Does the running thread come back from a P on `m` in the step from `s` to `s'`? */
  predicate ReturnsFromP(s: State, e: Event, s': State, m: Name) {
    && s.Run() in s.pc && (e == PCall(m) || (e == Continue && s.pc[s.Run()] == Downing(m)))
    && s'.Run() == s.Run() && s.Run() in s'.pc && s'.pc[s.Run()] == Idle
  }

  /** The step from `s` to `s'` adds one to the count for a V and takes one off for a return from a P. */
  predicate Counts(s: State, e: Event, s': State, m: Name) {
    && m in s.sems && m in s'.sems
    && s'.sems[m] + (if ReturnsFromP(s, e, s', m) then 1 else 0) == s.sems[m] + (if e == VCall(m) then 1 else 0)
  }

  lemma DownCounts(s: State, m: Name, n: Name)
    requires Inv(s) && m in s.sems && n in s.sems && s.Run() in s.pc
    ensures
      var s' := TryDown(s, n);
      && m in s'.sems && s.Run() in s'.pc
      && s'.sems[m] == s.sems[m] - if m == n && s'.Run() == s.Run() && s'.pc[s.Run()] == Idle then 1 else 0
  {
    hide Scheduler.Inv, Loops, NothingLost;
    InvFacts(s.sched);
    if s.sems[n] == 0 {
      SleepCases(s.sched, n);
    }
  }

  lemma SemsUntouched(s: State, e: Event)
    requires Inv(s) && Enabled(s, e) && !e.PCall? && !e.VCall? && !e.DestroyCall?
    requires e.Continue? ==> !s.pc[s.Run()].Downing?
    ensures Step(s, e).sems == s.sems
  {
    hide Scheduler.Inv, Wakeup, Sleep, Create, Resume, Exit, Loops, NothingLost;
  }

  lemma StepCounts(s: State, e: Event, m: Name)
    requires Inv(s) && Enabled(s, e) && m in s.sems && e != DestroyCall(m)
    ensures Counts(s, e, Step(s, e), m)
  {
    hide Scheduler.Inv, Wakeup, TryDown, Loops, NothingLost;
    match e
    case PCall(n) => DownCounts(s, m, n);
    case VCall(n) =>
    case DestroyCall(_) =>
    case Continue =>
      if s.pc[s.Run()].Downing? {
        GroundedSem(s);
        DownCounts(s, m, s.pc[s.Run()].sem);
      } else {
        SemsUntouched(s, e);
      }
    case _ => SemsUntouched(s, e);
  }

  lemma GroundedSem(s: State)
    requires Inv(s) && s.Run() in s.pc && s.pc[s.Run()].Downing?
    ensures s.pc[s.Run()].sem in s.sems
  {
    hide Scheduler.Inv, NothingLost;
  }

  ghost function Ups(es: seq<Event>, m: Name): nat {
    if es == [] then 0 else (if es[0] == VCall(m) then 1 else 0) + Ups(es[1..], m)
  }

  ghost function Downs(s: State, es: seq<Event>, m: Name): nat
    requires Inv(s) && CanRun(s, es)
    decreases |es|
  {
    if es == [] then 0
    else
      StepKeeps(s, es[0]);
      (if ReturnsFromP(s, es[0], Step(s, es[0]), m) then 1 else 0) + Downs(Step(s, es[0]), es[1..], m)
  }

  /** Conservation: over any run as many threads come back from a P as the count and the Vs allow. */
  lemma {:induction false} SemaphoreCounts(s: State, es: seq<Event>, m: Name)
    requires Inv(s) && CanRun(s, es) && m in s.sems && DestroyCall(m) !in es
    ensures m in After(s, es).sems && After(s, es).sems[m] == s.sems[m] + Ups(es, m) - Downs(s, es, m)
    decreases |es|
  {
    hide Scheduler.Inv, Loops, NothingLost, Step, ReturnsFromP;
    if es != [] {
      StepKeeps(s, es[0]);
      StepCounts(s, es[0], m);
      SemaphoreCounts(Step(s, es[0]), es[1..], m);
    }
  }

  /** A semaphore starts with nothing to give: as many Ps have returned as Vs were made, less the count. */
  lemma SemaphoreFromZero(ls: seq<Name>, ms: seq<Name>, cs: seq<Name>, n: nat, es: seq<Event>, m: Name)
    requires 0 < n < MAX_CAPACITY && m in ms && DestroyCall(m) !in es
    requires Inv(Start(ls, ms, cs, n)) && CanRun(Start(ls, ms, cs, n), es)
    ensures m in After(Start(ls, ms, cs, n), es).sems
    ensures After(Start(ls, ms, cs, n), es).sems[m] + Downs(Start(ls, ms, cs, n), es, m) == Ups(es, m)
  {
    hide Inv, Booted;
    SemaphoreCounts(Start(ls, ms, cs, n), es, m);
  }

  // ---------- The start ----------

  ghost function AllIdle(n: nat): (pc: map<Tid, Pc>)
    ensures forall t :: t in pc <==> 1 <= t <= n
    ensures forall t | t in pc :: pc[t] == Idle
  {
    if n == 0 then map[] else AllIdle(n - 1)[n := Idle]
  }

  /** `n` threads, and locks, semaphores and conditions as they are created: free and at count 0. */
  ghost function Start(ls: seq<Name>, ms: seq<Name>, cs: seq<Name>, n: nat): State
    requires 0 < n < MAX_CAPACITY
  {
    State(Booted(ls + ms + cs, n), (map l | l in ls :: FREE), (map m | m in ms :: 0), (set c | c in cs),
          AllIdle(n), (map l | l in ls :: {}))
  }

  lemma StartKeeps(ls: seq<Name>, ms: seq<Name>, cs: seq<Name>, n: nat)
    requires 0 < n < MAX_CAPACITY
    requires forall p :: !(p in ls && p in ms) && !(p in ls && p in cs) && !(p in ms && p in cs)
    ensures Inv(Start(ls, ms, cs, n)) && Exclusive(Start(ls, ms, cs, n)) && FreeIsNobodys(Start(ls, ms, cs, n))
  {
    hide Scheduler.Inv, Booted;
    var s := Start(ls, ms, cs, n);
    assert s.pc.Keys == s.sched.status.Keys - {BOOT};
    assert s.sched.waits.Keys == s.locks.Keys + s.sems.Keys + s.cvs;
  }

  /** Two threads in no loop and nobody waiting. */
  ghost predicate TwoIdle(s: State, lock: Lock) {
    && s.sched.status.Keys == {BOOT, 1, 2} && s.pc == map[1 := Idle, 2 := Idle] && s.locks == map[0 := lock]
    && forall p | p in s.sched.waits :: s.sched.waits[p] == []
  }

  /** Of two threads the one that does not run is ready. */
  lemma OtherReady(s: State, lock: Lock, t: Tid)
    requires Inv(s) && TwoIdle(s, lock) && t == 3 - s.Run()
    ensures s.sched.ready != [] && s.sched.ready[0] == t
  {
    hide Scheduler.Inv, Loops, NothingLost;
    InvFacts(s.sched);
    if t !in s.sched.ready {
      var p := Parked(s.sched, t);
    }
    assert s.sched.ready[0] in s.sched.ready;
  }

  lemma StartFacts()
    ensures var s := Start([0], [], [], 2); TwoIdle(s, FREE) && s.Run() == 2
  {
    hide Scheduler.Inv, Booted;
  }

  /** After thread 2 has taken the lock and yielded, thread 1 runs and is not the holder. */
  lemma TakesAndYields(s: State)
    requires Inv(s) && Exclusive(s) && TwoIdle(s, FREE) && s.Run() == 2
    ensures Enabled(s, AcquireCall(0)) && Inv(Step(s, AcquireCall(0)))
    ensures var s1 := Step(s, AcquireCall(0));
      Enabled(s1, YieldCall) && Inv(Step(s1, YieldCall)) && Exclusive(Step(s1, YieldCall)) &&
      var s2 := Step(s1, YieldCall);
      TwoIdle(s2, Lock(true, 2)) && s2.Run() == 1
  {
    hide Scheduler.Inv, Loops, NothingLost, Exclusive, Resume;
    StepExclusive(s, AcquireCall(0));
    var s1 := Step(s, AcquireCall(0));
    assert s1.sched == s.sched && s1.locks == map[0 := Lock(true, 2)];
    OtherReady(s1, Lock(true, 2), 1);
    StepExclusive(s1, YieldCall);
    ResumeFrame(s1.sched, 1);
  }

  ghost predicate Leads(s: State, es: seq<Event>, s': State) {
    Inv(s) && CanRun(s, es) && After(s, es) == s'
  }

  /** A run with one step before it. */
  lemma Before(s: State, e: Event, es: seq<Event>)
    requires Inv(s) && Enabled(s, e) && Inv(Step(s, e)) && CanRun(Step(s, e), es)
    ensures CanRun(s, [e] + es) && After(s, [e] + es) == After(Step(s, e), es)
  {
    hide Inv, Step, Enabled;
    assert ([e] + es)[1..] == es;
  }

  lemma Stranger(s: State)
    requires Inv(s) && Exclusive(s) && TwoIdle(s, Lock(true, 2)) && s.Run() == 1
    ensures Enabled(s, ReleaseCall(0)) && Inv(Step(s, ReleaseCall(0))) && !Exclusive(Step(s, ReleaseCall(0)))
  {
    hide Scheduler.Inv, Release, Loops, NothingLost, Exclusive;
    ReleaseExactly(s, 0);
    StepKeeps(s, ReleaseCall(0));
  }

  /** The library does not check who releases, and so two calls are enough to lose mutual exclusion: one
      thread takes a lock and yields, and the other releases it. */
  lemma StrangerReleases() returns (es: seq<Event>, s': State)
    ensures es == [AcquireCall(0), YieldCall, ReleaseCall(0)]
    ensures Leads(Start([0], [], [], 2), es, s') && Inv(s') && !Exclusive(s')
  {
    hide Scheduler.Inv, Start, Step, Loops, NothingLost, Exclusive;
    var s := Start([0], [], [], 2);
    StartKeeps([0], [], [], 2);
    StartFacts();
    TakesAndYields(s);
    var s1 := Step(s, AcquireCall(0));
    var s2 := Step(s1, YieldCall);
    Stranger(s2);
    Before(s2, ReleaseCall(0), []);
    Before(s1, YieldCall, [ReleaseCall(0)]);
    Before(s, AcquireCall(0), [YieldCall, ReleaseCall(0)]);
    es := [AcquireCall(0), YieldCall, ReleaseCall(0)];
    s' := Step(s2, ReleaseCall(0));
  }

  /** Thread 1 then sleeps on the lock. */
  lemma SleepsOnHeld(s: State)
    requires Inv(s) && TwoIdle(s, Lock(true, 2)) && s.Run() == 1
    ensures Enabled(s, AcquireCall(0)) && Inv(Step(s, AcquireCall(0)))
    ensures
      var s' := Step(s, AcquireCall(0));
      && s'.Run() == 2 && s'.pc == map[1 := Acquiring(0), 2 := Idle] && s'.locks == s.locks
      && 0 in s'.sched.waits && s'.sched.waits[0] == [1]
  {
    hide Scheduler.Inv, Sleep, Loops, NothingLost;
    OtherReady(s, Lock(true, 2), 2);
    SleepFrame(s.sched, 0);
    StepKeeps(s, AcquireCall(0));
  }

  /** The release takes it out of the queue. */
  lemma Wakes(s: State)
    requires Inv(s) && s.pc == map[1 := Acquiring(0), 2 := Idle] && 0 in s.locks && s.sched.waits[0] == [1]
    requires s.Run() == 2
    ensures Enabled(s, ReleaseCall(0)) && Inv(Step(s, ReleaseCall(0)))
    ensures
      var s' := Step(s, ReleaseCall(0));
      && 0 in s'.locks && 0 in s'.sched.waits && s'.sched.waits[0] == [] && s'.pc == s.pc
  {
    hide Scheduler.Inv, Wakeup, Loops, NothingLost;
    WakeupFrame(s.sched, 0);
    StepKeeps(s, ReleaseCall(0));
  }

  /** Nobody is in the lock's queue, so it can be destroyed, and yet a woken thread goes on to look at it. */
  lemma WokenOutlivesLock() returns (es: seq<Event>, s': State)
    ensures es == [AcquireCall(0), YieldCall, AcquireCall(0), ReleaseCall(0)]
    ensures Leads(Start([0], [], [], 2), es, s') && 0 in s'.locks && Inv(s')
    ensures Destroy(s', 0).Some? && !Inv(Destroy(s', 0).value)
  {
    hide Scheduler.Inv, Start, Step, Loops, NothingLost, Exclusive;
    var s := Start([0], [], [], 2);
    StartKeeps([0], [], [], 2);
    StartFacts();
    TakesAndYields(s);
    var s2 := Step(Step(s, AcquireCall(0)), YieldCall);
    SleepsOnHeld(s2);
    Wakes(Step(s2, AcquireCall(0)));
    var s4 := Step(Step(s2, AcquireCall(0)), ReleaseCall(0));
    var last := [ReleaseCall(0)];
    Before(Step(s2, AcquireCall(0)), ReleaseCall(0), []);
    assert [ReleaseCall(0)] + [] == last;
    Before(s2, AcquireCall(0), last);
    Before(Step(s, AcquireCall(0)), YieldCall, [AcquireCall(0)] + last);
    Before(s, AcquireCall(0), [YieldCall] + ([AcquireCall(0)] + last));
    es := [AcquireCall(0)] + ([YieldCall] + ([AcquireCall(0)] + last));
    assert es == [AcquireCall(0), YieldCall, AcquireCall(0), ReleaseCall(0)];
    assert Uses(s4.pc[1], 0);
    DestroyExactly(s4, 0);
    s' := s4;
  }
}
