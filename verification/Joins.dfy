/** Joining a thread. The caller puts a join block on the target's list and keeps handing over to the
    target, or to whoever is ready, until the target's exit has marked the block. */
module Joins {
  import opened Sequences
  import opened Scheduler
  import Turns
  import Queues

  type Name = Queues.Prim

  /** A thread's own join block, if it has one. `stamp`, a history variable, is when it was made. */
  datatype Join = NotJoining | Joining(target: Tid, joinable: bool, stamp: nat)

  /** `joined` is the list of joiners of every thread ever created. `exited` and `clock` are history
      variables: who has gone through the exit, and how many join blocks have been made. */
  datatype State = State(
    sched: Sched<Name>,
    join: map<Tid, Join>,
    joined: map<Tid, seq<Tid>>,
    exited: set<Tid>,
    clock: nat)
  {
    /** The thread that executes. After a return to the boot thread `sched.run` is another one. */
    function Run(): Tid { sched.cur }
  }

  /** How a join, or one more turn of its loop, ends: the join returns 1, another thread is switched to,
      the boot thread is returned to, the program ends, or an assertion fails. */
  datatype Outcome =
    | Returned(s: State)
    | Switched(s: State)
    | ToBoot(s: State)
    | JoinsItself(s: State)
    | NoSuchThread
    | Failed

  /** The loop of a joining thread, up to the return or the next switch. */
  ghost function JoinLoop(s: State): Outcome
    requires Reach(s) && s.Run() in s.join && s.join[s.Run()].Joining?
  {
    var x := s.join[s.Run()].target;
    if s.join[s.Run()].joinable then
      Returned(s.(joined := s.joined[x := Without(s.joined[x], s.Run())], join := s.join[s.Run() := NotJoining]))
    else
      match Turns.JoinTurn(s.sched, x)
      case Switched(sched) => Switched(s.(sched := sched))
      case ToBoot(sched) => ToBoot(s.(sched := sched))
      case JoinsItself => JoinsItself(s)
      case Failed => Failed
  }

  /** The caller's new block goes to the end of the target's list. */
  function AddBlock(s: State, x: Tid): State
    requires x in s.joined
  {
    s.(join := s.join[s.Run() := Joining(x, false, s.clock)],
       joined := s.joined[x := s.joined[x] + [s.Run()]],
       clock := s.clock + 1)
  }

  ghost function JoinCall(s: State, x: int): Outcome
    requires Reach(s) && s.Run() in s.join && s.join[s.Run()] == NotJoining
  {
    if x < 0 then Failed
    else if x !in s.sched.status then
      if x >= s.sched.newId then NoSuchThread else Returned(s)
    else if x == s.Run() then JoinsItself(AddBlock(s, x))
    else
      AddBlockKeeps(s, x);
      JoinLoop(AddBlock(s, x))
  }

  /** The exit marks every block on the exiting thread's list. */
  function Marked(s: State, r: Tid): map<Tid, Join>
    requires r in s.joined
  {
    map c | c in s.join && c != r ::
      if c in s.joined[r] && s.join[c].Joining? then s.join[c].(joinable := true) else s.join[c]
  }

  function Enrolled(s: State, sched: Sched<Name>): State {
    if sched.newId == s.sched.newId then s.(sched := sched)
    else s.(sched := sched, join := s.join[s.sched.newId := NotJoining], joined := s.joined[s.sched.newId := []])
  }

  // ---------- The invariant ----------

  /** Until a thread returns to it, the boot thread runs only before the first dispatch, while everybody
      else is ready, and is set aside from then on. */
  ghost predicate InTurn(s: Sched<Name>) {
    && Scheduler.Inv(s) && s.cur == s.run && BOOT in s.status
    && s.status[BOOT] == (if s.run == BOOT then Running else Ready)
    && (s.run == BOOT ==> forall t | t in s.status && t != BOOT :: t in s.ready)
  }

  /** After a return to the boot thread the running link stays with the thread that returned: that one is
      last in the ready queue, or it has exited and nobody was ready. */
  ghost predicate LeftBehind(s: Sched<Name>) {
    && s.cur == BOOT && s.run != BOOT && BOOT in s.status && s.status[BOOT] == Running
    && NoDup(s.ready) && s.readyNum == |s.ready|
    && (forall t | t in s.ready :: t in s.status && t != BOOT)
    && (forall t | t in s.status && t != BOOT :: s.status[t] == if t in s.ready then Ready else Waiting)
    && (if s.run in s.status then s.ready != [] && s.ready[|s.ready| - 1] == s.run else s.ready == [])
  }

  ghost predicate Tables(s: State) {
    && s.join.Keys == s.sched.status.Keys
    && (forall t | t in s.sched.status :: t < s.sched.newId)
    && (forall t: Tid :: t in s.joined <==> t < s.sched.newId)
    && (forall t: Tid :: t in s.exited <==> t < s.sched.newId && t !in s.sched.status)
  }

  /** The list of a thread holds exactly the threads now joining it, oldest first. */
  ghost predicate Lists(s: State) {
    && (forall x, c | x in s.joined && c in s.joined[x] :: c in s.join && s.join[c].Joining? && s.join[c].target == x)
    && (forall c | c in s.join && s.join[c].Joining? ::
          s.join[c].target in s.joined && c in s.joined[s.join[c].target] && s.join[c].stamp < s.clock)
    && (forall x | x in s.joined :: Ordered(s.join, s.joined[x]))
  }

  /** A block is marked exactly when its target has exited. */
  ghost predicate Marks(s: State) {
    forall c | c in s.join && s.join[c].Joining? ::
      s.join[c].target != c && (s.join[c].joinable <==> s.join[c].target in s.exited)
  }

  ghost predicate Books(s: State) {
    Tables(s) && Lists(s) && Marks(s)
  }

  ghost predicate Inv(s: State) {
    InTurn(s.sched) && Books(s)
  }

  /** A thread has returned to the boot thread. */
  ghost predicate Back(s: State) {
    LeftBehind(s.sched) && Books(s)
  }

  ghost predicate Reach(s: State) { Inv(s) || Back(s) }

  lemma AddBlockLists(s: State, x: Tid)
    requires Books(s) && s.Run() in s.join && s.join[s.Run()] == NotJoining && x in s.joined && x != s.Run()
    ensures Lists(AddBlock(s, x))
  {
    hide Tables, Marks, Ordered;
    var j := Joining(x, false, s.clock);
    forall y | y in s.joined ensures Ordered(s.join[s.Run() := j], s.joined[y]) {
      assert s.Run() !in s.joined[y];
      OrderedElsewhere(s.join, s.joined[y], s.Run(), j);
    }
    OrderedAppend(s.join[s.Run() := j], s.joined[x], s.Run());
  }

  lemma OrderedAppend(join: map<Tid, Join>, q: seq<Tid>, t: Tid)
    requires Ordered(join, q) && t in join && join[t].Joining?
    requires forall c | c in q :: join[c].stamp < join[t].stamp
    ensures Ordered(join, q + [t])
  {
    assert forall i | 0 <= i < |q| :: q[i] in q;
  }

  lemma AddBlockKeeps(s: State, x: Tid)
    requires Reach(s) && s.Run() in s.join && s.join[s.Run()] == NotJoining && x in s.sched.status
    ensures x in s.joined
    ensures x != s.Run() ==>
              && (Inv(s) ==> Inv(AddBlock(s, x))) && (Back(s) ==> Back(AddBlock(s, x)))
  {
    hide InTurn, LeftBehind, Lists;
    if x != s.Run() {
      AddBlockLists(s, x);
    }
  }

  lemma ListFacts(s: State, x: Tid)
    requires Lists(s) && x in s.joined
    ensures NoDup(s.joined[x])
  {
  }

  ghost predicate Ordered(join: map<Tid, Join>, q: seq<Tid>) {
    && (forall c | c in q :: c in join && join[c].Joining?)
    && forall i, j | 0 <= i < j < |q| :: join[q[i]].stamp < join[q[j]].stamp
  }

  lemma OrderedElsewhere(join: map<Tid, Join>, q: seq<Tid>, r: Tid, j: Join)
    requires Ordered(join, q) && r !in q
    ensures Ordered(join[r := j], q)
  {
    assert forall i | 0 <= i < |q| :: q[i] in q && join[r := j][q[i]] == join[q[i]];
  }

  /** Taking a block off its list keeps the rest in order. */
  lemma OrderedCut(join: map<Tid, Join>, q: seq<Tid>, k: nat)
    requires Ordered(join, q) && k < |q|
    ensures Ordered(join, q[..k] + q[k + 1..])
  {
    var q' := q[..k] + q[k + 1..];
    assert forall i | 0 <= i < |q'| :: q'[i] == q[if i < k then i else i + 1];
    assert forall c | c in q' :: c in q;
  }

  lemma OrderedWithout(join: map<Tid, Join>, q: seq<Tid>, r: Tid)
    requires Ordered(join, q) && NoDup(q) && r in q
    ensures Ordered(join[r := NotJoining], Without(q, r))
  {
    hide Without, Ordered;
    WithoutProperties(q, r);
    var k :| 0 <= k < |q| && q[k] == r;
    WithoutAt(q, k);
    OrderedCut(join, q, k);
    OrderedElsewhere(join, Without(q, r), r, NotJoining);
  }

  lemma ReturnLists(s: State)
    requires Reach(s) && s.Run() in s.join && s.join[s.Run()].Joining? && s.join[s.Run()].joinable
    ensures Lists(JoinLoop(s).s)
  {
    hide InTurn, LeftBehind, Without, Marks, Ordered;
    var r := s.Run();
    var x := s.join[r].target;
    var s' := JoinLoop(s).s;
    ListFacts(s, x);
    WithoutProperties(s.joined[x], r);
    OrderedWithout(s.join, s.joined[x], r);
    forall y | y in s.joined && y != x ensures Ordered(s'.join, s'.joined[y]) {
      assert r !in s.joined[y];
      OrderedElsewhere(s.join, s.joined[y], r, NotJoining);
    }
  }

  lemma ReturnKeeps(s: State)
    requires Reach(s) && s.Run() in s.join && s.join[s.Run()].Joining? && s.join[s.Run()].joinable
    ensures (Inv(s) ==> Inv(JoinLoop(s).s)) && (Back(s) ==> Back(JoinLoop(s).s))
  {
    hide InTurn, LeftBehind, Lists;
    ReturnLists(s);
  }

  /** The books do not depend on whose turn it is. */
  lemma SwitchKeeps(s: State, sched: Sched<Name>)
    requires Books(s) && sched.status.Keys == s.sched.status.Keys && sched.newId == s.sched.newId
    ensures Books(s.(sched := sched))
  {
  }

  lemma ResumeFacts(s: Sched<Name>, t: Tid)
    requires InTurn(s) && t in s.ready
    ensures Resume(s, t).Some?
    ensures var s' := Resume(s, t).value;
      InTurn(s') && s'.run == t && s'.status.Keys == s.status.Keys && s'.newId == s.newId
  {
    ResumeFrame(s, t);
    InvFacts(s);
    hide Scheduler.Inv;
  }

  /** Every other thread can hand over to the boot thread. */
  lemma ReturnFacts(s: Sched<Name>)
    requires InTurn(s) && s.run != BOOT
    ensures Resume(s, BOOT).Some?
    ensures var s' := Resume(s, BOOT).value;
      && LeftBehind(s') && s'.run == s.run && s'.ready == s.ready + [s.run]
      && s'.status.Keys == s.status.Keys && s'.newId == s.newId
  {
  }

  /** While nobody has returned to the boot thread, what a turn of the loop comes to depends only on the
      target and on who is ready, and no assertion fails. */
  lemma LoopOutcome(s: State)
    requires Inv(s) && s.Run() in s.join && s.join[s.Run()].Joining?
    ensures
      var x := s.join[s.Run()].target;
      match JoinLoop(s)
      case Returned(s') => x in s.exited && Inv(s')
      case Switched(s') =>
        Inv(s') && (if x in s.sched.ready then s'.Run() == x else s.sched.ready != [] && s'.Run() == s.sched.ready[0])
      case ToBoot(s') =>
        && s.Run() != BOOT && (x == BOOT || (x !in s.exited && x !in s.sched.ready && s.sched.ready == []))
        && Back(s') && s'.sched.ready == s.sched.ready + [s.Run()] && s' == s.(sched := s'.sched)
      case _ => false
  {
    hide Scheduler.Inv, Resume, LeftBehind, Books;
    InvFacts(s.sched);
    var x := s.join[s.Run()].target;
    if s.join[s.Run()].joinable {
      ReturnKeeps(s);
      MarkedExited(s);
    } else {
      TargetLive(s, s.Run());
      TargetPlace(s, x);
      if x in s.sched.ready {
        ResumeFacts(s.sched, x);
        SwitchKeeps(s, Resume(s.sched, x).value);
      } else if x != BOOT && s.sched.ready != [] {
        ResumeFacts(s.sched, s.sched.ready[0]);
        SwitchKeeps(s, Resume(s.sched, s.sched.ready[0]).value);
      } else {
        ReturnFacts(s.sched);
        SwitchKeeps(s, Resume(s.sched, BOOT).value);
      }
    }
  }

  /** Who a yield hands over to. */
  function Head(q: seq<Tid>): Tid { if q == [] then BOOT else q[0] }

  /** Does a hand-over towards `x` go to the thread that returned to the boot thread? */
  predicate ToReturned(s: Sched<Name>, x: Tid) {
    s.run == if x in s.ready then x else Head(s.ready)
  }

  /** After a return to the boot thread its join returns if the target has exited. If not, it would have
      to hand over, and an assertion fails exactly when that would be to the thread that returned. */
  lemma BackOutcome(s: State)
    requires Back(s) && BOOT in s.join && s.join[BOOT].Joining?
    ensures
      var x := s.join[BOOT].target;
      match JoinLoop(s)
      case Returned(s') => x in s.exited && Back(s')
      case Failed => x !in s.exited && ToReturned(s.sched, x)
      case JoinsItself(_) => false
      case NoSuchThread => false
      case _ => x !in s.exited && !ToReturned(s.sched, x)
  {
    hide Books;
    var x := s.join[BOOT].target;
    if s.join[BOOT].joinable {
      ReturnKeeps(s);
      MarkedExited(s);
    } else {
      TargetLive(s, BOOT);
    }
  }

  lemma MarkedExited(s: State)
    requires Books(s) && s.Run() in s.join && s.join[s.Run()].Joining?
    ensures s.join[s.Run()].joinable <==> s.join[s.Run()].target in s.exited
  {
  }

  lemma TargetLive(s: State, c: Tid)
    requires Books(s) && c in s.join && s.join[c].Joining? && !s.join[c].joinable
    ensures s.join[c].target in s.sched.status && s.join[c].target != c && s.join[c].target !in s.exited
  {
  }

  lemma TargetPlace(s: State, x: Tid)
    requires InTurn(s.sched) && x in s.sched.status && x != s.Run()
    ensures s.sched.status[x] != Running
    ensures x != BOOT ==> (s.sched.status[x] == Ready <==> x in s.sched.ready)
  {
  }

  /** The caller has a new block, unmarked and last on the list of `x`, which joins `x`. */
  ghost predicate ListedFor(s': State, s: State, x: Tid) {
    && s.Run() in s'.join && s'.join[s.Run()].Joining? && s'.join[s.Run()].target == x && !s'.join[s.Run()].joinable
    && x in s.joined && x in s'.joined && s'.joined[x] == s.joined[x] + [s.Run()]
  }

  /** What a join comes to, in terms a caller can see beforehand. */
  lemma CallOutcome(s: State, x: int)
    requires Reach(s) && s.Run() in s.join && s.join[s.Run()] == NotJoining
    ensures JoinCall(s, x) == NoSuchThread <==> x >= s.sched.newId
    ensures JoinCall(s, x).JoinsItself? <==> x == s.Run()
    ensures JoinCall(s, x).Returned? <==> x in s.exited
    ensures JoinCall(s, x).Returned? ==> JoinCall(s, x).s == s
    ensures x == s.Run() ==> ListedFor(JoinCall(s, x).s, s, x)
    ensures Inv(s) ==> (JoinCall(s, x) == Failed <==> x < 0)
    ensures Inv(s) && JoinCall(s, x).Switched? ==> Inv(JoinCall(s, x).s)
    ensures Inv(s) && JoinCall(s, x).ToBoot? ==> Back(JoinCall(s, x).s)
  {
    hide InTurn, LeftBehind, JoinLoop, Lists, Marks;
    TableFacts(s);
    if x in s.sched.status && x != s.Run() {
      AddBlockKeeps(s, x);
      if Inv(s) {
        LoopOutcome(AddBlock(s, x));
      } else {
        AtBoot(s);
        BackOutcome(AddBlock(s, x));
      }
    }
  }

  lemma AtBoot(s: State)
    requires Back(s)
    ensures s.Run() == BOOT && BOOT in s.sched.status
  {
  }

  lemma MarkedOrdered(s: State, q: seq<Tid>, r: Tid)
    requires Ordered(s.join, q) && r !in q && r in s.joined
    ensures Ordered(Marked(s, r), q)
  {
    assert forall i | 0 <= i < |q| :: q[i] in q;
  }

  lemma ExitBooks(s: State, sched: Sched<Name>)
    requires Books(s) && s.Run() in s.join && s.join[s.Run()] == NotJoining
    requires sched.status.Keys == s.sched.status.Keys - {s.Run()} && sched.newId == s.sched.newId
    ensures Books(s.(sched := sched, join := Marked(s, s.Run()), exited := s.exited + {s.Run()}))
  {
    hide Ordered;
    forall y | y in s.joined ensures Ordered(Marked(s, s.Run()), s.joined[y]) {
      MarkedOrdered(s, s.joined[y], s.Run());
    }
  }

  lemma InJoined(s: State)
    requires Books(s) && s.Run() in s.join
    ensures s.Run() in s.joined
  {
  }

  /** The exit hands over to the head of the ready queue or else returns to the boot thread. */
  lemma ExitKeeps(s: State)
    requires Inv(s) && s.Run() in s.join && s.join[s.Run()] == NotJoining && s.Run() != BOOT
    ensures Exit(s.sched).Some? && s.Run() in s.joined
    ensures if s.sched.ready != [] then Inv(Exits(s)) else Back(Exits(s))
  {
    hide Scheduler.Inv, LeftBehind, Exit, Books;
    ExitFacts(s.sched);
    ExitBooks(s, Exit(s.sched).value);
    InJoined(s);
  }

  lemma ExitFacts(s: Sched<Name>)
    requires InTurn(s) && s.run != BOOT
    ensures Exit(s).Some?
    ensures var s' := Exit(s).value;
      && s'.status.Keys == s.status.Keys - {s.run} && s'.newId == s.newId
      && if s.ready != [] then InTurn(s') && s'.run == s.ready[0] else LeftBehind(s') && s'.run == s.run
  {
    if s.ready != [] {
      ExitFrame(s);
      InvFacts(s);
      hide Scheduler.Inv;
    }
  }

  function Exits(s: State): State
    requires Exit(s.sched).Some? && s.Run() in s.joined
  {
    s.(sched := Exit(s.sched).value, join := Marked(s, s.Run()), exited := s.exited + {s.Run()})
  }

  // ---------- Steps and runs ----------

  datatype Event = Call(op: Op<Name>) | ExitEvent | JoinEvent(x: Tid) | LoopEvent

  /** A call that returns to the boot thread. */
  predicate GivesWay(s: Sched<Name>, op: Op<Name>) {
    s.run != BOOT && (op == ResumeOp(BOOT) || (op == YieldOp && s.ready == []))
  }

  /** Outcomes a run goes on from. Of a boot thread that was returned to only the returns of its joins are
      followed: its other outcomes dispatch a thread while the running link is on the ready queue. */
  ghost predicate Followed(s: State, o: Outcome) {
    o.Returned? || (Inv(s) && (o.Switched? || o.ToBoot?))
  }

  /** A thread in a join goes round its loop; any other may make any call that its guard allows or that
      returns to the boot thread. */
  ghost predicate Enabled(s: State, e: Event)
    requires Reach(s)
  {
    s.Run() in s.join &&
    match e
    case Call(op) =>
      && Inv(s) && s.join[s.Run()] == NotJoining && !op.ExitOp? && op.On(s.sched)
      && (Legal(s.sched, op) || GivesWay(s.sched, op))
    case ExitEvent => Inv(s) && s.join[s.Run()] == NotJoining && s.Run() != BOOT
    case JoinEvent(x) => s.join[s.Run()] == NotJoining && Followed(s, JoinCall(s, x))
    case LoopEvent => s.join[s.Run()].Joining? && Followed(s, JoinLoop(s))
  }

  /** What the scheduler's other operations do to the table. */
  lemma CallFacts(s: Sched<Name>, op: Op<Name>)
    requires InTurn(s) && op.On(s) && !op.ExitOp? && (Legal(s, op) || GivesWay(s, op))
    ensures Apply(s, op).Some?
    ensures var s' := Apply(s, op).value;
      && (if Legal(s, op) then InTurn(s') else LeftBehind(s'))
      && s'.newId == s.newId + (if op.CreateOp? then 1 else 0)
      && s'.status.Keys == s.status.Keys + (if op.CreateOp? then {s.newId} else {})
  {
    hide Scheduler.Inv, LeftBehind;
    InvFacts(s);
    if Legal(s, op) {
      LegalFacts(s, op);
    } else {
      ReturnFacts(s);
    }
  }

  lemma LegalFacts(s: Sched<Name>, op: Op<Name>)
    requires InTurn(s) && op.On(s) && !op.ExitOp? && Legal(s, op)
    ensures Apply(s, op).Some?
    ensures var s' := Apply(s, op).value;
      && InTurn(s')
      && s'.newId == s.newId + (if op.CreateOp? then 1 else 0)
      && s'.status.Keys == s.status.Keys + (if op.CreateOp? then {s.newId} else {})
  {
    hide Scheduler.Inv;
    LegalExactly(s, op);
    InvFacts(s);
    hide Resume, WakeupWait, Wakeup, Sleep;
    match op
    case YieldOp => ResumeFacts(s, s.ready[0]);
    case ResumeOp(t) => ResumeFacts(s, t);
    case SleepOp(p) => SleepFacts(s, p);
    case WakeupOp(p) => WakeupFacts(s, p);
    case WakeupWaitOp(p) => WakeupWaitFacts(s, p);
    case CreateOp => CreateFrame(s);
    case NewPrimOp(_) =>
  }

  lemma SleepFacts(s: Sched<Name>, p: Name)
    requires InTurn(s) && p in s.waits && (s.run != BOOT || s.ready == [])
    ensures Sleep(s, p).Some?
    ensures var s' := Sleep(s, p).value; InTurn(s') && s'.status.Keys == s.status.Keys && s'.newId == s.newId
  {
    InvFacts(s);
    if s.ready != [] {
      SleepFrame(s, p);
    }
  }

  lemma WakeupFacts(s: Sched<Name>, p: Name)
    requires InTurn(s) && p in s.waits
    ensures var s' := Wakeup(s, p); InTurn(s') && s'.status.Keys == s.status.Keys && s'.newId == s.newId
  {
    WakeupFrame(s, p);
    if s.waits[p] != [] {
      Queued(s, s.waits[p][0], p);
    }
  }

  lemma WakeupWaitFacts(s: Sched<Name>, p: Name)
    requires InTurn(s) && p in s.waits && Legal(s, WakeupWaitOp(p))
    ensures WakeupWait(s, p).Some?
    ensures var s' := WakeupWait(s, p).value; InTurn(s') && s'.status.Keys == s.status.Keys && s'.newId == s.newId
  {
    LegalExactly(s, WakeupWaitOp(p));
    if s.waits[p] != [] {
      Queued(s, s.waits[p][0], p);
    }
  }

  ghost function Step(s: State, e: Event): State
    requires Reach(s) && Enabled(s, e)
  {
    match e
    case Call(op) => CallFacts(s.sched, op); Enrolled(s, Apply(s.sched, op).value)
    case ExitEvent => ExitKeeps(s); Exits(s)
    case JoinEvent(x) => JoinCall(s, x).s
    case LoopEvent => JoinLoop(s).s
  }

  lemma OrderedEmpty(join: map<Tid, Join>)
    ensures Ordered(join, [])
  {
  }

  lemma TableFacts(s: State)
    requires Reach(s)
    ensures s.sched.newId !in s.joined && s.sched.newId !in s.join && s.sched.newId !in s.sched.status
    ensures Inv(s) ==> s.sched.run == s.Run()
    ensures s.Run() in s.sched.status
    ensures s.join.Keys == s.sched.status.Keys && s.joined.Keys >= s.sched.status.Keys
    ensures forall x, c | x in s.joined && c in s.joined[x] :: c in s.join
  {
    if Inv(s) {
      InvFacts(s.sched);
    }
  }

  lemma EnrolKeeps(s: State, sched: Sched<Name>)
    requires Books(s) && sched.newId == s.sched.newId + 1
    requires sched.status.Keys == s.sched.status.Keys + {s.sched.newId}
    ensures Books(Enrolled(s, sched))
  {
    hide Ordered;
    var n := s.sched.newId;
    OrderedEmpty(s.join[n := NotJoining]);
    assert n !in s.join;
    forall y | y in s.joined ensures Ordered(s.join[n := NotJoining], s.joined[y]) {
      OrderedElsewhere(s.join, s.joined[y], n, NotJoining);
    }
  }

  lemma CreateKeeps(s: State)
    requires Inv(s) && Legal(s.sched, CreateOp)
    ensures Create(s.sched).Some? && Inv(Enrolled(s, Create(s.sched).value))
  {
    hide InTurn, LeftBehind, Books;
    CallFacts(s.sched, CreateOp);
    EnrolKeeps(s, Create(s.sched).value);
  }

  lemma CallKeeps(s: State, op: Op<Name>)
    requires Inv(s) && Enabled(s, Call(op))
    ensures if Legal(s.sched, op) then Inv(Step(s, Call(op))) else Back(Step(s, Call(op)))
  {
    hide InTurn, LeftBehind, Apply, Legal, Books;
    CallFacts(s.sched, op);
    var sched := Apply(s.sched, op).value;
    if op.CreateOp? {
      EnrolKeeps(s, sched);
    } else {
      SwitchKeeps(s, sched);
    }
  }

  lemma StepKeeps(s: State, e: Event)
    requires Reach(s) && Enabled(s, e)
    ensures Reach(Step(s, e))
  {
    hide Inv, Back, JoinLoop, JoinCall;
    match e
    case Call(op) => CallKeeps(s, op);
    case ExitEvent => ExitKeeps(s);
    case JoinEvent(x) => CallOutcome(s, x);
    case LoopEvent => if Inv(s) { LoopOutcome(s); } else { AtBoot(s); BackOutcome(s); }
  }

  ghost predicate CanRun(s: State, es: seq<Event>)
    requires Reach(s)
    decreases |es|
  {
    es == [] || (Enabled(s, es[0]) && (StepKeeps(s, es[0]); CanRun(Step(s, es[0]), es[1..])))
  }

  ghost function After(s: State, es: seq<Event>): (s': State)
    requires Reach(s) && CanRun(s, es)
    ensures Reach(s')
    decreases |es|
  {
    if es == [] then s
    else
      StepKeeps(s, es[0]);
      After(Step(s, es[0]), es[1..])
  }

  // ---------- Joining is sound ----------

  /** What a thread's own join and its turns of the loop leave alone. */
  lemma OthersJoins(s: State, c: Tid, x: Tid)
    requires Reach(s) && s.Run() in s.join
    ensures
      s.join[s.Run()].Joining? && Followed(s, JoinLoop(s)) ==>
        var s' := JoinLoop(s).s;
        s'.exited == s.exited && (c in s.join && c != s.Run() ==> c in s'.join && s'.join[c] == s.join[c])
    ensures
      s.join[s.Run()] == NotJoining && Followed(s, JoinCall(s, x)) ==>
        var s' := JoinCall(s, x).s;
        s'.exited == s.exited && (c in s.join && c != s.Run() ==> c in s'.join && s'.join[c] == s.join[c])
  {
    hide InTurn, LeftBehind, Resume, Yield, Lists, Marks;
    if s.join[s.Run()] == NotJoining && x in s.sched.status && x != s.Run() {
      AddBlockKeeps(s, x);
      assert c in s.join && c != s.Run() ==> AddBlock(s, x).join[c] == s.join[c];
    }
  }

  /** A block is marked by its target's exit and by nothing else, and no other thread takes it off its list. */
  lemma MarkedByExitOnly(s: State, e: Event, c: Tid)
    requires Reach(s) && Enabled(s, e) && c in s.join && s.join[c].Joining? && c != s.Run()
    ensures c in Step(s, e).join
    ensures
      var exits := e == ExitEvent && s.join[c].target == s.Run();
      Step(s, e).join[c] == s.join[c].(joinable := s.join[c].joinable || exits)
  {
    hide InTurn, LeftBehind, Apply, Legal, Resume, Yield, Exit, Ordered, JoinLoop, JoinCall, Followed;
    match e
    case Call(op) => CallFacts(s.sched, op);
    case ExitEvent => ExitKeeps(s);
    case JoinEvent(x) => OthersJoins(s, c, x);
    case LoopEvent => OthersJoins(s, c, BOOT);
  }

  lemma ExitedGrows(s: State, e: Event)
    requires Reach(s) && Enabled(s, e)
    ensures s.exited <= Step(s, e).exited
  {
    hide InTurn, LeftBehind, Apply, Legal, Resume, Yield, Exit, JoinLoop, JoinCall, Lists, Marks, Followed;
    match e
    case Call(op) => CallFacts(s.sched, op);
    case ExitEvent => ExitKeeps(s);
    case JoinEvent(x) => OthersJoins(s, s.Run(), x);
    case LoopEvent => OthersJoins(s, s.Run(), BOOT);
  }

  /** A thread that has exited stays out of the table for ever: its id is never given out again. */
  lemma {:induction false} GoneForGood(s: State, es: seq<Event>, x: Tid)
    requires Reach(s) && CanRun(s, es) && x in s.exited
    ensures x in After(s, es).exited && x !in After(s, es).sched.status
    decreases |es|
  {
    hide InTurn, LeftBehind, Lists, Marks;
    if es != [] {
      StepKeeps(s, es[0]);
      ExitedGrows(s, es[0]);
      GoneForGood(Step(s, es[0]), es[1..], x);
    }
  }

  /** The target of the join that this event completes, if it completes one. */
  ghost predicate Completes(s: State, e: Event, x: Tid)
    requires Reach(s) && Enabled(s, e)
  {
    || (e == JoinEvent(x) && JoinCall(s, x).Returned?)
    || (e == LoopEvent && s.join[s.Run()].target == x && JoinLoop(s).Returned?)
  }

  /** When a join returns, one of the boot thread after the last exit included, its target has exited, and
      the target's table entry stays empty whatever is run from then on. */
  lemma JoinIsSound(s: State, e: Event, x: Tid, es: seq<Event>)
    requires Reach(s) && Enabled(s, e) && Completes(s, e, x) && Reach(Step(s, e)) && CanRun(Step(s, e), es)
    ensures x in s.exited && x !in After(Step(s, e), es).sched.status
  {
    hide InTurn, LeftBehind, Lists, Marks, JoinLoop, JoinCall, Step;
    if e == LoopEvent {
      LoopReturns(s);
    } else {
      CallOutcome(s, x);
    }
    ExitedGrows(s, e);
    GoneForGood(Step(s, e), es, x);
  }

  /** A turn of the loop returns exactly if the target has exited. */
  lemma LoopReturns(s: State)
    requires Reach(s) && s.Run() in s.join && s.join[s.Run()].Joining?
    ensures JoinLoop(s).Returned? <==> s.join[s.Run()].target in s.exited
  {
    hide InTurn, LeftBehind, Books;
    if Inv(s) {
      LoopOutcome(s);
    } else {
      AtBoot(s);
      BackOutcome(s);
    }
    MarkedExited(s);
  }

  /** The pool as it starts out: only the boot thread, joining nobody and joined by nobody. */
  function Start(): State {
    State(Initial(), map[BOOT := NotJoining], map[BOOT := []], {}, 0)
  }

  lemma NobodyJoins(s: State)
    requires Scheduler.Inv(s.sched) && s.sched.cur == s.sched.run == BOOT && s.sched.newId == 1
    requires s.sched.status == map[BOOT := Running] && s.exited == {}
    requires s.join == map[BOOT := NotJoining] && s.joined == map[BOOT := []]
    ensures Inv(s)
  {
    hide Scheduler.Inv;
  }

  lemma StartKeeps()
    ensures Inv(Start())
  {
    hide Inv, Scheduler.Inv;
    InitialInv<Name>();
    NobodyJoins(Start());
  }

  // ---------- The boot thread ----------

  ghost predicate NobodyListed(s: State) {
    forall x | x in s.joined :: s.joined[x] == []
  }

  lemma NoneLeft(s: State)
    requires Books(s) && s.join == map[BOOT := NotJoining]
    ensures NobodyListed(s)
  {
    assert forall x | x in s.joined && s.joined[x] != [] :: s.joined[x][0] in s.joined[x];
  }

  /** When all other threads have exited, the boot thread's own join returns and leaves all lists empty, and
      so does every join of a thread that was ever created. */
  lemma AllExited(s: State)
    requires Reach(s) && s.sched.status.Keys == {BOOT} && s.Run() == BOOT && BOOT in s.join
    ensures s.join[BOOT].Joining? ==> JoinLoop(s).Returned? && NobodyListed(JoinLoop(s).s)
    ensures s.join[BOOT] == NotJoining ==>
              NobodyListed(s) && forall x: Tid | 0 < x < s.sched.newId :: JoinCall(s, x) == Returned(s)
  {
    hide InTurn, LeftBehind, Lists, JoinLoop, JoinCall;
    if s.join[BOOT].Joining? {
      LoopReturns(s);
      TableFacts(s);
      MarkedExited(s);
      if !s.join[BOOT].joinable {
        TargetLive(s, BOOT);
      }
      ReturnsAlone(s);
    } else {
      NoneLeft(s);
      forall x: Tid | 0 < x < s.sched.newId ensures JoinCall(s, x) == Returned(s) {
        CallOutcome(s, x);
      }
    }
  }

  lemma ReturnsAlone(s: State)
    requires Reach(s) && s.join.Keys == {BOOT} && s.Run() == BOOT && s.join[BOOT].Joining? && JoinLoop(s).Returned?
    ensures NobodyListed(JoinLoop(s).s)
  {
    hide InTurn, LeftBehind, Lists, Marks;
    ReturnKeeps(s);
    NoneLeft(JoinLoop(s).s);
  }

  lemma SomeMember(q: seq<Tid>)
    ensures q == [] || exists t :: t in q
  {
    if q != [] {
      assert q[0] in q;
    }
  }

  /** The exit of the last thread but the boot thread gets there. */
  lemma LastExit(s: State)
    requires Inv(s) && Enabled(s, ExitEvent) && s.sched.status.Keys == {BOOT, s.Run()}
    ensures
      var s' := Step(s, ExitEvent);
      && Back(s') && s'.Run() == BOOT && s'.sched.status.Keys == {BOOT}
      && (BOOT in s.join && s.join[BOOT].Joining? ==> BOOT in s'.join && s'.join[BOOT].Joining?)
  {
    hide Scheduler.Inv, LeftBehind, Exit, Books;
    ExitKeeps(s);
    ExitFacts(s.sched);
    InvFacts(s.sched);
    SomeMember(s.sched.ready);
    if BOOT in s.join && s.join[BOOT].Joining? {
      MarkedByExitOnly(s, ExitEvent, BOOT);
    }
    AtBoot(Step(s, ExitEvent));
  }

  // ---------- Assertions ----------

  /** In every state that any run reaches: a turn of the join loop fails an assertion exactly if a thread
      has returned to the boot thread, the target of the boot thread's join has not exited, and the loop
      would hand over to the thread that returned. */
  lemma LoopFailsExactly(es: seq<Event>)
    requires Reach(Start()) && CanRun(Start(), es)
    ensures
      var s := After(Start(), es);
      s.Run() in s.join && s.join[s.Run()].Joining? ==>
        var x := s.join[s.Run()].target;
        JoinLoop(s) == Failed <==> Back(s) && x !in s.exited && ToReturned(s.sched, x)
  {
    hide InTurn, LeftBehind, Books, JoinLoop;
    var s := After(Start(), es);
    if s.Run() in s.join && s.join[s.Run()].Joining? {
      if Back(s) {
        AtBoot(s);
        BackOutcome(s);
      } else {
        LoopOutcome(s);
      }
    }
  }

  /** A join call fails one exactly for a negative id or, once a thread has returned, in the same way. */
  lemma CallFailsExactly(es: seq<Event>, x: int)
    requires Reach(Start()) && CanRun(Start(), es)
    ensures
      var s := After(Start(), es);
      s.Run() in s.join && s.join[s.Run()] == NotJoining ==>
        (JoinCall(s, x) == Failed <==>
           x < 0 || (Back(s) && x in s.sched.status && x != BOOT && ToReturned(s.sched, x)))
  {
    hide InTurn, LeftBehind, JoinLoop, Lists, Marks;
    var s := After(Start(), es);
    if s.Run() in s.join && s.join[s.Run()] == NotJoining {
      CallOutcome(s, x);
      if Back(s) {
        AtBoot(s);
        if x in s.sched.status && x != BOOT {
          AddBlockKeeps(s, x);
          BackOutcome(AddBlock(s, x));
        }
      }
    }
  }

  /** A run with one step before it. */
  lemma Before(s: State, e: Event, es: seq<Event>)
    requires Reach(s) && Enabled(s, e) && Reach(Step(s, e)) && CanRun(Step(s, e), es)
    ensures CanRun(s, [e] + es) && After(s, [e] + es) == After(Step(s, e), es)
  {
    hide Reach, Step, Enabled;
    assert ([e] + es)[1..] == es;
  }

  ghost predicate OneCreated(s: State) {
    && Inv(s) && s.Run() == BOOT && s.sched.ready == [1] && s.sched.status == map[BOOT := Running, 1 := Ready]
    && s.join == map[BOOT := NotJoining, 1 := NotJoining]
  }

  ghost predicate OneJoined(s: State) {
    && Inv(s) && s.Run() == 1 && s.sched.ready == [] && s.join.Keys == {BOOT, 1}
    && s.join[1] == NotJoining && s.join[BOOT].Joining? && s.join[BOOT].target == 1 && !s.join[BOOT].joinable
  }

  ghost predicate NoneCreated(s: State) {
    && Inv(s) && s.Run() == BOOT && s.sched.ready == [] && s.sched.status == map[BOOT := Running]
    && s.sched.newId == 1 && s.join == map[BOOT := NotJoining]
  }

  lemma Creates(s: State)
    requires NoneCreated(s)
    ensures Enabled(s, Call(CreateOp)) && OneCreated(Step(s, Call(CreateOp)))
  {
    hide InTurn, Books, LeftBehind;
    CallKeeps(s, CreateOp);
    var s1 := Step(s, Call(CreateOp));
    assert s1.sched.ready == [1] && s1.sched.status == map[BOOT := Running, 1 := Ready];
  }

  /** The join dispatches thread 1. */
  lemma Dispatches(s: State)
    requires OneCreated(s)
    ensures Enabled(s, JoinEvent(1)) && OneJoined(Step(s, JoinEvent(1)))
  {
    hide Scheduler.Inv, Books, LeftBehind;
    AddBlockKeeps(s, 1);
    CallOutcome(s, 1);
    ResumeFacts(s.sched, 1);
    OneLeft(s.sched);
  }

  lemma OneLeft(s: Sched<Name>)
    requires InTurn(s) && s.run == BOOT && s.ready == [1]
    ensures Resume(s, 1).Some? && Resume(s, 1).value.ready == []
  {
    assert Without([1], 1) == [];
  }

  lemma YieldsBack(s: State)
    requires OneJoined(s)
    ensures Enabled(s, Call(YieldOp))
    ensures var s' := Step(s, Call(YieldOp));
      Back(s') && s'.Run() == BOOT && BOOT in s'.join && s'.join[BOOT].Joining? && JoinLoop(s') == Failed
  {
    hide Scheduler.Inv, Books, LeftBehind;
    CallKeeps(s, YieldOp);
    CallFacts(s.sched, YieldOp);
    ReturnFacts(s.sched);
    var s' := Step(s, Call(YieldOp));
    AtBoot(s');
    MarkedExited(s');
    BackOutcome(s');
  }

  lemma StartAlone()
    requires Inv(Start())
    ensures NoneCreated(Start())
  {
    hide Inv;
  }

  /** Three calls make an assertion of the join loop fail: thread 1 is created and joined, and yields with
      nobody ready; the boot thread it returns to then hands over to thread 1, whose link is still the
      running one. */
  lemma YieldFailsJoin() returns (es: seq<Event>)
    ensures Reach(Start()) && CanRun(Start(), es)
    ensures
      var s := After(Start(), es);
      s.Run() == BOOT && BOOT in s.join && s.join[BOOT].Joining? && JoinLoop(s) == Failed
    ensures es == [Call(CreateOp), JoinEvent(1), Call(YieldOp)]
  {
    hide InTurn, Books, LeftBehind, Start, Enabled, Step, JoinLoop;
    StartKeeps();
    StartAlone();
    var s := Start();
    Creates(s);
    var s1 := Step(s, Call(CreateOp));
    Dispatches(s1);
    var s2 := Step(s1, JoinEvent(1));
    YieldsBack(s2);
    Before(s2, Call(YieldOp), []);
    Before(s1, JoinEvent(1), [Call(YieldOp)] + []);
    Before(s, Call(CreateOp), [JoinEvent(1)] + ([Call(YieldOp)] + []));
    es := [Call(CreateOp)] + ([JoinEvent(1)] + ([Call(YieldOp)] + []));
    assert es == [Call(CreateOp), JoinEvent(1), Call(YieldOp)];
  }
}
