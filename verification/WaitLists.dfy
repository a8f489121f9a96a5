/** The library's older bookkeeping of waiting threads: one global list of waiters for all primitives,
    searched at every wake-up. It serves as the specification that the queue of each primitive meets. */
module WaitLists {
  import opened Sequences
  import opened Scheduler

  datatype Entry<P> = Entry(lock: P, t: Tid)

  /** The threads waiting on `p`, oldest first. */
  function For<P(==)>(list: seq<Entry<P>>, p: P): seq<Tid> {
    if list == [] then []
    else if list[0].lock == p then [list[0].t] + For(list[1..], p)
    else For(list[1..], p)
  }

  /** Where the search for a waiter on `p` stops: at the first one, or behind the end of the list. */
  function First<P(==)>(list: seq<Entry<P>>, p: P): (i: nat)
    ensures i <= |list| && (i < |list| ==> list[i].lock == p) && forall j | 0 <= j < i :: list[j].lock != p
  {
    if list == [] || list[0].lock == p then 0 else 1 + First(list[1..], p)
  }

  lemma {:induction false} ForAppend<P>(list: seq<Entry<P>>, e: Entry<P>, q: P)
    ensures For(list + [e], q) == if e.lock == q then For(list, q) + [e.t] else For(list, q)
  {
    if list == [] {
      assert list + [e] == [e];
    } else {
      assert (list + [e])[1..] == list[1..] + [e];
      ForAppend(list[1..], e, q);
    }
  }

  /** The search finds nobody exactly when nobody waits on `p`, and otherwise who has waited longest. */
  lemma {:induction false} ForFirst<P>(list: seq<Entry<P>>, p: P)
    ensures First(list, p) == |list| <==> For(list, p) == []
    ensures First(list, p) < |list| ==> list[First(list, p)].t == For(list, p)[0]
  {
    if list != [] {
      ForFirst(list[1..], p);
    }
  }

  lemma {:induction false} ForRemove<P>(list: seq<Entry<P>>, i: nat, q: P)
    requires i < |list| && forall j | 0 <= j < i :: list[j].lock != list[i].lock
    ensures
      var rest := list[..i] + list[i + 1..];
      For(list, q) == if q == list[i].lock then [list[i].t] + For(rest, q) else For(rest, q)
  {
    if i > 0 {
      ForRemove(list[1..], i - 1, q);
      var rest := list[1..i] + list[i + 1..];
      assert list[1..][..i - 1] == list[1..i] && list[1..][i..] == list[i + 1..];
      ForCons(list[0], rest, q);
      assert list[..i] + list[i + 1..] == [list[0]] + rest;
    } else {
      assert list[..0] + list[1..] == list[1..];
    }
  }

  lemma ForCons<P>(e: Entry<P>, rest: seq<Entry<P>>, q: P)
    ensures For([e] + rest, q) == if e.lock == q then [e.t] + For(rest, q) else For(rest, q)
  {
    assert ([e] + rest)[1..] == rest;
  }

  // ---------- The scheduler over the global list ----------

  /** `rest` is the scheduler without its wait queues, which are in `list`. */
  datatype Slow<P> = Slow(rest: Sched<P>, prims: set<P>, list: seq<Entry<P>>)

  /** The scheduler with one queue per primitive that the global list stands for. */
  function Fast<P>(s: Slow<P>): Sched<P> {
    s.rest.(waits := map p | p in s.prims :: For(s.list, p))
  }

  function RunningToWaiting<P>(s: Slow<P>, p: P): Slow<P> {
    s.(rest := s.rest.(status := s.rest.status[s.rest.run := Waiting], waitingNum := s.rest.waitingNum + 1),
       list := s.list + [Entry(p, s.rest.run)])
  }

  function SlowSleep<P>(s: Slow<P>, p: P): Option<Slow<P>> {
    if s.rest.readyNum == 0 then Some(s)
    else if s.rest.ready == [] then None
    else
      var s1 := RunningToWaiting(s, p);
      var next := s1.rest.ready[0];
      Some(s1.(rest := s1.rest.(ready := s1.rest.ready[1..], status := s1.rest.status[next := Running],
                                run := next, readyNum := s1.rest.readyNum - 1, cur := next)))
  }

  function SlowWakeup<P>(s: Slow<P>, p: P): Slow<P> {
    var i := First(s.list, p);
    if i == |s.list| then s
    else s.(list := s.list[..i] + s.list[i + 1..],
            rest := RunningToReady(s.rest.(woken := s.rest.woken + 1), s.list[i].t))
  }

  function SlowWakeupWait<P>(s: Slow<P>, p: P): Option<Slow<P>> {
    var i := First(s.list, p);
    if i == |s.list| then Some(s)
    else
      var t := s.list[i].t;
      var s1 := RunningToWaiting(s.(list := s.list[..i] + s.list[i + 1..]), p);
      if s1.rest.waitingNum <= 0 then None
      else Some(s1.(rest := s1.rest.(status := s1.rest.status[t := Running], run := t,
                                     waitingNum := s1.rest.waitingNum - 1, cur := t)))
  }

  function WithRest<P>(s: Slow<P>, rest: Option<Sched<P>>): Option<Slow<P>> {
    match rest
    case Some(r) => Some(s.(rest := r))
    case None => None
  }

  /** Initialising a primitive leaves the global list alone. */
  function SlowApply<P>(s: Slow<P>, op: Op<P>): Option<Slow<P>> {
    match op
    case NewPrimOp(p) => Some(s.(prims := s.prims + {p}))
    case SleepOp(p) => SlowSleep(s, p)
    case WakeupOp(p) => Some(SlowWakeup(s, p))
    case WakeupWaitOp(p) => SlowWakeupWait(s, p)
    case CreateOp => WithRest(s, Create(s.rest))
    case YieldOp => WithRest(s, Yield(s.rest))
    case ResumeOp(t) => WithRest(s, Resume(s.rest, t))
    case ExitOp => WithRest(s, Exit(s.rest))
  }

  /** One step of the per-primitive queues does to `Fast(s)` what the global list does to `s`. */
  ghost predicate Agrees<P>(s: Slow<P>, op: Op<P>)
    requires op.On(Fast(s))
  {
    match (Apply(Fast(s), op), SlowApply(s, op))
    case (Some(f), Some(s')) => f == Fast(s')
    case (None, None) => true
    case _ => false
  }

  lemma AppendAgrees<P>(s: Slow<P>, p: P)
    requires p in s.prims
    ensures Fast(RunningToWaiting(s, p)) == RunningToLockWaiting(Fast(s), p)
  {
    forall q | q in s.prims { ForAppend(s.list, Entry(p, s.rest.run), q); }
  }

  /** Whoever is taken off the list is whoever is taken off the queue. */
  lemma RemoveAgrees<P>(s: Slow<P>, p: P)
    requires p in s.prims && First(s.list, p) < |s.list|
    ensures
      var i := First(s.list, p);
      var f := Fast(s);
      && f.waits[p] != [] && f.waits[p][0] == s.list[i].t
      && Fast(s.(list := s.list[..i] + s.list[i + 1..])) == f.(waits := f.waits[p := f.waits[p][1..]])
  {
    ForFirst(s.list, p);
    forall q | q in s.prims { ForRemove(s.list, First(s.list, p), q); }
  }

  lemma NewPrimAgrees<P>(s: Slow<P>, p: P)
    ensures Agrees(s, NewPrimOp(p)) <==> For(s.list, p) == []
  {
    var s' := s.(prims := s.prims + {p});
    assert Fast(s').waits[p] == For(s.list, p);
    if For(s.list, p) == [] {
      assert Fast(s').waits == Fast(s).waits[p := []];
    }
  }

  lemma WakeupAgrees<P>(s: Slow<P>, p: P)
    requires p in s.prims
    ensures Agrees(s, WakeupOp(p))
  {
    ForFirst(s.list, p);
    if First(s.list, p) < |s.list| {
      RemoveAgrees(s, p);
    }
  }

  lemma WakeupWaitAgrees<P>(s: Slow<P>, p: P)
    requires p in s.prims
    ensures Agrees(s, WakeupWaitOp(p))
  {
    ForFirst(s.list, p);
    var i := First(s.list, p);
    if i < |s.list| {
      RemoveAgrees(s, p);
      AppendAgrees(s.(list := s.list[..i] + s.list[i + 1..]), p);
    }
  }

  /** In any state whatever both schedulers do the same, and wake the same thread, except that
      initialising a primitive again forgets its waiters in the one and not in the other. */
  lemma AgreesExactly<P>(s: Slow<P>, op: Op<P>)
    requires op.On(Fast(s))
    ensures Agrees(s, op) <==> (op.NewPrimOp? ==> For(s.list, op.p) == [])
  {
    match op
    case NewPrimOp(p) => NewPrimAgrees(s, p);
    case SleepOp(p) => AppendAgrees(s, p);
    case WakeupOp(p) => WakeupAgrees(s, p);
    case WakeupWaitOp(p) => WakeupWaitAgrees(s, p);
    case _ =>
  }

  /** Every primitive in use has been initialised before, and none again while threads wait on it. */
  ghost predicate Proper<P>(s: Slow<P>, ops: seq<Op<P>>)
    decreases |ops|
  {
    ops == [] ||
    (ops[0].On(Fast(s)) && (ops[0].NewPrimOp? ==> For(s.list, ops[0].p) == [])
      && SlowApply(s, ops[0]).Some? && Proper(SlowApply(s, ops[0]).value, ops[1..]))
  }

  ghost function SlowAfter<P>(s: Slow<P>, ops: seq<Op<P>>): Slow<P>
    requires Proper(s, ops)
    decreases |ops|
  {
    if ops == [] then s else SlowAfter(SlowApply(s, ops[0]).value, ops[1..])
  }

  ghost function FastAfter<P>(s: Sched<P>, ops: seq<Op<P>>): Option<Sched<P>>
    decreases |ops|
  {
    if ops == [] then Some(s)
    else if !ops[0].On(s) || Apply(s, ops[0]).None? then None
    else FastAfter(Apply(s, ops[0]).value, ops[1..])
  }

  /** Refinement over whole runs: after any sequence of operations each queue is the global list
      filtered by its primitive, and everything else is the same. */
  lemma {:induction false} FastRefinesSlow<P>(s: Slow<P>, ops: seq<Op<P>>)
    requires Proper(s, ops)
    ensures FastAfter(Fast(s), ops) == Some(Fast(SlowAfter(s, ops)))
    decreases |ops|
  {
    hide Fast, SlowApply, Apply;
    if ops != [] {
      AgreesExactly(s, ops[0]);
      FastRefinesSlow(SlowApply(s, ops[0]).value, ops[1..]);
    }
  }
}

/** The global list on the heap. */
module WaiterLists {
  import opened Sequences
  import opened Scheduler
  import opened Queues
  import opened WaitLists

  class Waiter {
    const linker: Link
    const lock: Prim
    var next: Waiter?

    constructor (linker: Link, lock: Prim)
      ensures this.linker == linker && this.lock == lock && next == null
    {
      this.linker, this.lock := linker, lock;
      next := null;
    }
  }

  ghost function Entries(items: seq<Waiter>): seq<Entry<Prim>> {
    seq(|items|, i requires 0 <= i < |items| => Entry(items[i].lock, items[i].linker.t.id))
  }

  lemma {:induction false} FirstAt(items: seq<Waiter>, p: Prim, i: nat)
    requires i <= |items| && (i < |items| ==> items[i].lock == p) && forall k | 0 <= k < i :: items[k].lock != p
    ensures First(Entries(items), p) == i
  {
    assert forall k | 0 <= k < |items| :: Entries(items)[k].lock == items[k].lock;
  }

  lemma EntriesCut(items: seq<Waiter>, i: nat)
    requires i < |items|
    ensures Entries(items[..i] + items[i + 1..]) == Entries(items)[..i] + Entries(items)[i + 1..]
    ensures Entries(items)[i].t == items[i].linker.t.id && |Entries(items)| == |items|
  {
  }

  class WaiterList {
    var start: Waiter?
    var end: Waiter?
    ghost var items: seq<Waiter>

    /** A simple path from `start` to `end`, ended by null. */
    ghost predicate Valid()
      reads this, items
    {
      && NoDup(items)
      && (items == [] ==> start == null && end == null)
      && (items != [] ==> start == items[0] && end == items[|items| - 1] && items[|items| - 1].next == null)
      && forall j, k | 0 <= j < k == j + 1 < |items| :: items[j].next == items[k]
    }

    ghost function Contents(): seq<Entry<Prim>>
      reads this
    {
      Entries(items)
    }

    constructor ()
      ensures Valid() && items == []
    {
      start, end, items := null, null, [];
    }

    /** On an empty list the waiter keeps its `next`: the list then ends in null only if that is null. */
    method AppendWaiting(linker: Waiter)
      requires Valid() && linker !in items
      modifies this, items`next, linker`next
      ensures items == old(items) + [linker] && (Valid() <==> old(items != [] || linker.next == null))
      ensures Contents() == old(Contents()) + [Entry(linker.lock, linker.linker.t.id)]
    {
      if end == null {
        start := linker;
        end := linker;
      } else {
        end.next := linker;
        linker.next := null;
        end := linker;
      }
      items := items + [linker];
    }

    method Unlink(cur: Waiter, pre: Waiter?, ghost i: nat)
      requires Valid() && i < |items| && cur == items[i]
      requires pre == if i == 0 then null else items[i - 1]
      modifies this, items`next
      ensures Valid() && items == old(items[..i] + items[i + 1..]) && cur.next == null
    {
      if cur == start && cur == end {
        assert |items| == 1;
        start := null;
        end := null;
      } else if cur == start {
        assert i == 0;
        start := cur.next;
      } else if cur == end {
        assert i == |items| - 1;
        pre.next := cur.next;
        end := pre;
      } else {
        pre.next := cur.next;
      }
      cur.next := null;
      items := items[..i] + items[i + 1..];
    }

    /** Searches for the first waiter on `lock` and takes it off the list. */
    method ExtractWaiting(lock: Prim) returns (r: Link?)
      requires Valid()
      modifies this, items`next
      ensures Valid()
      ensures
        var c := old(Contents());
        var i := First(c, lock);
        if i == |c| then r == null && Contents() == c
        else r != null && r.t.id == c[i].t && Contents() == c[..i] + c[i + 1..]
    {
      if start == null && end == null {
        FirstAt(items, lock, 0);
        return null;
      }
      var cur := start;
      var pre: Waiter? := null;
      ghost var i := 0;
      while cur != null
        invariant Valid() && items == old(items) && forall w: Waiter | w in items :: w.next == old(w.next)
        invariant i <= |items| && cur == if i < |items| then items[i] else null
        invariant pre == if i == 0 then null else items[i - 1]
        invariant forall k | 0 <= k < i :: items[k].lock != lock
        decreases |items| - i
      {
        if cur.lock == lock {
          FirstAt(items, lock, i);
          EntriesCut(items, i);
          Unlink(cur, pre, i);
          return cur.linker;
        }
        pre := cur;
        cur := cur.next;
        i := i + 1;
      }
      FirstAt(items, lock, i);
      r := null;
    }
  }
}
