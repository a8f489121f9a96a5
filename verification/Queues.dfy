/** The library's singly linked thread queues. A dispatched link keeps its old `next`, and appending
    to an empty queue does not clear it, so a queue is delimited by its `end` pointer, never by null. */
module Queues {
  import opened Sequences
  import opened Scheduler

  class Thread {
    const id: Tid
    var status: Status

    constructor (id: Tid, status: Status)
      ensures this.id == id && this.status == status
    {
      this.id := id;
      this.status := status;
    }
  }

  class Link {
    const t: Thread
    var next: Link?
    /** The queue this link is on, if any. */
    ghost var home: LinkQueue?

    constructor (t: Thread)
      ensures this.t == t && next == null && home == null
    {
      this.t := t;
      next := null;
      home := null;
    }
  }

  class LinkQueue {
    var start: Link?
    var end: Link?
    ghost var items: seq<Link>

    /** A simple path of `next` pointers from `start` to `end`. Nothing is said about `end.next`. */
    ghost predicate Valid()
      reads this, items
    {
      && NoDup(items) && (forall l | l in items :: l.home == this)
      && (items == [] ==> start == null && end == null)
      && (items != [] ==> start == items[0] && end == items[|items| - 1])
      && forall j, k | 0 <= j < k == j + 1 < |items| :: items[j].next == items[k]
    }

    /** Nothing stale hangs off the end. */
    ghost predicate Clean()
      reads this, items
    {
      items != [] ==> items[|items| - 1].next == null
    }

    constructor ()
      ensures Valid() && items == []
    {
      start, end, items := null, null, [];
    }

    method Append(linker: Link)
      requires Valid() && linker.home == null
      modifies this, items`next, linker`next, linker`home
      ensures Valid() && items == old(items) + [linker]
      ensures linker.next == if old(items) == [] then old(linker.next) else null
    {
      if end == null {
        start := linker;
        end := linker;
      } else {
        end.next := linker;
        linker.next := null;
        end := linker;
      }
      items := items + [linker];
      linker.home := this;
    }

    /** Dispatching the head, as it is written out inside the sleep operation: `next` keeps its value. */
    method TakeHead() returns (head: Link)
      requires Valid() && items != []
      modifies this, items`home
      ensures Valid() && [head] + items == old(items) && head.home == null && head.next == old(head.next)
      ensures old(Clean()) ==> Clean() && (items == [] ==> head.next == null)
    {
      head := start;
      if end == start {
        assert |items| == 1;
        start := null;
        end := null;
      } else {
        start := head.next;
      }
      items := items[1..];
      head.home := null;
    }

    method ExtractFirst() returns (head: Link?)
      requires Valid()
      modifies this, items`next, items`home
      ensures Valid()
      ensures old(items) == [] ==> head == null && items == []
      ensures old(items) != [] ==>
                head != null && [head] + items == old(items) && head.next == null && head.home == null
    {
      if start == null && end == null {
        return null;
      }
      head := start;
      if start == end {
        assert |items| == 1;
        start := null;
        end := null;
      } else {
        start := head.next;
      }
      items := items[1..];
      head.next := null;
      head.home := null;
    }

    /** With the link at place `i` cut out and its neighbours joined, the rest is a path again. */
    twostate lemma Cut(i: nat)
      requires old(Valid()) && i < old(|items|) && items == old(items[..i] + items[i + 1..])
      requires start == if i > 0 then old(start) else if old(|items|) > 1 then old(items)[1] else null
      requires end == if i < old(|items|) - 1 then old(end) else if i > 0 then old(items)[i - 1] else null
      requires forall j | 0 <= j < old(|items|) && j != i ::
                 && old(items)[j].home == old(items[j].home)
                 && old(items)[j].next == if j == i - 1 then old(items[i].next) else old(items[j].next)
      ensures Valid()
    {
      var q := old(items);
      assert forall j | 0 <= j < |items| :: items[j] == q[if j < i then j else j + 1];
      if 0 < i < |q| - 1 {
        assert old(q[i].next) == q[i + 1];
      }
    }

    /** Unlinks `cur`, whose predecessor on the search is `pre`: the link at place `i`, or one that a stale
        successor led to. */
    method Unlink(cur: Link, pre: Link?, ghost i: nat)
      requires Valid() && items != []
      requires if i < |items| then cur == items[i] && pre == (if i == 0 then null else items[i - 1])
               else cur !in items && pre != null && pre.next == cur
      modifies this, items`home, cur`next, (if pre == null then {} else {pre})`next
      ensures Valid() && cur.next == null
      ensures i < |old(items)| ==> cur.home == null && items == old(items[..i] + items[i + 1..])
      ensures i >= |old(items)| ==> items == old(items) && cur.home == old(cur.home)
      ensures pre != null && pre != cur ==> pre.next == old(cur.next)
    {
      if cur == start && cur == end {
        assert |items| == 1;
        start := null;
        end := null;
      } else if cur == start {
        assert i == 0;
        start := cur.next;
      } else if cur == end {
        assert i == |items| - 1;
        pre.next := cur.next;
        end := pre;
      } else {
        pre.next := cur.next;
      }
      cur.next := null;
      if i < |items| {
        cur.home := null;
        items := items[..i] + items[i + 1..];
        Cut(i);
      }
    }

    /** The search for `t` from the start follows `path`: up to a link of `t`, or else to a null. */
    ghost predicate Leads(path: seq<Link>, t: Thread)
      reads this, path
    {
      && path != [] && start == path[0]
      && (forall j, k | 0 <= j < k == j + 1 < |path| :: path[j].next == path[k])
      && (forall j | 0 <= j < |path| - 1 :: path[j].t != t)
      && (path[|path| - 1].t == t || path[|path| - 1].next == null)
    }

    /** If the thread is queued, or the end is clean, the search stays in the queue. */
    lemma Search(t: Thread) returns (path: seq<Link>)
      requires Valid() && items != [] && ((exists l | l in items :: l.t == t) || Clean())
      ensures path <= items && Leads(path, t)
      ensures path[|path| - 1].t == t <==> exists l | l in items :: l.t == t
    {
      var n := 1;
      while n < |items| && items[n - 1].t != t
        invariant 1 <= n <= |items| && forall k | 0 <= k < n - 1 :: items[k].t != t
      {
        n := n + 1;
      }
      path := items[..n];
    }

    /** A search that has left the queue does not end in it. */
    lemma NotPassed(path: seq<Link>, t: Thread, i: nat)
      requires Leads(path, t) && i < |path| && path[i].t == t
      requires forall k | 0 <= k <= i && k < |items| :: path[k] == items[k]
      ensures i == |path| - 1 && (path[i] in items <==> i < |items|)
    {
      if path[i] in items {
        var j :| 0 <= j < |items| && items[j] == path[i];
        assert j < i ==> path[j] == items[j];
      }
    }

    /** The search itself, with the link before the one it stops at. */
    method Find(t: Thread, ghost path: seq<Link>) returns (cur: Link?, pre: Link?)
      requires Valid() && items != [] && Leads(path, t)
      ensures cur == if path[|path| - 1].t == t then path[|path| - 1] else null
      ensures cur != null ==> pre == if |path| == 1 then null else path[|path| - 2]
      ensures forall k | 0 <= k < |path| && k < |items| :: path[k] == items[k]
      ensures cur != null ==> (cur in items <==> |path| <= |items|)
    {
      hide NoDup;
      cur, pre := start, null;
      ghost var i := 0;
      while cur != null && cur.t != t
        invariant i <= |path| && cur == (if i < |path| then path[i] else null)
        invariant pre == if i == 0 then null else path[i - 1]
        invariant i == |path| ==> path[|path| - 1].t != t
        invariant forall k | 0 <= k <= i && k < |path| && k < |items| :: path[k] == items[k]
        decreases |path| - i
      {
        pre := cur;
        cur := cur.next;
        i := i + 1;
      }
      if cur != null {
        NotPassed(path, t, i);
      }
    }

    /** Unlinks the link of a thread. The search does not look at `end`: with a stale successor behind the
        end it can leave the queue, and then it cuts the link it finds out of wherever that is. */
    method ExtractThread(t: Thread, ghost path: seq<Link>) returns (r: Link?)
      requires Valid() && items != [] && Leads(path, t)
      modifies this, items`home, path`next
      ensures Valid() && r == if path[|path| - 1].t == t then path[|path| - 1] else null
      ensures r != null ==> r.next == null
      ensures r != null && r in old(items) ==> r.home == null && items == Without<Link>(old(items), r)
      ensures r == null ==> unchanged(this) && unchanged(items) && unchanged(path)
      ensures r != null && r !in old(items) ==>
                items == old(items) && r.home == old(r.home) && path[|path| - 2].next == old(r.next)
      ensures old(Clean()) && (r != null ==> r in old(items)) ==> Clean()
    {
      hide NoDup, Without;
      var cur, pre := Find(t, path);
      if cur != null {
        ghost var i := |path| - 1;
        if i < |items| { WithoutAt(items, i); }
        Unlink(cur, pre, i);
      }
      r := cur;
    }
  }

  /** What a search of a wait queue would do: a thread that was dispatched by a sleep and then sleeps where
      nobody waits still leads to the thread that was behind it, and a search for that one cuts it out of
      the ready queue. The library searches the ready queue only, whose end is clean. */
  method StaleSuccessor(ready: LinkQueue, waiting: LinkQueue, a: Link, b: Link) returns (r: Link?)
    requires ready.Valid() && waiting.Valid() && ready != waiting && waiting.items == []
    requires |ready.items| > 2 && ready.items[..2] == [a, b] && a.t != b.t
    modifies ready, waiting, ready.items
    ensures waiting.Valid() && waiting.items == [a] && ready.items == old(ready.items)[1..]
    ensures r == b && b in ready.items && !ready.Valid()
  {
    hide NoDup, Without;
    ghost var q := ready.items;
    assert q[0] == q[..2][0] == a && q[1] == q[..2][1] == b && a.next == b && b != a;
    var head := ready.TakeHead();
    assert ready.items == q[1..] && ready.items[0] == b && head == a;
    waiting.Append(head);
    r := waiting.ExtractThread(b.t, [a, b]);
    assert ready.items[0].next != ready.items[1];
  }

  /** A synchronisation primitive: its wait queue, and its place in the list of all primitives. */
  class Prim {
    const waiting: LinkQueue
    var pre: Prim?
    var next: Prim?

    constructor ()
      ensures fresh(waiting) && waiting.Valid() && waiting.items == [] && pre == null && next == null
    {
      waiting := new LinkQueue();
      pre, next := null, null;
    }
  }
}
