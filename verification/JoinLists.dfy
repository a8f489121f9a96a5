/** The list of join blocks each thread keeps of the threads that are joining it. Unlike the thread
    queues this list is scanned up to null, so its last block must have no successor. */
module JoinLists {
  import opened Sequences

  class JoinBlock {
    const caller: nat
    const joiner: nat
    var joinable: bool
    var next: JoinBlock?
    /** The list this block is on, if any. */
    ghost var home: JoinList?

    /** A block whose `next` is null, which the library leaves unset. */
    constructor (caller: nat, joiner: nat)
      ensures this.caller == caller && this.joiner == joiner && !joinable && next == null && home == null
    {
      this.caller, this.joiner := caller, joiner;
      joinable, next, home := false, null, null;
    }
  }

  class JoinList {
    var start: JoinBlock?
    var end: JoinBlock?
    ghost var items: seq<JoinBlock>

    ghost predicate Valid()
      reads this, items
    {
      && NoDup(items) && (forall b | b in items :: b.home == this)
      && (items == [] ==> start == null && end == null)
      && (items != [] ==> start == items[0] && end == items[|items| - 1] && items[|items| - 1].next == null)
      && forall j, k | 0 <= j < k == j + 1 < |items| :: items[j].next == items[k]
    }

    constructor ()
      ensures Valid() && items == []
    {
      start, end, items := null, null, [];
    }

    /** On an empty list the block keeps its `next`: the list then ends in null only if that is null. */
    method Append(linker: JoinBlock)
      requires Valid() && linker.home == null
      modifies this, items`next, linker`next, linker`home
      ensures items == old(items) + [linker] && linker.home == this
      ensures Valid() <==> old(items != [] || linker.next == null)
    {
      if end == null {
        start := linker;
        end := linker;
      } else {
        end.next := linker;
        linker.next := null;
        end := linker;
      }
      items := items + [linker];
      linker.home := this;
    }

    /** Unlinks `cur`, the block at place `i`; `pre` is the block before it. */
    method Unlink(cur: JoinBlock, pre: JoinBlock?, ghost i: nat)
      requires Valid() && i < |items| && cur == items[i]
      requires pre == if i == 0 then null else items[i - 1]
      modifies this, items`next, items`home
      ensures Valid() && items == old(items[..i] + items[i + 1..]) && cur.next == null && cur.home == null
    {
      if cur == start && cur == end {
        assert |items| == 1;
        start := null;
        end := null;
      } else if cur == start {
        assert i == 0;
        start := cur.next;
      } else if cur == end {
        assert i == |items| - 1;
        pre.next := cur.next;
        end := pre;
      } else {
        pre.next := cur.next;
      }
      cur.next := null;
      cur.home := null;
      items := items[..i] + items[i + 1..];
    }

    /** Takes `linker` off the list, wherever it stands, and keeps the others in order. The scan goes on
        from the unlinked block, whose `next` has just been cleared, and so ends there. */
    method Delete(linker: JoinBlock)
      requires Valid() && items != []
      modifies this, items`next, items`home
      ensures Valid() && items == Without<JoinBlock>(old(items), linker)
      ensures linker in old(items) ==> linker.home == null && linker.next == null
    {
      assert start != null && end != null;
      var cur: JoinBlock? := start;
      var pre: JoinBlock? := null;
      ghost var i := 0;
      ghost var found := false;
      while cur != null
        invariant !found ==> i <= |items| && items == old(items) && Valid() && linker !in items[..i]
        invariant !found ==> forall b: JoinBlock | b in items :: b.home == old(b.home) && b.next == old(b.next)
        invariant !found ==> cur == (if i < |items| then items[i] else null)
        invariant !found ==> pre == if i == 0 then null else items[i - 1]
        invariant found ==> Valid() && items == Without<JoinBlock>(old(items), linker) && cur == null
        invariant found ==> linker in old(items) && linker.home == null && linker.next == null
        decreases !found, |old(items)| - i
      {
        if cur == linker {
          WithoutAt<JoinBlock>(items, i);
          Unlink(cur, pre, i);
          found := true;
        }
        pre := cur;
        cur := cur.next;
        i := i + 1;
      }
      if !found {
        WithoutAbsent<JoinBlock>(items, linker);
      }
    }

    /** What an exiting thread does to the blocks on its list. */
    method MarkAll()
      requires Valid()
      modifies items`joinable
      ensures Valid() && forall b | b in items :: b.joinable
    {
      var cur := start;
      ghost var i := 0;
      while cur != null
        invariant i <= |items| && cur == if i < |items| then items[i] else null
        invariant forall k | 0 <= k < i :: items[k].joinable
        decreases |items| - i
      {
        cur.joinable := true;
        cur := cur.next;
        i := i + 1;
      }
    }
  }
}
