/** The doubly linked list of all synchronisation primitives. */
module PrimRegistry {
  import opened Sequences
  import opened Queues

  datatype Event = Created(p: Prim) | Destroyed(p: Prim)

  /** The creation order minus the destroyed ones. */
  ghost function Registered(history: seq<Event>): seq<Prim> {
    if history == [] then []
    else
      var before := Registered(history[..|history| - 1]);
      match history[|history| - 1]
      case Created(p) => before + [p]
      case Destroyed(p) => Without(before, p)
  }

  /** A primitive is created only while it is not registered and destroyed only while it is. */
  ghost predicate Proper(history: seq<Event>) {
    history == [] ||
    (Proper(history[..|history| - 1]) &&
     match history[|history| - 1]
     case Created(p) => p !in Registered(history[..|history| - 1])
     case Destroyed(p) => p in Registered(history[..|history| - 1]))
  }

  /** When `e` last happened, or -1. */
  ghost function Last(history: seq<Event>, e: Event): (i: int)
    ensures -1 <= i < |history| && (i >= 0 ==> history[i] == e) && forall j | i < j < |history| :: history[j] != e
  {
    if history == [] then -1
    else if history[|history| - 1] == e then |history| - 1
    else Last(history[..|history| - 1], e)
  }

  lemma LastStep(h: seq<Event>, e: Event, x: Event)
    ensures Last(h + [e], x) == if x == e then |h| else Last(h, x)
  {
    assert (h + [e])[..|h|] == h;
  }

  /** The registered primitives are those created since they were last destroyed. */
  ghost predicate Current(h: seq<Event>, r: seq<Prim>) {
    && (forall p | p in r :: Created(p) in h && Last(h, Destroyed(p)) < Last(h, Created(p)))
    && (forall e | e in h && Last(h, Destroyed(e.p)) < Last(h, Created(e.p)) :: e.p in r)
  }

  ghost predicate InOrder(h: seq<Event>, r: seq<Prim>) {
    forall i, j | 0 <= i < j < |r| :: Last(h, Created(r[i])) < Last(h, Created(r[j]))
  }

  lemma CurrentCreated(h: seq<Event>, r: seq<Prim>, p: Prim)
    requires Current(h, r)
    ensures Current(h + [Created(p)], r + [p])
  {
    hide Last;
    var h' := h + [Created(p)];
    forall q | q in r + [p] ensures Created(q) in h' && Last(h', Destroyed(q)) < Last(h', Created(q)) {
      LastStep(h, Created(p), Created(q));
      LastStep(h, Created(p), Destroyed(q));
    }
    forall e | e in h' && Last(h', Destroyed(e.p)) < Last(h', Created(e.p)) ensures e.p in r + [p] {
      LastStep(h, Created(p), Created(e.p));
      LastStep(h, Created(p), Destroyed(e.p));
      if e.p == p {
        assert (r + [p])[|r|] == p;
      } else {
        assert e in h;
      }
    }
  }

  lemma CurrentDestroyed(h: seq<Event>, r: seq<Prim>, p: Prim)
    requires Current(h, r) && NoDup(r) && p in r
    ensures Current(h + [Destroyed(p)], Without<Prim>(r, p))
  {
    hide Last, Without;
    WithoutProperties(r, p);
    var h' := h + [Destroyed(p)];
    var r' := Without<Prim>(r, p);
    forall q | q in r' ensures Created(q) in h' && Last(h', Destroyed(q)) < Last(h', Created(q)) {
      LastStep(h, Destroyed(p), Created(q));
      LastStep(h, Destroyed(p), Destroyed(q));
    }
    forall e | e in h' && Last(h', Destroyed(e.p)) < Last(h', Created(e.p)) ensures e.p in r' {
      LastStep(h, Destroyed(p), Created(e.p));
      LastStep(h, Destroyed(p), Destroyed(e.p));
      assert e.p != p;
      assert e in h;
    }
  }

  lemma InOrderCreated(h: seq<Event>, r: seq<Prim>, p: Prim)
    requires InOrder(h, r) && p !in r
    ensures InOrder(h + [Created(p)], r + [p])
  {
    hide Last;
    var r' := r + [p];
    forall i, j | 0 <= i < j < |r'|
      ensures Last(h + [Created(p)], Created(r'[i])) < Last(h + [Created(p)], Created(r'[j]))
    {
      assert r'[i] == r[i] && r[i] in r;
      LastStep(h, Created(p), Created(r'[i]));
      LastStep(h, Created(p), Created(r'[j]));
    }
  }

  /** Cutting out one primitive leaves the others in the order of their creation. */
  lemma InOrderDestroyed(h: seq<Event>, r: seq<Prim>, k: nat)
    requires InOrder(h, r) && k < |r|
    ensures InOrder(h + [Destroyed(r[k])], r[..k] + r[k + 1..])
  {
    hide Last;
    var q := r[..k] + r[k + 1..];
    forall i, j | 0 <= i < j < |q|
      ensures Last(h + [Destroyed(r[k])], Created(q[i])) < Last(h + [Destroyed(r[k])], Created(q[j]))
    {
      var a, b := if i < k then i else i + 1, if j < k then j else j + 1;
      assert q[i] == r[a] && q[j] == r[b];
      LastStep(h, Destroyed(r[k]), Created(q[i]));
      LastStep(h, Destroyed(r[k]), Created(q[j]));
    }
  }

  /** Who is registered, and in which order, read off the history alone. */
  lemma {:induction false} RegisteredMeans(history: seq<Event>)
    requires Proper(history)
    ensures var r := Registered(history); NoDup(r) && Current(history, r) && InOrder(history, r)
  {
    hide Registered, Proper, Current, InOrder, Without, NoDup;
    if history == [] {
      NothingYet();
    } else {
      var n := |history| - 1;
      var h, e := history[..n], history[n];
      assert history == h + [e];
      OneMore(h, e);
      RegisteredMeans(h);
      var r := Registered(h);
      match e
      case Created(p) =>
        AppendProperties<Prim>(r, p);
        CurrentCreated(h, r, p);
        InOrderCreated(h, r, p);
      case Destroyed(p) =>
        WithoutProperties(r, p);
        CurrentDestroyed(h, r, p);
        var k :| 0 <= k < |r| && r[k] == p;
        WithoutAt<Prim>(r, k);
        InOrderDestroyed(h, r, k);
    }
  }

  lemma NothingYet()
    ensures Registered([]) == [] && NoDup<Prim>([]) && Current([], []) && InOrder([], [])
  {
  }

  lemma OneMore(h: seq<Event>, e: Event)
    ensures Registered(h + [e]) ==
            if e.Created? then Registered(h) + [e.p] else Without<Prim>(Registered(h), e.p)
    ensures Proper(h + [e]) <==> Proper(h) && (e.Created? <==> e.p !in Registered(h))
  {
    var all := h + [e];
    assert |all| > 0 && all[..|all| - 1] == h && all[|all| - 1] == e;
  }

  class Registry {
    var start: Prim?
    var end: Prim?
    ghost var items: seq<Prim>
    ghost var history: seq<Event>

    /** The pointers between the two ends link up `q` in both directions. */
    ghost predicate Chain(q: seq<Prim>)
      reads this, q
    {
      && NoDup(q)
      && (q == [] ==> start == null && end == null)
      && (q != [] ==> start == q[0] && end == q[|q| - 1])
      && (q != [] ==> q[0].pre == null && q[|q| - 1].next == null)
      && forall j, k | 0 <= j < k == j + 1 < |q| :: q[j].next == q[k] && q[k].pre == q[j]
    }

    ghost predicate Linked()
      reads this, items
    {
      Chain(items)
    }

    ghost predicate Valid()
      reads this, items
    {
      Linked() && Proper(history) && items == Registered(history)
    }

    constructor ()
      ensures Valid() && history == []
    {
      start, end, items, history := null, null, [], [];
    }

    /** Once the pointers lead backwards from the last primitive round to itself, they link up nothing:
        `q` would hold the primitives of the cycle for ever. */
    lemma {:induction false} AlongCycle(q: seq<Prim>, r: seq<Prim>, i: nat, k: nat)
      requires Chain(q) && i < |r| && 1 <= k <= |r| - i
      requires end == r[i] && r[i].pre == r[|r| - 1] && forall j, l | i <= l < j == l + 1 < |r| :: r[j].pre == r[l]
      ensures k < |q| && q[|q| - 1 - k] == r[|r| - k]
      decreases k
    {
      if k > 1 {
        AlongCycle(q, r, i, k - 1);
        assert r[|r| - (k - 1)].pre == r[|r| - k];
      }
    }

    lemma NoChain(q: seq<Prim>, r: seq<Prim>, i: nat)
      requires i < |r|
      requires end == r[i] && r[i].pre == r[|r| - 1] && forall j, l | i <= l < j == l + 1 < |r| :: r[j].pre == r[l]
      ensures !Chain(q)
    {
      if Chain(q) {
        AlongCycle(q, r, i, |r| - i);
        assert false;
      }
    }

    /** Clears both pointers of `p` and puts it behind the last primitive. A primitive that is already
        linked in is not taken out first, and what is left is no list at all. */
    method Link(p: Prim)
      requires Linked()
      modifies this`start, this`end, this`items, items`next, p`pre, p`next
      ensures old(p !in items) ==> Linked() && items == old(items) + [p]
      ensures old(p in items) ==> forall q: seq<Prim> :: !Chain(q)
    {
      p.pre := null;
      p.next := null;
      if start == null {
        start := p;
        end := p;
      } else {
        p.pre := end;
        end.next := p;
        end := p;
      }
      if old(p !in items) {
        items := items + [p];
      } else {
        ghost var i :| 0 <= i < |items| && items[i] == p;
        forall q: seq<Prim> ensures !Chain(q) {
          NoChain(q, items, i);
        }
      }
    }

    method Initial(p: Prim)
      requires Valid()
      modifies this, items`next, p`pre, p`next
      ensures old(p !in items) ==>
                Valid() && history == old(history) + [Created(p)] && items == old(items) + [p]
      ensures old(p in items) ==> forall q: seq<Prim> :: !Chain(q)
    {
      Link(p);
      if old(p !in items) {
        Note(Created(p));
      }
    }

    /** Adds an event to the history. */
    ghost method Note(e: Event)
      requires Linked() && Proper(history)
      requires e.Created? ==> e.p !in Registered(history) && items == Registered(history) + [e.p]
      requires e.Destroyed? ==> e.p in Registered(history) && items == Without<Prim>(Registered(history), e.p)
      modifies this`history
      ensures Valid() && history == old(history) + [e]
    {
      hide Registered, Proper, Without;
      OneMore(history, e);
      history := history + [e];
    }

    /** With the element at place `i` cut out and its two neighbours joined, the rest is linked up. */
    twostate lemma Cut(i: nat)
      requires old(Linked()) && i < old(|items|) && items == old(items[..i] + items[i + 1..])
      requires start == if i > 0 then old(start) else if old(|items|) > 1 then old(items)[1] else null
      requires end == if i < old(|items|) - 1 then old(end) else if i > 0 then old(items)[i - 1] else null
      requires forall j | 0 <= j < old(|items|) && j != i ::
                 && old(items)[j].next == (if j == i - 1 then old(items[i].next) else old(items[j].next))
                 && old(items)[j].pre == (if j == i + 1 then old(items[i].pre) else old(items[j].pre))
      ensures Linked()
    {
      var q := old(items);
      assert forall j | 0 <= j < |items| :: items[j] == q[if j < i then j else j + 1];
      if 0 < i < |q| - 1 {
        assert old(q[i].next) == q[i + 1] && old(q[i].pre) == q[i - 1];
      }
    }

    /** Unlinking `p`, which stands at place `i`. */
    method Unlink(p: Prim, ghost i: nat)
      requires Linked() && i < |items| && items[i] == p
      modifies this`start, this`end, this`items, items`pre, items`next
      ensures Linked() && items == old(items[..i] + items[i + 1..]) && p.pre == null && p.next == null
    {
      if start == p && end == p {
        assert |items| == 1;
        start := null;
        end := null;
      } else if start == p {
        assert i == 0 && p.next == items[1];
        start := p.next;
        p.next.pre := null;
        p.next := null;
      } else if end == p {
        assert i == |items| - 1 && p.pre == items[i - 1];
        end := p.pre;
        p.pre.next := null;
        p.pre := null;
      } else {
        assert p.pre == items[i - 1] && p.next == items[i + 1] && items[i - 1] != p;
        p.pre.next := p.next;
        p.next.pre := p.pre;
        p.pre := null;
        p.next := null;
      }
      items := items[..i] + items[i + 1..];
      Cut(i);
    }

    /** The two asserts at the end are the library's own. */
    method Destroy(p: Prim)
      requires Valid() && p in items
      modifies this, items`pre, items`next
      ensures Valid() && history == old(history) + [Destroyed(p)] && items == Without<Prim>(old(items), p)
    {
      ghost var i :| 0 <= i < |items| && items[i] == p;
      WithoutAt<Prim>(items, i);
      Unlink(p, i);
      Note(Destroyed(p));
      assert p.pre == null;
      assert p.next == null;
    }

    // ---------- Walking the list ----------

    static ghost function Reversed(q: seq<Prim>): seq<Prim> {
      if q == [] then [] else [q[|q| - 1]] + Reversed(q[..|q| - 1])
    }

    /** Following at most `n` `next` pointers from `p`. */
    static ghost function Forward(p: Prim?, n: nat): seq<Prim>
      reads *
    {
      if p == null || n == 0 then [] else [p] + Forward(p.next, n - 1)
    }

    static ghost function Backward(p: Prim?, n: nat): seq<Prim>
      reads *
    {
      if p == null || n == 0 then [] else [p] + Backward(p.pre, n - 1)
    }

    lemma {:induction false} ForwardFrom(k: nat, n: nat)
      requires Linked() && k <= |items| <= k + n
      ensures Forward(if k < |items| then items[k] else null, n) == items[k..]
      decreases n
    {
      if k < |items| {
        assert k + 1 < |items| ==> items[k].next == items[k + 1];
        ForwardFrom(k + 1, n - 1);
      }
    }

    lemma {:induction false} BackwardFrom(k: nat, n: nat)
      requires Linked() && k <= |items| && k <= n
      ensures Backward(if k > 0 then items[k - 1] else null, n) == Reversed(items[..k])
      decreases n
    {
      if k > 0 {
        assert k > 1 ==> items[k - 1].pre == items[k - 2];
        BackwardFrom(k - 1, n - 1);
        assert items[..k][..k - 1] == items[..k - 1];
      }
    }

    /** However far one is prepared to walk beyond its length, the list reads in creation order
        forwards and in the opposite order backwards, and an end is null exactly when it is empty. */
    lemma Walks(n: nat)
      requires Valid() && n >= |Registered(history)|
      ensures Forward(start, n) == Registered(history)
      ensures Backward(end, n) == Reversed(Registered(history))
      ensures start == null <==> Registered(history) == []
      ensures end == null <==> Registered(history) == []
    {
      ForwardFrom(0, n);
      BackwardFrom(|items|, n);
      assert items[..|items|] == items;
    }
  }

  method CreateAll(registry: Registry, locks: seq<Prim>)
    requires registry.Valid() && registry.items == [] && NoDup(locks)
    modifies registry, locks
    ensures registry.Valid() && registry.items == locks
  {
    for i := 0 to |locks|
      invariant registry.Valid() && registry.items == locks[..i]
    {
      registry.Initial(locks[i]);
    }
  }

  lemma TakeFrom(locks: seq<Prim>, k: nat, i: nat)
    requires NoDup(locks) && k <= i < |locks|
    ensures locks[i] in locks[..k] + locks[i..]
    ensures Without<Prim>(locks[..k] + locks[i..], locks[i]) == locks[..k] + locks[i + 1..]
    ensures forall p | p in locks[..k] + locks[i..] :: p in locks
  {
    WithoutMiddle<Prim>(locks[..k], locks[i], locks[i + 1..]);
    assert locks[..k] + locks[i..] == locks[..k] + [locks[i]] + locks[i + 1..];
  }

  /** Destroys all but the first `k` of the registered primitives, oldest first. */
  method DestroyRest(registry: Registry, locks: seq<Prim>, k: nat)
    requires registry.Valid() && registry.items == locks && NoDup(locks) && k <= |locks|
    modifies registry, locks
    ensures registry.Valid() && registry.items == locks[..k]
  {
    hide NoDup, Without, Registered, Proper, Registry.Linked, Registry.Valid;
    assert locks[..k] + locks[k..] == locks;
    for i := k to |locks|
      invariant registry.Valid() && registry.items == locks[..k] + locks[i..]
    {
      TakeFrom(locks, k, i);
      assert forall p | p in registry.items :: p in locks;
      registry.Destroy(locks[i]);
    }
    assert locks[..k] + locks[|locks|..] == locks[..k];
  }

  /** Destroys the registered primitives, newest first. */
  method DestroyDown(registry: Registry, locks: seq<Prim>)
    requires registry.Valid() && registry.items == locks && NoDup(locks)
    modifies registry, locks
    ensures registry.Valid() && registry.items == []
  {
    hide Registered, Proper, Registry.Linked, Registry.Valid;
    for i := |locks| downto 0
      invariant registry.Valid() && registry.items == locks[..i]
    {
      WithoutMiddle<Prim>(locks[..i], locks[i], []);
      assert registry.items == locks[..i] + [locks[i]] + [];
      registry.Destroy(locks[i]);
    }
  }

  /** The driver's own check of the list: of its 200 locks the last 150 go oldest first, and then the
      first 50 newest first. */
  method TestLockList(registry: Registry, locks: seq<Prim>)
    requires registry.Valid() && registry.items == [] && NoDup(locks) && |locks| == 200
    modifies registry, locks
    ensures registry.Valid() && registry.start == null && registry.end == null
  {
    CreateAll(registry, locks);
    assert registry.start != null && registry.end != null;
    DestroyRest(registry, locks, 50);
    DestroyDown(registry, locks[..50]);
  }
}
