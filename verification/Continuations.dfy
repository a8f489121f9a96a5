/** The ring buffers in which the event-driven server keeps requests it cannot serve yet. An entry is
    saved, later retrieved for the helper, and restored when the helper hands its index back: between
    the last two it is in flight, out of the queue but still in its slot. */
module Continuations {
  import opened Scheduler

  datatype Continuation = Continuation(orderI: int, orderJ: int, occupied: bool)

  /** `start` is -1 if nothing is to be retrieved. */
  datatype Ring = Ring(slots: seq<Continuation>, start: int, last: int)
  {
    predicate WellFormed() {
      |slots| > 0 && -1 <= start < |slots| && 0 <= last < |slots|
    }

    function After(i: int): int { if i == |slots| - 1 then 0 else i + 1 }
  }

  // ---------- Operations. `None` is an assertion that fails ----------

  function Save(r: Ring, i: int, j: int): Option<Ring>
    requires r.WellFormed()
  {
    if r.slots[r.last].occupied then None
    else Some(Ring(r.slots[r.last := Continuation(i, j, true)],
                   if r.start == -1 then r.last else r.start,
                   r.After(r.last)))
  }

  function Retrieve(r: Ring): (int, Ring)
    requires r.WellFormed()
  {
    if r.start == -1 then (-1, r)
    else
      var next := r.After(r.start);
      (r.start, r.(start := if r.slots[next].occupied then next else -1))
  }

  function Restore(r: Ring, cur: int): Option<((int, int), Ring)>
    requires r.WellFormed()
  {
    if !(0 <= cur < |r.slots|) || !r.slots[cur].occupied then None
    else
      Some(((r.slots[cur].orderI, r.slots[cur].orderJ),
            r.(slots := r.slots[cur := r.slots[cur].(occupied := false)])))
  }

  // ---------- The queue a ring stands for ----------

  /** Everything ever saved, how much of it has been retrieved, and which saves have not been restored. */
  datatype Fifo = Fifo(saved: seq<(int, int)>, retrieved: nat, live: set<nat>)

  /** The `k`-th save is in slot `k` modulo the capacity until it is restored. */
  ghost predicate Holds(r: Ring, f: Fifo, k: nat)
    requires r.WellFormed() && k < |f.saved|
  {
    var c := r.slots[k % |r.slots|];
    (c.occupied <==> k in f.live) && (k in f.live ==> (c.orderI, c.orderJ) == f.saved[k])
  }

  ghost predicate Represents(r: Ring, f: Fifo) {
    && r.WellFormed()
    && var cap, s := |r.slots|, |f.saved|;
    && f.retrieved <= s && r.last == s % cap
    && r.start == (if f.retrieved < s then f.retrieved % cap else -1)
    && (forall k | k in f.live :: s - cap <= k < s)
    && (forall k: nat | f.retrieved <= k < s :: k in f.live)
    && (forall k: nat | s - cap <= k < s :: Holds(r, f, k))
    && (forall i | s <= i < cap :: !r.slots[i].occupied)
  }

  /** The oldest save that could still be in the slot the next one goes to has been restored. */
  predicate Room(f: Fifo, cap: nat) { |f.saved| < cap || |f.saved| - cap !in f.live }

  // ---------- Indices modulo the capacity ----------

  lemma Multiple(d: int, cap: int)
    requires cap >= 0
    ensures d >= 1 ==> d * cap >= cap
    ensures d <= -1 ==> d * cap <= -cap
    ensures d == 0 ==> d * cap == 0
  {
    if d >= 1 {
      assert d * cap == (d - 1) * cap + cap;
    } else if d <= -1 {
      assert d * cap == (d + 1) * cap - cap;
    }
  }

  lemma ModUnique(x: nat, cap: nat, q: nat, m: nat)
    requires cap > 0 && x == q * cap + m && m < cap
    ensures x % cap == m
  {
    var d := q - x / cap;
    assert d * cap == q * cap - (x / cap) * cap;
    Multiple(d, cap);
  }

  lemma ModNext(x: nat, cap: nat)
    requires cap > 0
    ensures (x + 1) % cap == if x % cap == cap - 1 then 0 else x % cap + 1
  {
    var q := x / cap;
    if x % cap == cap - 1 {
      assert x + 1 == (q + 1) * cap + 0;
      ModUnique(x + 1, cap, q + 1, 0);
    } else {
      ModUnique(x + 1, cap, q, x % cap + 1);
    }
  }

  /** Two indices less than a capacity apart are in different slots. */
  lemma ModDistinct(x: nat, y: nat, cap: nat)
    requires cap > 0 && x < y < x + cap
    ensures x % cap != y % cap
  {
    var d := y / cap - x / cap;
    assert y - x == d * cap + y % cap - x % cap;
    Multiple(d, cap);
  }

  lemma ModCap(x: nat, cap: nat)
    requires 0 < cap <= x
    ensures (x - cap) % cap == x % cap
  {
    var q := (x - cap) / cap;
    assert x == (q + 1) * cap + (x - cap) % cap;
    ModUnique(x, cap, q + 1, (x - cap) % cap);
  }

  lemma ModSmall(x: nat, cap: nat)
    requires x < cap
    ensures x % cap == x
  {
    ModUnique(x, cap, 0, x);
  }

  // ---------- Each operation, exactly ----------

  /** The slot of the next save is occupied exactly when there is no room. */
  lemma NextSlot(r: Ring, f: Fifo)
    requires Represents(r, f)
    ensures r.slots[r.last].occupied <==> !Room(f, |r.slots|)
  {
    var cap, s := |r.slots|, |f.saved|;
    if s < cap {
      ModSmall(s, cap);
    } else {
      ModCap(s, cap);
      assert Holds(r, f, s - cap);
    }
  }

  function Saved(f: Fifo, i: int, j: int): Fifo {
    f.(saved := f.saved + [(i, j)], live := f.live + {|f.saved|})
  }

  /** A save passes its assertion exactly when there is room, and then appends to the queue. */
  lemma SaveExactly(r: Ring, f: Fifo, i: int, j: int)
    requires Represents(r, f)
    ensures Save(r, i, j).Some? <==> Room(f, |r.slots|)
    ensures Save(r, i, j).Some? ==> Represents(Save(r, i, j).value, Saved(f, i, j))
  {
    NextSlot(r, f);
    if Room(f, |r.slots|) {
      var cap, s := |r.slots|, |f.saved|;
      var r', f' := Save(r, i, j).value, Saved(f, i, j);
      ModNext(s, cap);
      forall k: nat | s + 1 - cap <= k < s + 1 ensures Holds(r', f', k) {
        if k < s {
          assert Holds(r, f, k);
          ModDistinct(k, s, cap);
        }
      }
      if s < cap { ModSmall(s, cap); }
    }
  }

  /** A retrieve gives the slot of the oldest save not yet retrieved, and -1 exactly when there is
      none. Taking the last one works exactly when there is room; otherwise the ring then takes the
      in-flight entry in the next slot for one that is still queued. */
  lemma RetrieveExactly(r: Ring, f: Fifo)
    requires Represents(r, f)
    ensures Retrieve(r).0 == if f.retrieved < |f.saved| then f.retrieved % |r.slots| else -1
    ensures f.retrieved == |f.saved| ==> Retrieve(r).1 == r
    ensures f.retrieved < |f.saved| ==>
              (Represents(Retrieve(r).1, f.(retrieved := f.retrieved + 1)) <==>
               f.retrieved + 1 < |f.saved| || Room(f, |r.slots|))
  {
    var cap, s := |r.slots|, |f.saved|;
    if f.retrieved < s {
      var r', f' := Retrieve(r).1, f.(retrieved := f.retrieved + 1);
      ModNext(f.retrieved, cap);
      NextSlot(r, f);
      assert r.After(r.start) == (f.retrieved + 1) % cap;
      if f.retrieved + 1 < s {
        assert f.retrieved in f.live && f.retrieved + 1 in f.live;
        assert Holds(r, f, f.retrieved + 1);
      }
      forall k: nat | s - cap <= k < s ensures Holds(r', f', k) {
        assert Holds(r, f, k);
      }
    }
  }

  /** A restore by index passes its assertions exactly when that slot belongs to a save that has not
      been restored. */
  lemma RestoreExactly(r: Ring, f: Fifo, cur: int)
    requires Represents(r, f)
    ensures Restore(r, cur).Some? <==> exists k | k in f.live :: k % |r.slots| == cur
  {
    var cap, s := |r.slots|, |f.saved|;
    if k :| k in f.live && k % cap == cur {
      assert Holds(r, f, k);
    } else if 0 <= cur < cap && r.slots[cur].occupied {
      assert cur < s;
      var k := Latest(s, cap, cur);
      assert Holds(r, f, k);
    }
  }

  /** The last index below `s` that falls on slot `i`. */
  lemma {:induction false} Latest(s: nat, cap: nat, i: nat) returns (k: nat)
    requires i < cap && i < s
    ensures s - cap <= k < s && k % cap == i
    decreases s
  {
    if s <= cap {
      k := i;
      ModSmall(i, cap);
    } else if (s - 1) % cap == i {
      k := s - 1;
    } else {
      k := Latest(s - 1, cap, i);
      if k < s - cap {
        ModCap(s - 1, cap);
      }
    }
  }

  /** What a retrieved entry restores to is what was saved, whatever has been saved, retrieved and
      restored in between and in whatever order. */
  lemma RestoreGivesSaved(r: Ring, f: Fifo, k: nat)
    requires Represents(r, f) && k in f.live && k < f.retrieved
    ensures
      var o := Restore(r, k % |r.slots|);
      o.Some? && o.value.0 == f.saved[k] && Represents(o.value.1, f.(live := f.live - {k}))
  {
    var cap, s := |r.slots|, |f.saved|;
    assert Holds(r, f, k);
    var r' := Restore(r, k % cap).value.1;
    var f' := f.(live := f.live - {k});
    forall j: nat | s - cap <= j < s ensures Holds(r', f', j) {
      assert Holds(r, f, j);
      if j < k { ModDistinct(j, k, cap); }
      if k < j { ModDistinct(k, j, cap); }
    }
    forall i | s <= i < cap ensures !r'.slots[i].occupied {
      ModSmall(k, cap);
    }
  }

  // ---------- Restoring in the order of retrieval ----------

  /** With `q` saves restored, oldest first, there is room exactly when the span from the oldest entry
      in flight to the next save is below the capacity. */
  lemma RoomInOrder(f: Fifo, q: nat, cap: nat)
    requires q <= |f.saved| <= q + cap && forall k: nat :: k in f.live <==> q <= k < |f.saved|
    requires cap > 0
    ensures Room(f, cap) <==> |f.saved| - q < cap
  {
  }

  // ---------- Whole runs ----------

  datatype Event = SaveEvent(i: int, j: int) | RetrieveEvent | RestoreEvent(k: nat)

  datatype Output = Nothing | Slot(i: int) | Pair(p: (int, int))

  function FifoStep(f: Fifo, e: Event, cap: nat): Option<(Output, Fifo)>
    requires cap > 0
  {
    match e
    case SaveEvent(i, j) => if Room(f, cap) then Some((Nothing, Saved(f, i, j))) else None
    case RetrieveEvent =>
      if f.retrieved >= |f.saved| then Some((Slot(-1), f))
      else if f.retrieved + 1 < |f.saved| || Room(f, cap) then
        Some((Slot(f.retrieved % cap), f.(retrieved := f.retrieved + 1)))
      else None
    case RestoreEvent(k) =>
      if k in f.live && k < f.retrieved && k < |f.saved| then
        Some((Pair(f.saved[k]), f.(live := f.live - {k})))
      else None
  }

  function RingStep(r: Ring, e: Event): Option<(Output, Ring)>
    requires r.WellFormed()
  {
    match e
    case SaveEvent(i, j) =>
      (match Save(r, i, j)
       case Some(r') => Some((Nothing, r'))
       case None => None)
    case RetrieveEvent => Some((Slot(Retrieve(r).0), Retrieve(r).1))
    case RestoreEvent(k) =>
      match Restore(r, k % |r.slots|)
      case Some((p, r')) => Some((Pair(p), r'))
      case None => None
  }

  /** One step of the ring answers as the queue does and leaves the ring representing the queue. */
  ghost predicate Refines(r: Ring, f: Fifo, e: Event)
    requires r.WellFormed()
  {
    match (RingStep(r, e), FifoStep(f, e, |r.slots|))
    case (Some(a), Some(b)) => a.0 == b.0 && Represents(a.1, b.1) && |a.1.slots| == |r.slots|
    case (_, b) => b.None?
  }

  lemma SaveRefines(r: Ring, f: Fifo, i: int, j: int)
    requires Represents(r, f)
    ensures r.WellFormed() && Refines(r, f, SaveEvent(i, j))
  {
    SaveExactly(r, f, i, j);
    Bounds(r, f);
    hide Represents;
  }

  lemma RetrieveRefines(r: Ring, f: Fifo)
    requires Represents(r, f)
    ensures r.WellFormed() && Refines(r, f, RetrieveEvent)
  {
    RetrieveExactly(r, f);
    Bounds(r, f);
    hide Represents;
  }

  lemma RestoreRefines(r: Ring, f: Fifo, k: nat)
    requires Represents(r, f)
    ensures r.WellFormed() && Refines(r, f, RestoreEvent(k))
  {
    Bounds(r, f);
    if k in f.live && k < f.retrieved {
      RestoreGivesSaved(r, f, k);
    }
    hide Represents;
  }

  lemma StepRefines(r: Ring, f: Fifo, e: Event)
    requires Represents(r, f)
    ensures r.WellFormed() && Refines(r, f, e)
  {
    match e
    case SaveEvent(i, j) => SaveRefines(r, f, i, j);
    case RetrieveEvent => RetrieveRefines(r, f);
    case RestoreEvent(k) => RestoreRefines(r, f, k);
  }

  lemma Bounds(r: Ring, f: Fifo)
    requires Represents(r, f)
    ensures r.WellFormed() && f.retrieved <= |f.saved|
  {
  }

  ghost function FifoRun(f: Fifo, es: seq<Event>, cap: nat): Option<(seq<Output>, Fifo)>
    requires cap > 0
    decreases |es|
  {
    if es == [] then Some(([], f))
    else
      match FifoStep(f, es[0], cap)
      case None => None
      case Some((o, f')) =>
        match FifoRun(f', es[1..], cap)
        case None => None
        case Some((os, g)) => Some(([o] + os, g))
  }

  ghost function RingRun(r: Ring, es: seq<Event>): Option<(seq<Output>, Ring)>
    requires r.WellFormed()
    decreases |es|
  {
    if es == [] then Some(([], r))
    else
      match RingStep(r, es[0])
      case None => None
      case Some((o, r')) =>
        match RingRun(r', es[1..])
        case None => None
        case Some((os, q)) => Some(([o] + os, q))
  }

  /** Over every run in which the queue always has room, the ring's answers are the queue's answers. */
  lemma {:induction false} RingRefinesFifo(r: Ring, f: Fifo, es: seq<Event>)
    requires Represents(r, f) && FifoRun(f, es, |r.slots|).Some?
    ensures r.WellFormed() && RingRun(r, es).Some?
    ensures RingRun(r, es).value.0 == FifoRun(f, es, |r.slots|).value.0
    ensures Represents(RingRun(r, es).value.1, FifoRun(f, es, |r.slots|).value.1)
    decreases |es|
  {
    hide Represents, FifoStep, RingStep;
    Bounds(r, f);
    if es != [] {
      StepRefines(r, f, es[0]);
      RingRefinesFifo(RingStep(r, es[0]).value.1, FifoStep(f, es[0], |r.slots|).value.1, es[1..]);
    }
  }

  function Empty(cap: nat): Ring {
    Ring(seq(cap, _ => Continuation(0, 0, false)), -1, 0)
  }

  lemma EmptyRepresents(cap: nat)
    requires cap > 0
    ensures Represents(Empty(cap), Fifo([], 0, {}))
  {
    ModSmall(0, cap);
  }

  /** A ring that is full of entries in flight hands one of them out again: two saves into two slots, and
      the third retrieve returns the first slot a second time instead of -1. */
  lemma FullRingRepeats()
    ensures
      var run := [SaveEvent(1, 1), SaveEvent(2, 2), RetrieveEvent, RetrieveEvent, RetrieveEvent];
      var o := RingRun(Empty(2), run);
      o.Some? && o.value.0 == [Nothing, Nothing, Slot(0), Slot(1), Slot(0)]
  {
    var r := Empty(2);
    var r1 := Save(r, 1, 1).value;
    var r2 := Save(r1, 2, 2).value;
    var r3 := Retrieve(r2).1;
    var r4 := Retrieve(r3).1;
    var r5 := Retrieve(r4).1;
    assert RingRun(r5, []) == Some(([], r5));
    RunCons(r4, RetrieveEvent, []);
    RunCons(r3, RetrieveEvent, [RetrieveEvent]);
    RunCons(r2, RetrieveEvent, [RetrieveEvent, RetrieveEvent]);
    RunCons(r1, SaveEvent(2, 2), [RetrieveEvent, RetrieveEvent, RetrieveEvent]);
    RunCons(r, SaveEvent(1, 1), [SaveEvent(2, 2), RetrieveEvent, RetrieveEvent, RetrieveEvent]);
  }

  lemma RunCons(r: Ring, e: Event, es: seq<Event>)
    requires r.WellFormed() && RingStep(r, e).Some?
    ensures RingStep(r, e).value.1.WellFormed()
    ensures RingRun(r, [e] + es) ==
            match RingRun(RingStep(r, e).value.1, es)
            case None => None
            case Some((os, q)) => Some(([RingStep(r, e).value.0] + os, q))
  {
    assert ([e] + es)[1..] == es;
  }

  // ---------- In place ----------

  class ContinuationRing {
    const continuations: array<Continuation>
    var startConti: int
    var lastConti: int

    ghost function Model(): Ring
      reads this, continuations
    {
      Ring(continuations[..], startConti, lastConti)
    }

    constructor (maxConti: nat)
      requires maxConti > 0
      ensures Model() == Empty(maxConti) && fresh(continuations)
    {
      continuations := new Continuation[maxConti](_ => Continuation(0, 0, false));
      startConti, lastConti := -1, 0;
    }

    method SaveContinuation(i: int, j: int)
      requires Model().WellFormed() && Save(Model(), i, j).Some?
      modifies this, continuations
      ensures Save(old(Model()), i, j) == Some(Model())
    {
      var newConti := lastConti;
      lastConti := if lastConti == continuations.Length - 1 then 0 else lastConti + 1;
      assert !continuations[newConti].occupied;
      continuations[newConti] := Continuation(i, j, true);
      if startConti == -1 {
        startConti := newConti;
      }
    }

    method RestoreContinuation(cur: int) returns (i: int, j: int)
      requires Model().WellFormed() && Restore(Model(), cur).Some?
      modifies continuations
      ensures Restore(old(Model()), cur) == Some(((i, j), Model()))
    {
      assert cur < continuations.Length && cur >= 0;
      assert continuations[cur].occupied;
      i, j := continuations[cur].orderI, continuations[cur].orderJ;
      continuations[cur] := continuations[cur].(occupied := false);
    }

    method RetrieveStartConti() returns (res: int)
      requires Model().WellFormed()
      modifies this
      ensures Retrieve(old(Model())) == (res, Model())
    {
      res := startConti;
      if res == -1 {
        return;
      }
      var next := if startConti == continuations.Length - 1 then 0 else startConti + 1;
      startConti := if continuations[next].occupied then next else -1;
    }
  }
}
