/** How the driver brings the pool up: primitives, then `n` server threads, then the boot thread
    resumes the thread it created last. */
module Boot {
  import opened Scheduler

  ghost function WithPrims<P(!new)>(prims: seq<P>): (s: Sched<P>)
    ensures s.newId == 1
  {
    if prims == [] then Initial()
    else NewPrim(WithPrims(prims[..|prims| - 1]), prims[|prims| - 1])
  }

  ghost function Created<P(!new)>(prims: seq<P>, k: nat): (s: Sched<P>)
    requires k < MAX_CAPACITY
    ensures s.newId == k + 1
    decreases k
  {
    if k == 0 then WithPrims(prims) else Create(Created(prims, k - 1)).value
  }

  /** Nobody waits for a primitive, and threads 1 to `k` are ready in that order behind the boot thread. */
  ghost predicate Fresh<P(!new)>(s: Sched<P>, prims: seq<P>, k: nat) {
    && Inv(s) && s.run == BOOT && s.newId == k + 1 && s.waitingNum == s.woken == 0
    && (forall p :: p in s.waits <==> p in prims) && (forall p | p in s.waits :: s.waits[p] == [])
    && (forall t :: t in s.status <==> 0 <= t <= k)
    && |s.ready| == k && forall i | 0 <= i < k :: s.ready[i] == i + 1
  }

  lemma FreshFrom<P(!new)>(s: Sched<P>)
    requires Inv(s) && s.run == BOOT && s.waits.Keys == {} && s.ready == [] && s.status.Keys == {BOOT}
    requires s.newId == 1 && s.waitingNum == s.woken == 0
    ensures Fresh(s, [], 0)
  {
    hide Inv;
  }

  lemma InitialFresh<P(!new)>()
    ensures Fresh(Initial<P>(), [], 0)
  {
    hide Inv, Fresh;
    var s: Sched<P> := Initial();
    InitialInv<P>();
    assert s.waits.Keys == {} && s.status.Keys == {BOOT};
    FreshFrom(s);
  }

  lemma {:induction false} PrimsFresh<P(!new)>(prims: seq<P>)
    ensures Fresh(WithPrims(prims), prims, 0)
  {
    hide Inv, Initial;
    if prims == [] {
      InitialFresh<P>();
    } else {
      var n := |prims| - 1;
      PrimsFresh(prims[..n]);
      NewPrimExactly(WithPrims(prims[..n]), prims[n]);
    }
  }

  lemma CreateFresh<P(!new)>(c: Sched<P>, prims: seq<P>, k: nat)
    requires k > 0 && Fresh(c, prims, k - 1) && c.newId == k < MAX_CAPACITY
    ensures Fresh(Create(c).value, prims, k)
  {
    hide Inv;
    CreateKeeps(c);
    var s := Create(c).value;
    assert s.ready == c.ready + [k] && s.status == c.status[k := Ready] && s.waits == c.waits;
  }

  lemma {:induction false} ThreadsFresh<P(!new)>(prims: seq<P>, k: nat)
    requires k < MAX_CAPACITY
    ensures Fresh(Created(prims, k), prims, k)
    decreases k
  {
    hide Inv;
    if k == 0 {
      PrimsFresh(prims);
    } else {
      ThreadsFresh(prims, k - 1);
      CreateFresh(Created(prims, k - 1), prims, k);
    }
  }

  /** The last thread runs, the others are ready in the order of their creation, the boot thread is set
      aside and nobody has ever waited. */
  ghost predicate Under<P(!new)>(s: Sched<P>, n: nat) {
    && s.run == n && s.newId == n + 1 && s.waitingNum == s.woken == 0
    && BOOT in s.status && s.status[BOOT] == Ready
    && |s.ready| == n - 1 && forall i | 0 <= i < n - 1 :: s.ready[i] == i + 1
  }

  lemma LastResumed<P(!new)>(s: Sched<P>, prims: seq<P>, n: nat)
    requires n > 0 && Fresh(s, prims, n)
    ensures n in s.ready && Resume(s, n).Some? && Under(Resume(s, n).value, n)
    ensures var s' := Resume(s, n).value; Inv(s') && s'.waits == s.waits && s'.status.Keys == s.status.Keys
  {
    hide Inv;
    assert s.ready[n - 1] == n;
    ResumeFrame(s, n);
    ResumeOrder(s, n - 1);
    StepRegisters(s, ResumeOp(n));
    hide Resume;
  }

  ghost function Booted<P(!new)>(prims: seq<P>, n: nat): (s: Sched<P>)
    requires 0 < n < MAX_CAPACITY
    ensures Inv(s) && Under(s, n)
    ensures (forall p :: p in s.waits <==> p in prims) && (forall p | p in s.waits :: s.waits[p] == [])
    ensures forall t :: t in s.status <==> 0 <= t <= n
  {
    ThreadsFresh(prims, n);
    LastResumed(Created(prims, n), prims, n);
    Resume(Created(prims, n), n).value
  }
}
