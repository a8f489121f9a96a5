/** Counting and summing over finite sequences, and the pigeonhole principle. */
module Counting {
  /** How many entries are true. */
  ghost function Count(b: seq<bool>): nat {
    if b == [] then 0 else Count(b[..|b| - 1]) + if b[|b| - 1] then 1 else 0
  }

  lemma {:induction false} CountOne(b: seq<bool>, i: nat)
    requires i < |b| && b[i]
    ensures Count(b) >= 1
  {
    if i < |b| - 1 {
      CountOne(b[..|b| - 1], i);
    }
  }

  lemma {:induction false} CountTwo(b: seq<bool>, i: nat, j: nat)
    requires i < j < |b| && b[i] && b[j]
    ensures Count(b) >= 2
  {
    if j == |b| - 1 {
      CountOne(b[..|b| - 1], i);
    } else {
      CountTwo(b[..|b| - 1], i, j);
    }
  }

  lemma {:induction false} CountNone(b: seq<bool>)
    requires forall i | 0 <= i < |b| :: !b[i]
    ensures Count(b) == 0
  {
    if b != [] {
      CountNone(b[..|b| - 1]);
    }
  }

  lemma CountNext(b: seq<bool>, k: nat)
    requires 0 < k <= |b|
    ensures Count(b[..k]) == Count(b[..k - 1]) + if b[k - 1] then 1 else 0
  {
    assert b[..k][..k - 1] == b[..k - 1];
  }

  ghost function Sum(a: seq<int>): int {
    if a == [] then 0 else Sum(a[..|a| - 1]) + a[|a| - 1]
  }

  lemma SumNext(a: seq<int>, k: nat)
    requires 0 < k <= |a|
    ensures Sum(a[..k]) == Sum(a[..k - 1]) + a[k - 1]
  {
    assert a[..k][..k - 1] == a[..k - 1];
  }

  lemma {:induction false} SumUpdate(a: seq<int>, i: nat, v: int)
    requires i < |a|
    ensures Sum(a[i := v]) == Sum(a) - a[i] + v
  {
    var n := |a| - 1;
    if i == n {
      assert a[i := v][..n] == a[..n];
    } else {
      assert a[i := v][..n] == a[..n][i := v];
      SumUpdate(a[..n], i, v);
    }
  }

  lemma {:induction false} SumConstant(a: seq<int>, v: int)
    requires forall i | 0 <= i < |a| :: a[i] == v
    ensures Sum(a) == |a| * v
  {
    if a != [] {
      SumConstant(a[..|a| - 1], v);
    }
  }

  ghost function Share(b: bool, r: nat): int { if b then r else 0 }

  /** Entries of at most `r` where `b` is true, and at most 0 elsewhere, reach `r` for each true entry
      only if every one is at its bound. */
  lemma {:induction false} SumUpTo(a: seq<int>, b: seq<bool>, r: nat)
    requires |a| == |b| && forall i | 0 <= i < |a| :: a[i] <= Share(b[i], r)
    ensures Sum(a) <= r * Count(b)
    ensures Sum(a) == r * Count(b) <==> forall i | 0 <= i < |a| :: a[i] == Share(b[i], r)
  {
    if a != [] {
      var n := |a| - 1;
      SumUpTo(a[..n], b[..n], r);
      TimesNext(r, Count(b[..n]), b[n]);
      if forall i | 0 <= i < n :: a[..n][i] == Share(b[..n][i], r) {
        assert forall i | 0 <= i < n :: a[i] == a[..n][i] && b[i] == b[..n][i];
      }
    }
  }

  lemma TimesNext(r: nat, k: nat, more: bool)
    ensures r * (k + if more then 1 else 0) == r * k + Share(more, r)
  {
  }

  ghost predicate Injective<K, V>(f: map<K, V>) {
    forall a, b | a in f && b in f && f[a] == f[b] :: a == b
  }

  /** An injective map into a set has at most as many keys as the set has elements. */
  lemma {:induction false} Pigeonhole<K, V>(f: map<K, V>, d: set<V>)
    requires Injective(f) && forall k | k in f :: f[k] in d
    ensures |f.Keys| <= |d|
    decreases |f|
  {
    if f.Keys != {} {
      var k :| k in f.Keys;
      var rest := f - {k};
      assert rest.Keys == f.Keys - {k};
      Pigeonhole(rest, d - {f[k]});
    }
  }

  /** If there are as many keys as elements, every element is hit. */
  lemma Onto<K, V>(f: map<K, V>, d: set<V>, v: V)
    requires Injective(f) && forall k | k in f :: f[k] in d
    requires |f.Keys| == |d| && v in d
    ensures exists k | k in f :: f[k] == v
  {
    if forall k | k in f :: f[k] != v {
      Pigeonhole(f, d - {v});
    }
  }

  /** The numbers from `a` up to, not including, `b`. */
  ghost function Interval(a: nat, b: nat): (s: set<nat>)
    requires a <= b
    ensures |s| == b - a
    ensures forall x :: x in s <==> a <= x < b
    decreases b
  {
    if a == b then {} else Interval(a, b - 1) + {b - 1}
  }
}
