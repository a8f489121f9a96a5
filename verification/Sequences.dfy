/** Facts about duplicate-free sequences and about maps to sequences. */
module Sequences {
  predicate NoDup<T(==)>(q: seq<T>) {
    forall i, j | 0 <= i < j < |q| :: q[i] != q[j]
  }

  /** `q` without the first occurrence of `t`. */
  function Without<T(==)>(q: seq<T>, t: T): seq<T> {
    if q == [] then [] else if q[0] == t then q[1..] else [q[0]] + Without(q[1..], t)
  }

  lemma {:induction false} WithoutAt<T>(q: seq<T>, i: nat)
    requires i < |q| && NoDup(q)
    ensures Without(q, q[i]) == q[..i] + q[i + 1..]
  {
    if i == 0 {
    } else {
      WithoutAt(q[1..], i - 1);
      assert q[1..][..i - 1] == q[1..i] && q[1..][i..] == q[i + 1..];
      assert q[..i] == [q[0]] + q[1..i];
    }
  }

  lemma {:induction false} WithoutAbsent<T>(q: seq<T>, t: T)
    requires t !in q
    ensures Without(q, t) == q
  {
    if q != [] {
      WithoutAbsent(q[1..], t);
    }
  }

  lemma WithoutCons<T>(x: T, rest: seq<T>, t: T)
    ensures Without([x] + rest, t) == if x == t then rest else [x] + Without(rest, t)
  {
    assert ([x] + rest)[1..] == rest;
  }

  lemma {:induction false} WithoutMiddle<T>(a: seq<T>, t: T, b: seq<T>)
    requires t !in a
    ensures Without(a + [t] + b, t) == a + b && t in a + [t] + b
  {
    hide Without;
    if a == [] {
      WithoutCons(t, b, t);
      assert a + [t] + b == [t] + b && a + b == b;
    } else {
      var rest := a[1..] + [t] + b;
      WithoutMiddle(a[1..], t, b);
      WithoutCons(a[0], rest, t);
      assert a + [t] + b == [a[0]] + rest;
      assert a + b == [a[0]] + (a[1..] + b);
    }
    assert (a + [t] + b)[|a|] == t;
  }

  lemma WithoutProperties<T>(q: seq<T>, t: T)
    requires NoDup(q) && t in q
    ensures NoDup(Without(q, t)) && |Without(q, t)| == |q| - 1
    ensures forall x | x in Without(q, t) :: x in q && x != t
    ensures forall x | x in q && x != t :: x in Without(q, t)
  {
    var i :| 0 <= i < |q| && q[i] == t;
    WithoutAt(q, i);
    hide Without;
    forall x | x in q && x != t ensures x in q[..i] + q[i + 1..] {
      var k :| 0 <= k < |q| && q[k] == x;
      assert k < i || x == q[i + 1..][k - i - 1];
    }
  }

  lemma TailProperties<T>(q: seq<T>)
    requires NoDup(q) && q != []
    ensures NoDup(q[1..])
    ensures forall x :: x in q[1..] <==> x in q && x != q[0]
  {
    forall x | x in q && x != q[0] ensures x in q[1..] {
      var i :| 0 <= i < |q| && q[i] == x;
      assert q[1..][i - 1] == x;
    }
  }

  lemma AppendProperties<T>(q: seq<T>, t: T)
    requires NoDup(q) && t !in q
    ensures NoDup(q + [t])
    ensures forall x :: x in q + [t] <==> x in q || x == t
  {
  }

  ghost function TotalLength<K, T>(m: map<K, seq<T>>): nat
    decreases |m|
  {
    if m.Keys == {} then 0
    else
      var k :| k in m.Keys;
      var rest := m - {k};
      assert rest.Keys == m.Keys - {k};
      |m[k]| + TotalLength(rest)
  }

  lemma {:induction false} TotalLengthPick<K, T>(m: map<K, seq<T>>, k: K)
    requires k in m
    ensures TotalLength(m) == |m[k]| + TotalLength(m - {k})
    decreases |m|
  {
    var j :| j in m.Keys && TotalLength(m) == |m[j]| + TotalLength(m - {j});
    if j != k {
      var a, b := m - {j}, m - {k};
      assert a.Keys == m.Keys - {j} && b.Keys == m.Keys - {k};
      TotalLengthPick(a, k);
      TotalLengthPick(b, j);
      assert a - {k} == b - {j};
    }
  }

  lemma TotalLengthUpdate<K, T>(m: map<K, seq<T>>, k: K, q: seq<T>)
    requires k in m
    ensures TotalLength(m[k := q]) == TotalLength(m) - |m[k]| + |q|
  {
    TotalLengthPick(m, k);
    TotalLengthPick(m[k := q], k);
    assert m[k := q] - {k} == m - {k};
  }

  lemma TotalLengthInsert<K, T>(m: map<K, seq<T>>, k: K)
    requires k !in m
    ensures TotalLength(m[k := []]) == TotalLength(m)
  {
    TotalLengthPick(m[k := []], k);
    assert m[k := []] - {k} == m;
  }
}
