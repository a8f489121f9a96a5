/** The driver's greedy allocation of untyped memory: as many blocks as possible of each size, from the
    largest down, within a budget of bytes and a number of blocks. */
module Untypeds {
  const WORD_BITS := 32
  const PAGE_BITS_4K := 12

  function Pow2(n: nat): (p: nat)
    ensures p > 0
  {
    if n == 0 then 1 else 2 * Pow2(n - 1)
  }

  /** How many blocks of each size, indexed by its number of bits, the allocator can still hand out. */
  type Supply = s: seq<nat> | |s| == WORD_BITS witness seq(WORD_BITS, _ => 0)

  /** A sum of sizes, in unbounded or in 32-bit arithmetic. */
  function Plus(wide: bool, used: nat, c: nat): nat {
    if wide then used + Pow2(c) else (used + Pow2(c)) % Pow2(WORD_BITS)
  }

  /** The sizes taken, in order, from size `c` down, with `used` bytes already taken. */
  function Greedy(wide: bool, c: nat, supply: Supply, used: nat, bytes: nat, max: nat): seq<nat>
    requires c < WORD_BITS
    decreases c, supply[c]
  {
    if c <= PAGE_BITS_4K then []
    else if max > 0 && Plus(wide, used, c) <= bytes && supply[c] > 0 then
      [c] + Greedy(wide, c, supply[c := supply[c] - 1], Plus(wide, used, c), bytes, max - 1)
    else Greedy(wide, c - 1, supply, used, bytes, max)
  }

  // ---------- In place ----------

  /** The allocator, which hands out blocks of a size until it runs out of them. */
  class Allocator {
    const supply: array<nat>

    constructor (blocks: Supply)
      ensures fresh(supply) && supply[..] == blocks
    {
      supply := new nat[WORD_BITS](i requires 0 <= i < WORD_BITS => blocks[i]);
    }

    method AllocUntyped(c: nat) returns (error: int)
      requires c < supply.Length
      modifies supply
      ensures error == 0 <==> old(supply[c]) > 0
      ensures supply[..] == if error == 0 then old(supply[..])[c := old(supply[c]) - 1] else old(supply[..])
    {
      if supply[c] == 0 {
        return 1;
      }
      supply[c] := supply[c] - 1;
      error := 0;
    }
  }

  /** One turn of the allocation loop: a block is taken, or the next size is tried. */
  lemma GreedyTurn(wide: bool, c: nat, supply: Supply, used: nat, bytes: nat, max: nat)
    requires c < WORD_BITS
    ensures c <= PAGE_BITS_4K ==> Greedy(wide, c, supply, used, bytes, max) == []
    ensures c > PAGE_BITS_4K ==>
              Greedy(wide, c, supply, used, bytes, max) ==
              if max > 0 && Plus(wide, used, c) <= bytes && supply[c] > 0 then
                [c] + Greedy(wide, c, supply[c := supply[c] - 1], Plus(wide, used, c), bytes, max - 1)
              else Greedy(wide, c - 1, supply, used, bytes, max)
  {
  }

  method AllocateUntypeds(vka: Allocator, untypeds: array<nat>, bytes: nat, max: nat) returns (num: nat)
    requires vka.supply.Length == WORD_BITS && max <= untypeds.Length && vka.supply != untypeds
    modifies untypeds, vka.supply
    ensures num <= max
    ensures untypeds[..num] == Greedy(false, WORD_BITS - 1, old(vka.supply[..]), 0, bytes, max)
    ensures bytes < WORD ==> Shares(untypeds[..num], old(vka.supply[..]), bytes, max)
    ensures bytes == WORD - 1 ==> num == Min(max, Blocks(old(vka.supply[..]), WORD_BITS - 1))
  {
    hide Greedy, Plus, Shares, Blocks, Min;
    SharesOf(vka.supply[..], bytes, max);
    num := 0;
    var taken: nat := 0;
    var c: nat := WORD_BITS - 1;
    ghost var left: Supply := vka.supply[..];
    ghost var whole := Greedy(false, c, left, 0, bytes, max);
    while c > PAGE_BITS_4K
      invariant c < WORD_BITS && num <= max && num <= |whole| && untypeds[..num] == whole[..num]
      invariant vka.supply[..] == left && Greedy(false, c, left, taken, bytes, max - num) == whole[num..]
    {
      var more := true;
      ghost var d := c;
      while more
        invariant num <= max && num <= |whole| && untypeds[..num] == whole[..num]
        invariant d == (if more then c else c - 1)
        invariant vka.supply[..] == left && Greedy(false, d, left, taken, bytes, max - num) == whole[num..]
        decreases max - num, more
      {
        more := false;
        d := c - 1;
        if num < max && Plus(false, taken, c) <= bytes {
          var error := vka.AllocUntyped(c);
          if error == 0 {
            Taken(whole, num, c, left, taken, bytes, max);
            left := left[c := left[c] - 1];
            untypeds[num] := c;
            assert untypeds[..num + 1] == untypeds[..num] + [c];
            taken := Plus(false, taken, c);
            num := num + 1;
            more := true;
            d := c;
          }
        }
        if !more { GreedyTurn(false, c, left, taken, bytes, max - num); }
      }
      c := c - 1;
    }
    GreedyTurn(false, c, left, taken, bytes, max - num);
    assert whole[..num] == whole;
  }

  /** A block more of what is taken in all. */
  lemma Taken(whole: seq<nat>, num: nat, c: nat, left: Supply, taken: nat, bytes: nat, max: nat)
    requires PAGE_BITS_4K < c < WORD_BITS && num <= |whole| && num < max && left[c] > 0
    requires Plus(false, taken, c) <= bytes && Greedy(false, c, left, taken, bytes, max - num) == whole[num..]
    ensures num < |whole| && whole[..num + 1] == whole[..num] + [c]
    ensures whole[num + 1..] ==
            Greedy(false, c, left[c := left[c] - 1], Plus(false, taken, c), bytes, max - (num + 1))
  {
    hide Plus, Greedy;
    GreedyTurn(false, c, left, taken, bytes, max - num);
    var rest := Greedy(false, c, left[c := left[c] - 1], Plus(false, taken, c), bytes, max - num - 1);
    assert whole[num..] == [c] + rest;
    assert whole[num] == whole[num..][0] && whole[num + 1..] == whole[num..][1..];
  }

  // ---------- What is taken ----------

  function Total(sizes: seq<nat>): nat {
    if sizes == [] then 0 else Pow2(sizes[0]) + Total(sizes[1..])
  }

  function Times(sizes: seq<nat>, c: nat): nat {
    if sizes == [] then 0 else (if sizes[0] == c then 1 else 0) + Times(sizes[1..], c)
  }

  /** Non-increasing sizes above a page and up to `c`, at most `max` of them, and of each size no more than
      there are. */
  ghost predicate Shaped(g: seq<nat>, c: nat, supply: Supply, max: nat) {
    && |g| <= max && (forall i | 0 <= i < |g| :: PAGE_BITS_4K < g[i] <= c)
    && (forall i, j | 0 <= i < j < |g| :: g[j] <= g[i])
    && forall k: nat | k < WORD_BITS :: Times(g, k) <= supply[k]
  }

  lemma ShapedOneMore(rest: seq<nat>, c: nat, supply: Supply, max: nat)
    requires PAGE_BITS_4K < c < WORD_BITS && supply[c] > 0 && max > 0
    requires Shaped(rest, c, supply[c := supply[c] - 1], max - 1)
    ensures Shaped([c] + rest, c, supply, max)
  {
    forall k: nat | k < WORD_BITS ensures Times([c] + rest, k) <= supply[k] {
      assert ([c] + rest)[1..] == rest;
      assert Times(rest, k) <= supply[c := supply[c] - 1][k];
    }
  }

  lemma {:induction false} GreedyShape(wide: bool, c: nat, supply: Supply, used: nat, bytes: nat, max: nat)
    requires c < WORD_BITS
    ensures Shaped(Greedy(wide, c, supply, used, bytes, max), c, supply, max)
    decreases c, supply[c]
  {
    hide Plus;
    if c > PAGE_BITS_4K {
      if max > 0 && Plus(wide, used, c) <= bytes && supply[c] > 0 {
        var less := supply[c := supply[c] - 1];
        GreedyShape(wide, c, less, Plus(wide, used, c), bytes, max - 1);
        ShapedOneMore(Greedy(wide, c, less, Plus(wide, used, c), bytes, max - 1), c, supply, max);
      } else {
        GreedyShape(wide, c - 1, supply, used, bytes, max);
      }
    }
  }

  lemma {:induction false} GreedyWithin(c: nat, supply: Supply, used: nat, bytes: nat, max: nat)
    requires c < WORD_BITS && used <= bytes
    ensures used + Total(Greedy(true, c, supply, used, bytes, max)) <= bytes
    decreases c, supply[c]
  {
    if c > PAGE_BITS_4K {
      if max > 0 && used + Pow2(c) <= bytes && supply[c] > 0 {
        var less := supply[c := supply[c] - 1];
        GreedyWithin(c, less, used + Pow2(c), bytes, max - 1);
        var rest := Greedy(true, c, less, used + Pow2(c), bytes, max - 1);
        assert ([c] + rest)[1..] == rest;
      } else {
        GreedyWithin(c - 1, supply, used, bytes, max);
      }
    }
  }

  // ---------- No other choice is better ----------

  /** How many bytes and how many blocks a choice of `x[k]` blocks of each size `k` up to `c` makes. */
  ghost function Bytes(x: Supply, c: nat): nat
    requires c < WORD_BITS
  {
    if c <= PAGE_BITS_4K then 0 else x[c] * Pow2(c) + Bytes(x, c - 1)
  }

  ghost function Blocks(x: Supply, c: nat): nat
    requires c < WORD_BITS
  {
    if c <= PAGE_BITS_4K then 0 else x[c] + Blocks(x, c - 1)
  }

  ghost predicate Within(x: Supply, y: Supply) {
    forall k | 0 <= k < WORD_BITS :: x[k] <= y[k]
  }

  ghost function Minus(x: Supply, y: Supply): Supply
    requires Within(y, x)
  {
    seq(WORD_BITS, k requires 0 <= k < WORD_BITS => x[k] - y[k])
  }

  lemma Distribute(a: int, b: int, p: int)
    ensures (a - b) * p == a * p - b * p
  {
  }

  lemma {:induction false} MinusCounts(x: Supply, y: Supply, c: nat)
    requires Within(y, x) && c < WORD_BITS
    ensures Bytes(Minus(x, y), c) == Bytes(x, c) - Bytes(y, c)
    ensures Blocks(Minus(x, y), c) == Blocks(x, c) - Blocks(y, c)
  {
    if c > PAGE_BITS_4K {
      MinusCounts(x, y, c - 1);
      Distribute(x[c], y[c], Pow2(c));
    }
  }

  lemma {:induction false} BytesBelow(x: Supply, y: Supply, c: nat)
    requires c < WORD_BITS && forall k | 0 <= k <= c :: x[k] == y[k]
    ensures Bytes(x, c) == Bytes(y, c) && Blocks(x, c) == Blocks(y, c)
  {
    if c > PAGE_BITS_4K {
      BytesBelow(x, y, c - 1);
    }
  }

  lemma {:induction false} SomeBlock(x: Supply, c: nat)
    requires c < WORD_BITS && Blocks(x, c) == 0
    ensures Bytes(x, c) == 0
  {
    if c > PAGE_BITS_4K {
      SomeBlock(x, c - 1);
    }
  }

  ghost function None(): Supply { seq(WORD_BITS, _ => 0) }

  lemma {:induction false} NoneCounts(c: nat)
    requires c < WORD_BITS
    ensures Bytes(None(), c) == 0 && Blocks(None(), c) == 0
  {
    if c > PAGE_BITS_4K {
      NoneCounts(c - 1);
    }
  }

  /** A block of one size is two of the size below. */
  lemma TwiceAsMany(t: nat, n: nat, c: nat)
    requires n <= t && c > 0
    ensures t * Pow2(c) == n * Pow2(c) + (2 * (t - n)) * Pow2(c - 1)
  {
    var p := Pow2(c - 1);
    assert Pow2(c) == 2 * p;
    hide Pow2;
    assert t * (2 * p) - n * (2 * p) == (2 * (t - n)) * p;
  }

  /** Because every size divides the next, from blocks of at least `t * 2^c` bytes some can be picked that
      make exactly `t * 2^c`. */
  lemma {:induction false} ExactPick(x: Supply, c: nat, t: nat) returns (y: Supply)
    requires c < WORD_BITS && Bytes(x, c) >= t * Pow2(c)
    ensures Within(y, x) && Bytes(y, c) == t * Pow2(c)
    ensures (forall k | c < k < WORD_BITS :: y[k] == 0) && (c > PAGE_BITS_4K ==> y[c] == if x[c] >= t then t else x[c])
  {
    NoneCounts(c);
    if c <= PAGE_BITS_4K || t == 0 {
      AtLeast(t, Pow2(c));
      y := None();
    } else if x[c] >= t {
      y := None()[c := t];
      BytesBelow(None(), y, c - 1);
      NoneCounts(c - 1);
    } else {
      var rest := t - x[c];
      TwiceAsMany(t, x[c], c);
      var z := ExactPick(x, c - 1, 2 * rest);
      y := z[c := x[c]];
      BytesBelow(z, y, c - 1);
    }
  }

  /** In unbounded arithmetic no choice within the supply, the budget and the number of blocks makes
      more bytes than the greedy one. */
  lemma {:induction false} GreedyOptimal(c: nat, supply: Supply, used: nat, bytes: nat, max: nat, x: Supply)
    requires c < WORD_BITS && used <= bytes
    requires Within(x, supply) && used + Bytes(x, c) <= bytes && Blocks(x, c) <= max
    ensures Bytes(x, c) <= Total(Greedy(true, c, supply, used, bytes, max))
    decreases c, supply[c]
  {
    if c > PAGE_BITS_4K {
      if max > 0 && used + Pow2(c) <= bytes && supply[c] > 0 {
        TakeOne(c, supply, used, bytes, max, x);
      } else if max == 0 {
        SomeBlock(x, c);
      } else {
        NoneOfSize(c, supply, used, bytes, x);
        GreedyOptimal(c - 1, supply, used, bytes, max, x);
      }
    }
  }

  lemma NoneOfSize(c: nat, supply: Supply, used: nat, bytes: nat, x: Supply)
    requires PAGE_BITS_4K < c < WORD_BITS && Within(x, supply) && used + Bytes(x, c) <= bytes
    requires used + Pow2(c) > bytes || supply[c] == 0
    ensures x[c] == 0
  {
    AtLeast(x[c], Pow2(c));
  }

  lemma AtLeast(n: nat, p: nat)
    ensures n > 0 ==> n * p >= p
  {
    assert n * p == (n - 1) * p + p;
  }

  /** The exchange: from any choice one block of the largest size, or smaller blocks that make up as
      much, can be taken out, and what is left is a choice for the rest of the greedy run. */
  lemma {:induction false} TakeOne(c: nat, supply: Supply, used: nat, bytes: nat, max: nat, x: Supply)
    requires PAGE_BITS_4K < c < WORD_BITS && max > 0 && used + Pow2(c) <= bytes && supply[c] > 0
    requires Within(x, supply) && used + Bytes(x, c) <= bytes && Blocks(x, c) <= max
    ensures Bytes(x, c) <= Total(Greedy(true, c, supply, used, bytes, max))
    decreases c, supply[c], 0
  {
    var less := supply[c := supply[c] - 1];
    var rest := Greedy(true, c, less, used + Pow2(c), bytes, max - 1);
    assert ([c] + rest)[1..] == rest;
    if Bytes(x, c) >= Pow2(c) {
      var y := ExactPick(x, c, 1);
      MinusCounts(x, y, c);
      if Blocks(y, c) == 0 { SomeBlock(y, c); }
      GreedyOptimal(c, less, used + Pow2(c), bytes, max - 1, Minus(x, y));
    }
  }

  // ---------- 32-bit arithmetic ----------

  lemma {:induction false} Pow2Monotone(a: nat, b: nat)
    requires a <= b
    ensures Pow2(a) <= Pow2(b)
  {
    if a < b {
      Pow2Monotone(a, b - 1);
    }
  }

  lemma ModSmall(x: nat, m: nat)
    requires x < m
    ensures x % m == x
  {
  }

  lemma ModSelf(m: nat)
    requires m > 0
    ensures m % m == 0
  {
  }

  lemma Widths()
    ensures Pow2(WORD_BITS) == 2 * Pow2(WORD_BITS - 1)
    ensures forall c: nat | c < WORD_BITS :: Pow2(c) <= Pow2(WORD_BITS - 1)
  {
    forall c: nat | c < WORD_BITS ensures Pow2(c) <= Pow2(WORD_BITS - 1) {
      Pow2Monotone(c, WORD_BITS - 1);
    }
  }

  /** Below half the word no sum wraps around. */
  lemma {:induction false} NoWrap(c: nat, supply: Supply, used: nat, bytes: nat, max: nat)
    requires c < WORD_BITS && used <= bytes < Pow2(WORD_BITS - 1)
    ensures Greedy(false, c, supply, used, bytes, max) == Greedy(true, c, supply, used, bytes, max)
    decreases c, supply[c]
  {
    Widths();
    hide Pow2;
    ModSmall(used + Pow2(c), Pow2(WORD_BITS));
    if c > PAGE_BITS_4K {
      if max > 0 && Plus(true, used, c) <= bytes && supply[c] > 0 {
        NoWrap(c, supply[c := supply[c] - 1], Plus(true, used, c), bytes, max - 1);
      } else {
        NoWrap(c - 1, supply, used, bytes, max);
      }
    }
  }

  function TwoHalves(): Supply { seq(WORD_BITS, i => if i == WORD_BITS - 1 then 2 else 0) }

  /** From half the word up, two blocks of half the word make the sum wrap around to 0. */
  lemma Wraps(bytes: nat)
    requires Pow2(WORD_BITS - 1) <= bytes < Pow2(WORD_BITS)
    ensures Total(Greedy(false, WORD_BITS - 1, TwoHalves(), 0, bytes, 2)) > bytes
  {
    Widths();
    hide Pow2;
    var c := WORD_BITS - 1;
    ModSmall(Pow2(c), Pow2(WORD_BITS));
    ModSelf(Pow2(WORD_BITS));
    assert Plus(false, 0, c) == Pow2(c) && Plus(false, Pow2(c), c) == 0;
    hide Plus;
    var one := TwoHalves()[c := 1];
    var rest := Greedy(false, c, one[c := 0], 0, bytes, 0);
    assert Greedy(false, c, one, Pow2(c), bytes, 1) == [c] + rest;
    assert Greedy(false, c, TwoHalves(), 0, bytes, 2) == [c] + ([c] + rest);
    assert ([c] + ([c] + rest))[1..] == [c] + rest && ([c] + rest)[1..] == rest;
  }

  /** How many bytes the driver's allocation comes to. */
  ghost function Allocated(supply: Supply, bytes: nat, max: nat): nat {
    Total(Greedy(false, WORD_BITS - 1, supply, 0, bytes, max))
  }

  /** The budget is kept whatever the allocator has to offer exactly when it is below half the word. */
  lemma BudgetKeptExactly(bytes: nat)
    requires bytes < Pow2(WORD_BITS)
    ensures (forall supply: Supply, max: nat :: Allocated(supply, bytes, max) <= bytes)
            <==> bytes < Pow2(WORD_BITS - 1)
  {
    if bytes < Pow2(WORD_BITS - 1) {
      forall supply: Supply, max: nat ensures Allocated(supply, bytes, max) <= bytes {
        NoWrap(WORD_BITS - 1, supply, 0, bytes, max);
        GreedyWithin(WORD_BITS - 1, supply, 0, bytes, max);
      }
    } else {
      Wraps(bytes);
      assert Allocated(TwoHalves(), bytes, 2) > bytes;
    }
  }

  /** The allocation as it is run, with a budget below half the word: within the budget, the number of
      blocks and the supply, and no other choice within them makes more. */
  lemma AllocationOptimal(supply: Supply, bytes: nat, max: nat, x: Supply)
    requires bytes < Pow2(WORD_BITS - 1)
    requires Within(x, supply) && Bytes(x, WORD_BITS - 1) <= bytes && Blocks(x, WORD_BITS - 1) <= max
    ensures
      var g := Greedy(false, WORD_BITS - 1, supply, 0, bytes, max);
      Bytes(x, WORD_BITS - 1) <= Total(g) <= bytes && |g| <= max
  {
    hide Pow2, Bytes, Blocks;
    NoWrap(WORD_BITS - 1, supply, 0, bytes, max);
    GreedyShape(true, WORD_BITS - 1, supply, 0, bytes, max);
    GreedyWithin(WORD_BITS - 1, supply, 0, bytes, max);
    GreedyOptimal(WORD_BITS - 1, supply, 0, bytes, max, x);
  }

  // ---------- Every budget of 32 bits ----------

  const WORD := 0x1_0000_0000

  lemma PageSize()
    ensures Pow2(PAGE_BITS_4K) == 4096
  {
    Pow2Times(6, 6);
  }

  lemma WordSize()
    ensures Pow2(WORD_BITS) == WORD
  {
    assert Pow2(8) == 0x100;
    Pow2Times(8, 8);
    Pow2Times(16, 16);
  }

  lemma {:induction false} Pow2Times(a: nat, b: nat)
    ensures Pow2(a + b) == Pow2(a) * Pow2(b)
  {
    if b > 0 {
      Pow2Times(a, b - 1);
      assert Pow2(a + b) == 2 * Pow2(a + b - 1) && Pow2(b) == 2 * Pow2(b - 1);
    }
  }

  ghost function Min(a: nat, b: nat): nat { if a <= b then a else b }

  /** How many blocks of `size` bytes fit into `space` bytes. */
  ghost function Fit(space: nat, size: nat): nat
    requires size > 0
  {
    if space < size then 0 else 1 + Fit(space - size, size)
  }

  /** The sizes above `k` that a choice begins with. */
  ghost function Above(g: seq<nat>, k: nat): seq<nat> {
    if g == [] || g[0] <= k then [] else [g[0]] + Above(g[1..], k)
  }

  /** How many of `blocks` blocks of size `k` are taken, with `used` bytes counted before and `room` for so
      many more: a block that may reach the end of the word is never refused, since the sum wraps around;
      any other is refused when the budget is used up. */
  ghost function Share(blocks: nat, used: nat, bytes: nat, room: nat, k: nat): nat
    requires used <= bytes
  {
    if bytes + Pow2(k) >= WORD then Min(blocks, room) else Min(Min(blocks, room), Fit(bytes - used, Pow2(k)))
  }

  /** The choice `g` takes its share of size `k`, once the larger sizes have theirs. */
  ghost predicate TakesShare(g: seq<nat>, supply: Supply, used: nat, bytes: nat, max: nat, k: nat)
    requires k < WORD_BITS
  {
    var above := Above(g, k);
    var u := (used + Total(above)) % WORD;
    |above| <= max && u <= bytes && Times(g, k) == Share(supply[k], u, bytes, max - |above|, k)
  }

  lemma {:induction false} NoneAbove(g: seq<nat>, k: nat)
    requires forall i | 0 <= i < |g| :: g[i] <= k
    ensures Above(g, k) == [] && forall j | j > k :: Times(g, j) == 0
  {
    if g != [] {
      NoneAbove(g[1..], k);
    }
  }

  lemma ModWord(x: nat)
    requires x < WORD
    ensures x % WORD == x
  {
  }

  /** Is `x` a multiple of the size `c`? */
  ghost predicate Multiple(c: nat, x: nat)
    decreases x
  {
    x == 0 || (x >= Pow2(c) && Multiple(c, x - Pow2(c)))
  }

  lemma {:induction false} MultipleOfHalf(c: nat, x: nat)
    requires c > 0 && Multiple(c, x)
    ensures Multiple(c - 1, x)
    decreases x
  {
    if x > 0 {
      MultipleOfHalf(c, x - Pow2(c));
      assert Pow2(c) == 2 * Pow2(c - 1);
      assert x - Pow2(c - 1) - Pow2(c - 1) == x - Pow2(c);
    }
  }

  /** Two different multiples are at least the size apart. */
  lemma {:induction false} MultiplesApart(c: nat, x: nat, y: nat)
    requires Multiple(c, x) && Multiple(c, y) && x < y
    ensures x + Pow2(c) <= y
    decreases x
  {
    if x > 0 {
      MultiplesApart(c, x - Pow2(c), y - Pow2(c));
    }
  }

  lemma {:induction false} WordMultiple(c: nat)
    requires c <= WORD_BITS
    ensures Multiple(c, WORD)
    decreases WORD_BITS - c
  {
    WordSize();
    if c < WORD_BITS {
      WordMultiple(c + 1);
      MultipleOfHalf(c + 1, WORD);
    } else {
      assert Multiple(c, WORD - Pow2(c));
    }
  }

  /** The bytes counted so far stay a multiple of the size, and in particular within the word. */
  lemma PlusMultiple(used: nat, c: nat)
    requires c < WORD_BITS && used < WORD && Multiple(c, used)
    ensures Multiple(c, Plus(false, used, c)) && Plus(false, used, c) == (used + Pow2(c)) % WORD < WORD
    ensures used + Pow2(c) <= WORD
  {
    hide Pow2, Multiple;
    WordSize();
    WordMultiple(c);
    MultiplesApart(c, used, WORD);
    NextMultiple(c, used);
    ZeroMultiple(c);
    if used + Pow2(c) < WORD { ModWord(used + Pow2(c)); }
  }

  lemma ZeroMultiple(c: nat)
    ensures Multiple(c, 0)
  {
  }

  /** A sum that has not been refused so far is never refused by a budget that close to the end of the word. */
  lemma NeverRefused(used: nat, bytes: nat, c: nat)
    requires c < WORD_BITS && used <= bytes < WORD <= bytes + Pow2(c) && Multiple(c, used)
    ensures Plus(false, used, c) <= bytes
  {
    hide Multiple, Pow2, Plus;
    PlusMultiple(used, c);
    if used + Pow2(c) < WORD {
      WordMultiple(c);
      NextMultiple(c, used);
      MultiplesApart(c, used + Pow2(c), WORD);
      ModWord(used + Pow2(c));
    }
  }

  lemma NextMultiple(c: nat, x: nat)
    requires Multiple(c, x)
    ensures Multiple(c, x + Pow2(c))
  {
  }

  /** A budget further from the end of the word is kept without wrapping around. */
  lemma NeverWrapped(used: nat, bytes: nat, c: nat)
    requires c < WORD_BITS && used <= bytes && bytes + Pow2(c) < WORD
    ensures Plus(false, used, c) == used + Pow2(c)
  {
    WordSize();
    hide Pow2;
  }

  lemma WrapTwice(a: nat, b: nat)
    ensures (a % WORD + b) % WORD == (a + b) % WORD
  {
  }

  /** Taking one block more of the size itself, or of a larger one. */
  lemma ShareSame(rest: seq<nat>, c: nat, supply: Supply, used: nat, bytes: nat, max: nat)
    requires c < WORD_BITS && supply[c] > 0 && max > 0 && used <= bytes < WORD && Multiple(c, used)
    requires Plus(false, used, c) <= bytes && forall i | 0 <= i < |rest| :: rest[i] <= c
    requires TakesShare(rest, supply[c := supply[c] - 1], Plus(false, used, c), bytes, max - 1, c)
    ensures TakesShare([c] + rest, supply, used, bytes, max, c)
  {
    hide Plus, Multiple, Pow2;
    PlusMultiple(used, c);
    if bytes + Pow2(c) < WORD {
      NeverWrapped(used, bytes, c);
    }
    var u := Plus(false, used, c);
    ModWord(used);
    ModWord(u);
    NoneAbove(rest, c);
    NoneAbove([c] + rest, c);
    assert ([c] + rest)[1..] == rest && Times([c] + rest, c) == 1 + Times(rest, c);
    assert Times(rest, c) == Share(supply[c] - 1, u, bytes, max - 1, c);
  }

  lemma ShareLarger(rest: seq<nat>, c: nat, supply: Supply, used: nat, bytes: nat, max: nat, k: nat)
    requires k < c < WORD_BITS && supply[c] > 0 && max > 0 && used <= bytes < WORD && Multiple(c, used)
    requires TakesShare(rest, supply[c := supply[c] - 1], Plus(false, used, c), bytes, max - 1, k)
    ensures TakesShare([c] + rest, supply, used, bytes, max, k)
  {
    hide Plus, Multiple, Pow2, Share;
    PlusMultiple(used, c);
    var above := Above(rest, k);
    assert ([c] + rest)[1..] == rest && Above([c] + rest, k) == [c] + above && ([c] + above)[1..] == above;
    WrapTwice(used + Pow2(c), Total(above));
    assert used + Total([c] + above) == used + Pow2(c) + Total(above);
  }

  /** What the code takes of each size, for every budget of 32 bits, supply and number of blocks. */
  lemma {:induction false} SharesTaken(c: nat, supply: Supply, used: nat, bytes: nat, max: nat, k: nat)
    requires PAGE_BITS_4K < k <= c < WORD_BITS && used <= bytes < WORD && Multiple(c, used)
    ensures TakesShare(Greedy(false, c, supply, used, bytes, max), supply, used, bytes, max, k)
    decreases c, supply[c]
  {
    hide TakesShare, Multiple, Pow2, Plus;
    if max > 0 && Plus(false, used, c) <= bytes && supply[c] > 0 {
      var less := supply[c := supply[c] - 1];
      PlusMultiple(used, c);
      SharesTaken(c, less, Plus(false, used, c), bytes, max - 1, k);
      GreedyShape(false, c, less, Plus(false, used, c), bytes, max - 1);
      var rest := Greedy(false, c, less, Plus(false, used, c), bytes, max - 1);
      if k == c {
        ShareSame(rest, c, supply, used, bytes, max);
      } else {
        ShareLarger(rest, c, supply, used, bytes, max, k);
      }
    } else if k < c {
      MultipleOfHalf(c, used);
      SharesTaken(c - 1, supply, used, bytes, max, k);
    } else {
      NothingTaken(c, supply, used, bytes, max);
    }
  }

  lemma NothingTaken(c: nat, supply: Supply, used: nat, bytes: nat, max: nat)
    requires PAGE_BITS_4K < c < WORD_BITS && used <= bytes < WORD && Multiple(c, used)
    requires max == 0 || Plus(false, used, c) > bytes || supply[c] == 0
    ensures TakesShare(Greedy(false, c - 1, supply, used, bytes, max), supply, used, bytes, max, c)
  {
    hide Plus, Multiple, Pow2, Greedy;
    if bytes + Pow2(c) >= WORD {
      NeverRefused(used, bytes, c);
    } else {
      NeverWrapped(used, bytes, c);
    }
    var g := Greedy(false, c - 1, supply, used, bytes, max);
    GreedyShape(false, c - 1, supply, used, bytes, max);
    NoneAbove(g, c - 1);
    NoneAbove(g, c);
    ModWord(used);
  }

  /** The sizes never increase, and every size above a page has its share. */
  ghost predicate Shares(g: seq<nat>, supply: Supply, bytes: nat, max: nat) {
    && (forall i, j | 0 <= i < j < |g| :: g[j] <= g[i])
    && (forall i | 0 <= i < |g| :: PAGE_BITS_4K < g[i] < WORD_BITS)
    && forall k: nat | PAGE_BITS_4K < k < WORD_BITS :: TakesShare(g, supply, 0, bytes, max, k)
  }

  lemma AllShares(supply: Supply, bytes: nat, max: nat)
    requires bytes < WORD
    ensures Shares(Greedy(false, WORD_BITS - 1, supply, 0, bytes, max), supply, bytes, max)
  {
    hide TakesShare, Greedy;
    var g := Greedy(false, WORD_BITS - 1, supply, 0, bytes, max);
    GreedyShape(false, WORD_BITS - 1, supply, 0, bytes, max);
    forall k: nat | PAGE_BITS_4K < k < WORD_BITS ensures TakesShare(g, supply, 0, bytes, max, k) {
      SharesTaken(WORD_BITS - 1, supply, 0, bytes, max, k);
    }
  }

  lemma SharesOf(supply: Supply, bytes: nat, max: nat)
    ensures var g := Greedy(false, WORD_BITS - 1, supply, 0, bytes, max);
      && (bytes < WORD ==> Shares(g, supply, bytes, max))
      && (bytes == WORD - 1 ==> |g| == Min(max, Blocks(supply, WORD_BITS - 1)))
  {
    hide Greedy, Shares, Blocks, Min;
    if bytes < WORD { AllShares(supply, bytes, max); }
    if bytes == WORD - 1 {
      ZeroMultiple(WORD_BITS - 1);
      TakesAll(WORD_BITS - 1, supply, 0, max);
    }
  }

  lemma {:induction false} AboveNext(g: seq<nat>, k: nat)
    requires k > 0 && forall i, j | 0 <= i < j < |g| :: g[j] <= g[i]
    ensures Above(g, k - 1) == Above(g, k) + seq(Times(g, k), _ => k)
  {
    if g != [] {
      if g[0] < k {
        NoneAbove(g, k - 1);
      } else {
        AboveNext(g[1..], k);
        if g[0] == k {
          NoneAbove(g[1..], k);
        }
      }
    }
  }

  lemma {:induction false} SharesAgree(g: seq<nat>, h: seq<nat>, supply: Supply, bytes: nat, max: nat, k: nat)
    requires Shares(g, supply, bytes, max) && Shares(h, supply, bytes, max) && PAGE_BITS_4K <= k < WORD_BITS
    ensures Above(g, k) == Above(h, k)
    decreases WORD_BITS - k
  {
    hide Share;
    if k == WORD_BITS - 1 {
      NoneAbove(g, k);
      NoneAbove(h, k);
    } else {
      SharesAgree(g, h, supply, bytes, max, k + 1);
      assert TakesShare(g, supply, 0, bytes, max, k + 1) && TakesShare(h, supply, 0, bytes, max, k + 1);
      AboveNext(g, k + 1);
      AboveNext(h, k + 1);
    }
  }

  lemma {:induction false} AboveAll(g: seq<nat>, k: nat)
    requires forall i | 0 <= i < |g| :: g[i] > k
    ensures Above(g, k) == g
  {
    if g != [] {
      AboveAll(g[1..], k);
    }
  }

  /** The shares leave one choice only. */
  lemma SharesDetermine(g: seq<nat>, h: seq<nat>, supply: Supply, bytes: nat, max: nat)
    requires Shares(g, supply, bytes, max) && Shares(h, supply, bytes, max)
    ensures g == h
  {
    hide TakesShare;
    SharesAgree(g, h, supply, bytes, max, PAGE_BITS_4K);
    AboveAll(g, PAGE_BITS_4K);
    AboveAll(h, PAGE_BITS_4K);
  }

  lemma {:induction false} FitExactly(space: nat, size: nat, n: nat)
    requires size > 0
    ensures Fit(space, size) < n <==> n * size > space
    decreases space
  {
    if space < size {
      AtLeast(n, size);
    } else if n > 0 {
      FitExactly(space - size, size, n - 1);
      assert n * size == (n - 1) * size + size;
    }
  }

  /** Exactly when a block of size `k` is left: the number of blocks is used up, or, for a size that cannot
      reach the end of the word, all blocks of it would exceed the budget. */
  lemma LeftExactly(supply: Supply, bytes: nat, max: nat, k: nat)
    requires bytes < WORD && PAGE_BITS_4K < k < WORD_BITS
    ensures
      var g := Greedy(false, WORD_BITS - 1, supply, 0, bytes, max);
      var above := Above(g, k);
      && |above| <= max
      && (Times(g, k) < supply[k] <==>
            supply[k] > max - |above|
            || (bytes + Pow2(k) < WORD && Total(above) % WORD + supply[k] * Pow2(k) > bytes))
  {
    hide Greedy, Pow2;
    AllShares(supply, bytes, max);
    var g := Greedy(false, WORD_BITS - 1, supply, 0, bytes, max);
    assert TakesShare(g, supply, 0, bytes, max, k);
    FitExactly(bytes - Total(Above(g, k)) % WORD, Pow2(k), supply[k]);
  }

  /** With the largest budget of 32 bits no block is refused: all are taken, from the largest down, until the
      number of blocks is reached. */
  lemma {:induction false} TakesAll(c: nat, supply: Supply, used: nat, max: nat)
    requires c < WORD_BITS && used < WORD && Multiple(c, used)
    ensures
      var g := Greedy(false, c, supply, used, WORD - 1, max);
      && |g| == Min(max, Blocks(supply, c))
      && forall k | PAGE_BITS_4K < k <= c && (|g| < max || (g != [] && k > g[|g| - 1])) :: Times(g, k) == supply[k]
    decreases c, supply[c]
  {
    hide Multiple, Pow2, Plus;
    if c > PAGE_BITS_4K {
      PlusMultiple(used, c);
      if max > 0 && supply[c] > 0 {
        AllOneMore(c, supply, used, max);
      } else if max > 0 {
        MultipleOfHalf(c, used);
        TakesAll(c - 1, supply, used, max);
        GreedyShape(false, c - 1, supply, used, WORD - 1, max);
        NoneAbove(Greedy(false, c - 1, supply, used, WORD - 1, max), c - 1);
      } else {
        GreedyShape(false, c, supply, used, WORD - 1, max);
      }
    }
  }

  lemma {:induction false} AllOneMore(c: nat, supply: Supply, used: nat, max: nat)
    requires PAGE_BITS_4K < c < WORD_BITS && used < WORD && Multiple(c, used) && max > 0 && supply[c] > 0
    ensures
      var g := Greedy(false, c, supply, used, WORD - 1, max);
      && |g| == Min(max, Blocks(supply, c))
      && forall k | PAGE_BITS_4K < k <= c && (|g| < max || (g != [] && k > g[|g| - 1])) :: Times(g, k) == supply[k]
    decreases c, supply[c], 0
  {
    hide Multiple, Pow2, Plus;
    PlusMultiple(used, c);
    var less := supply[c := supply[c] - 1];
    var u := Plus(false, used, c);
    TakesAll(c, less, u, max - 1);
    var rest := Greedy(false, c, less, u, WORD - 1, max - 1);
    BytesBelow(less, supply[c := less[c]], c);
    BlocksOneMore(supply, c);
    assert Greedy(false, c, supply, used, WORD - 1, max) == [c] + rest && ([c] + rest)[1..] == rest;
  }

  lemma BlocksOneMore(supply: Supply, c: nat)
    requires PAGE_BITS_4K < c < WORD_BITS && supply[c] > 0
    ensures Blocks(supply, c) == 1 + Blocks(supply[c := supply[c] - 1], c)
  {
    BytesBelow(supply, supply[c := supply[c] - 1], c - 1);
  }
}
