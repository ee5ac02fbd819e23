/**
 * `split(a, n)` of src/collect/collect.py: the list `a` cut into `n`
 * contiguous slices whose lengths differ by at most one, the longer ones
 * first.  With `k, m = divmod(len(a), n)`, slice `i` is
 * `a[i*k + min(i, m) : (i+1)*k + min(i+1, m)]`.
 */
module Partition {

  function Min(a: int, b: int): int { if a <= b then a else b }

  /** `ceil(x / d)` on naturals, the count `np.ceil(len / per_query)` of the caller. */
  function CeilDiv(x: nat, d: nat): (q: nat)
    requires d > 0
    ensures d * q >= x
    ensures x > 0 ==> d * (q - 1) < x
    ensures x == 0 ==> q == 0
  {
    (x + d - 1) / d
  }

  /** Concatenation of a list of slices, in order. */
  function Flatten<T>(parts: seq<seq<T>>): seq<T>
    decreases |parts|
  {
    if parts == [] then [] else parts[0] + Flatten(parts[1..])
  }

  /** Where slice `i` starts when a list of length `len` is cut into `n` slices. */
  function Cut(len: nat, n: nat, i: nat): nat
    requires n > 0
  {
    i * (len / n) + Min(i, len % n)
  }

  lemma CutStep(len: nat, n: nat, i: nat)
    requires n > 0
    ensures Cut(len, n, i + 1) == Cut(len, n, i) + len / n + (if i < len % n then 1 else 0)
  {
    assert (i + 1) * (len / n) == i * (len / n) + len / n;
  }

  lemma CutEnd(len: nat, n: nat)
    requires n > 0
    ensures Cut(len, n, n) == len
  {
  }

  lemma {:induction false} CutMonotone(len: nat, n: nat, i: nat, j: nat)
    requires n > 0 && i <= j
    ensures Cut(len, n, i) <= Cut(len, n, j)
    decreases j - i
  {
    if i < j {
      CutStep(len, n, i);
      CutMonotone(len, n, i + 1, j);
    }
  }

  lemma CutInRange(len: nat, n: nat, i: nat)
    requires n > 0 && i < n
    ensures Cut(len, n, i) <= Cut(len, n, i + 1) <= len
  {
    CutMonotone(len, n, i, i + 1);
    CutMonotone(len, n, i + 1, n);
    CutEnd(len, n);
  }

  function Slice<T>(a: seq<T>, n: nat, i: nat): seq<T>
    requires n > 0 && i < n
  {
    CutInRange(|a|, n, i);
    a[Cut(|a|, n, i)..Cut(|a|, n, i + 1)]
  }

  /** `list(split(a, n))`. */
  function Split<T>(a: seq<T>, n: nat): (parts: seq<seq<T>>)
    requires n > 0
    ensures |parts| == n
  {
    seq(n, i requires 0 <= i < n => Slice(a, n, i))
  }

  /**
   * Slices cut at the non-decreasing offsets `bounds`, the last of which is the
   * end of the list, rebuild the list from `bounds[j]` on.
   */
  lemma {:induction false} FlattenContiguous<T>(a: seq<T>, parts: seq<seq<T>>, bounds: seq<nat>, j: nat)
    requires |bounds| == |parts| + 1 && j <= |parts|
    requires bounds[|parts|] == |a|
    requires forall i, k | 0 <= i <= k <= |parts| :: bounds[i] <= bounds[k]
    requires forall i | 0 <= i < |parts| :: parts[i] == a[bounds[i]..bounds[i + 1]]
    ensures Flatten(parts[j..]) == a[bounds[j]..]
    decreases |parts| - j
  {
    if j < |parts| {
      FlattenContiguous(a, parts, bounds, j + 1);
      assert parts[j..][1..] == parts[j + 1..];
      assert a[bounds[j]..bounds[j + 1]] + a[bounds[j + 1]..] == a[bounds[j]..];
    }
  }

  /** The slices, concatenated in order, are exactly the input. */
  lemma SplitConcat<T>(a: seq<T>, n: nat)
    requires n > 0
    ensures Flatten(Split(a, n)) == a
  {
    var parts := Split(a, n);
    var bounds := seq(n + 1, i requires 0 <= i <= n => Cut(|a|, n, i));
    forall i, k | 0 <= i <= k <= n
      ensures bounds[i] <= bounds[k]
    {
      CutMonotone(|a|, n, i, k);
    }
    CutEnd(|a|, n);
    FlattenContiguous(a, parts, bounds, 0);
    assert parts[0..] == parts;
  }

  /** The first `len(a) % n` slices have `len(a) / n + 1` elements, the others `len(a) / n`. */
  lemma SplitSizes<T>(a: seq<T>, n: nat, i: nat)
    requires n > 0 && i < n
    ensures |Split(a, n)[i]| == |a| / n + (if i < |a| % n then 1 else 0)
  {
    CutInRange(|a|, n, i);
    CutStep(|a|, n, i);
  }

  /** Slice sizes never grow along the list and differ by at most one. */
  lemma SplitBalanced<T>(a: seq<T>, n: nat, i: nat, j: nat)
    requires n > 0 && i <= j < n
    ensures |Split(a, n)[j]| <= |Split(a, n)[i]| <= |Split(a, n)[j]| + 1
  {
    SplitSizes(a, n, i);
    SplitSizes(a, n, j);
  }

  /** x = n*k + m with m < n and n*cap >= x give k + (1 if m > 0) <= cap. */
  lemma QuotientBound(x: nat, n: nat, cap: nat)
    requires n > 0 && cap * n >= x
    ensures x / n + (if x % n > 0 then 1 else 0) <= cap
  {
    var k, m := x / n, x % n;
    assert x == n * k + m;
    assert n * cap == cap * n;
  }

  /** Cutting `x > 0` items into `ceil(x / cap)` slices never asks for more slices than items. */
  lemma CeilDivAtMost(x: nat, cap: nat)
    requires cap > 0 && x > 0
    ensures CeilDiv(x, cap) <= x
  {
    var q := CeilDiv(x, cap);
    BelowFromProduct(cap, q - 1, x);
  }

  lemma BelowFromProduct(c: nat, y: int, x: nat)
    requires c > 0 && c * y < x
    ensures y < x
  {
    if y >= 0 {
      assert c * y == y + (c - 1) * y;
    }
  }

  /** Cut into `ceil(len(a) / cap)` slices, as the planner does, no slice is empty or exceeds `cap`. */
  lemma SplitWithinCapacity<T>(a: seq<T>, cap: nat, i: nat)
    requires cap > 0 && |a| > 0
    requires i < CeilDiv(|a|, cap)
    ensures 0 < |Split(a, CeilDiv(|a|, cap))[i]| <= cap
  {
    var n := CeilDiv(|a|, cap);
    SplitSizes(a, n, i);
    QuotientBound(|a|, n, cap);
    CeilDivAtMost(|a|, cap);
    QuotientPositive(|a|, n);
  }

  /** At least as many items as slices puts at least one item in every slice. */
  lemma QuotientPositive(x: nat, n: nat)
    requires 0 < n <= x
    ensures x / n >= 1
  {
    var k, m := x / n, x % n;
    assert x == n * k + m && m < n;
    assert n * k > 0;
  }

  lemma DivExact(c: nat, cap: nat)
    requires cap > 0
    ensures CeilDiv(cap * c, cap) == c
  {
    var q := CeilDiv(cap * c, cap);
    assert cap * q >= cap * c;
    if c > 0 {
      assert cap * (q - 1) < cap * c;
    } else {
      assert (cap - 1) / cap == 0;
    }
  }

  lemma MulDiv(c: nat, cap: nat)
    requires c > 0
    ensures (cap * c) / c == cap && (cap * c) % c == 0
  {
    var q, r := (cap * c) / c, (cap * c) % c;
    assert c * (cap - q) == r;
    ProductBelowDivisor(c, cap - q, r);
  }

  /** `c * d == r` with `0 <= r < c` forces `d == 0`. */
  lemma ProductBelowDivisor(c: nat, d: int, r: int)
    requires c > 0 && 0 <= r < c && c * d == r
    ensures d == 0
  {
  }

  /** When `len(a)` is a multiple `cap * c` of the capacity, the `c` slices are all exactly `cap` long. */
  lemma SplitExactMultiple<T>(a: seq<T>, cap: nat, c: nat, i: nat)
    requires cap > 0 && |a| == cap * c
    requires i < c
    ensures CeilDiv(|a|, cap) == c
    ensures |Split(a, c)[i]| == cap
  {
    DivExact(c, cap);
    SplitSizes(a, c, i);
    MulDiv(c, cap);
  }
}
