/** Follower ranges, the seed buckets and the binary split, with the size of the tree it can grow. */
module FollowerRanges {
  import opened Options

  const HARD_FLOOR: nat := 600

  /** Both ends are included; no `max` means no upper limit. */
  datatype Range = Range(min: nat, max: Option<nat>)

  datatype WidthRules = WidthRules(from600: nat, from1000: nat, from10000: nat, from100000: nat, from1000000: nat)

  const DEFAULT_RULES := WidthRules(50, 100, 1_000, 10_000, 100_000)

  const BUCKETS: seq<Range> := [
    Range(600, Some(799)), Range(800, Some(999)), Range(1_000, Some(1_499)), Range(1_500, Some(1_999)),
    Range(2_000, Some(2_999)), Range(3_000, Some(3_999)), Range(4_000, Some(4_999)), Range(5_000, Some(7_499)),
    Range(7_500, Some(9_999)), Range(10_000, Some(14_999)), Range(15_000, Some(24_999)), Range(25_000, Some(34_999)),
    Range(35_000, Some(49_999)), Range(50_000, Some(74_999)), Range(75_000, Some(99_999)), Range(100_000, Some(149_999)),
    Range(150_000, Some(249_999)), Range(250_000, Some(349_999)), Range(350_000, Some(499_999)), Range(500_000, Some(749_999)),
    Range(750_000, Some(999_999)), Range(1_000_000, Some(1_499_999)), Range(1_500_000, Some(2_499_999)),
    Range(2_500_000, Some(4_999_999)), Range(5_000_000, None)]

  predicate Contains(r: Range, n: nat) {
    r.min <= n && (r.max.Some? ==> n <= r.max.value)
  }

  predicate Within(inner: Range, outer: Range) {
    inner.min >= outer.min && (outer.max.Some? ==> inner.max.Some? && inner.max.value <= outer.max.value)
  }

  predicate ValidRules(rules: WidthRules) {
    rules.from600 >= 1 && rules.from1000 >= 1 && rules.from10000 >= 1 && rules.from100000 >= 1 && rules.from1000000 >= 1
  }

  function InclusiveWidth(r: Range): Option<nat> {
    if r.max.None? || r.min < HARD_FLOOR || r.max.value < r.min then None else Some(r.max.value - r.min + 1)
  }

  function BinaryRange(r: Range): Option<(Range, Range)> {
    var width := InclusiveWidth(r);
    if width.None? || width.value < 2 then None
    else
      var mid := (r.min + r.max.value) / 2;
      Some((Range(r.min, Some(mid)), Range(mid + 1, r.max)))
  }

  function MinimumWidth(min: nat, rules: WidthRules): nat {
    if min >= 1_000_000 then rules.from1000000
    else if min >= 100_000 then rules.from100000
    else if min >= 10_000 then rules.from10000
    else if min >= 1_000 then rules.from1000
    else rules.from600
  }

  function SplitRange(r: Range, rules: WidthRules): Option<(Range, Range)> {
    var width := InclusiveWidth(r);
    if width.None? || width.value < MinimumWidth(r.min, rules) * 2 then None else BinaryRange(r)
  }

  /** The two halves tile the range, differ in width by at most one, and neither is below the minimum. */
  lemma SplitTiles(r: Range, rules: WidthRules, n: nat)
    requires SplitRange(r, rules).Some?
    ensures var (low, high) := SplitRange(r, rules).value;
            && (Contains(r, n) <==> Contains(low, n) || Contains(high, n)) && !(Contains(low, n) && Contains(high, n))
            && Within(low, r) && Within(high, r) && low != r && high != r && low != high
            && InclusiveWidth(low).Some? && InclusiveWidth(high).Some?
            && InclusiveWidth(low).value + InclusiveWidth(high).value == InclusiveWidth(r).value
            && 0 <= InclusiveWidth(low).value - InclusiveWidth(high).value <= 1
            && InclusiveWidth(high).value >= MinimumWidth(r.min, rules)
  {
    var mid := (r.min + r.max.value) / 2;
    assert 2 * mid <= r.min + r.max.value <= 2 * mid + 1;
  }

  // ---------------------------------------------------------------- buckets

  lemma {:induction false} TilesFrom(buckets: seq<Range>, n: nat)
    requires buckets != [] && buckets[|buckets| - 1].max.None? && n >= buckets[0].min
    requires forall i | 0 <= i < |buckets| - 1 :: buckets[i].max.Some? && buckets[i].max.value + 1 == buckets[i + 1].min
    requires forall i | 0 <= i < |buckets| - 1 :: buckets[i].max.Some? && buckets[i].min <= buckets[i].max.value
    ensures exists i :: 0 <= i < |buckets| && Contains(buckets[i], n) && forall j | 0 <= j < |buckets| && Contains(buckets[j], n) :: j == i
  {
    if |buckets| == 1 {
      assert Contains(buckets[0], n);
    } else if n <= buckets[0].max.value {
      assert Contains(buckets[0], n);
      StartsIncrease(buckets);
    } else {
      TilesFrom(buckets[1..], n);
      var i :| 0 <= i < |buckets| - 1 && Contains(buckets[1..][i], n)
               && forall j | 0 <= j < |buckets| - 1 && Contains(buckets[1..][j], n) :: j == i;
      assert Contains(buckets[i + 1], n);
      forall j | 0 <= j < |buckets| && Contains(buckets[j], n) ensures j == i + 1 {
        assert j > 0 && buckets[j] == buckets[1..][j - 1];
      }
    }
  }

  lemma {:induction false} StartsIncrease(buckets: seq<Range>)
    requires buckets != []
    requires forall i | 0 <= i < |buckets| - 1 :: buckets[i].max.Some? && buckets[i].max.value + 1 == buckets[i + 1].min
    requires forall i | 0 <= i < |buckets| - 1 :: buckets[i].max.Some? && buckets[i].min <= buckets[i].max.value
    ensures forall j | 0 < j < |buckets| :: buckets[0].max.Some? && buckets[j].min > buckets[0].max.value
  {
    if |buckets| > 1 {
      StartsIncrease(buckets[1..]);
      forall j | 0 < j < |buckets| ensures buckets[j].min > buckets[0].max.value {
        if j > 1 { assert buckets[j] == buckets[1..][j - 1]; }
      }
    }
  }

  /** Every follower count the crawler accepts is in exactly one seed bucket. */
  lemma BucketsTile(n: nat)
    requires n >= HARD_FLOOR
    ensures exists i :: 0 <= i < |BUCKETS| && Contains(BUCKETS[i], n) && forall j | 0 <= j < |BUCKETS| && Contains(BUCKETS[j], n) :: j == i
  {
    TilesFrom(BUCKETS, n);
  }

  /** No bucket crosses a tier of the width rules. */
  lemma TierIsConstant(i: nat, n: nat, rules: WidthRules)
    requires i < |BUCKETS| && Contains(BUCKETS[i], n)
    ensures MinimumWidth(n, rules) == MinimumWidth(BUCKETS[i].min, rules) && BUCKETS[i].min >= HARD_FLOOR
  {
  }

  // -------------------------------------------------------------- tree size

  /** How many partitions a range of width `w` can ever become, itself included. */
  function TreeSize(w: nat, m: nat): nat
    requires m >= 1
  {
    if w < 2 * m then 1 else 1 + TreeSize(w - w / 2, m) + TreeSize(w / 2, m)
  }

  function TreeDepth(w: nat, m: nat): nat
    requires m >= 1
  {
    if w < 2 * m then 0 else 1 + TreeDepth(w - w / 2, m)
  }

  lemma {:induction false} CancelFactor(a: nat, b: nat, m: nat)
    requires m >= 1 && a * m < b * m
    ensures a < b
  {
    if a > 0 && b > 0 {
      assert (a - 1) * m == a * m - m && (b - 1) * m == b * m - m;
      CancelFactor(a - 1, b - 1, m);
    }
  }

  lemma QuotientAtLeast(n: nat, k: nat, m: nat)
    requires m >= 1 && k * m <= n
    ensures k <= n / m
  {
    var q := n / m;
    assert (q + 1) * m == q * m + m;
    CancelFactor(k, q + 1, m);
  }

  lemma QuotientsAdd(a: nat, b: nat, m: nat)
    requires m >= 1
    ensures a / m + b / m <= (a + b) / m
  {
    var (x, y) := (a / m, b / m);
    assert x * m <= a && y * m <= b;
    assert (x + y) * m == x * m + y * m;
    QuotientAtLeast(a + b, x + y, m);
  }

  lemma {:induction false} TreeSizeBound(w: nat, m: nat)
    requires m >= 1
    ensures TreeSize(w, m) <= if w < 2 * m then 1 else 2 * (w / m) - 1
    ensures w >= m ==> TreeSize(w, m) <= 2 * (w / m) - 1
  {
    if w < 2 * m {
      if w >= m { assert w / m >= 1; }
    } else {
      TreeSizeBound(w - w / 2, m);
      TreeSizeBound(w / 2, m);
      assert w / 2 >= m && w - w / 2 >= m;
      QuotientsAdd(w - w / 2, w / 2, m);
    }
  }

  /** With the default width rules no seed grows more than four levels. */
  lemma DefaultDepth(i: nat)
    requires i < |BUCKETS| && BUCKETS[i].max.Some?
    ensures TreeDepth(BUCKETS[i].max.value - BUCKETS[i].min + 1, MinimumWidth(BUCKETS[i].min, DEFAULT_RULES)) <= 4
  {
    var (w, m) := (BUCKETS[i].max.value - BUCKETS[i].min + 1, MinimumWidth(BUCKETS[i].min, DEFAULT_RULES));
    assert w <= 16 * (2 * m - 1);
    TreeDepthBound(w, m, 4, 16);
  }

  function Power2(k: nat): nat {
    if k == 0 then 1 else 2 * Power2(k - 1)
  }

  lemma {:induction false} TreeDepthBound(w: nat, m: nat, k: nat, p: nat)
    requires m >= 1 && p == Power2(k) && w <= p * (2 * m - 1)
    ensures TreeDepth(w, m) <= k
  {
    if w >= 2 * m {
      assert k > 0;
      var half := Power2(k - 1);
      assert p * (2 * m - 1) == 2 * (half * (2 * m - 1));
      TreeDepthBound(w - w / 2, m, k - 1, half);
    }
  }
}
