/**
 * What every reachable partition table satisfies, and what one pass of
 * `expandReadyBranches` leaves to do: nothing.
 */
module PartitionRuns {
  import opened Options
  import opened FiniteSets
  import opened FollowerRanges
  import opened PartitionTree

  lemma InitialIsTree(table: Table, cfg: Config)
    requires Initial(table)
    ensures TreeOk(table, cfg) && Together(table)
  {
    forall k | k in table ensures RowOk(table, k, cfg) && HasSeeds(table, k.branch) {
      forall i: nat | i < |BUCKETS| ensures Key(k.branch, BUCKETS[i]) in table && table[Key(k.branch, BUCKETS[i])].parent.None? {
        assert Key(k.branch, BUCKETS[i]) in table;
      }
    }
  }

  // ------------------------------------------------------ decided together

  /** Only the rows in `ds` get a verdict, and new rows come under a partition not split before. */
  ghost predicate DecidesOnly(table: Table, next: Table, ds: set<Key>) {
    && (forall x | x in table :: x in next && next[x].parent == table[x].parent
                                 && (Decided(next[x]) <==> Decided(table[x]) || x in ds))
    && (forall x | x in next && x !in table :: !Decided(next[x]) && next[x].parent.Some?
          && var p := Key(x.branch, next[x].parent.value); p in ds && p in table && !table[p].explored)
  }

  lemma DecidingKeepsTogether(table: Table, next: Table, cfg: Config, ds: set<Key>)
    requires TreeOk(table, cfg) && Together(table) && DecidesOnly(table, next, ds)
    requires forall a, b | a in ds && b in table && a in table && a.branch == b.branch
                           && table[a].parent.Some? && table[b].parent == table[a].parent :: b in ds
    ensures Together(next)
  {
    forall a, b | a in next && b in next && a.branch == b.branch
                  && next[a].parent.Some? && next[a].parent == next[b].parent
      ensures Decided(next[a]) <==> Decided(next[b])
    {
      if a in table { assert RowOk(table, a, cfg); }
      if b in table { assert RowOk(table, b, cfg); }
    }
  }

  lemma DecideDecides(table: Table, k: Key, cfg: Config)
    requires TreeOk(table, cfg) && k in table
    ensures DecidesOnly(table, Decide(table, k, cfg), {k})
    ensures var next := Decide(table, k, cfg);
            (forall x | x in table && x != k :: next[x] == table[x]) && (forall x | x in next && x !in table :: !Finished(next[x]))
            && next[k].status == table[k].status && next[k].parent == table[k].parent
  {
    if AdaptiveExpansion(k, table[k], cfg).Follower? { ChildrenSplit(table, k, cfg); }
  }

  lemma SeedKeepsTogether(table: Table, k: Key, cfg: Config)
    requires TreeOk(table, cfg) && Together(table)
    ensures Together(ExpandSeed(table, k, cfg))
  {
    if SeedReady(table, k) {
      DecideDecides(table, k, cfg);
      DecidingKeepsTogether(table, ExpandSeed(table, k, cfg), cfg, {k});
    }
  }

  lemma DecidesInTurn(table: Table, mid: Table, next: Table, ds: set<Key>, es: set<Key>)
    requires DecidesOnly(table, mid, ds) && DecidesOnly(mid, next, es) && es <= table.Keys
    requires forall x | x in table && !mid[x].explored :: !table[x].explored
    ensures DecidesOnly(table, next, ds + es)
  {
  }

  /** The pair of a ready parent: two distinct rows under it, and it is explored. */
  lemma PairFacts(table: Table, p: Key, cfg: Config)
    requires TreeOk(table, cfg) && PairReady(table, p, cfg)
    ensures var (a, b) := PairOf(table, p, cfg).value;
            a != b && a != p && b != p && a in table && b in table && table[p].explored
            && table[a].parent == Some(p.range) && table[b].parent == Some(p.range) && a.branch == p.branch && b.branch == p.branch
  {
    var (a, b) := PairOf(table, p, cfg).value;
    assert a in ChildrenOf(table, p) && b in ChildrenOf(table, p) && RowOk(table, a, cfg);
    SplitTiles(p.range, cfg.rules, 0);
  }

  lemma SplitPairDecides(marked: Table, a: Key, b: Key, cfg: Config)
    requires TreeOk(marked, cfg) && a in marked && b in marked && a != b
    ensures var next := Decide(Decide(marked, a, cfg), b, cfg);
            && DecidesOnly(marked, next, {a, b}) && (forall x | x in next && x !in marked :: !Finished(next[x]))
            && (forall x | x in marked :: next[x].status == marked[x].status)
  {
    var first := Decide(marked, a, cfg);
    DecideDecides(marked, a, cfg);
    DecideKeepsTree(marked, a, cfg);
    DecideDecides(first, b, cfg);
    assert {a, b} == {a} + {b};
    DecidesInTurn(marked, first, Decide(first, b, cfg), {a}, {b});
  }

  lemma LowPairDecides(table: Table, p: Key, cfg: Config)
    requires TreeOk(table, cfg) && PairReady(table, p, cfg)
    requires var (a, b) := PairOf(table, p, cfg).value; LowValue(table[a].evidence, table[b].evidence, cfg.lowYield)
    ensures var (a, b) := PairOf(table, p, cfg).value;
            var next := ExpandPair(table, p, cfg);
            && DecidesOnly(table, next, {a, b}) && next.Keys == table.Keys && (forall x | x in table :: next[x].status == table[x].status)
  {
    PairFacts(table, p, cfg);
  }

  /** A ready pair is decided as a whole; the table changes nowhere else but below it. */
  lemma PairDecides(table: Table, p: Key, cfg: Config)
    requires TreeOk(table, cfg) && PairReady(table, p, cfg)
    ensures var (a, b) := PairOf(table, p, cfg).value;
            var next := ExpandPair(table, p, cfg);
            && DecidesOnly(table, next, {a, b}) && (forall x | x in next && x !in table :: !Finished(next[x]))
            && (forall x | x in table :: next[x].status == table[x].status)
  {
    var (a, b) := PairOf(table, p, cfg).value;
    var low := LowValue(table[a].evidence, table[b].evidence, cfg.lowYield);
    var marked := table[p := table[p].(terminal := low)];
    if low {
      LowPairDecides(table, p, cfg);
    } else {
      PairFacts(table, p, cfg);
      MarkKeepsTree(table, p, low, cfg);
      SplitPairDecides(marked, a, b, cfg);
    }
  }

  lemma PairKeepsTogether(table: Table, p: Key, cfg: Config)
    requires TreeOk(table, cfg) && Together(table)
    ensures Together(ExpandPair(table, p, cfg))
  {
    if PairReady(table, p, cfg) {
      var (a, b) := PairOf(table, p, cfg).value;
      PairDecides(table, p, cfg);
      assert forall x | x in table && x.branch == p.branch && table[x].parent == Some(p.range) :: x in ChildrenOf(table, p);
      assert a in ChildrenOf(table, p) && b in ChildrenOf(table, p);
      DecidingKeepsTogether(table, ExpandPair(table, p, cfg), cfg, {a, b});
    }
  }

  lemma StepKeepsTogether(table: Table, step: Step, cfg: Config)
    requires TreeOk(table, cfg) && Together(table)
    ensures Together(Apply(table, step, cfg))
  {
    match step
    case StartRequest(k) => DecidingKeepsTogether(table, MarkRunning(table, k), cfg, {});
    case FinishPartition(k, e, deep) => DecidingKeepsTogether(table, Finish(table, k, e, deep), cfg, {});
    case ExpandSeedStep(k) => SeedKeepsTogether(table, k, cfg);
    case ExpandPairStep(p) => PairKeepsTogether(table, p, cfg);
  }

  lemma {:induction false} RunKeepsTree(table: Table, steps: seq<Step>, cfg: Config)
    requires TreeOk(table, cfg) && Together(table)
    ensures TreeOk(Run(table, steps, cfg), cfg) && Together(Run(table, steps, cfg))
    decreases |steps|
  {
    if steps != [] {
      StepKeepsTree(table, steps[0], cfg);
      StepKeepsTogether(table, steps[0], cfg);
      RunKeepsTree(Apply(table, steps[0], cfg), steps[1..], cfg);
    }
  }

  // ---------------------------------------------------------------- one pass

  function ExpandSeeds(table: Table, seeds: seq<Key>, cfg: Config): Table
    decreases |seeds|
  {
    if seeds == [] then table else ExpandSeeds(ExpandSeed(table, seeds[0], cfg), seeds[1..], cfg)
  }

  function ExpandPairs(table: Table, parents: seq<Key>, cfg: Config): Table
    decreases |parents|
  {
    if parents == [] then table else ExpandPairs(ExpandPair(table, parents[0], cfg), parents[1..], cfg)
  }

  lemma SeedStepReadiness(table: Table, k: Key, x: Key, cfg: Config)
    requires TreeOk(table, cfg) && SeedReady(ExpandSeed(table, k, cfg), x)
    ensures SeedReady(table, x) && x != k
  {
    if SeedReady(table, k) { DecideDecides(table, k, cfg); }
  }

  lemma PairStepReadiness(table: Table, p: Key, x: Key, cfg: Config)
    requires TreeOk(table, cfg) && PairReady(ExpandPair(table, p, cfg), x, cfg)
    ensures PairReady(table, x, cfg) && x != p
  {
    if PairReady(table, p, cfg) {
      var next := ExpandPair(table, p, cfg);
      PairDecides(table, p, cfg);
      var (a, b) := PairOf(next, x, cfg).value;
      assert a in ChildrenOf(next, x) && b in ChildrenOf(next, x);
      assert a in table && b in table;
      assert RowOk(table, a, cfg);
      assert ChildrenOf(table, x) == {a, b} by {
        forall y | y in ChildrenOf(table, x) ensures y in ChildrenOf(next, x) {
        }
      }
    }
  }

  lemma PairStepSeedReadiness(table: Table, p: Key, x: Key, cfg: Config)
    requires TreeOk(table, cfg) && SeedReady(ExpandPair(table, p, cfg), x)
    ensures SeedReady(table, x)
  {
    if PairReady(table, p, cfg) {
      PairDecides(table, p, cfg);
      var (a, b) := PairOf(table, p, cfg).value;
      assert a in ChildrenOf(table, p) && b in ChildrenOf(table, p);
    }
  }

  lemma {:induction false} SeedPassFinishes(table: Table, seeds: seq<Key>, cfg: Config)
    requires TreeOk(table, cfg) && forall k | SeedReady(table, k) :: k in seeds
    ensures TreeOk(ExpandSeeds(table, seeds, cfg), cfg) && forall k :: !SeedReady(ExpandSeeds(table, seeds, cfg), k)
    decreases |seeds|
  {
    if seeds != [] {
      var next := ExpandSeed(table, seeds[0], cfg);
      StepKeepsTree(table, ExpandSeedStep(seeds[0]), cfg);
      forall k | SeedReady(next, k) ensures k in seeds[1..] {
        SeedStepReadiness(table, seeds[0], k, cfg);
      }
      SeedPassFinishes(next, seeds[1..], cfg);
    }
  }

  lemma {:induction false} PairPassFinishes(table: Table, parents: seq<Key>, cfg: Config)
    requires TreeOk(table, cfg) && (forall k :: !SeedReady(table, k)) && forall p | PairReady(table, p, cfg) :: p in parents
    ensures var next := ExpandPairs(table, parents, cfg);
            TreeOk(next, cfg) && (forall k :: !SeedReady(next, k)) && (forall p :: !PairReady(next, p, cfg))
    decreases |parents|
  {
    if parents != [] {
      var next := ExpandPair(table, parents[0], cfg);
      PairKeepsTree(table, parents[0], cfg);
      forall p | PairReady(next, p, cfg) ensures p in parents[1..] {
        PairStepReadiness(table, parents[0], p, cfg);
      }
      forall k ensures !SeedReady(next, k) {
        if SeedReady(next, k) { PairStepSeedReadiness(table, parents[0], k, cfg); }
      }
      PairPassFinishes(next, parents[1..], cfg);
    }
  }

  lemma {:induction false} NothingReadyNothingDone(table: Table, seeds: seq<Key>, parents: seq<Key>, cfg: Config)
    requires (forall k :: !SeedReady(table, k)) && (forall p :: !PairReady(table, p, cfg))
    ensures ExpandSeeds(table, seeds, cfg) == table && ExpandPairs(table, parents, cfg) == table
    decreases |seeds| + |parents|
  {
    if seeds != [] { NothingReadyNothingDone(table, seeds[1..], [], cfg); }
    if parents != [] { NothingReadyNothingDone(table, [], parents[1..], cfg); }
  }

  /** One pass over all ready seeds, then all ready pairs, in any order; a second pass changes nothing. */
  lemma ExpandingTwiceIsOnce(table: Table, seeds: seq<Key>, parents: seq<Key>, again: seq<Key>, more: seq<Key>, cfg: Config)
    requires TreeOk(table, cfg) && forall k | SeedReady(table, k) :: k in seeds
    requires forall p | PairReady(ExpandSeeds(table, seeds, cfg), p, cfg) :: p in parents
    ensures var once := ExpandPairs(ExpandSeeds(table, seeds, cfg), parents, cfg);
            ExpandPairs(ExpandSeeds(once, again, cfg), more, cfg) == once
  {
    SeedPassFinishes(table, seeds, cfg);
    PairPassFinishes(ExpandSeeds(table, seeds, cfg), parents, cfg);
    NothingReadyNothingDone(ExpandPairs(ExpandSeeds(table, seeds, cfg), parents, cfg), again, more, cfg);
  }

  // --------------------------------------------------------------- positions

  lemma SeedPositionsDiffer(b: Branch, i: nat, c: Branch, j: nat)
    requires i < |BUCKETS| && j < |BUCKETS| && SeedPosition(b, i) == SeedPosition(c, j)
    ensures b == c && i == j
  {
    var (x, y) := (b.child * |BUCKETS| + i, c.child * |BUCKETS| + j);
    assert x * 4 + GmvIndex(b.gmv) == y * 4 + GmvIndex(c.gmv);
    assert x == y && GmvIndex(b.gmv) == GmvIndex(c.gmv);
  }

  lemma SeedPositionIsRound(b: Branch, i: nat)
    requires i < |BUCKETS|
    ensures SeedPosition(b, i) % 100 == 0
  {
    var n := (b.child * |BUCKETS| + i) * 4 + GmvIndex(b.gmv) + 1;
    assert SeedPosition(b, i) == 100 * (n * 10_000);
  }

  /** The last two digits tell seeds, lower and upper halves apart. */
  lemma LastDigits(table: Table, k: Key, cfg: Config)
    requires TreeOk(table, cfg) && k in table
    ensures table[k].parent.None? <==> table[k].position % 100 == 0
    ensures table[k].parent.Some? ==>
              var p := Key(k.branch, table[k].parent.value);
              p in table && table[k].position / 100 == table[p].position && table[k].position % 100 in {1, 2}
              && SplitRange(p.range, cfg.rules).Some?
              && k.range == (if table[k].position % 100 == 1 then SplitRange(p.range, cfg.rules).value.0
                             else SplitRange(p.range, cfg.rules).value.1)
  {
    assert RowOk(table, k, cfg);
    if table[k].parent.None? {
      var i :| IsSeed(k, i) && table[k].position == SeedPosition(k.branch, i);
      SeedPositionIsRound(k.branch, i);
    }
  }

  /** Queue positions never collide, however deep the splits go. */
  lemma {:induction false} PositionsDiffer(table: Table, a: Key, b: Key, cfg: Config)
    requires TreeOk(table, cfg) && a in table && b in table && table[a].position == table[b].position
    ensures a == b
    decreases table[a].depth
  {
    assert RowOk(table, a, cfg) && RowOk(table, b, cfg);
    LastDigits(table, a, cfg);
    LastDigits(table, b, cfg);
    if table[a].parent.None? {
      var i :| IsSeed(a, i) && table[a].position == SeedPosition(a.branch, i);
      var j :| IsSeed(b, j) && table[b].position == SeedPosition(b.branch, j);
      SeedPositionsDiffer(a.branch, i, b.branch, j);
    } else {
      PositionsDiffer(table, Key(a.branch, table[a].parent.value), Key(b.branch, table[b].parent.value), cfg);
    }
  }

  // -------------------------------------------------------------------- size

  /** The partitions a partition grew into, itself included. */
  ghost function Cover(table: Table, k: Key, cfg: Config): set<Key>
    requires TreeOk(table, cfg) && k in table
    decreases if table[k].explored && InclusiveWidth(k.range).Some? then InclusiveWidth(k.range).value else 0
  {
    assert RowOk(table, k, cfg);
    if !table[k].explored then {k}
    else
      var (low, high) := SplitRange(k.range, cfg.rules).value;
      SplitTiles(k.range, cfg.rules, 0);
      {k} + Cover(table, Key(k.branch, low), cfg) + Cover(table, Key(k.branch, high), cfg)
  }

  lemma {:induction false} CoverIsDownClosed(table: Table, s: Key, k: Key, cfg: Config)
    requires TreeOk(table, cfg) && s in table && k in table && table[k].parent.Some?
    requires Key(k.branch, table[k].parent.value) in Cover(table, s, cfg)
    ensures k in Cover(table, s, cfg)
    decreases if table[s].explored && InclusiveWidth(s.range).Some? then InclusiveWidth(s.range).value else 0
  {
    assert RowOk(table, s, cfg) && RowOk(table, k, cfg);
    var p := Key(k.branch, table[k].parent.value);
    if table[s].explored {
      var (low, high) := SplitRange(s.range, cfg.rules).value;
      SplitTiles(s.range, cfg.rules, 0);
      var (a, b) := (Key(s.branch, low), Key(s.branch, high));
      if p == s {
        InOwnCover(table, a, cfg);
        InOwnCover(table, b, cfg);
      } else if p in Cover(table, a, cfg) {
        CoverIsDownClosed(table, a, k, cfg);
      } else {
        CoverIsDownClosed(table, b, k, cfg);
      }
    }
  }

  lemma InOwnCover(table: Table, k: Key, cfg: Config)
    requires TreeOk(table, cfg) && k in table
    ensures k in Cover(table, k, cfg)
  {
  }

  lemma {:induction false} CoverHasAll(table: Table, b: Branch, i: nat, k: Key, n: nat, cfg: Config)
    requires TreeOk(table, cfg) && i < |BUCKETS| && Key(b, BUCKETS[i]) in table && k in table && k.branch == b
    requires Contains(BUCKETS[i], n) && Contains(k.range, n)
    ensures k in Cover(table, Key(b, BUCKETS[i]), cfg)
    decreases table[k].depth
  {
    assert RowOk(table, k, cfg);
    if table[k].parent.None? {
      var j :| IsSeed(k, j);
      assert n >= HARD_FLOOR by { TierIsConstant(i, n, cfg.rules); }
      BucketsTile(n);
      InOwnCover(table, k, cfg);
    } else {
      var p := Key(b, table[k].parent.value);
      SplitTiles(p.range, cfg.rules, n);
      CoverHasAll(table, b, i, p, n, cfg);
      CoverIsDownClosed(table, Key(b, BUCKETS[i]), k, cfg);
    }
  }

  lemma CoverUnfolds(table: Table, k: Key, a: Key, b: Key, cfg: Config)
    requires TreeOk(table, cfg) && k in table && table[k].explored && a in table && b in table && a.branch == k.branch == b.branch
    requires SplitRange(k.range, cfg.rules) == Some((a.range, b.range))
    ensures |Cover(table, k, cfg)| <= 1 + |Cover(table, a, cfg)| + |Cover(table, b, cfg)|
  {
    UnionSize({k}, Cover(table, a, cfg));
    UnionSize({k} + Cover(table, a, cfg), Cover(table, b, cfg));
  }

  /** The two halves of a range stay within its bucket and have half its width each. */
  lemma HalfWidths(r: Range, low: Range, high: Range, i: nat, rules: WidthRules)
    requires SplitRange(r, rules) == Some((low, high)) && i < |BUCKETS| && Within(r, BUCKETS[i])
    ensures Within(low, BUCKETS[i]) && Within(high, BUCKETS[i]) && InclusiveWidth(r).Some?
    ensures var w := InclusiveWidth(r).value;
            w >= 2 * MinimumWidth(BUCKETS[i].min, rules)
            && InclusiveWidth(low) == Some(w - w / 2) && InclusiveWidth(high) == Some(w / 2)
  {
    SplitTiles(r, rules, 0);
    TierIsConstant(i, r.min, rules);
  }

  lemma LeafCover(table: Table, k: Key, w: nat, m: nat, cfg: Config)
    requires TreeOk(table, cfg) && k in table && !table[k].explored && m >= 1
    ensures |Cover(table, k, cfg)| <= TreeSize(w, m)
  {
    assert Cover(table, k, cfg) == {k};
  }

  lemma {:induction false} CoverSize(table: Table, k: Key, i: nat, m: nat, cfg: Config)
    requires TreeOk(table, cfg) && k in table && i < |BUCKETS| && m == MinimumWidth(BUCKETS[i].min, cfg.rules) >= 1
    requires Within(k.range, BUCKETS[i]) && InclusiveWidth(k.range).Some?
    ensures |Cover(table, k, cfg)| <= TreeSize(InclusiveWidth(k.range).value, m)
    decreases InclusiveWidth(k.range).value
  {
    var w := InclusiveWidth(k.range).value;
    if table[k].explored {
      assert RowOk(table, k, cfg);
      var (low, high) := SplitRange(k.range, cfg.rules).value;
      var (a, b) := (Key(k.branch, low), Key(k.branch, high));
      HalfWidths(k.range, low, high, i, cfg.rules);
      CoverUnfolds(table, k, a, b, cfg);
      CoverSize(table, a, i, m, cfg);
      CoverSize(table, b, i, m, cfg);
      SizesAdd(|Cover(table, k, cfg)|, |Cover(table, a, cfg)|, |Cover(table, b, cfg)|, w, m);
    } else {
      LeafCover(table, k, w, m, cfg);
    }
  }

  lemma SizesAdd(n: nat, low: nat, high: nat, w: nat, m: nat)
    requires m >= 1 && w >= 2 * m && n <= 1 + low + high && low <= TreeSize(w - w / 2, m) && high <= TreeSize(w / 2, m)
    ensures n <= TreeSize(w, m)
  {
  }

  lemma StartsInside(table: Table, k: Key, cfg: Config)
    requires TreeOk(table, cfg) && k in table
    ensures Contains(k.range, k.range.min)
  {
    assert RowOk(table, k, cfg);
    if table[k].parent.None? {
      var i :| IsSeed(k, i);
    } else {
      SplitTiles(Range(table[k].parent.value.min, table[k].parent.value.max), cfg.rules, 0);
    }
  }

  ghost function GrownFrom(table: Table, b: Branch, i: nat): set<Key>
    requires i < |BUCKETS|
  {
    set k | k in table && k.branch == b && Within(k.range, BUCKETS[i])
  }

  // ------------------------------------------------------------------- depth

  lemma {:induction false} DepthGrows(v: nat, w: nat, m: nat)
    requires m >= 1 && v <= w
    ensures TreeDepth(v, m) <= TreeDepth(w, m)
    decreases w
  {
    if v >= 2 * m { DepthGrows(v - v / 2, w - w / 2, m); }
  }

  /** A partition grown from bucket `i` is as deep as the halvings its width leaves room for, or less. */
  ghost predicate FitsBucket(r: Range, depth: nat, i: nat, rules: WidthRules)
    requires ValidRules(rules)
  {
    && i < |BUCKETS| && Within(r, BUCKETS[i])
    && (BUCKETS[i].max.None? ==> depth == 0 && r == BUCKETS[i])
    && (BUCKETS[i].max.Some? ==>
          InclusiveWidth(r).Some?
          && depth + TreeDepth(InclusiveWidth(r).value, MinimumWidth(BUCKETS[i].min, rules))
             <= TreeDepth(BUCKETS[i].max.value - BUCKETS[i].min + 1, MinimumWidth(BUCKETS[i].min, rules)))
  }

  lemma DeeperFits(r: Range, half: Range, depth: nat, i: nat, rules: WidthRules)
    requires ValidRules(rules) && FitsBucket(r, depth, i, rules) && BUCKETS[i].max.Some? && Within(half, r) && InclusiveWidth(half).Some?
    requires var (w, m) := (InclusiveWidth(r).value, MinimumWidth(BUCKETS[i].min, rules));
             w >= 2 * m && InclusiveWidth(half).value <= w - w / 2
    ensures FitsBucket(half, depth + 1, i, rules)
  {
    var b := BUCKETS[i];
    WithinChains(half, r, b);
    var (w, m) := (InclusiveWidth(r).value, MinimumWidth(b.min, rules));
    OneDeeper(InclusiveWidth(half).value, w, m, depth, TreeDepth(b.max.value - b.min + 1, m));
  }

  lemma WithinChains(a: Range, b: Range, c: Range)
    requires Within(a, b) && Within(b, c)
    ensures Within(a, c)
  {
  }

  lemma OneDeeper(v: nat, w: nat, m: nat, depth: nat, most: nat)
    requires m >= 1 && w >= 2 * m && v <= w - w / 2 && depth + TreeDepth(w, m) <= most
    ensures depth + 1 + TreeDepth(v, m) <= most
  {
    DepthGrows(v, w - w / 2, m);
  }

  lemma HalfFits(r: Range, low: Range, high: Range, depth: nat, i: nat, rules: WidthRules)
    requires ValidRules(rules) && FitsBucket(r, depth, i, rules) && SplitRange(r, rules) == Some((low, high))
    ensures FitsBucket(low, depth + 1, i, rules) && FitsBucket(high, depth + 1, i, rules)
  {
    HalfWidths(r, low, high, i, rules);
    DeeperFits(r, low, depth, i, rules);
    DeeperFits(r, high, depth, i, rules);
  }

  lemma SeedFits(i: nat, rules: WidthRules)
    requires i < |BUCKETS| && ValidRules(rules)
    ensures FitsBucket(BUCKETS[i], 0, i, rules)
  {
  }

  lemma {:induction false} RowFits(table: Table, k: Key, cfg: Config) returns (i: nat)
    requires TreeOk(table, cfg) && ValidConfig(cfg) && k in table
    ensures FitsBucket(k.range, table[k].depth, i, cfg.rules)
    decreases table[k].depth
  {
    assert RowOk(table, k, cfg);
    if table[k].parent.None? {
      i :| IsSeed(k, i);
      SeedFits(i, cfg.rules);
    } else {
      var p := Key(k.branch, table[k].parent.value);
      i := RowFits(table, p, cfg);
      var (low, high) := SplitRange(p.range, cfg.rules).value;
      HalfFits(p.range, low, high, table[p].depth, i, cfg.rules);
    }
  }

  // ----------------------------------------------------------------- results

  /** In every reachable table: with the default width rules no partition is more than four splits below its seed. */
  lemma DepthAtMostFour(start: Table, steps: seq<Step>, cfg: Config, k: Key)
    requires Initial(start) && ValidConfig(cfg) && cfg.rules == DEFAULT_RULES && k in Run(start, steps, cfg)
    ensures Run(start, steps, cfg)[k].depth <= 4
  {
    InitialIsTree(start, cfg);
    RunKeepsTree(start, steps, cfg);
    var i := RowFits(Run(start, steps, cfg), k, cfg);
    if BUCKETS[i].max.Some? { DefaultDepth(i); }
  }

  /** All reachable tables: every follower count from the floor up is in exactly one unsplit partition of each branch. */
  lemma LeavesAlwaysTile(start: Table, steps: seq<Step>, cfg: Config, some: Key, n: nat)
    requires Initial(start) && some in Run(start, steps, cfg) && n >= HARD_FLOOR
    ensures var table := Run(start, steps, cfg);
            exists leaf :: IsLeafFor(table, some.branch, n, leaf)
                           && forall other | IsLeafFor(table, some.branch, n, other) :: other == leaf
  {
    InitialIsTree(start, cfg);
    RunKeepsTree(start, steps, cfg);
    LeavesTile(Run(start, steps, cfg), cfg, some, n);
  }

  /**
   * All reachable tables: partitions of a branch that share a follower count are nested,
   * siblings have been decided together or not at all, and no two have the same place in the queue.
   */
  lemma PartitionsFormATree(start: Table, steps: seq<Step>, cfg: Config, a: Key, b: Key, n: nat)
    requires Initial(start)
    requires var table := Run(start, steps, cfg); a in table && b in table
    ensures var table := Run(start, steps, cfg);
            && (a.branch == b.branch && Contains(a.range, n) && Contains(b.range, n) ==>
                  Within(a.range, b.range) || Within(b.range, a.range))
            && (a.branch == b.branch && table[a].parent.Some? && table[a].parent == table[b].parent ==>
                  (Decided(table[a]) <==> Decided(table[b])))
            && (table[a].position == table[b].position ==> a == b)
  {
    InitialIsTree(start, cfg);
    RunKeepsTree(start, steps, cfg);
    var table := Run(start, steps, cfg);
    if a.branch == b.branch && Contains(a.range, n) && Contains(b.range, n) {
      if table[a].depth <= table[b].depth { Laminar(table, cfg, a, b, n); } else { Laminar(table, cfg, b, a, n); }
    }
    if table[a].position == table[b].position { PositionsDiffer(table, a, b, cfg); }
  }

  function GrowthLimit(r: Range, rules: WidthRules): nat
    requires ValidRules(rules)
  {
    if r.max.None? || r.max.value < r.min then 1
    else
      var (w, m) := (r.max.value - r.min + 1, MinimumWidth(r.min, rules));
      if w < 2 * m then 1 else 2 * (w / m) - 1
  }

  lemma GrownIsCovered(table: Table, b: Branch, i: nat, cfg: Config)
    requires TreeOk(table, cfg) && i < |BUCKETS| && Key(b, BUCKETS[i]) in table
    ensures |GrownFrom(table, b, i)| <= |Cover(table, Key(b, BUCKETS[i]), cfg)|
  {
    var s := Key(b, BUCKETS[i]);
    forall k | k in GrownFrom(table, b, i) ensures k in Cover(table, s, cfg) {
      StartsInside(table, k, cfg);
      CoverHasAll(table, b, i, k, k.range.min, cfg);
    }
    SubsetSize(GrownFrom(table, b, i), Cover(table, s, cfg));
  }

  lemma CoverIsBounded(table: Table, b: Branch, i: nat, cfg: Config)
    requires TreeOk(table, cfg) && ValidConfig(cfg) && i < |BUCKETS| && Key(b, BUCKETS[i]) in table
    ensures |Cover(table, Key(b, BUCKETS[i]), cfg)| <= GrowthLimit(BUCKETS[i], cfg.rules)
  {
    assert RowOk(table, Key(b, BUCKETS[i]), cfg);
    if BUCKETS[i].max.Some? {
      var (w, m) := (BUCKETS[i].max.value - BUCKETS[i].min + 1, MinimumWidth(BUCKETS[i].min, cfg.rules));
      TierIsConstant(i, BUCKETS[i].min, cfg.rules);
      CoverSize(table, Key(b, BUCKETS[i]), i, m, cfg);
      TreeSizeBound(w, m);
    }
  }

  /** A seed of width W in a tier of minimum width m never becomes more than max(1, 2 * floor(W / m) - 1) partitions. */
  lemma SeedGrowsAtMost(start: Table, steps: seq<Step>, cfg: Config, b: Branch, i: nat)
    requires Initial(start) && ValidConfig(cfg) && i < |BUCKETS| && Key(b, BUCKETS[i]) in start
    ensures |GrownFrom(Run(start, steps, cfg), b, i)| <= GrowthLimit(BUCKETS[i], cfg.rules)
  {
    InitialIsTree(start, cfg);
    RunKeepsTree(start, steps, cfg);
    SeedsStay(start, steps, cfg, Key(b, BUCKETS[i]));
    GrownIsCovered(Run(start, steps, cfg), b, i, cfg);
    CoverIsBounded(Run(start, steps, cfg), b, i, cfg);
  }

  lemma {:induction false} SeedsStay(start: Table, steps: seq<Step>, cfg: Config, k: Key)
    requires TreeOk(start, cfg) && k in start
    ensures k in Run(start, steps, cfg)
    decreases |steps|
  {
    if steps != [] {
      StepKeepsTree(start, steps[0], cfg);
      SeedsStay(Apply(start, steps[0], cfg), steps[1..], cfg, k);
    }
  }
}
