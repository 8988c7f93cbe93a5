/** Which evidence splits a partition, and which stops it: on rows, new creators and pages. */
module PartitionEvidence {
  import opened Options
  import opened FollowerRanges
  import opened PartitionTree
  import opened PartitionRuns

  /** Wide enough for two halves of the tier's minimum width. */
  predicate WideEnough(r: Range, rules: WidthRules) {
    && r.max.Some? && 600 <= r.min < r.max.value
    && var m := if r.min < 1_000 then rules.from600 else if r.min < 10_000 then rules.from1000
                else if r.min < 100_000 then rules.from10000 else if r.min < 1_000_000 then rules.from100000 else rules.from1000000;
       r.max.value - r.min + 1 >= 2 * m
  }

  lemma SplitsExactly(r: Range, rules: WidthRules)
    ensures SplitRange(r, rules).Some? <==> WideEnough(r, rules)
  {
  }

  /** Four new creators a page. */
  predicate PagesPay(e: Evidence) {
    e.pages > 0 && e.unique >= 4 * e.pages
  }

  /** Two hundred rows, and a yield that depends on the GMV bucket: a tenth or a fifth of the rows new. */
  predicate Worth(gmv: Gmv, seed: bool, e: Evidence, deep: Rate) {
    && e.rows >= 200
    && (if gmv.G4? then 10 * e.unique >= e.rows && PagesPay(e)
        else if gmv.G3? then 5 * e.unique >= e.rows && PagesPay(e)
        else if seed then e.saturated || 5 * e.unique >= e.rows || PagesPay(e)
        else PagesPay(e) && (e.saturated || 5 * e.unique >= e.rows) && e.unique * deep.den >= deep.num * e.rows)
  }

  predicate MaySplit(k: Key, row: Row, cfg: Config) {
    WideEnough(k.range, cfg.rules) && Worth(k.branch.gmv, row.parent.None?, row.evidence, cfg.deepYield)
  }

  /** A first decision: split in two if it may be, stopped for good if not. */
  ghost predicate Settled(k: Key, row: Row, next: Table, cfg: Config) {
    && k in next && (next[k].explored <==> MaySplit(k, row, cfg)) && (next[k].terminal <==> !MaySplit(k, row, cfg))
    && (next[k].explored ==>
          (&& SplitRange(k.range, cfg.rules).Some?
           && Key(k.branch, SplitRange(k.range, cfg.rules).value.0) in next
           && Key(k.branch, SplitRange(k.range, cfg.rules).value.1) in next))
  }

  lemma DecideSettles(table: Table, k: Key, cfg: Config)
    requires k in table && !Decided(table[k])
    ensures Settled(k, table[k], Decide(table, k, cfg), cfg)
  {
    SplitsExactly(k.range, cfg.rules);
  }

  /** A completed seed. */
  lemma SeedSplitsExactly(table: Table, k: Key, cfg: Config)
    requires SeedReady(table, k)
    ensures Settled(k, table[k], ExpandSeed(table, k, cfg), cfg)
  {
    DecideSettles(table, k, cfg);
  }

  // ------------------------------------------------------------- siblings

  /** Both have two hundred rows, and each yields less than the low rate. */
  predicate BothLow(a: Evidence, b: Evidence, low: Rate) {
    a.rows >= 200 && b.rows >= 200 && a.unique * low.den < low.num * a.rows && b.unique * low.den < low.num * b.rows
  }

  lemma LowExactly(a: Evidence, b: Evidence, low: Rate)
    ensures LowValue(a, b, low) <==> BothLow(a, b, low)
  {
    assert (a.unique + b.unique) * low.den == a.unique * low.den + b.unique * low.den;
    assert low.num * (a.rows + b.rows) == low.num * a.rows + low.num * b.rows;
  }

  /** What a ready pair comes to: stopped together, or each by its own evidence; what was decided before stays. */
  ghost predicate PairSettled(table: Table, next: Table, p: Key, a: Key, b: Key, cfg: Config)
    requires p in table && a in table && b in table
  {
    && p in next && a in next && b in next
    && if BothLow(table[a].evidence, table[b].evidence, cfg.lowYield)
       then next[a].terminal && next[b].terminal && next[p].terminal
            && next[a].explored == table[a].explored && next[b].explored == table[b].explored
       else !next[p].terminal && SiblingSettled(table, next, a, cfg) && SiblingSettled(table, next, b, cfg)
  }

  ghost predicate SiblingSettled(table: Table, next: Table, x: Key, cfg: Config)
    requires x in table && x in next
  {
    if Decided(table[x]) then next[x].explored == table[x].explored else Settled(x, table[x], next, cfg)
  }

  lemma DecideKeepsOthers(table: Table, k: Key, x: Key, cfg: Config)
    requires TreeOk(table, cfg) && k in table && x in table && x != k
    ensures var next := Decide(table, k, cfg); x in next && next[x] == table[x]
  {
    DecideDecides(table, k, cfg);
  }

  lemma DecideStays(table: Table, k: Key, cfg: Config)
    requires k in table && Decided(table[k])
    ensures var next := Decide(table, k, cfg); next.Keys == table.Keys && next[k].explored == table[k].explored && next[k].terminal
  {
  }

  lemma DecideSibling(table: Table, k: Key, cfg: Config)
    requires TreeOk(table, cfg) && k in table
    ensures k in Decide(table, k, cfg) && SiblingSettled(table, Decide(table, k, cfg), k, cfg)
  {
    if Decided(table[k]) { DecideStays(table, k, cfg); } else { DecideSettles(table, k, cfg); }
  }

  lemma SettledStays(x: Key, row: Row, mid: Table, next: Table, cfg: Config)
    requires Settled(x, row, mid, cfg) && mid.Keys <= next.Keys && next[x] == mid[x]
    ensures Settled(x, row, next, cfg)
  {
  }

  lemma MarkedSettles(table: Table, marked: Table, next: Table, x: Key, cfg: Config)
    requires x in table && x in marked && x in next && marked[x] == table[x] && SiblingSettled(marked, next, x, cfg)
    ensures SiblingSettled(table, next, x, cfg)
  {
  }

  lemma TwoDecide(marked: Table, p: Key, a: Key, b: Key, cfg: Config)
    requires TreeOk(marked, cfg) && p in marked && a in marked && b in marked && a != b && a != p && b != p
    ensures var next := Decide(Decide(marked, a, cfg), b, cfg);
            && p in next && a in next && b in next && next[p] == marked[p]
            && SiblingSettled(marked, next, a, cfg) && SiblingSettled(marked, next, b, cfg)
  {
    var mid := Decide(marked, a, cfg);
    var next := Decide(mid, b, cfg);
    DecideKeepsTree(marked, a, cfg);
    DecideSibling(marked, a, cfg);
    DecideKeepsOthers(marked, a, b, cfg);
    DecideKeepsOthers(marked, a, p, cfg);
    DecideSibling(mid, b, cfg);
    DecideKeepsOthers(mid, b, a, cfg);
    DecideKeepsOthers(mid, b, p, cfg);
    DecideDecides(mid, b, cfg);
    if !Decided(marked[a]) { SettledStays(a, marked[a], mid, next, cfg); }
    MarkedSettles(marked, mid, next, b, cfg);
  }

  /** For every ready pair. */
  lemma PairSplitsExactly(table: Table, p: Key, cfg: Config)
    requires TreeOk(table, cfg) && PairReady(table, p, cfg)
    ensures var (a, b) := PairOf(table, p, cfg).value; PairSettled(table, ExpandPair(table, p, cfg), p, a, b, cfg)
  {
    var (a, b) := PairOf(table, p, cfg).value;
    PairFacts(table, p, cfg);
    LowExactly(table[a].evidence, table[b].evidence, cfg.lowYield);
    if !BothLow(table[a].evidence, table[b].evidence, cfg.lowYield) {
      var marked := table[p := table[p].(terminal := false)];
      MarkKeepsTree(table, p, false, cfg);
      TwoDecide(marked, p, a, b, cfg);
      MarkedSettles(table, marked, ExpandPair(table, p, cfg), a, cfg);
      MarkedSettles(table, marked, ExpandPair(table, p, cfg), b, cfg);
    }
  }

  // --------------------------------------------------------- more is better

  /** The same rows and pages with at least as many new creators. */
  predicate Richer(e: Evidence, f: Evidence) {
    f == e.(unique := f.unique) && e.unique <= f.unique
  }

  lemma RicherIsWorth(gmv: Gmv, seed: bool, e: Evidence, f: Evidence, deep: Rate)
    requires Richer(e, f) && Worth(gmv, seed, e, deep)
    ensures Worth(gmv, seed, f, deep)
  {
    Grows(e.unique, f.unique, deep.den);
  }

  lemma Grows(x: nat, y: nat, d: nat)
    requires x <= y
    ensures x * d <= y * d
  {
  }

  lemma RicherIsNotLow(a: Evidence, b: Evidence, c: Evidence, d: Evidence, low: Rate)
    requires Richer(a, c) && Richer(b, d) && BothLow(c, d, low)
    ensures BothLow(a, b, low)
  {
    Grows(a.unique, c.unique, low.den);
    Grows(b.unique, d.unique, low.den);
  }

  /** More new creators from the same rows and pages never turn a seed's split into a stop. */
  lemma MoreNewKeepsSeedSplit(table: Table, k: Key, more: Evidence, cfg: Config)
    requires SeedReady(table, k) && Richer(table[k].evidence, more) && ExpandSeed(table, k, cfg)[k].explored
    ensures ExpandSeed(table[k := table[k].(evidence := more)], k, cfg)[k].explored
  {
    var richer := table[k := table[k].(evidence := more)];
    SeedSplitsExactly(table, k, cfg);
    SeedSplitsExactly(richer, k, cfg);
    RicherIsWorth(k.branch.gmv, true, table[k].evidence, more, cfg.deepYield);
  }

  function WithEvidence(table: Table, a: Key, b: Key, e: Evidence, f: Evidence): Table
    requires a in table && b in table && a != b
  {
    table[a := table[a].(evidence := e)][b := table[b].(evidence := f)]
  }

  lemma EvidenceKeepsPair(table: Table, p: Key, e: Evidence, f: Evidence, cfg: Config)
    requires TreeOk(table, cfg) && PairReady(table, p, cfg)
    ensures var (a, b) := PairOf(table, p, cfg).value;
            && a != b && a in table && b in table
            && var next := WithEvidence(table, a, b, e, f);
               TreeOk(next, cfg) && PairReady(next, p, cfg) && PairOf(next, p, cfg) == PairOf(table, p, cfg)
  {
    var (a, b) := PairOf(table, p, cfg).value;
    PairFacts(table, p, cfg);
    var next := WithEvidence(table, a, b, e, f);
    VerdictsKeepTree(table, next, cfg);
    assert ChildrenOf(next, p) == ChildrenOf(table, p);
  }

  /** Nor a sibling's, whichever of the two finds more. */
  lemma MoreNewKeepsSiblingSplit(table: Table, p: Key, e: Evidence, f: Evidence, x: Key, cfg: Config)
    requires TreeOk(table, cfg) && PairReady(table, p, cfg)
    requires var (a, b) := PairOf(table, p, cfg).value;
             Richer(table[a].evidence, e) && Richer(table[b].evidence, f) && (x == a || x == b)
    requires !Decided(table[x]) && x in ExpandPair(table, p, cfg) && ExpandPair(table, p, cfg)[x].explored
    ensures var (a, b) := PairOf(table, p, cfg).value;
            && a != b
            && var next := ExpandPair(WithEvidence(table, a, b, e, f), p, cfg); x in next && next[x].explored
  {
    var (a, b) := PairOf(table, p, cfg).value;
    EvidenceKeepsPair(table, p, e, f, cfg);
    var richer := WithEvidence(table, a, b, e, f);
    PairSplitsExactly(table, p, cfg);
    PairSplitsExactly(richer, p, cfg);
    if BothLow(e, f, cfg.lowYield) {
      RicherIsNotLow(table[a].evidence, table[b].evidence, e, f, cfg.lowYield);
    }
    RicherIsWorth(x.branch.gmv, table[x].parent.None?, table[x].evidence, richer[x].evidence, cfg.deepYield);
  }

  // --------------------------------------------------------------- the pass

  /** After a pass: a seed that was ready is split if and only if it may be. */
  ghost predicate SeedSettled(table: Table, next: Table, k: Key, cfg: Config)
    requires k in table
  {
    k in next && (next[k].explored <==> MaySplit(k, table[k], cfg))
  }

  /** A seed whose own pages are all in, and about which nothing was decided. */
  predicate AwaitsDecision(table: Table, k: Key) {
    k in table && table[k].parent.None? && table[k].status == Complete && !table[k].explored && !table[k].terminal
  }

  lemma ReadyExactly(table: Table, k: Key)
    ensures SeedReady(table, k) <==> AwaitsDecision(table, k)
  {
  }

  predicate Through(row: Row) {
    row.status == Complete || row.status == DeeplySaturated
  }

  /** The two halves of a partition, its only children, are both through, and not both decided. */
  ghost predicate HalvesAwait(table: Table, p: Key, a: Key, b: Key, cfg: Config) {
    && p in table && SplitRange(p.range, cfg.rules) == Some((a.range, b.range)) && a.branch == p.branch && b.branch == p.branch
    && (forall k {:trigger k in table} :: k in table && k.branch == p.branch && table[k].parent == Some(p.range) <==> k == a || k == b)
    && Through(table[a]) && Through(table[b])
    && !(Decided(table[a]) && Decided(table[b]))
  }

  lemma PairReadyExactly(table: Table, p: Key, cfg: Config)
    ensures PairReady(table, p, cfg) ==>
              var (a, b) := PairOf(table, p, cfg).value; HalvesAwait(table, p, a, b, cfg)
    ensures forall a, b | HalvesAwait(table, p, a, b, cfg) :: PairReady(table, p, cfg) && PairOf(table, p, cfg) == Some((a, b))
  {
    if PairReady(table, p, cfg) {
      var (a, b) := PairOf(table, p, cfg).value;
      forall k ensures k in table && k.branch == p.branch && table[k].parent == Some(p.range) <==> k == a || k == b {
        assert k in ChildrenOf(table, p) <==> k == a || k == b;
      }
    }
    forall a, b | HalvesAwait(table, p, a, b, cfg) ensures PairReady(table, p, cfg) && PairOf(table, p, cfg) == Some((a, b)) {
      assert ChildrenOf(table, p) == {a, b};
    }
  }

  // ------------------------------------------------------- Very High work

  /** Very High partitions are never queued as ordinary work, and nothing else is set aside for probes. */
  ghost predicate KindsKept(table: Table) {
    forall k | k in table :: if k.branch.gmv.G4? then table[k].status != Queued else table[k].status != ExperimentOnly
  }

  lemma DecideKeepsKinds(table: Table, k: Key, cfg: Config)
    requires k in table && KindsKept(table)
    ensures KindsKept(Decide(table, k, cfg)) && table.Keys <= Decide(table, k, cfg).Keys
  {
  }

  lemma PairKeepsKinds(table: Table, p: Key, cfg: Config)
    requires TreeOk(table, cfg) && KindsKept(table)
    ensures KindsKept(ExpandPair(table, p, cfg))
  {
    if PairReady(table, p, cfg) {
      var (a, b) := PairOf(table, p, cfg).value;
      PairFacts(table, p, cfg);
      if !LowValue(table[a].evidence, table[b].evidence, cfg.lowYield) {
        var marked := table[p := table[p].(terminal := false)];
        DecideKeepsKinds(marked, a, cfg);
        DecideKeepsKinds(Decide(marked, a, cfg), b, cfg);
      }
    }
  }

  lemma {:induction false} RunKeepsKinds(table: Table, steps: seq<Step>, cfg: Config)
    requires TreeOk(table, cfg) && KindsKept(table)
    ensures KindsKept(Run(table, steps, cfg))
    decreases |steps|
  {
    if steps != [] {
      StepKeepsTree(table, steps[0], cfg);
      match steps[0] {
        case ExpandSeedStep(k) => if SeedReady(table, k) { DecideKeepsKinds(table, k, cfg); }
        case ExpandPairStep(p) => PairKeepsKinds(table, p, cfg);
        case _ =>
      }
      RunKeepsKinds(Apply(table, steps[0], cfg), steps[1..], cfg);
    }
  }

  /** In every reachable table, splits included, Very High partitions stay out of the ordinary queue. */
  lemma VeryHighIsNeverQueued(table: Table, steps: seq<Step>, k: Key, cfg: Config)
    requires Initial(table) && k in Run(table, steps, cfg)
    ensures k.branch.gmv.G4? ==> Run(table, steps, cfg)[k].status != Queued
    ensures !k.branch.gmv.G4? ==> Run(table, steps, cfg)[k].status != ExperimentOnly
  {
    InitialIsTree(table, cfg);
    RunKeepsKinds(table, steps, cfg);
  }

  // -------------------------------------------------------------- the loops

  /** Inside the loop over the seeds: those still waiting have their row, the others are settled. */
  ghost predicate SeedsSettled(table: Table, rows: Table, waiting: set<Key>, cfg: Config) {
    forall k | SeedReady(table, k) ::
      k in rows && rows[k].parent.None? && if k in waiting then rows[k] == table[k] else SeedSettled(table, rows, k, cfg)
  }

  lemma SeedStepSettles(table: Table, rows: Table, waiting: set<Key>, k: Key, cfg: Config)
    requires TreeOk(rows, cfg) && SeedsSettled(table, rows, waiting, cfg) && k in waiting && SeedReady(table, k)
    ensures SeedsSettled(table, ExpandSeed(rows, k, cfg), waiting - {k}, cfg)
  {
    SeedSplitsExactly(rows, k, cfg);
    DecideDecides(rows, k, cfg);
  }

  lemma PairStepSettles(table: Table, rows: Table, p: Key, cfg: Config)
    requires TreeOk(rows, cfg) && SeedsSettled(table, rows, {}, cfg)
    ensures SeedsSettled(table, ExpandPair(rows, p, cfg), {}, cfg)
  {
    forall k | SeedReady(table, k)
      ensures k in ExpandPair(rows, p, cfg) && ExpandPair(rows, p, cfg)[k].parent.None? && SeedSettled(table, ExpandPair(rows, p, cfg), k, cfg)
    {
      PairKeepsSeeds(rows, p, k, cfg);
    }
  }

  lemma PairKeepsSeeds(table: Table, p: Key, k: Key, cfg: Config)
    requires TreeOk(table, cfg) && k in table && table[k].parent.None?
    ensures var next := ExpandPair(table, p, cfg); k in next && next[k].explored == table[k].explored && next[k].parent.None?
  {
    if PairReady(table, p, cfg) {
      var (a, b) := PairOf(table, p, cfg).value;
      PairFacts(table, p, cfg);
      PairSplitsExactly(table, p, cfg);
      PairDecides(table, p, cfg);
      if !BothLow(table[a].evidence, table[b].evidence, cfg.lowYield) { OthersKeepExplored(table, p, k, cfg); }
    }
  }

  lemma OthersKeepExplored(table: Table, p: Key, k: Key, cfg: Config)
    requires TreeOk(table, cfg) && PairReady(table, p, cfg) && k in table
    requires var (a, b) := PairOf(table, p, cfg).value; k != a && k != b
    ensures var next := ExpandPair(table, p, cfg); k in next && next[k].explored == table[k].explored
  {
    var (a, b) := PairOf(table, p, cfg).value;
    PairFacts(table, p, cfg);
    var low := LowValue(table[a].evidence, table[b].evidence, cfg.lowYield);
    var marked := table[p := table[p].(terminal := low)];
    MarkKeepsTree(table, p, low, cfg);
    if !low {
      DecideKeepsTree(marked, a, cfg);
      DecideKeepsOthers(marked, a, k, cfg);
      DecideKeepsOthers(marked, a, b, cfg);
      DecideKeepsOthers(Decide(marked, a, cfg), b, k, cfg);
    }
  }
}
