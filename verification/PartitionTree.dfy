/**
 * The crawler's partition table: seed partitions of every branch, split in two as
 * their evidence comes in.  A branch is a child category under one GMV bucket.
 */
module PartitionTree {
  import opened Options
  import opened FollowerRanges

  datatype Gmv = G1 | G2 | G3 | G4
  datatype Branch = Branch(child: nat, gmv: Gmv)
  datatype Key = Key(branch: Branch, range: Range)

  datatype Status = Queued | ExperimentOnly | Running | Complete | DeeplySaturated
  datatype Evidence = Evidence(rows: nat, unique: nat, pages: nat, saturated: bool)

  const NoEvidence := Evidence(0, 0, 0, false)

  datatype Row = Row(
    parent: Option<Range>, depth: nat, position: nat, status: Status, evidence: Evidence, explored: bool, terminal: bool)

  type Table = map<Key, Row>

  /** A yield threshold as an exact fraction. */
  datatype Rate = Rate(num: nat, den: nat)
  datatype Config = Config(rules: WidthRules, deepYield: Rate, lowYield: Rate)

  const BRANCH_EVIDENCE_MIN_ROWS: nat := 200
  const BASE_QUEUE_GAP: nat := 1_000_000

  predicate ValidConfig(cfg: Config) {
    ValidRules(cfg.rules) && cfg.deepYield.den > 0 && cfg.lowYield.den > 0
  }

  // -------------------------------------------------------------- decisions

  predicate AtLeast(e: Evidence, rate: Rate) {
    if e.rows == 0 then rate.num == 0 else e.unique * rate.den >= rate.num * e.rows
  }

  predicate FourPerPage(e: Evidence) {
    e.pages > 0 && e.unique >= 4 * e.pages
  }

  datatype Reason =
    | AlreadyTerminal | AlreadyExplored | RangeAtMinimumWidth | InsufficientSample | EvidenceNotProductive

  datatype Expansion = Follower(low: Range, high: Range) | Stop(reason: Reason)

  predicate Productive(gmv: Gmv, seed: bool, e: Evidence, deepYield: Rate) {
    match gmv
    case G4 => AtLeast(e, Rate(10, 100)) && FourPerPage(e)
    case G3 => AtLeast(e, Rate(20, 100)) && FourPerPage(e)
    case _ =>
      if seed then e.saturated || AtLeast(e, Rate(20, 100)) || FourPerPage(e)
      else AtLeast(e, deepYield) && FourPerPage(e) && (e.saturated || AtLeast(e, Rate(20, 100)))
  }

  function AdaptiveExpansion(k: Key, row: Row, cfg: Config): Expansion {
    if row.terminal then Stop(AlreadyTerminal)
    else if row.explored then Stop(AlreadyExplored)
    else
      var bounds := SplitRange(k.range, cfg.rules);
      if bounds.None? then Stop(RangeAtMinimumWidth)
      else if row.evidence.rows < BRANCH_EVIDENCE_MIN_ROWS then Stop(InsufficientSample)
      else if !Productive(k.branch.gmv, row.parent.None?, row.evidence, cfg.deepYield) then Stop(EvidenceNotProductive)
      else Follower(bounds.value.0, bounds.value.1)
  }

  // --------------------------------------------------------------- the table

  function ChildRow(k: Key, row: Row, index: nat): Row {
    Row(Some(k.range), row.depth + 1, row.position * 100 + index,
        if k.branch.gmv.G4? then ExperimentOnly else Queued, NoEvidence, false, false)
  }

  /** A child that exists already is left alone. */
  function WithChild(table: Table, k: Key, row: Row, child: Range, index: nat): Table {
    var c := Key(k.branch, child);
    if c in table then table else table[c := ChildRow(k, row, index)]
  }

  function CreateChildren(table: Table, k: Key, low: Range, high: Range): Table
    requires k in table
  {
    var row := table[k];
    WithChild(WithChild(table, k, row, low, 1), k, row, high, 2)[k := row.(explored := true)]
  }

  function Decide(table: Table, k: Key, cfg: Config): Table
    requires k in table
  {
    match AdaptiveExpansion(k, table[k], cfg)
    case Follower(low, high) => CreateChildren(table, k, low, high)
    case Stop(_) => table[k := table[k].(terminal := true)]
  }

  predicate Decided(row: Row) {
    row.explored || row.terminal
  }

  predicate Finished(row: Row) {
    row.status.Complete? || row.status.DeeplySaturated?
  }

  predicate SeedReady(table: Table, k: Key) {
    k in table && table[k].parent.None? && table[k].status.Complete? && !Decided(table[k])
  }

  function ExpandSeed(table: Table, k: Key, cfg: Config): Table {
    if SeedReady(table, k) then Decide(table, k, cfg) else table
  }

  function ChildrenOf(table: Table, p: Key): set<Key> {
    set k | k in table && k.branch == p.branch && table[k].parent == Some(p.range)
  }

  /** The two siblings under `p`, lower range first, when there are exactly two. */
  function PairOf(table: Table, p: Key, cfg: Config): Option<(Key, Key)> {
    var bounds := SplitRange(p.range, cfg.rules);
    if bounds.None? then None
    else
      var (low, high) := (Key(p.branch, bounds.value.0), Key(p.branch, bounds.value.1));
      if ChildrenOf(table, p) == {low, high} then Some((low, high)) else None
  }

  predicate PairReady(table: Table, p: Key, cfg: Config) {
    var pair := PairOf(table, p, cfg);
    && p in table && pair.Some? && pair.value.0 in table && pair.value.1 in table
    && Finished(table[pair.value.0]) && Finished(table[pair.value.1])
    && (!Decided(table[pair.value.0]) || !Decided(table[pair.value.1]))
  }

  predicate Below(unique: nat, rows: nat, rate: Rate) {
    if rows == 0 then rate.num > 0 else unique * rate.den < rate.num * rows
  }

  predicate LowValue(a: Evidence, b: Evidence, rate: Rate) {
    && a.rows >= BRANCH_EVIDENCE_MIN_ROWS && b.rows >= BRANCH_EVIDENCE_MIN_ROWS
    && Below(a.unique, a.rows, rate) && Below(b.unique, b.rows, rate)
    && Below(a.unique + b.unique, a.rows + b.rows, rate)
  }

  function ExpandPair(table: Table, p: Key, cfg: Config): Table {
    if !PairReady(table, p, cfg) then table
    else
      var (a, b) := PairOf(table, p, cfg).value;
      var low := LowValue(table[a].evidence, table[b].evidence, cfg.lowYield);
      var marked := table[p := table[p].(terminal := low)];
      if low then marked[a := marked[a].(terminal := true)][b := marked[b].(terminal := true)]
      else
        var first := Decide(marked, a, cfg);
        Decide(first, b, cfg)
  }

  function Finish(table: Table, k: Key, e: Evidence, deep: bool): Table {
    if k in table && !Finished(table[k])
    then table[k := table[k].(status := if deep then DeeplySaturated else Complete, evidence := e)] else table
  }

  /** A worker about to search marks its partition, even one that was finished meanwhile. */
  function MarkRunning(table: Table, k: Key): Table {
    if k in table then table[k := table[k].(status := Running)] else table
  }

  datatype Step =
    | StartRequest(key: Key)
    | FinishPartition(key: Key, evidence: Evidence, deep: bool)
    | ExpandSeedStep(key: Key)
    | ExpandPairStep(parent: Key)

  function Apply(table: Table, step: Step, cfg: Config): Table {
    match step
    case StartRequest(k) => MarkRunning(table, k)
    case FinishPartition(k, e, deep) => Finish(table, k, e, deep)
    case ExpandSeedStep(k) => ExpandSeed(table, k, cfg)
    case ExpandPairStep(p) => ExpandPair(table, p, cfg)
  }

  function Run(table: Table, steps: seq<Step>, cfg: Config): Table
    decreases |steps|
  {
    if steps == [] then table else Run(Apply(table, steps[0], cfg), steps[1..], cfg)
  }

  // ------------------------------------------------------------------- seeds

  function GmvIndex(g: Gmv): nat {
    match g case G1 => 0 case G2 => 1 case G3 => 2 case G4 => 3
  }

  /** The seeds are numbered child by child, bucket by bucket, GMV by GMV. */
  function SeedPosition(b: Branch, bucket: nat): nat {
    ((b.child * |BUCKETS| + bucket) * 4 + GmvIndex(b.gmv) + 1) * BASE_QUEUE_GAP
  }

  predicate IsSeed(k: Key, bucket: nat) {
    bucket < |BUCKETS| && k.range == BUCKETS[bucket]
  }

  /** Only seeds, all of every branch that has any. */
  ghost predicate Initial(table: Table) {
    && (forall k | k in table :: exists i :: IsSeed(k, i) && table[k] == SeedRow(k.branch, i))
    && (forall k, i: nat | k in table && i < |BUCKETS| :: Key(k.branch, BUCKETS[i]) in table)
  }

  function SeedRow(b: Branch, bucket: nat): Row {
    Row(None, 0, SeedPosition(b, bucket), if b.gmv.G4? then ExperimentOnly else Queued, NoEvidence, false, false)
  }

  // --------------------------------------------------------------- invariant

  ghost predicate SeedOk(k: Key, row: Row) {
    row.depth == 0 && exists i :: IsSeed(k, i) && row.position == SeedPosition(k.branch, i)
  }

  /** A child is one half of its explored parent, one level down, in its own place in the queue. */
  ghost predicate ChildOk(table: Table, k: Key, cfg: Config)
    requires k in table && table[k].parent.Some?
  {
    var p := Key(k.branch, table[k].parent.value);
    && p in table && table[p].explored && SplitRange(p.range, cfg.rules).Some?
    && var (low, high) := SplitRange(p.range, cfg.rules).value;
       && (k.range == low || k.range == high) && table[k].depth == table[p].depth + 1
       && table[k].position == table[p].position * 100 + (if k.range == low then 1 else 2)
  }

  /** An explored partition has both halves. */
  ghost predicate HalvesOk(table: Table, k: Key, cfg: Config)
    requires k in table
  {
    table[k].explored ==>
      && SplitRange(k.range, cfg.rules).Some?
      && var (low, high) := SplitRange(k.range, cfg.rules).value;
         var (a, b) := (Key(k.branch, low), Key(k.branch, high));
         && a in table && b in table && table[a].parent == Some(k.range) && table[b].parent == Some(k.range)
  }

  ghost predicate RowOk(table: Table, k: Key, cfg: Config)
    requires k in table
  {
    && (if table[k].parent.None? then SeedOk(k, table[k]) else ChildOk(table, k, cfg))
    && HalvesOk(table, k, cfg)
  }

  ghost predicate HasSeeds(table: Table, b: Branch) {
    forall i: nat | i < |BUCKETS| :: Key(b, BUCKETS[i]) in table && table[Key(b, BUCKETS[i])].parent.None?
  }

  ghost predicate TreeOk(table: Table, cfg: Config) {
    && (forall k {:trigger HasSeeds(table, k.branch)} | k in table :: HasSeeds(table, k.branch))
    && (forall k {:trigger RowOk(table, k, cfg)} | k in table :: RowOk(table, k, cfg))
  }

  /** Siblings are decided together. */
  ghost predicate Together(table: Table) {
    forall a, b | a in table && b in table && a.branch == b.branch
                  && table[a].parent.Some? && table[a].parent == table[b].parent ::
      Decided(table[a]) <==> Decided(table[b])
  }

  // ---------------------------------------------------------- the shape of it

  /** The row at depth `d` on the way from a seed down to `k`. */
  lemma {:induction false} AncestorAt(table: Table, cfg: Config, k: Key, d: nat, n: nat) returns (y: Key)
    requires TreeOk(table, cfg) && k in table && d <= table[k].depth && Contains(k.range, n)
    ensures y in table && y.branch == k.branch && table[y].depth == d && Contains(y.range, n) && Within(k.range, y.range)
    ensures d < table[k].depth ==> table[y].explored
    ensures d == table[k].depth ==> y == k
    decreases table[k].depth
  {
    if d == table[k].depth {
      y := k;
    } else {
      assert RowOk(table, k, cfg);
      var p := Key(k.branch, table[k].parent.value);
      SplitTiles(p.range, cfg.rules, n);
      y := AncestorAt(table, cfg, p, d, n);
    }
  }

  /** On one level of a branch at most one partition covers a follower count. */
  lemma {:induction false} OnePerLevel(table: Table, cfg: Config, a: Key, b: Key, n: nat)
    requires TreeOk(table, cfg) && a in table && b in table && a.branch == b.branch && table[a].depth == table[b].depth
    requires Contains(a.range, n) && Contains(b.range, n)
    ensures a == b
    decreases table[a].depth
  {
    assert RowOk(table, a, cfg) && RowOk(table, b, cfg);
    if table[a].depth == 0 {
      var i :| IsSeed(a, i);
      var j :| IsSeed(b, j);
      assert n >= HARD_FLOOR by { TierIsConstant(i, n, cfg.rules); }
      BucketsTile(n);
    } else {
      var (p, q) := (Key(a.branch, table[a].parent.value), Key(b.branch, table[b].parent.value));
      SplitTiles(p.range, cfg.rules, n);
      SplitTiles(q.range, cfg.rules, n);
      OnePerLevel(table, cfg, p, q, n);
    }
  }

  /** Any two partitions of a branch that share a follower count are nested, the deeper in the other. */
  lemma Laminar(table: Table, cfg: Config, a: Key, b: Key, n: nat)
    requires TreeOk(table, cfg) && a in table && b in table && a.branch == b.branch && table[a].depth <= table[b].depth
    requires Contains(a.range, n) && Contains(b.range, n)
    ensures Within(b.range, a.range)
    ensures table[a].depth < table[b].depth ==> table[a].explored
  {
    var y := AncestorAt(table, cfg, b, table[a].depth, n);
    OnePerLevel(table, cfg, a, y, n);
  }

  ghost predicate IsLeafFor(table: Table, b: Branch, n: nat, k: Key) {
    k in table && k.branch == b && Contains(k.range, n) && !table[k].explored
  }

  lemma {:induction false} LeafBelow(table: Table, cfg: Config, k: Key, n: nat) returns (leaf: Key)
    requires TreeOk(table, cfg) && k in table && Contains(k.range, n)
    ensures IsLeafFor(table, k.branch, n, leaf)
    decreases if table[k].explored && InclusiveWidth(k.range).Some? then InclusiveWidth(k.range).value else 0
  {
    if !table[k].explored {
      leaf := k;
    } else {
      assert RowOk(table, k, cfg);
      var (low, high) := SplitRange(k.range, cfg.rules).value;
      SplitTiles(k.range, cfg.rules, n);
      leaf := LeafBelow(table, cfg, Key(k.branch, if Contains(low, n) then low else high), n);
    }
  }

  /** The unsplit partitions of a branch always tile all follower counts from the floor up. */
  lemma LeavesTile(table: Table, cfg: Config, some: Key, n: nat)
    requires TreeOk(table, cfg) && some in table && n >= HARD_FLOOR
    ensures exists leaf :: IsLeafFor(table, some.branch, n, leaf)
                           && forall other | IsLeafFor(table, some.branch, n, other) :: other == leaf
  {
    BucketsTile(n);
    var i :| 0 <= i < |BUCKETS| && Contains(BUCKETS[i], n);
    assert HasSeeds(table, some.branch);
    var leaf := LeafBelow(table, cfg, Key(some.branch, BUCKETS[i]), n);
    forall other | IsLeafFor(table, some.branch, n, other) ensures other == leaf {
      if table[leaf].depth <= table[other].depth {
        Laminar(table, cfg, leaf, other, n);
        OnePerLevel(table, cfg, leaf, other, n);
      } else {
        Laminar(table, cfg, other, leaf, n);
      }
    }
  }

  // --------------------------------------------------------- what steps keep

  /** The halves of a partition not yet split are new to the table. */
  lemma HalvesAreNew(table: Table, cfg: Config, k: Key, half: Range)
    requires TreeOk(table, cfg) && k in table && !table[k].explored && SplitRange(k.range, cfg.rules).Some?
    requires half == SplitRange(k.range, cfg.rules).value.0 || half == SplitRange(k.range, cfg.rules).value.1
    ensures Key(k.branch, half) !in table
  {
    var x := Key(k.branch, half);
    if x in table {
      SplitTiles(k.range, cfg.rules, half.min);
      if table[x].depth <= table[k].depth {
        Laminar(table, cfg, x, k, half.min);
      } else {
        Laminar(table, cfg, k, x, half.min);
      }
    }
  }

  /** The rows of `table` keep their place; at most their verdicts change. */
  ghost predicate SamePlaces(table: Table, next: Table) {
    forall k | k in table :: k in next && next[k].parent == table[k].parent && next[k].depth == table[k].depth
                             && next[k].position == table[k].position && (table[k].explored ==> next[k].explored)
  }

  lemma VerdictsKeepTree(table: Table, next: Table, cfg: Config)
    requires TreeOk(table, cfg) && SamePlaces(table, next) && next.Keys == table.Keys
    requires forall k | k in table :: next[k].explored == table[k].explored
    ensures TreeOk(next, cfg)
  {
    forall k | k in next ensures RowOk(next, k, cfg) && HasSeeds(next, k.branch) {
      assert RowOk(table, k, cfg) && HasSeeds(table, k.branch);
    }
  }

  lemma MarkKeepsTree(table: Table, k: Key, terminal: bool, cfg: Config)
    requires TreeOk(table, cfg) && k in table
    ensures TreeOk(table[k := table[k].(terminal := terminal)], cfg)
  {
    VerdictsKeepTree(table, table[k := table[k].(terminal := terminal)], cfg);
  }

  lemma OldRowStaysOk(table: Table, next: Table, x: Key, cfg: Config)
    requires SamePlaces(table, next) && x in table && RowOk(table, x, cfg) && next[x].explored == table[x].explored
    ensures RowOk(next, x, cfg)
  {
  }

  /** `next` is `table` with `k` split into two new rows. */
  ghost predicate Splits(table: Table, next: Table, k: Key, cfg: Config) {
    && k in table && SplitRange(k.range, cfg.rules).Some?
    && var (low, high) := SplitRange(k.range, cfg.rules).value;
       var (a, b) := (Key(k.branch, low), Key(k.branch, high));
       && a !in table && b !in table && a != b && next.Keys == table.Keys + {a, b}
       && next[a] == ChildRow(k, table[k], 1) && next[b] == ChildRow(k, table[k], 2)
       && next[k] == table[k].(explored := true)
       && (forall x | x in table && x != k :: next[x] == table[x])
  }

  lemma ChildrenSplit(table: Table, k: Key, cfg: Config)
    requires TreeOk(table, cfg) && k in table && !table[k].explored && SplitRange(k.range, cfg.rules).Some?
    ensures var (low, high) := SplitRange(k.range, cfg.rules).value;
            Splits(table, CreateChildren(table, k, low, high), k, cfg)
  {
    var (low, high) := SplitRange(k.range, cfg.rules).value;
    HalvesAreNew(table, cfg, k, low);
    HalvesAreNew(table, cfg, k, high);
    SplitTiles(k.range, cfg.rules, low.min);
  }

  lemma NewRowOk(table: Table, next: Table, k: Key, x: Key, cfg: Config)
    requires Splits(table, next, k, cfg) && x in next && x !in table
    ensures RowOk(next, x, cfg)
  {
  }

  lemma SplitKeepsTree(table: Table, next: Table, k: Key, cfg: Config)
    requires TreeOk(table, cfg) && Splits(table, next, k, cfg)
    ensures TreeOk(next, cfg)
  {
    forall x | x in next ensures RowOk(next, x, cfg) && HasSeeds(next, x.branch) {
      assert HasSeeds(table, k.branch);
      if x !in table {
        NewRowOk(table, next, k, x, cfg);
      } else {
        assert RowOk(table, x, cfg) && HasSeeds(table, x.branch);
        if x != k { OldRowStaysOk(table, next, x, cfg); }
      }
    }
  }

  lemma DecideKeepsTree(table: Table, k: Key, cfg: Config)
    requires TreeOk(table, cfg) && k in table
    ensures TreeOk(Decide(table, k, cfg), cfg)
  {
    if AdaptiveExpansion(k, table[k], cfg).Follower? {
      ChildrenSplit(table, k, cfg);
      SplitKeepsTree(table, Decide(table, k, cfg), k, cfg);
    } else {
      MarkKeepsTree(table, k, true, cfg);
    }
  }

  lemma PairKeepsTree(table: Table, p: Key, cfg: Config)
    requires TreeOk(table, cfg)
    ensures TreeOk(ExpandPair(table, p, cfg), cfg)
  {
    if PairReady(table, p, cfg) {
      var (a, b) := PairOf(table, p, cfg).value;
      var low := LowValue(table[a].evidence, table[b].evidence, cfg.lowYield);
      var marked := table[p := table[p].(terminal := low)];
      MarkKeepsTree(table, p, low, cfg);
      if low {
        MarkKeepsTree(marked, a, true, cfg);
        MarkKeepsTree(marked[a := marked[a].(terminal := true)], b, true, cfg);
      } else {
        DecideKeepsTree(marked, a, cfg);
        DecideKeepsTree(Decide(marked, a, cfg), b, cfg);
      }
    }
  }

  lemma FinishKeepsTree(table: Table, k: Key, e: Evidence, deep: bool, cfg: Config)
    requires TreeOk(table, cfg)
    ensures TreeOk(Finish(table, k, e, deep), cfg)
  {
    VerdictsKeepTree(table, Finish(table, k, e, deep), cfg);
  }

  lemma StepKeepsTree(table: Table, step: Step, cfg: Config)
    requires TreeOk(table, cfg)
    ensures TreeOk(Apply(table, step, cfg), cfg)
  {
    match step
    case StartRequest(k) => VerdictsKeepTree(table, MarkRunning(table, k), cfg);
    case FinishPartition(k, e, deep) => FinishKeepsTree(table, k, e, deep, cfg);
    case ExpandSeedStep(k) => if SeedReady(table, k) { DecideKeepsTree(table, k, cfg); }
    case ExpandPairStep(p) => PairKeepsTree(table, p, cfg);
  }
}
