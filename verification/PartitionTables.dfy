/** `expandReadyBranches` on the partition rows, loop by loop. */
module PartitionTables {
  import opened Options
  import opened FollowerRanges
  import opened PartitionTree
  import opened PartitionRuns
  import opened PartitionEvidence

  class Tables {
    var rows: Table

    /** Whatever is missing of the two halves is queued as new; rows that exist keep all but the parent's mark. */
    method CreateFollowerChildren(k: Key, low: Range, high: Range)
      requires k in rows
      modifies this
      ensures rows == CreateChildren(old(rows), k, low, high)
      ensures rows.Keys == old(rows).Keys + {Key(k.branch, low), Key(k.branch, high)} && rows[k] == old(rows)[k].(explored := true)
      ensures forall x | x in old(rows) && x != k :: rows[x] == old(rows)[x]
      ensures forall x | x in rows && x !in old(rows) ::
                rows[x].parent == Some(k.range) && rows[x].depth == old(rows)[k].depth + 1 && !Finished(rows[x]) && !Decided(rows[x])
                && rows[x].position == old(rows)[k].position * 100 + (if x.range == low then 1 else 2)
      ensures forall cfg | TreeOk(old(rows), cfg) && !old(rows)[k].explored && SplitRange(k.range, cfg.rules) == Some((low, high)) ::
                Splits(old(rows), rows, k, cfg) && TreeOk(rows, cfg)
    {
      forall cfg | TreeOk(rows, cfg) && !rows[k].explored && SplitRange(k.range, cfg.rules) == Some((low, high))
        ensures Splits(rows, CreateChildren(rows, k, low, high), k, cfg) && TreeOk(CreateChildren(rows, k, low, high), cfg)
      {
        ChildrenSplit(rows, k, cfg);
        SplitKeepsTree(rows, CreateChildren(rows, k, low, high), k, cfg);
      }
      var parent := rows[k];
      var bounds := [low, high];
      if Key(k.branch, bounds[0]) !in rows { rows := rows[Key(k.branch, bounds[0]) := ChildRow(k, parent, 1)]; }
      if Key(k.branch, bounds[1]) !in rows { rows := rows[Key(k.branch, bounds[1]) := ChildRow(k, parent, 2)]; }
      rows := rows[k := parent.(explored := true)];
    }

    method DecideRow(k: Key, cfg: Config)
      requires k in rows
      modifies this
      ensures rows == Decide(old(rows), k, cfg)
    {
      var expansion := AdaptiveExpansion(k, rows[k], cfg);
      if expansion.Follower? {
        CreateFollowerChildren(k, expansion.low, expansion.high);
      } else {
        rows := rows[k := rows[k].(terminal := true)];
      }
    }

    method DecideSiblings(p: Key, cfg: Config)
      requires TreeOk(rows, cfg)
      modifies this
      ensures rows == ExpandPair(old(rows), p, cfg)
      ensures forall a, b | HalvesAwait(old(rows), p, a, b, cfg) ::
                a in old(rows) && b in old(rows) && PairSettled(old(rows), rows, p, a, b, cfg)
      ensures (forall a, b :: !HalvesAwait(old(rows), p, a, b, cfg)) ==> rows == old(rows)
    {
      PairReadyExactly(rows, p, cfg);
      if PairReady(rows, p, cfg) { PairSplitsExactly(rows, p, cfg); }
      var pair := PairOf(rows, p, cfg);
      if p !in rows || pair.None? { return; }
      var (a, b) := pair.value;
      assert a in ChildrenOf(rows, p) && b in ChildrenOf(rows, p);
      if !Finished(rows[a]) || !Finished(rows[b]) { return; }
      if Decided(rows[a]) && Decided(rows[b]) { return; }
      var low := LowValue(rows[a].evidence, rows[b].evidence, cfg.lowYield);
      rows := rows[p := rows[p].(terminal := low)];
      if low {
        rows := rows[a := rows[a].(terminal := true)];
        rows := rows[b := rows[b].(terminal := true)];
      } else {
        DecideRow(a, cfg);
        DecideRow(b, cfg);
      }
    }

    method ExpandSeedBranches(cfg: Config) returns (ghost order: seq<Key>)
      requires TreeOk(rows, cfg)
      modifies this
      ensures rows == ExpandSeeds(old(rows), order, cfg) && TreeOk(rows, cfg) && forall k :: !SeedReady(rows, k)
      ensures SeedsSettled(old(rows), rows, {}, cfg)
    {
      order := [];
      var completed := set k | k in rows && SeedReady(rows, k);
      while completed != {}
        invariant TreeOk(rows, cfg) && rows == ExpandSeeds(old(rows), order, cfg)
        invariant forall k | k in completed :: k in rows
        invariant forall k | SeedReady(rows, k) :: k in completed
        invariant (forall k | k in completed :: SeedReady(old(rows), k)) && SeedsSettled(old(rows), rows, completed, cfg)
      {
        var k :| k in completed;
        forall x | SeedReady(ExpandSeed(rows, k, cfg), x) ensures x in completed - {k} {
          SeedStepReadiness(rows, k, x, cfg);
        }
        forall x | x in completed ensures x in ExpandSeed(rows, k, cfg) {
          if SeedReady(rows, k) { DecideDecides(rows, k, cfg); }
        }
        StepKeepsTree(rows, ExpandSeedStep(k), cfg);
        SeedStepSettles(old(rows), rows, completed, k, cfg);
        ExpandSeedsAppend(old(rows), order, k, cfg);
        if SeedReady(rows, k) { DecideRow(k, cfg); }
        order, completed := order + [k], completed - {k};
      }
    }

    /** Parents are collected once; their two children are read again when their turn comes. */
    method ExpandReadyBranches(cfg: Config) returns (ghost seeds: seq<Key>, ghost parents: seq<Key>)
      requires TreeOk(rows, cfg)
      modifies this
      ensures rows == ExpandPairs(ExpandSeeds(old(rows), seeds, cfg), parents, cfg) && TreeOk(rows, cfg)
      ensures (forall k :: !SeedReady(rows, k)) && (forall p :: !PairReady(rows, p, cfg))
      ensures forall k | AwaitsDecision(old(rows), k) :: SeedSettled(old(rows), rows, k, cfg)
    {
      forall k ensures SeedReady(rows, k) <==> AwaitsDecision(rows, k) {
        ReadyExactly(rows, k);
      }
      seeds := ExpandSeedBranches(cfg);
      ghost var afterSeeds := rows;
      parents := [];
      var waiting := set k | k in rows && rows[k].parent.Some? && Finished(rows[k]) && !Decided(rows[k])
                     :: Key(k.branch, rows[k].parent.value);
      forall p | PairReady(rows, p, cfg) ensures p in waiting {
        ReadyParentWaits(rows, p, cfg);
      }
      while waiting != {}
        invariant TreeOk(rows, cfg) && rows == ExpandPairs(afterSeeds, parents, cfg)
        invariant (forall k :: !SeedReady(rows, k)) && (forall p | PairReady(rows, p, cfg) :: p in waiting)
        invariant SeedsSettled(old(rows), rows, {}, cfg)
      {
        var p :| p in waiting;
        forall x | PairReady(ExpandPair(rows, p, cfg), x, cfg) ensures x in waiting - {p} {
          PairStepReadiness(rows, p, x, cfg);
        }
        forall k ensures !SeedReady(ExpandPair(rows, p, cfg), k) {
          if SeedReady(ExpandPair(rows, p, cfg), k) { PairStepSeedReadiness(rows, p, k, cfg); }
        }
        PairKeepsTree(rows, p, cfg);
        PairStepSettles(old(rows), rows, p, cfg);
        ExpandPairsAppend(afterSeeds, parents, p, cfg);
        DecideSiblings(p, cfg);
        parents, waiting := parents + [p], waiting - {p};
      }
    }
  }

  lemma ReadyParentWaits(table: Table, p: Key, cfg: Config)
    requires PairReady(table, p, cfg)
    ensures exists k :: k in table && table[k].parent.Some? && Finished(table[k]) && !Decided(table[k])
                        && p == Key(k.branch, table[k].parent.value)
  {
    var (a, b) := PairOf(table, p, cfg).value;
    assert a in ChildrenOf(table, p) && b in ChildrenOf(table, p);
    assert !Decided(table[a]) || !Decided(table[b]);
  }

  lemma {:induction false} ExpandSeedsAppend(table: Table, seeds: seq<Key>, k: Key, cfg: Config)
    ensures ExpandSeeds(table, seeds + [k], cfg) == ExpandSeed(ExpandSeeds(table, seeds, cfg), k, cfg)
    decreases |seeds|
  {
    if seeds == [] {
      assert ([] + [k])[1..] == [];
    } else {
      assert (seeds + [k])[1..] == seeds[1..] + [k];
      ExpandSeedsAppend(ExpandSeed(table, seeds[0], cfg), seeds[1..], k, cfg);
    }
  }

  lemma {:induction false} ExpandPairsAppend(table: Table, parents: seq<Key>, p: Key, cfg: Config)
    ensures ExpandPairs(table, parents + [p], cfg) == ExpandPair(ExpandPairs(table, parents, cfg), p, cfg)
    decreases |parents|
  {
    if parents == [] {
      assert ([] + [p])[1..] == [];
    } else {
      assert (parents + [p])[1..] == parents[1..] + [p];
      ExpandPairsAppend(ExpandPair(table, parents[0], cfg), parents[1..], p, cfg);
    }
  }
}
