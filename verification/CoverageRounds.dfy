/** How evenly the exploration slot's claims cover the categories, from the rows alone. */
module CoverageRounds {
  import opened Options
  import opened Scheduler
  import opened CategoryCoverage
  import opened SchedulerClaim

  /** A claim in the exploration slot, and when its first page arrived. */
  datatype Exploration = Exploration(claim: nat, claimedAt: int, respondedAt: int)

  /** In the exploration slot whichever mode the claim finds. */
  predicate Explores(x: Exploration) {
    x.claim >= 1 && forall mode :: SlotOf(x.claim, mode).PrimaryExploration?
  }

  /** The seeds of one family are of one category and share their snapshot. */
  ghost predicate PairsMatch(rows: seq<Row>) {
    forall r, q | r in rows && q in rows && PrimarySeed(r) && PrimarySeed(q) && r.family == q.family ::
      r.child == q.child && r.sane == q.sane
  }

  /** Every category has a well-formed Low or Medium seed. */
  ghost predicate Seeded(cat: Catalog, rows: seq<Row>) {
    forall c | c in cat.children :: HasSeed(cat, rows, c)
  }

  ghost predicate HasSeed(cat: Catalog, rows: seq<Row>, c: CategoryId) {
    exists r :: r in rows && PrimarySeed(r) && r.child == c && WellFormed(cat, r)
  }

  /** No seed of a category not sampled yet was started. */
  ghost predicate Unstarted(cat: Catalog, rows: seq<Row>) {
    forall r | r in rows && PrimarySeed(r) && r.child in Untouched(cat) :: r.status.Queued? && !r.started
  }

  ghost predicate RowsOk(cat: Catalog, rows: seq<Row>, first: nat -> Bucket) {
    && ValidRows(rows) && PairsMatch(rows) && Seeded(cat, rows) && Unstarted(cat, rows)
    && (forall f :: first(f).G1? || first(f).G2?)
  }

  /** A category not sampled yet has a seed that may start. */
  lemma UntouchedIsOffered(cat: Catalog, rows: seq<Row>, first: nat -> Bucket, c: CategoryId)
    requires RowsOk(cat, rows, first) && c in Untouched(cat)
    ensures exists q :: MayStart(cat, rows, first, q) && q.child == c
  {
    assert HasSeed(cat, rows, c);
    var r :| r in rows && PrimarySeed(r) && r.child == c && WellFormed(cat, r);
    if !MayStart(cat, rows, first, r) {
      assert first(r.family) in BucketsOf(rows, r.family);
      var q :| q in rows && PrimarySeed(q) && q.family == r.family && q.candidate.bucket == first(r.family);
      assert MayStart(cat, rows, first, q);
    }
  }

  lemma RowsOffer(cat: Catalog, rows: seq<Row>, first: nat -> Bucket, eligible: seq<Row>, x: Exploration)
    requires RowsOk(cat, rows, first) && forall r :: r in eligible <==> MayStart(cat, rows, first, r)
    ensures Offers(cat, Round(Seeds(eligible), x.claimedAt, x.respondedAt))
  {
    var seeds := Seeds(eligible);
    forall s | s in seeds ensures Known(cat, s) {
      var i :| 0 <= i < |seeds| && seeds[i] == s;
      assert eligible[i] in eligible;
    }
    forall c | c in Untouched(cat) ensures exists s :: s in seeds && s.child == c {
      UntouchedIsOffered(cat, rows, first, c);
      var q :| MayStart(cat, rows, first, q) && q.child == c;
      assert q in eligible;
      var i :| 0 <= i < |eligible| && eligible[i] == q;
      assert seeds[i] in seeds && seeds[i].child == c;
    }
  }

  /** The row of a claimed partition is started. */
  function Started(rows: seq<Row>, id: nat): (next: seq<Row>)
    ensures |next| == |rows|
    ensures forall i | 0 <= i < |rows| ::
      next[i] == if rows[i].candidate.id == id then rows[i].(status := Other, started := true) else rows[i]
  {
    if rows == [] then []
    else
      var row := if rows[0].candidate.id == id then rows[0].(status := Other, started := true) else rows[0];
      [row] + Started(rows[1..], id)
  }

  /** Where a row of the started table comes from. */
  lemma StartedFrom(rows: seq<Row>, id: nat, r: Row)
    requires r in Started(rows, id)
    ensures exists q :: q in rows && r == if q.candidate.id == id then q.(status := Other, started := true) else q
  {
    var i :| 0 <= i < |rows| && Started(rows, id)[i] == r;
    assert rows[i] in rows;
  }

  lemma StartedKeepsValid(rows: seq<Row>, id: nat)
    requires ValidRows(rows) && PairsMatch(rows)
    ensures ValidRows(Started(rows, id)) && PairsMatch(Started(rows, id))
  {
    forall r | r in Started(rows, id)
      ensures exists q :: q in rows && r == if q.candidate.id == id then q.(status := Other, started := true) else q
    {
      StartedFrom(rows, id, r);
    }
  }

  lemma StartedKeepsSeed(cat: Catalog, next: Catalog, rows: seq<Row>, id: nat, c: CategoryId)
    requires HasSeed(cat, rows, c)
    requires next.children.Keys == cat.children.Keys && next.parents.Keys == cat.parents.Keys
    requires forall x | x in cat.children :: next.children[x].parent == cat.children[x].parent
    ensures HasSeed(next, Started(rows, id), c)
  {
    var r :| r in rows && PrimarySeed(r) && r.child == c && WellFormed(cat, r);
    var i :| 0 <= i < |rows| && rows[i] == r;
    var q := Started(rows, id)[i];
    assert q in Started(rows, id) && SeedOf(q) == SeedOf(r);
    assert PrimarySeed(q) && q.child == c && WellFormed(next, q);
  }

  lemma StartedKeepsUnstarted(cat: Catalog, next: Catalog, rows: seq<Row>, chosen: Row)
    requires Unstarted(cat, rows) && ValidRows(rows) && chosen in rows
    requires Untouched(next) <= Untouched(cat) && chosen.child !in Untouched(next)
    ensures Unstarted(next, Started(rows, chosen.candidate.id))
  {
    forall r | r in Started(rows, chosen.candidate.id) && PrimarySeed(r) && r.child in Untouched(next)
      ensures r.status.Queued? && !r.started
    {
      StartedFrom(rows, chosen.candidate.id, r);
      var q :| q in rows && r == if q.candidate.id == chosen.candidate.id then q.(status := Other, started := true) else q;
      assert q.candidate.id == chosen.candidate.id ==> q == chosen;
    }
  }

  /** What sampling a seed changes of the catalog, whether or not its category was sampled before. */
  lemma SamplingKeeps(cat: Catalog, seed: Seed, claimedAt: int, respondedAt: int)
    requires Known(cat, seed)
    ensures var next := Sampled(cat, seed, claimedAt, respondedAt);
            && next.children.Keys == cat.children.Keys && next.parents.Keys == cat.parents.Keys
            && (forall x | x in cat.children :: next.children[x].parent == cat.children[x].parent)
            && Untouched(next) <= Untouched(cat) && seed.child !in Untouched(next)
  {
  }

  lemma RoundKeepsRows(cat: Catalog, rows: seq<Row>, first: nat -> Bucket, chosen: Row, x: Exploration)
    requires RowsOk(cat, rows, first) && chosen in rows && Known(cat, SeedOf(chosen))
    ensures RowsOk(Sampled(cat, SeedOf(chosen), x.claimedAt, x.respondedAt), Started(rows, chosen.candidate.id), first)
  {
    var next := Sampled(cat, SeedOf(chosen), x.claimedAt, x.respondedAt);
    SamplingKeeps(cat, SeedOf(chosen), x.claimedAt, x.respondedAt);
    StartedKeepsValid(rows, chosen.candidate.id);
    StartedKeepsUnstarted(cat, next, rows, chosen);
    forall c | c in next.children ensures HasSeed(next, Started(rows, chosen.candidate.id), c) {
      StartedKeepsSeed(cat, next, rows, chosen.candidate.id, c);
    }
  }

  /** Without a seed that may start no category is left. */
  lemma NothingLeft(cat: Catalog, rows: seq<Row>, first: nat -> Bucket)
    requires RowsOk(cat, rows, first) && forall r :: !MayStart(cat, rows, first, r)
    ensures Untouched(cat) == {}
  {
    forall c | c in Untouched(cat) ensures false {
      UntouchedIsOffered(cat, rows, first, c);
    }
  }

  function Remaining(untouched: nat, rounds: nat): nat {
    if rounds < untouched then untouched - rounds else 0
  }

  /** One claim in the exploration slot, and the arrival of its first page. */
  method ExploreOnce(cat: Catalog, rows: seq<Row>, first: nat -> Bucket, x: Exploration) returns (next: Catalog, nextRows: seq<Row>)
    requires RowsOk(cat, rows, first) && Level(cat) && Explores(x)
    ensures RowsOk(next, nextRows, first) && Level(next) && |Untouched(next)| == Remaining(|Untouched(cat)|, 1)
  {
    var chosen, mode, eligible := ClaimNext(cat, rows, first, x.claim);
    if eligible == [] {
      NothingLeft(cat, rows, first);
      return cat, rows;
    }
    var row := FirstRow(rows, (r: Row) => r.candidate == chosen.value);
    RowsOffer(cat, rows, first, eligible, x);
    ExploreKeepsLevel(cat, Round(Seeds(eligible), x.claimedAt, x.respondedAt));
    RoundKeepsRows(cat, rows, first, row.value, x);
    next, nextRows := Sampled(cat, SeedOf(row.value), x.claimedAt, x.respondedAt), Started(rows, row.value.candidate.id);
  }

  /**
   * From a catalog nobody sampled, whose seeds are all queued: after any exploration claims the
   * parents with untouched children are within one sampled child of each other, and n claims have
   * touched n categories, or all.
   */
  method ExploreAll(cat: Catalog, rows: seq<Row>, first: nat -> Bucket, claims: seq<Exploration>) returns (next: Catalog, nextRows: seq<Row>)
    requires ValidRows(rows) && PairsMatch(rows) && Seeded(cat, rows) && forall f :: first(f).G1? || first(f).G2?
    requires forall r | r in rows && PrimarySeed(r) :: r.status.Queued? && !r.started
    requires forall c | c in cat.children :: cat.children[c].firstSampled.None?
    requires forall x | x in claims :: Explores(x)
    ensures forall c, d | c in Untouched(next) && d in Untouched(next) ::
              -1 <= |SampledUnder(next, next.children[c].parent)| - |SampledUnder(next, next.children[d].parent)| <= 1
    ensures |Untouched(next)| == Remaining(|Untouched(cat)|, |claims|)
  {
    next, nextRows := cat, rows;
    forall q: CategoryId ensures SampledUnder(cat, q) == {} {
    }
    for n := 0 to |claims|
      invariant RowsOk(next, nextRows, first) && Level(next) && |Untouched(next)| == Remaining(|Untouched(cat)|, n)
    {
      next, nextRows := ExploreOnce(next, nextRows, first, claims[n]);
    }
  }
}
