/**
 * The claim of a partition: from the partition rows to the candidates the scheduler may
 * choose from, and the choice.
 */
module SchedulerClaim {
  import opened Options
  import opened Scheduler
  import opened SchedulerOrder
  import opened CategoryCoverage

  /** `seed` is a base partition, everything else came from a split; `sane` is what its stored snapshot must be. */
  datatype Status = Queued | ExperimentOnly | Other
  datatype Row = Row(
    candidate: Candidate, seed: bool, status: Status, started: bool, family: nat, child: CategoryId, sane: bool, exceptional: bool)

  function SeedOf(r: Row): Seed {
    Seed(r.candidate.id, r.child, r.candidate.position)
  }

  predicate PrimarySeed(r: Row) {
    r.seed && (r.candidate.bucket.G1? || r.candidate.bucket.G2?)
  }

  /** The stored category snapshot is sane and still matches the catalog. */
  predicate WellFormed(cat: Catalog, r: Row) {
    r.sane && Known(cat, SeedOf(r))
  }

  // --------------------------------------------------------------- families

  ghost predicate Touched(rows: seq<Row>, family: nat) {
    exists r :: r in rows && PrimarySeed(r) && r.family == family && (r.started || !r.status.Queued?)
  }

  ghost function BucketsOf(rows: seq<Row>, family: nat): set<Bucket> {
    set r | r in rows && PrimarySeed(r) && r.family == family :: r.candidate.bucket
  }

  /** Of an untouched pair only the designated bucket may start. */
  ghost predicate MayStart(cat: Catalog, rows: seq<Row>, first: nat -> Bucket, r: Row) {
    && r in rows && PrimarySeed(r) && r.status.Queued? && WellFormed(cat, r)
    && (Touched(rows, r.family) || BucketsOf(rows, r.family) != {G1, G2} || r.candidate.bucket == first(r.family))
  }

  /** One pass over the Low and Medium seeds; a family not met has no entry. */
  method Families(rows: seq<Row>) returns (touched: set<nat>, buckets: map<nat, set<Bucket>>)
    ensures forall f :: f in touched <==> Touched(rows, f)
    ensures forall f :: (if f in buckets then buckets[f] else {}) == BucketsOf(rows, f)
  {
    touched, buckets := {}, map[];
    for i := 0 to |rows|
      invariant forall f :: f in touched <==> Touched(rows[..i], f)
      invariant forall f :: (if f in buckets then buckets[f] else {}) == BucketsOf(rows[..i], f)
    {
      var r := rows[i];
      assert rows[..i + 1] == rows[..i] + [r];
      if PrimarySeed(r) {
        if r.started || !r.status.Queued? { touched := touched + {r.family}; }
        buckets := buckets[r.family := (if r.family in buckets then buckets[r.family] else {}) + {r.candidate.bucket}];
      }
    }
    assert rows[..|rows|] == rows;
  }

  /** The row is of the kind, and none before it in the queue is. */
  ghost predicate FirstOfKind(rows: seq<Row>, kind: Row -> bool, r: Row) {
    kind(r) && exists i :: 0 <= i < |rows| && rows[i] == r && forall j | 0 <= j < i :: !kind(rows[j])
  }

  method EligibleSeeds(cat: Catalog, rows: seq<Row>, first: nat -> Bucket) returns (eligible: seq<Row>)
    ensures forall r :: r in eligible <==> MayStart(cat, rows, first, r)
    ensures eligible != [] ==> FirstOfKind(rows, r => MayStart(cat, rows, first, r), eligible[0])
  {
    var touched, buckets := Families(rows);
    eligible := [];
    for i := 0 to |rows|
      invariant forall r :: r in eligible <==> r in rows[..i] && MayStart(cat, rows, first, r)
      invariant eligible != [] ==> FirstOfKind(rows, r => MayStart(cat, rows, first, r), eligible[0])
    {
      var r := rows[i];
      assert rows[..i + 1] == rows[..i] + [r];
      if PrimarySeed(r) && r.status.Queued? && WellFormed(cat, r) {
        var pair := if r.family in buckets then buckets[r.family] else {};
        if r.family in touched || |pair| != 2 || r.candidate.bucket == first(r.family) { eligible := eligible + [r]; }
        PairOfTwo(rows, r.family);
      }
    }
    assert rows[..|rows|] == rows;
  }

  /** Two buckets of a family are the Low and the Medium one. */
  lemma PairOfTwo(rows: seq<Row>, family: nat)
    ensures |BucketsOf(rows, family)| == 2 <==> BucketsOf(rows, family) == {G1, G2}
  {
    var pair := BucketsOf(rows, family);
    assert pair <= {G1, G2};
    if |pair| == 2 && pair != {G1, G2} {
      var b :| b in {G1, G2} && b !in pair;
      assert pair <= {G1, G2} - {b};
      Fewer(pair, {G1, G2} - {b});
    }
  }

  lemma Fewer(small: set<Bucket>, large: set<Bucket>)
    requires small <= large
    ensures |small| <= |large|
  {
    assert large == small + (large - small);
  }

  // ------------------------------------------------------------- candidates

  predicate AdaptiveWork(r: Row) {
    !r.seed && r.status.Queued? && !r.candidate.bucket.G4?
  }

  predicate HighSeed(r: Row) {
    r.seed && r.status.Queued? && r.candidate.bucket.G3?
  }

  /** Very High work is probed only when its evidence is exceptional, or from a seed. */
  predicate ProbeWork(r: Row) {
    r.status.ExperimentOnly? && r.candidate.bucket.G4? && (r.seed || r.exceptional)
  }

  /** A row some claim may take. */
  ghost predicate Takeable(cat: Catalog, rows: seq<Row>, first: nat -> Bucket, r: Row) {
    r in rows && (AdaptiveWork(r) || HighSeed(r) || MayStart(cat, rows, first, r) || ProbeWork(r))
  }

  /** What a claim may take in its slot: probes only in theirs. */
  ghost predicate Startable(cat: Catalog, rows: seq<Row>, first: nat -> Bucket, r: Row, slot: Slot) {
    Takeable(cat, rows, first, r) && (r.candidate.bucket.G4? ==> slot.G4Probe?)
  }

  function FirstRow(rows: seq<Row>, wanted: Row -> bool): (found: Option<Row>)
    ensures found.None? <==> forall r | r in rows :: !wanted(r)
    ensures found.Some? ==> found.value in rows && wanted(found.value) && FirstOfKind(rows, wanted, found.value)
  {
    FirstOfRest(rows, wanted);
    if rows == [] then None else if wanted(rows[0]) then Some(rows[0]) else FirstRow(rows[1..], wanted)
  }

  lemma FirstOfRest(rows: seq<Row>, wanted: Row -> bool)
    ensures rows != [] && wanted(rows[0]) ==> FirstOfKind(rows, wanted, rows[0])
    ensures rows != [] && !wanted(rows[0]) ==> forall r | FirstOfKind(rows[1..], wanted, r) :: FirstOfKind(rows, wanted, r)
  {
    if rows != [] && !wanted(rows[0]) {
      forall r | FirstOfKind(rows[1..], wanted, r) ensures FirstOfKind(rows, wanted, r) {
        var i :| 0 <= i < |rows[1..]| && rows[1..][i] == r && forall j | 0 <= j < i :: !wanted(rows[1..][j]);
        assert rows[i + 1] == r;
        forall j | 0 <= j < i + 1 ensures !wanted(rows[j]) {
          if j > 0 { assert rows[j] == rows[1..][j - 1]; }
        }
      }
    }
  }

  lemma FirstIsOne(rows: seq<Row>, kind: Row -> bool, a: Row, b: Row)
    requires FirstOfKind(rows, kind, a) && FirstOfKind(rows, kind, b)
    ensures a == b
  {
  }

  function CandidatesOf(rows: seq<Row>): (cs: seq<Candidate>)
    ensures forall c :: c in cs <==> exists r :: r in rows && r.candidate == c
  {
    if rows == [] then [] else [rows[0].candidate] + CandidatesOf(rows[1..])
  }

  function Wanted(rows: seq<Row>, wanted: Row -> bool): (kept: seq<Row>)
    ensures forall r :: r in kept <==> r in rows && wanted(r)
  {
    if rows == [] then [] else (if wanted(rows[0]) then [rows[0]] else []) + Wanted(rows[1..], wanted)
  }

  function Seeds(rows: seq<Row>): (seeds: seq<Seed>)
    ensures |seeds| == |rows| && forall i | 0 <= i < |rows| :: seeds[i] == SeedOf(rows[i])
  {
    if rows == [] then [] else [SeedOf(rows[0])] + Seeds(rows[1..])
  }

  function Opt(r: Option<Row>): seq<Row> {
    if r.Some? then [r.value] else []
  }

  /** All split work, the first seed, the coverage seed, the first High seed and a probe. */
  function Offer(rows: seq<Row>, eligible: seq<Row>, coverage: Option<Row>): seq<Row> {
    Wanted(rows, AdaptiveWork) + Opt(if eligible == [] then None else Some(eligible[0])) + Opt(coverage)
    + Opt(FirstRow(rows, HighSeed)) + Opt(FirstProbe(rows))
  }

  function FirstProbe(rows: seq<Row>): Option<Row> {
    var exceptional := FirstRow(rows, (r: Row) => ProbeWork(r) && !r.seed);
    if exceptional.Some? then exceptional else FirstRow(rows, (r: Row) => ProbeWork(r) && r.seed)
  }

  /** Only Very High work is experimental, and IDs are a key. */
  ghost predicate ValidRows(rows: seq<Row>) {
    && (forall r | r in rows :: Classed(r.candidate))
    && (forall r, q | r in rows && q in rows && r.candidate.id == q.candidate.id :: r == q)
  }

  lemma ProbeFound(rows: seq<Row>)
    ensures FirstProbe(rows).None? <==> forall r | r in rows :: !ProbeWork(r)
    ensures FirstProbe(rows).Some? ==> FirstProbe(rows).value in rows && ProbeWork(FirstProbe(rows).value)
  {
  }

  ghost predicate OffersKind(offer: seq<Row>, veryHigh: bool) {
    exists q :: q in offer && q.candidate.bucket.G4? == veryHigh
  }

  /** What is offered may be taken, and something is offered of either kind of work there is. */
  ghost predicate Covers(cat: Catalog, rows: seq<Row>, first: nat -> Bucket, offer: seq<Row>) {
    && (forall r | r in offer :: Takeable(cat, rows, first, r))
    && (forall r | Takeable(cat, rows, first, r) :: OffersKind(offer, r.candidate.bucket.G4?))
  }

  lemma OfferIsTakeable(cat: Catalog, rows: seq<Row>, first: nat -> Bucket, eligible: seq<Row>, coverage: Option<Row>, r: Row)
    requires forall r :: r in eligible <==> MayStart(cat, rows, first, r)
    requires (coverage.Some? ==> coverage.value in eligible) && r in Offer(rows, eligible, coverage)
    ensures Takeable(cat, rows, first, r)
  {
    ProbeFound(rows);
    assert eligible != [] ==> eligible[0] in eligible;
  }

  lemma OfferHasKind(cat: Catalog, rows: seq<Row>, first: nat -> Bucket, eligible: seq<Row>, coverage: Option<Row>, r: Row)
    requires forall r :: r in eligible <==> MayStart(cat, rows, first, r)
    requires Takeable(cat, rows, first, r)
    ensures OffersKind(Offer(rows, eligible, coverage), r.candidate.bucket.G4?)
  {
    ProbeFound(rows);
    var offer := Offer(rows, eligible, coverage);
    if AdaptiveWork(r) {
      assert r in offer;
    } else if HighSeed(r) {
      var q := FirstRow(rows, HighSeed).value;
      assert q in offer && HighSeed(q);
    } else if MayStart(cat, rows, first, r) {
      var q := eligible[0];
      assert q in eligible && q in offer;
    } else {
      var q := FirstProbe(rows).value;
      assert q in offer && ProbeWork(q);
    }
  }

  lemma OfferCovers(cat: Catalog, rows: seq<Row>, first: nat -> Bucket, eligible: seq<Row>, coverage: Option<Row>)
    requires forall r :: r in eligible <==> MayStart(cat, rows, first, r)
    requires coverage.Some? ==> coverage.value in eligible
    ensures Covers(cat, rows, first, Offer(rows, eligible, coverage))
  {
    forall r | r in Offer(rows, eligible, coverage) ensures Takeable(cat, rows, first, r) {
      OfferIsTakeable(cat, rows, first, eligible, coverage, r);
    }
    forall r | Takeable(cat, rows, first, r) ensures OffersKind(Offer(rows, eligible, coverage), r.candidate.bucket.G4?) {
      OfferHasKind(cat, rows, first, eligible, coverage, r);
    }
  }

  /**
   * What competes for a slot: all queued work that came from a split, the seed that may start first, the first High
   * GMV seed, and the first exceptional probe, or failing that the first probe of a seed.
   */
  ghost predicate Competes(cat: Catalog, rows: seq<Row>, first: nat -> Bucket, r: Row) {
    || (r in rows && AdaptiveWork(r)) || FirstOfKind(rows, x => MayStart(cat, rows, first, x), r)
    || FirstOfKind(rows, HighSeed, r) || FirstOfKind(rows, (x: Row) => ProbeWork(x) && !x.seed, r)
    || ((forall x | x in rows :: !(ProbeWork(x) && !x.seed)) && FirstOfKind(rows, (x: Row) => ProbeWork(x) && x.seed, r))
  }

  lemma CompetesIsOffered(cat: Catalog, rows: seq<Row>, first: nat -> Bucket, eligible: seq<Row>, coverage: Option<Row>, r: Row)
    requires forall r :: r in eligible <==> MayStart(cat, rows, first, r)
    requires eligible != [] ==> FirstOfKind(rows, x => MayStart(cat, rows, first, x), eligible[0])
    requires Competes(cat, rows, first, r)
    ensures r in Offer(rows, eligible, coverage)
  {
    if r in rows && AdaptiveWork(r) {
    } else if FirstOfKind(rows, x => MayStart(cat, rows, first, x), r) {
      assert r in eligible;
      FirstIsOne(rows, x => MayStart(cat, rows, first, x), r, eligible[0]);
    } else if FirstOfKind(rows, HighSeed, r) {
      FirstIsOne(rows, HighSeed, r, FirstRow(rows, HighSeed).value);
    } else {
      ProbeCompetes(rows, r);
    }
  }

  /** And nothing else is considered, but for the seed that covers categories best. */
  lemma OfferedCompetes(cat: Catalog, rows: seq<Row>, first: nat -> Bucket, eligible: seq<Row>, coverage: Option<Row>, r: Row)
    requires eligible != [] ==> FirstOfKind(rows, x => MayStart(cat, rows, first, x), eligible[0])
    requires r in Offer(rows, eligible, coverage)
    ensures Competes(cat, rows, first, r) || coverage == Some(r)
  {
    if FirstProbe(rows) == Some(r) {
      var split := (x: Row) => ProbeWork(x) && !x.seed;
      if FirstRow(rows, split).None? { assert forall x | x in rows :: !split(x); }
    }
  }

  lemma ProbeCompetes(rows: seq<Row>, r: Row)
    requires FirstOfKind(rows, (x: Row) => ProbeWork(x) && !x.seed, r)
             || ((forall x | x in rows :: !(ProbeWork(x) && !x.seed)) && FirstOfKind(rows, (x: Row) => ProbeWork(x) && x.seed, r))
    ensures FirstProbe(rows) == Some(r)
  {
    var (split, seed) := ((x: Row) => ProbeWork(x) && !x.seed, (x: Row) => ProbeWork(x) && x.seed);
    if FirstOfKind(rows, split, r) {
      FirstIsOne(rows, split, r, FirstRow(rows, split).value);
    } else {
      FirstIsOne(rows, seed, r, FirstRow(rows, seed).value);
    }
  }

  /** Nothing that competes and fits the slot would have gone before the choice. */
  ghost predicate NothingGoesBefore(cat: Catalog, rows: seq<Row>, first: nat -> Bucket, slot: Slot, chosen: Option<Candidate>) {
    forall r | Competes(cat, rows, first, r) && FitsSlot(slot, r.candidate) :: chosen.Some? && GoesFirst(slot, chosen.value, r.candidate)
  }

  /** With productive Low or Medium split work in the queue, the choice is such work, the best of it. */
  predicate TakesProductive(rows: seq<Row>, chosen: Option<Candidate>) {
    forall r | r in rows && AdaptiveWork(r) && LowOrMedium(r.candidate) && r.candidate.class_.High? ::
      chosen.Some? && LowOrMedium(chosen.value) && chosen.value.class_.High? && chosen.value.score >= r.candidate.score
      && (chosen.value.score == r.candidate.score ==> chosen.value.position <= r.candidate.position)
  }

  lemma ProductiveIsTaken(cat: Catalog, rows: seq<Row>, first: nat -> Bucket, chosen: Option<Candidate>)
    requires NothingGoesBefore(cat, rows, first, PrimaryProductive, chosen)
    ensures TakesProductive(rows, chosen)
  {
    forall r | r in rows && AdaptiveWork(r) && LowOrMedium(r.candidate) && r.candidate.class_.High?
      ensures chosen.Some? && GoesFirst(PrimaryProductive, chosen.value, r.candidate)
    {
      assert Competes(cat, rows, first, r) && FitsSlot(PrimaryProductive, r.candidate);
    }
  }

  lemma ChosenGoesFirst(cat: Catalog, rows: seq<Row>, first: nat -> Bucket, eligible: seq<Row>, coverage: Option<Row>, slot: Slot)
    requires ValidRows(rows) && (forall r :: r in eligible <==> MayStart(cat, rows, first, r))
    requires eligible != [] ==> FirstOfKind(rows, x => MayStart(cat, rows, first, x), eligible[0])
    requires coverage.Some? ==> coverage.value in eligible
    ensures NothingGoesBefore(cat, rows, first, slot, Select(CandidatesOf(Offer(rows, eligible, coverage)), slot))
  {
    var cs := CandidatesOf(Offer(rows, eligible, coverage));
    OfferCovers(cat, rows, first, eligible, coverage);
    OfferedAreClassed(cat, rows, first, Offer(rows, eligible, coverage));
    forall r | Competes(cat, rows, first, r) && FitsSlot(slot, r.candidate)
      ensures Select(cs, slot).Some? && GoesFirst(slot, Select(cs, slot).value, r.candidate)
    {
      CompetesIsOffered(cat, rows, first, eligible, coverage, r);
      assert r.candidate in cs;
      SelectsWhateverThereIs(cs, slot);
      SelectsFirst(cs, slot, r.candidate);
    }
  }

  // ---------------------------------------------------------------- the claim

  function ModeOf(cat: Catalog, eligible: seq<Row>): Mode {
    ModeFor(cat, Seeds(eligible))
  }

  /** The eligible seed the category order puts first. */
  method CoverageSeed(cat: Catalog, rows: seq<Row>, eligible: seq<Row>) returns (seed: Option<Row>)
    requires forall r | r in eligible :: r in rows && WellFormed(cat, r)
    ensures forall x | x in Seeds(eligible) :: Known(cat, x)
    ensures seed.None? <==> eligible == []
    ensures seed.Some? ==> seed.value in eligible && SelectCategory(cat, Seeds(eligible), ModeOf(cat, eligible)) == Some(SeedOf(seed.value))
  {
    var seeds := Seeds(eligible);
    forall x | x in seeds ensures Known(cat, x) {
      var i :| 0 <= i < |seeds| && seeds[i] == x;
      assert eligible[i] in eligible;
    }
    var best := SelectCategory(cat, seeds, ModeOf(cat, eligible));
    if best.None? { return None; }
    var i :| 0 <= i < |seeds| && seeds[i] == best.value;
    seed := Some(eligible[i]);
  }

  /** The choice is the eligible seed the category order puts first. */
  ghost predicate CoversBest(cat: Catalog, eligible: seq<Row>, mode: Mode, chosen: Candidate) {
    && (forall x | x in Seeds(eligible) :: Known(cat, x))
    && exists r :: r in eligible && r.candidate == chosen && SelectCategory(cat, Seeds(eligible), mode) == Some(SeedOf(r))
  }

  ghost predicate CompetesAs(cat: Catalog, rows: seq<Row>, first: nat -> Bucket, chosen: Candidate) {
    exists r {:trigger Competes(cat, rows, first, r)} :: Competes(cat, rows, first, r) && r.candidate == chosen
  }

  /** Nothing is chosen exactly when nothing may start in the slot, and what is chosen may. */
  ghost predicate StartsIfAny(cat: Catalog, rows: seq<Row>, first: nat -> Bucket, slot: Slot, chosen: Option<Candidate>) {
    && (chosen.None? <==> forall r :: !Startable(cat, rows, first, r, slot))
    && (chosen.Some? ==> exists r :: Startable(cat, rows, first, r, slot) && r.candidate == chosen.value)
  }

  /** A row as the claim finds it: queued, a Low or Medium seed with its category still in the catalog, or a Very High one set aside whose own evidence or seed entitles it to a probe. */
  ghost predicate TakesItsKind(cat: Catalog, rows: seq<Row>, slot: Slot, chosen: Candidate) {
    exists r :: r in rows && r.candidate == chosen
      && if r.candidate.bucket == G4 then slot == G4Probe && r.status == Status.ExperimentOnly && (r.seed || r.exceptional)
         else r.status == Status.Queued && (r.seed && r.candidate.bucket != G3 ==> r.sane && InCatalog(cat, r.child))
  }

  predicate InCatalog(cat: Catalog, child: CategoryId) {
    child in cat.children && cat.children[child].parent in cat.parents
  }

  lemma StartableIsItsKind(cat: Catalog, rows: seq<Row>, first: nat -> Bucket, slot: Slot, chosen: Candidate)
    requires ValidRows(rows) && exists r :: Startable(cat, rows, first, r, slot) && r.candidate == chosen
    ensures TakesItsKind(cat, rows, slot, chosen)
  {
    var r :| Startable(cat, rows, first, r, slot) && r.candidate == chosen;
    assert r in rows && r.candidate == chosen;
  }

  /** What is said of a choice in its slot, from rows and eligible seeds. */
  ghost predicate ChoosesWell(cat: Catalog, rows: seq<Row>, first: nat -> Bucket, eligible: seq<Row>, mode: Mode, slot: Slot,
                              chosen: Option<Candidate>) {
    && StartsIfAny(cat, rows, first, slot, chosen) && (chosen.Some? ==> TakesItsKind(cat, rows, slot, chosen.value))
    && (if slot.PrimaryExploration? && eligible != [] then chosen.Some? && CoversBest(cat, eligible, mode, chosen.value)
        else NothingGoesBefore(cat, rows, first, slot, chosen))
    && (slot.PrimaryProductive? ==> TakesProductive(rows, chosen))
    && (chosen.Some? ==> CompetesAs(cat, rows, first, chosen.value) || CoversBest(cat, eligible, mode, chosen.value))
  }

  lemma OfferStarts(cat: Catalog, rows: seq<Row>, first: nat -> Bucket, eligible: seq<Row>, coverage: Option<Row>, slot: Slot)
    requires ValidRows(rows) && (forall r :: r in eligible <==> MayStart(cat, rows, first, r))
    requires coverage.Some? ==> coverage.value in eligible
    ensures StartsIfAny(cat, rows, first, slot, Select(CandidatesOf(Offer(rows, eligible, coverage)), slot))
  {
    var offer := Offer(rows, eligible, coverage);
    OfferCovers(cat, rows, first, eligible, coverage);
    NothingChosenExactly(cat, rows, first, offer, slot);
    if Select(CandidatesOf(offer), slot).Some? { ChosenIsStartable(cat, rows, first, offer, slot); }
  }

  lemma OfferFrom(cat: Catalog, rows: seq<Row>, first: nat -> Bucket, eligible: seq<Row>, coverage: Option<Row>, mode: Mode, slot: Slot)
    requires eligible != [] ==> FirstOfKind(rows, x => MayStart(cat, rows, first, x), eligible[0])
    requires coverage.Some? ==> CoversBest(cat, eligible, mode, coverage.value.candidate)
    ensures var chosen := Select(CandidatesOf(Offer(rows, eligible, coverage)), slot);
            chosen.Some? ==> CompetesAs(cat, rows, first, chosen.value) || CoversBest(cat, eligible, mode, chosen.value)
  {
    var offer := Offer(rows, eligible, coverage);
    if Select(CandidatesOf(offer), slot).Some? {
      var r := ChosenIsOffered(offer, slot);
      OfferedCompetes(cat, rows, first, eligible, coverage, r);
    }
  }

  lemma OfferChoosesWell(cat: Catalog, rows: seq<Row>, first: nat -> Bucket, eligible: seq<Row>, coverage: Option<Row>, mode: Mode, slot: Slot)
    requires ValidRows(rows) && (forall r :: r in eligible <==> MayStart(cat, rows, first, r))
    requires eligible != [] ==> FirstOfKind(rows, x => MayStart(cat, rows, first, x), eligible[0])
    requires coverage.Some? ==> coverage.value in eligible && CoversBest(cat, eligible, mode, coverage.value.candidate)
    requires slot.PrimaryExploration? ==> eligible == []
    ensures ChoosesWell(cat, rows, first, eligible, mode, slot, Select(CandidatesOf(Offer(rows, eligible, coverage)), slot))
  {
    OfferStarts(cat, rows, first, eligible, coverage, slot);
    var chosen := Select(CandidatesOf(Offer(rows, eligible, coverage)), slot);
    if chosen.Some? { StartableIsItsKind(cat, rows, first, slot, chosen.value); }
    OfferFrom(cat, rows, first, eligible, coverage, mode, slot);
    ChosenGoesFirst(cat, rows, first, eligible, coverage, slot);
    if slot.PrimaryProductive? { ProductiveIsTaken(cat, rows, first, Select(CandidatesOf(Offer(rows, eligible, coverage)), slot)); }
  }

  lemma CoverageChoosesWell(cat: Catalog, rows: seq<Row>, first: nat -> Bucket, eligible: seq<Row>, seed: Row, mode: Mode)
    requires ValidRows(rows) && seed in eligible && MayStart(cat, rows, first, seed) && CoversBest(cat, eligible, mode, seed.candidate)
    ensures ChoosesWell(cat, rows, first, eligible, mode, PrimaryExploration, Some(seed.candidate))
  {
    assert Startable(cat, rows, first, seed, PrimaryExploration);
    StartableIsItsKind(cat, rows, first, PrimaryExploration, seed.candidate);
  }

  /**
   * A claim finds nothing exactly when nothing in the rows may start in its slot.  In the
   * exploration slot it takes the seed that covers categories best, whenever a seed may start;
   * otherwise nothing that competes for the slot would have gone before what it takes.
   */
  method ClaimNext(cat: Catalog, rows: seq<Row>, first: nat -> Bucket, claim: nat)
    returns (chosen: Option<Candidate>, mode: Mode, eligible: seq<Row>)
    requires claim >= 1 && ValidRows(rows)
    ensures forall r :: r in eligible <==> MayStart(cat, rows, first, r)
    ensures mode == ModeOf(cat, eligible)
    ensures ChoosesWell(cat, rows, first, eligible, mode, SlotOf(claim, mode), chosen)
  {
    eligible := EligibleSeeds(cat, rows, first);
    mode := ModeOf(cat, eligible);
    var slot := SlotOf(claim, mode);
    var coverage := CoverageSeed(cat, rows, eligible);
    if slot.PrimaryExploration? && coverage.Some? {
      CoverageChoosesWell(cat, rows, first, eligible, coverage.value, mode);
      return Some(coverage.value.candidate), mode, eligible;
    }
    OfferChoosesWell(cat, rows, first, eligible, coverage, mode, slot);
    chosen := Select(CandidatesOf(Offer(rows, eligible, coverage)), slot);
  }

  lemma ChosenIsOffered(offer: seq<Row>, slot: Slot) returns (r: Row)
    requires Select(CandidatesOf(offer), slot).Some?
    ensures r in offer && r.candidate == Select(CandidatesOf(offer), slot).value
  {
    r :| r in offer && r.candidate == Select(CandidatesOf(offer), slot).value;
  }

  lemma OfferedAreClassed(cat: Catalog, rows: seq<Row>, first: nat -> Bucket, offer: seq<Row>)
    requires ValidRows(rows) && Covers(cat, rows, first, offer)
    ensures forall c | c in CandidatesOf(offer) :: Classed(c)
  {
    forall c | c in CandidatesOf(offer) ensures Classed(c) {
      var r :| r in offer && r.candidate == c;
      assert Takeable(cat, rows, first, r);
    }
  }

  lemma ChosenIsStartable(cat: Catalog, rows: seq<Row>, first: nat -> Bucket, offer: seq<Row>, slot: Slot)
    requires Covers(cat, rows, first, offer) && Select(CandidatesOf(offer), slot).Some?
    ensures exists r :: Startable(cat, rows, first, r, slot) && r.candidate == Select(CandidatesOf(offer), slot).value
  {
    SelectedFits(CandidatesOf(offer), slot);
    var r :| r in offer && r.candidate == Select(CandidatesOf(offer), slot).value;
    assert Startable(cat, rows, first, r, slot);
  }

  /** Some candidate fits the slot. */
  predicate Fits(cs: seq<Candidate>, slot: Slot) {
    exists c :: c in cs && (c.bucket.G4? ==> slot.G4Probe?)
  }

  lemma StartableFits(cat: Catalog, rows: seq<Row>, first: nat -> Bucket, offer: seq<Row>, slot: Slot, r: Row)
    requires Covers(cat, rows, first, offer) && Startable(cat, rows, first, r, slot)
    ensures Fits(CandidatesOf(offer), slot)
  {
    var q :| q in offer && q.candidate.bucket.G4? == r.candidate.bucket.G4?;
    assert q.candidate in CandidatesOf(offer);
  }

  lemma FitsIsChosen(cs: seq<Candidate>, slot: Slot)
    requires forall c | c in cs :: Classed(c)
    ensures Fits(cs, slot) <==> Select(cs, slot).Some?
  {
    SelectsWhateverThereIs(cs, slot);
  }

  lemma NothingChosenExactly(cat: Catalog, rows: seq<Row>, first: nat -> Bucket, offer: seq<Row>, slot: Slot)
    requires ValidRows(rows) && Covers(cat, rows, first, offer)
    ensures Select(CandidatesOf(offer), slot).None? <==> forall r :: !Startable(cat, rows, first, r, slot)
  {
    OfferedAreClassed(cat, rows, first, offer);
    FitsIsChosen(CandidatesOf(offer), slot);
    if Select(CandidatesOf(offer), slot).Some? { ChosenIsStartable(cat, rows, first, offer, slot); }
    forall r | Startable(cat, rows, first, r, slot) ensures Fits(CandidatesOf(offer), slot) {
      StartableFits(cat, rows, first, offer, slot, r);
    }
  }

  /** Very High work is chosen in its own slot only. */
  lemma SelectedFits(cs: seq<Candidate>, slot: Slot)
    ensures Select(cs, slot).Some? && !slot.G4Probe? ==> !Select(cs, slot).value.bucket.G4?
  {
    if !slot.G4Probe? { PoolsFit(cs, PoolsOf(slot)); }
  }

  lemma {:induction false} PoolsFit(cs: seq<Candidate>, pools: seq<Pool>)
    requires forall p | p in pools :: !p.group.Probe?
    ensures FirstOf(cs, pools).Some? ==> !FirstOf(cs, pools).value.bucket.G4?
  {
    if pools != [] { PoolsFit(cs, pools[1..]); }
  }

  // ------------------------------------------------------------ generated rows

  /** Generated rows: the two seeds of a family share their range and category, and with them their snapshot. */
  ghost predicate Generated(cat: Catalog, rows: seq<Row>, first: nat -> Bucket) {
    && ValidRows(rows) && (forall f :: first(f).G1? || first(f).G2?)
    && (forall r, q | r in rows && q in rows && PrimarySeed(r) && PrimarySeed(q) && r.family == q.family ::
          WellFormed(cat, r) == WellFormed(cat, q))
  }

  /** Work the crawler may do: queued, not Very High, and well-formed if it is a Low or Medium seed. */
  predicate Work(cat: Catalog, r: Row) {
    r.status.Queued? && !r.candidate.bucket.G4? && (PrimarySeed(r) ==> WellFormed(cat, r))
  }

  /** Work is never stuck behind the seed that must go first. */
  lemma WorkMayStart(cat: Catalog, rows: seq<Row>, first: nat -> Bucket, r: Row, slot: Slot)
    requires Generated(cat, rows, first) && r in rows && Work(cat, r)
    ensures exists q :: Startable(cat, rows, first, q, slot)
  {
    if PrimarySeed(r) && !MayStart(cat, rows, first, r) {
      assert first(r.family) in BucketsOf(rows, r.family);
      var q :| q in rows && PrimarySeed(q) && q.family == r.family && q.candidate.bucket == first(r.family);
      assert !(q.started || !q.status.Queued?);
      assert MayStart(cat, rows, first, q);
      assert Startable(cat, rows, first, q, slot);
    } else {
      assert Startable(cat, rows, first, r, slot);
    }
  }

  /** Work-conserving: over generated rows a claim finds nothing exactly when there is no work, and no probe in its slot. */
  method ClaimWork(cat: Catalog, rows: seq<Row>, first: nat -> Bucket, claim: nat) returns (chosen: Option<Candidate>, slot: Slot)
    requires claim >= 1 && Generated(cat, rows, first)
    ensures chosen.None? <==> forall r | r in rows :: !Work(cat, r) && !(slot.G4Probe? && ProbeWork(r))
    ensures slot == SlotOf(claim, Coverage) || slot == SlotOf(claim, Balanced)
  {
    var mode, eligible;
    chosen, mode, eligible := ClaimNext(cat, rows, first, claim);
    slot := SlotOf(claim, mode);
    NothingStartsExactly(cat, rows, first, slot);
  }

  lemma NothingStartsExactly(cat: Catalog, rows: seq<Row>, first: nat -> Bucket, slot: Slot)
    requires Generated(cat, rows, first)
    ensures (forall r :: !Startable(cat, rows, first, r, slot))
            <==> forall r | r in rows :: !Work(cat, r) && !(slot.G4Probe? && ProbeWork(r))
  {
    forall r | r in rows && (Work(cat, r) || (slot.G4Probe? && ProbeWork(r))) ensures exists q :: Startable(cat, rows, first, q, slot) {
      if Work(cat, r) { WorkMayStart(cat, rows, first, r, slot); } else { assert Startable(cat, rows, first, r, slot); }
    }
    forall r | Startable(cat, rows, first, r, slot) ensures r in rows && (Work(cat, r) || (slot.G4Probe? && ProbeWork(r))) {
    }
  }
}
