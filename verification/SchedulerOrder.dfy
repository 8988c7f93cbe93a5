/** The order in which a slot takes work, by bucket and class, against the pools it is chosen from. */
module SchedulerOrder {
  import opened Options
  import opened Scheduler

  /** The Low and the Medium GMV bucket. */
  predicate LowOrMedium(c: Candidate) {
    c.bucket.G1? || c.bucket.G2?
  }

  /** High GMV work in its own order. */
  function HighTurn(c: Class): nat {
    match c case High => 0 case Medium => 1 case Exploration => 2 case Low => 3 case ExperimentOnly => 9
  }

  /** Productive work first, then the promising before the unknown; low-value work last. */
  function ProductiveTurn(c: Candidate): nat {
    if LowOrMedium(c) then
      match c.class_ case High => 0 case Medium => 1 case Exploration => 2 case Low => 7 case ExperimentOnly => 9
    else if c.bucket.G3? then 3 + HighTurn(c.class_) else 9
  }

  /** The unknown first, then the promising, then the productive. */
  function ExplorationTurn(c: Candidate): nat {
    if LowOrMedium(c) then
      match c.class_ case Exploration => 0 case Medium => 1 case High => 2 case Low => 7 case ExperimentOnly => 9
    else if c.bucket.G3? then 3 + HighTurn(c.class_) else 9
  }

  /** All High GMV work first. */
  function High3Turn(c: Candidate): nat {
    if c.bucket.G3? then HighTurn(c.class_)
    else if LowOrMedium(c) then
      match c.class_ case High => 4 case Medium => 5 case Exploration => 6 case Low => 7 case ExperimentOnly => 9
    else 9
  }

  /** When its turn comes in a slot; the smaller is taken first. */
  function Turn(slot: Slot, c: Candidate): nat {
    match slot
    case PrimaryProductive => ProductiveTurn(c)
    case PrimaryExploration => ExplorationTurn(c)
    case G3Exploration => High3Turn(c)
    case G4Probe => if c.bucket.G4? then 0 else 1 + ProductiveTurn(c)
  }

  /** Of the same kind the higher score goes first, then the earlier place in the queue. */
  predicate Outranks(a: Candidate, b: Candidate) {
    a.score > b.score || (a.score == b.score && (a.position < b.position || (a.position == b.position && a.id <= b.id)))
  }

  predicate GoesFirst(slot: Slot, a: Candidate, b: Candidate) {
    Turn(slot, a) < Turn(slot, b) || (Turn(slot, a) == Turn(slot, b) && Outranks(a, b))
  }

  /** Very High work is taken in its own slot only. */
  predicate FitsSlot(slot: Slot, c: Candidate) {
    c.bucket.G4? ==> slot.G4Probe?
  }

  /** The first pool with anything in it decides. */
  lemma {:induction false} FirstPoolDecides(cs: seq<Candidate>, pools: seq<Pool>) returns (i: nat)
    requires FirstOf(cs, pools).Some?
    ensures i < |pools| && InPool(FirstOf(cs, pools).value, pools[i])
    ensures forall c, j | c in cs && 0 <= j < i :: !InPool(c, pools[j])
    ensures forall c | c in cs && InPool(c, pools[i]) :: Earlier(FirstOf(cs, pools).value, c, pools[i])
  {
    if FirstIn(cs, pools[0]).Some? {
      i := 0;
    } else {
      var k := FirstPoolDecides(cs, pools[1..]);
      i := k + 1;
      forall c, j | c in cs && 0 <= j < i ensures !InPool(c, pools[j]) {
        if j > 0 { assert pools[j] == pools[1..][j - 1]; }
      }
    }
  }

  /** How many classes the pools before the `i`-th take. */
  function StartOf(pools: seq<Pool>, i: nat): nat
    requires i <= |pools|
  {
    if i == 0 then 0 else StartOf(pools, i - 1) + |pools[i - 1].classes|
  }

  lemma {:induction false} StartsGrow(pools: seq<Pool>, i: nat, j: nat)
    requires i < j <= |pools|
    ensures StartOf(pools, i) + |pools[i].classes| <= StartOf(pools, j)
  {
    if i < j - 1 { StartsGrow(pools, i, j - 1); }
  }

  lemma RankIs(c: Class, a: Class, b: Class)
    ensures Rank(c, [a]) == (if c == a then 0 else 1)
    ensures Rank(c, [a, b]) == if c == a then 0 else if c == b then 1 else 2
  {
    assert Rank(c, []) == 0;
    assert Rank(c, [a]) == (if a == c then 0 else 1 + Rank(c, [a][1..])) && [a][1..] == [];
    assert Rank(c, [b]) == (if b == c then 0 else 1 + Rank(c, [b][1..])) && [b][1..] == [];
    assert Rank(c, [a, b]) == (if a == c then 0 else 1 + Rank(c, [a, b][1..])) && [a, b][1..] == [b];
  }

  lemma Starts(pools: seq<Pool>)
    requires |pools| >= 5
    ensures StartOf(pools, 1) == |pools[0].classes|
    ensures StartOf(pools, 2) == |pools[0].classes| + |pools[1].classes|
    ensures StartOf(pools, 3) == |pools[0].classes| + |pools[1].classes| + |pools[2].classes|
    ensures StartOf(pools, 4) == |pools[0].classes| + |pools[1].classes| + |pools[2].classes| + |pools[3].classes|
    ensures |pools| > 5 ==> StartOf(pools, 5) == StartOf(pools, 4) + |pools[4].classes|
  {
    assert StartOf(pools, 2) == StartOf(pools, 1) + |pools[1].classes|;
    assert StartOf(pools, 3) == StartOf(pools, 2) + |pools[2].classes|;
    assert StartOf(pools, 4) == StartOf(pools, 3) + |pools[3].classes|;
  }

  lemma RanksOf(p: Pool, c: Class)
    requires |p.classes| == 1 || |p.classes| == 2
    ensures Rank(c, p.classes) == if c == p.classes[0] then 0 else if |p.classes| == 1 then 1 else if c == p.classes[1] then 1 else 2
  {
    RankIs(c, p.classes[0], p.classes[|p.classes| - 1]);
    assert p.classes == [p.classes[0]] || p.classes == [p.classes[0], p.classes[1]];
  }

  /** The place of a class among the pools of a slot is its turn. */
  predicate Placed(slot: Slot, c: Candidate, i: nat)
    requires i < |PoolsOf(slot)|
  {
    var pool := PoolsOf(slot)[i];
    Rank(c.class_, pool.classes) < |pool.classes| && Turn(slot, c) == StartOf(PoolsOf(slot), i) + Rank(c.class_, pool.classes)
  }

  lemma ProductivePlace(c: Candidate, i: nat)
    requires Classed(c) && i < |PoolsOf(PrimaryProductive)| && InPool(c, PoolsOf(PrimaryProductive)[i])
    ensures Placed(PrimaryProductive, c, i)
  {
    Starts(PoolsOf(PrimaryProductive));
    RanksOf(PoolsOf(PrimaryProductive)[i], c.class_);
  }

  lemma ExplorationPlace(c: Candidate, i: nat)
    requires Classed(c) && i < |PoolsOf(PrimaryExploration)| && InPool(c, PoolsOf(PrimaryExploration)[i])
    ensures Placed(PrimaryExploration, c, i)
  {
    Starts(PoolsOf(PrimaryExploration));
    RanksOf(PoolsOf(PrimaryExploration)[i], c.class_);
  }

  lemma High3Place(c: Candidate, i: nat)
    requires Classed(c) && i < |PoolsOf(G3Exploration)| && InPool(c, PoolsOf(G3Exploration)[i])
    ensures Placed(G3Exploration, c, i)
  {
    Starts(PoolsOf(G3Exploration));
    RanksOf(PoolsOf(G3Exploration)[i], c.class_);
  }

  lemma ProbePlace(c: Candidate, i: nat)
    requires Classed(c) && i < |PoolsOf(G4Probe)| && InPool(c, PoolsOf(G4Probe)[i])
    ensures Placed(G4Probe, c, i)
  {
    Starts(PoolsOf(G4Probe));
    RanksOf(PoolsOf(G4Probe)[i], c.class_);
  }

  lemma TurnIsPlace(slot: Slot, c: Candidate, i: nat)
    requires Classed(c) && i < |PoolsOf(slot)| && InPool(c, PoolsOf(slot)[i])
    ensures Placed(slot, c, i)
  {
    match slot
    case PrimaryProductive => ProductivePlace(c, i);
    case PrimaryExploration => ExplorationPlace(c, i);
    case G3Exploration => High3Place(c, i);
    case G4Probe => ProbePlace(c, i);
  }

  lemma TurnsCompare(slot: Slot, a: Candidate, b: Candidate, i: nat, j: nat)
    requires Classed(a) && Classed(b) && i < |PoolsOf(slot)| && j < |PoolsOf(slot)|
    requires InPool(a, PoolsOf(slot)[i]) && InPool(b, PoolsOf(slot)[j])
    requires i < j || (i == j && Earlier(a, b, PoolsOf(slot)[i]))
    ensures GoesFirst(slot, a, b)
  {
    TurnIsPlace(slot, a, i);
    TurnIsPlace(slot, b, j);
    if i < j { StartsGrow(PoolsOf(slot), i, j); }
  }

  /** What a slot selects goes before everything it could have selected. */
  lemma SelectsFirst(cs: seq<Candidate>, slot: Slot, c: Candidate)
    requires (forall x | x in cs :: Classed(x)) && Select(cs, slot).Some? && c in cs && FitsSlot(slot, c)
    ensures GoesFirst(slot, Select(cs, slot).value, c)
  {
    var pools := PoolsOf(slot);
    var i := FirstPoolDecides(cs, pools);
    EveryClassHasAPool(c, slot);
    var p :| p in pools && InPool(c, p);
    var j :| 0 <= j < |pools| && pools[j] == p;
    TurnsCompare(slot, Select(cs, slot).value, c, i, j);
  }

  /** In a productive slot: productive Low or Medium work whenever there is any, the best of it. */
  lemma ProductiveTakesHigh(cs: seq<Candidate>, c: Candidate)
    requires (forall x | x in cs :: Classed(x)) && c in cs && LowOrMedium(c) && c.class_.High?
    ensures var best := Select(cs, PrimaryProductive);
            && best.Some? && LowOrMedium(best.value) && best.value.class_.High?
            && best.value.score >= c.score && (best.value.score == c.score ==> best.value.position <= c.position)
  {
    SelectsWhateverThereIs(cs, PrimaryProductive);
    SelectsFirst(cs, PrimaryProductive, c);
  }
}
