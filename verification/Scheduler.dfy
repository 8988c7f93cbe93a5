/**
 * What kind of partition the crawler asks next: slots by claim number, and pools by slot.
 */
module Scheduler {
  import opened Options

  datatype Slot = PrimaryProductive | PrimaryExploration | G3Exploration | G4Probe
  datatype Mode = Coverage | Balanced
  datatype Bucket = G1 | G2 | G3 | G4
  datatype Class = High | Medium | Exploration | Low | ExperimentOnly

  const CADENCE: nat := 100
  const CYCLE: nat := 10

  // ------------------------------------------------------------------- slots

  function SlotOf(claim: nat, mode: Mode): Slot
    requires claim >= 1
  {
    if claim % CADENCE == 0 then G4Probe
    else
      var position := (claim - 1) % CYCLE + 1;
      if position <= (if mode.Coverage? then 4 else 6) then PrimaryProductive
      else if position <= 9 then PrimaryExploration
      else G3Exploration
  }

  function CountSlots(from: nat, n: nat, mode: Mode, slot: Slot): nat
    requires from >= 1
  {
    if n == 0 then 0 else CountSlots(from, n - 1, mode, slot) + if SlotOf(from + n - 1, mode) == slot then 1 else 0
  }

  lemma {:induction false} CountSplits(from: nat, a: nat, b: nat, mode: Mode, slot: Slot)
    requires from >= 1
    ensures CountSlots(from, a + b, mode, slot) == CountSlots(from, a, mode, slot) + CountSlots(from + a, b, mode, slot)
  {
    if b > 0 { CountSplits(from, a, b - 1, mode, slot); }
  }

  function Share(mode: Mode, slot: Slot): nat {
    match slot
    case PrimaryProductive => if mode.Coverage? then 40 else 60
    case PrimaryExploration => if mode.Coverage? then 50 else 30
    case G3Exploration => 9
    case G4Probe => 1
  }

  /** One cycle of ten claims; the last claim of every tenth cycle is a probe. */
  lemma OneCycle(d: nat, mode: Mode, slot: Slot)
    ensures CountSlots(10 * d + 1, 10, mode, slot) ==
      match slot
      case PrimaryProductive => if mode.Coverage? then 4 else 6
      case PrimaryExploration => if mode.Coverage? then 5 else 3
      case G3Exploration => if d % 10 == 9 then 0 else 1
      case G4Probe => if d % 10 == 9 then 1 else 0
  {
    var from := 10 * d + 1;
    FiveSlots(d, 0, mode, slot);
    FiveSlots(d, 5, mode, slot);
    CountSplits(from, 5, 5, mode, slot);
  }

  function SlotAt(d: nat, k: nat, mode: Mode): Slot
    requires k < 10
  {
    if d % 10 == 9 && k == 9 then G4Probe
    else if k < (if mode.Coverage? then 4 else 6) then PrimaryProductive
    else if k < 9 then PrimaryExploration
    else G3Exploration
  }

  lemma SlotInCycle(d: nat, k: nat, mode: Mode)
    requires k < 10
    ensures SlotOf(10 * d + 1 + k, mode) == SlotAt(d, k, mode)
  {
    assert (10 * d + k) % 10 == k;
    assert (10 * d + 1 + k) % 100 == (10 * (d % 10) + 1 + k) % 100 by {
      assert d == 10 * (d / 10) + d % 10;
      assert 10 * d + 1 + k == 100 * (d / 10) + (10 * (d % 10) + 1 + k);
    }
  }

  lemma FiveSlots(d: nat, k: nat, mode: Mode, slot: Slot)
    requires k == 0 || k == 5
    ensures CountSlots(10 * d + 1 + k, 5, mode, slot) ==
      (if SlotAt(d, k, mode) == slot then 1 else 0) + (if SlotAt(d, k + 1, mode) == slot then 1 else 0)
      + (if SlotAt(d, k + 2, mode) == slot then 1 else 0) + (if SlotAt(d, k + 3, mode) == slot then 1 else 0)
      + (if SlotAt(d, k + 4, mode) == slot then 1 else 0)
  {
    SlotInCycle(d, k, mode);
    SlotInCycle(d, k + 1, mode);
    SlotInCycle(d, k + 2, mode);
    SlotInCycle(d, k + 3, mode);
    SlotInCycle(d, k + 4, mode);
    var from := 10 * d + 1 + k;
    assert CountSlots(from, 1, mode, slot) == if SlotAt(d, k, mode) == slot then 1 else 0;
    assert CountSlots(from, 2, mode, slot) == CountSlots(from, 1, mode, slot) + if SlotAt(d, k + 1, mode) == slot then 1 else 0;
    assert CountSlots(from, 3, mode, slot) == CountSlots(from, 2, mode, slot) + if SlotAt(d, k + 2, mode) == slot then 1 else 0;
    assert CountSlots(from, 4, mode, slot) == CountSlots(from, 3, mode, slot) + if SlotAt(d, k + 3, mode) == slot then 1 else 0;
  }

  lemma {:induction false} Cycles(n: nat, mode: Mode, slot: Slot)
    requires n <= 10
    ensures CountSlots(1, 10 * n, mode, slot) ==
      match slot
      case PrimaryProductive => if mode.Coverage? then 4 * n else 6 * n
      case PrimaryExploration => if mode.Coverage? then 5 * n else 3 * n
      case G3Exploration => if n == 10 then 9 else n
      case G4Probe => if n == 10 then 1 else 0
  {
    if n > 0 {
      Cycles(n - 1, mode, slot);
      OneCycle(n - 1, mode, slot);
      CountSplits(1, 10 * (n - 1), 10, mode, slot);
    }
  }

  lemma SlotsRepeat(claim: nat, mode: Mode)
    requires claim >= 1
    ensures SlotOf(claim + 100, mode) == SlotOf(claim, mode)
  {
  }

  /** Any hundred claims in a row split 40/50/9/1 while covering categories and 60/30/9/1 when balanced. */
  lemma {:induction false} SharesOfAHundred(from: nat, mode: Mode, slot: Slot)
    requires from >= 1
    ensures CountSlots(from, 100, mode, slot) == Share(mode, slot)
  {
    if from == 1 {
      Cycles(10, mode, slot);
    } else {
      SharesOfAHundred(from - 1, mode, slot);
      CountSplits(from - 1, 1, 100, mode, slot);
      CountSplits(from - 1, 100, 1, mode, slot);
      SlotsRepeat(from - 1, mode);
      assert CountSlots(from - 1, 1, mode, slot) == CountSlots(from + 99, 1, mode, slot) by {
        assert CountSlots(from - 1, 0, mode, slot) == 0 && CountSlots(from + 99, 0, mode, slot) == 0;
      }
    }
  }

  // ------------------------------------------------------------------- pools

  datatype Candidate = Candidate(id: nat, bucket: Bucket, class_: Class, score: int, position: nat)
  datatype Group = Primary | High3 | Probe
  datatype Pool = Pool(group: Group, classes: seq<Class>)

  function GroupOf(b: Bucket): Group {
    match b case G1 => Primary case G2 => Primary case G3 => High3 case G4 => Probe
  }

  function PoolsOf(slot: Slot): seq<Pool> {
    var productive := Pool(Primary, [High]);
    var unknown := Pool(Primary, if slot.PrimaryExploration? then [Exploration, Medium] else [Medium, Exploration]);
    var productive3, general3, low := Pool(High3, [High, Medium]), Pool(High3, [Exploration, Low]), Pool(Primary, [Low]);
    match slot
    case G4Probe => [Pool(Probe, [ExperimentOnly]), productive, unknown, productive3, general3, low]
    case G3Exploration => [productive3, general3, productive, unknown, low]
    case PrimaryExploration => [unknown, productive, productive3, general3, low]
    case PrimaryProductive => [productive, unknown, productive3, general3, low]
  }

  predicate InPool(c: Candidate, p: Pool) {
    GroupOf(c.bucket) == p.group && c.class_ in p.classes
  }

  function Rank(c: Class, classes: seq<Class>): nat {
    if classes == [] || classes[0] == c then 0 else 1 + Rank(c, classes[1..])
  }

  /** Class first, then the higher score, then the earlier place in the queue, then the ID. */
  predicate Earlier(a: Candidate, b: Candidate, p: Pool) {
    var (x, y) := (Rank(a.class_, p.classes), Rank(b.class_, p.classes));
    || x < y
    || (x == y && (a.score > b.score
                   || (a.score == b.score && (a.position < b.position || (a.position == b.position && a.id <= b.id)))))
  }

  function FirstIn(cs: seq<Candidate>, p: Pool): (best: Option<Candidate>)
    ensures best.None? <==> forall c | c in cs :: !InPool(c, p)
    ensures best.Some? ==> best.value in cs && InPool(best.value, p) && forall c | c in cs && InPool(c, p) :: Earlier(best.value, c, p)
  {
    if cs == [] then None
    else
      var rest := FirstIn(cs[1..], p);
      if !InPool(cs[0], p) then rest
      else if rest.None? || Earlier(cs[0], rest.value, p) then Some(cs[0])
      else rest
  }

  function FirstOf(cs: seq<Candidate>, pools: seq<Pool>): (best: Option<Candidate>)
    ensures best.None? <==> forall c, p | c in cs && p in pools :: !InPool(c, p)
    ensures best.Some? ==> best.value in cs
  {
    if pools == [] then None
    else
      var first := FirstIn(cs, pools[0]);
      if first.Some? then first else FirstOf(cs, pools[1..])
  }

  function Select(cs: seq<Candidate>, slot: Slot): Option<Candidate> {
    FirstOf(cs, PoolsOf(slot))
  }

  /** Only Very High work is experimental. */
  predicate Classed(c: Candidate) {
    c.class_.ExperimentOnly? <==> c.bucket.G4?
  }

  lemma EveryClassHasAPool(c: Candidate, slot: Slot)
    requires Classed(c)
    ensures (exists p :: p in PoolsOf(slot) && InPool(c, p)) <==> !c.bucket.G4? || slot.G4Probe?
  {
    var pools := PoolsOf(slot);
    assert forall k | 0 <= k < |pools| :: pools[k] in pools;
    if !c.bucket.G4? {
      assert InPool(c, pools[0]) || InPool(c, pools[1]) || InPool(c, pools[2]) || InPool(c, pools[3]) || InPool(c, pools[4])
             || (slot.G4Probe? && InPool(c, pools[5]));
    } else if slot.G4Probe? {
      assert InPool(c, pools[0]);
    }
  }

  /** A slot goes empty only if nothing but Very High work is left, and then only if it is not a probe. */
  lemma SelectsWhateverThereIs(cs: seq<Candidate>, slot: Slot)
    requires forall c | c in cs :: Classed(c)
    ensures Select(cs, slot).None? <==> forall c | c in cs :: c.bucket.G4? && !slot.G4Probe?
  {
    forall c | c in cs ensures (exists p :: p in PoolsOf(slot) && InPool(c, p)) <==> !c.bucket.G4? || slot.G4Probe? {
      EveryClassHasAPool(c, slot);
    }
  }
}
