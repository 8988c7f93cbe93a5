/**
 * The preview of a campaign: one pass over the fetched creators decides who is
 * eligible, a sort and a cut decide who is selected.
 *
 * An empty creator ID is `None`; IDs are compared by a total order.
 */
module Preview {
  import opened Options

  type Id = nat

  datatype Money = Money(amount: real, currency: string)
  datatype Candidate = Candidate(
    id: Option<Id>, text: string, categories: set<string>, followers: Option<int>, gmv: Option<Money>,
    unitsSold: Option<int>, videoViews: Option<int>, liveViewers: Option<int>, engagement: Option<real>, ordinal: int)

  datatype Filters = Filters(
    keyword: string, categories: set<string>, minFollowers: Option<int>, maxFollowers: Option<int>,
    minGmv: Option<real>, maxGmv: Option<real>, currency: Option<string>,
    minUnits: Option<int>, minVideoViews: Option<int>, minLiveViewers: Option<int>, minEngagement: Option<real>)

  datatype Metric = Gmv | UnitsSold | Followers | VideoViews | LiveViewers | Engagement | Relevance

  datatype Contact = Contact(lastContactedAt: Option<int>, doNotContact: bool, unresolvedDelivery: bool, historical: bool)

  datatype Input = Input(
    creators: seq<Candidate>, filters: Filters, contacts: map<Id, Contact>, reserved: set<Id>,
    requested: nat, cooldownDays: nat, metric: Metric, ascending: bool, now: int)

  datatype SkipReason =
    | InvalidMessagingId | FilterMismatch | Duplicate | DoNotContact | DeliveryUnknown
    | Cooldown | ContactedByApp | ActiveReservation

  datatype Evaluated = Evaluated(candidate: Candidate, skip: Option<SkipReason>, value: real, selected: bool)

  datatype Summary = Summary(
    requested: nat, fetched: nat, excludedByFilter: nat, duplicates: nat, doNotContact: nat, unknownDelivery: nat,
    cooldown: nat, activeReservation: nat, eligible: nat, selected: nat, shortfall: nat)

  const DAY_MS: int := 86_400_000
  const MIN_SAFE_INTEGER: real := -9007199254740991.0

  // ------------------------------------------------------------- one creator

  predicate ContainsText(text: string, keyword: string) {
    |keyword| <= |text| && (text[..|keyword|] == keyword || (text != "" && ContainsText(text[1..], keyword)))
  }

  predicate AtLeast(x: Option<int>, min: Option<int>) {
    min.None? || (x.Some? && x.value >= min.value)
  }

  predicate AtLeastReal(x: Option<real>, min: Option<real>) {
    min.None? || (x.Some? && x.value >= min.value)
  }

  function Amount(c: Candidate): Option<real> {
    if c.gmv.Some? then Some(c.gmv.value.amount) else None
  }

  /** Texts and currencies are given folded to one case. */
  predicate MatchesFilters(c: Candidate, f: Filters) {
    && (f.keyword == "" || ContainsText(c.text, f.keyword))
    && (f.categories == {} || f.categories * c.categories != {})
    && AtLeast(c.followers, f.minFollowers)
    && (f.maxFollowers.None? || (c.followers.Some? && c.followers.value <= f.maxFollowers.value))
    && (f.currency.None? || (c.gmv.Some? && c.gmv.value.currency == f.currency.value))
    && AtLeastReal(Amount(c), f.minGmv)
    && (f.maxGmv.None? || (c.gmv.Some? && c.gmv.value.amount <= f.maxGmv.value))
    && AtLeast(c.unitsSold, f.minUnits) && AtLeast(c.videoViews, f.minVideoViews)
    && AtLeast(c.liveViewers, f.minLiveViewers) && AtLeastReal(c.engagement, f.minEngagement)
  }

  function OrMinimum(x: Option<int>): real {
    if x.Some? then x.value as real else MIN_SAFE_INTEGER
  }

  function RankingValue(c: Candidate, metric: Metric): real {
    match metric
    case Gmv => if c.gmv.Some? then c.gmv.value.amount else MIN_SAFE_INTEGER
    case UnitsSold => OrMinimum(c.unitsSold)
    case Followers => OrMinimum(c.followers)
    case VideoViews => OrMinimum(c.videoViews)
    case LiveViewers => OrMinimum(c.liveViewers)
    case Engagement => if c.engagement.Some? then c.engagement.value else MIN_SAFE_INTEGER
    case Relevance => -(c.ordinal as real)
  }

  /** Who a creator is, and what is known of contacts, decides the rest once the ID is new. */
  function ContactSkip(input: Input, id: Id): Option<SkipReason> {
    var contact := if id in input.contacts then input.contacts[id] else Contact(None, false, false, false);
    if contact.doNotContact then Some(DoNotContact)
    else if contact.unresolvedDelivery then Some(DeliveryUnknown)
    else if contact.lastContactedAt.Some? && contact.lastContactedAt.value > input.now - input.cooldownDays * DAY_MS
    then Some(if contact.historical then Cooldown else ContactedByApp)
    else if id in input.reserved then Some(ActiveReservation)
    else None
  }

  // --------------------------------------------------------------- what is meant

  /** The ID occurred before, whether or not that occurrence passed. */
  ghost predicate OccursBefore(input: Input, i: nat)
    requires i < |input.creators|
  {
    exists j :: 0 <= j < i && input.creators[j].id == input.creators[i].id
  }

  /** First occurrence of its ID, past every filter and every contact rule. */
  ghost predicate Eligible(input: Input, i: int) {
    && 0 <= i < |input.creators|
    && var c := input.creators[i];
       c.id.Some? && MatchesFilters(c, input.filters) && !OccursBefore(input, i) && ContactSkip(input, c.id.value).None?
  }

  ghost function EligibleSet(input: Input): set<int> {
    set i | 0 <= i < |input.creators| && Eligible(input, i)
  }

  predicate Before(input: Input, a: Candidate, b: Candidate)
    requires a.id.Some? && b.id.Some?
  {
    var (x, y) := (RankingValue(a, input.metric), RankingValue(b, input.metric));
    (if input.ascending then x < y else x > y) || (x == y && a.id.value < b.id.value)
  }

  ghost predicate Better(input: Input, i: int, j: int) {
    && 0 <= i < |input.creators| && 0 <= j < |input.creators|
    && input.creators[i].id.Some? && input.creators[j].id.Some?
    && Before(input, input.creators[i], input.creators[j])
  }

  /** The best min(requested, eligible) of the eligible. */
  ghost predicate IsTop(input: Input, chosen: set<int>) {
    && chosen <= EligibleSet(input)
    && |chosen| == (if input.requested < |EligibleSet(input)| then input.requested else |EligibleSet(input)|)
    && forall i, j | i in chosen && j in EligibleSet(input) && j !in chosen :: Better(input, i, j)
  }

  ghost function SkipOf(input: Input, i: nat): Option<SkipReason>
    requires i < |input.creators|
  {
    var c := input.creators[i];
    if c.id.None? then Some(InvalidMessagingId)
    else if !MatchesFilters(c, input.filters) then Some(FilterMismatch)
    else if OccursBefore(input, i) then Some(Duplicate)
    else ContactSkip(input, c.id.value)
  }

  // ---------------------------------------------------------------- the pass

  method Evaluate(input: Input) returns (rows: seq<Evaluated>)
    ensures |rows| == |input.creators|
    ensures forall i | 0 <= i < |rows| ::
      rows[i] == Evaluated(input.creators[i], SkipOf(input, i), RankingValue(input.creators[i], input.metric), false)
  {
    rows := [];
    var seen: set<Id> := {};
    for n := 0 to |input.creators|
      invariant |rows| == n
      invariant forall i | 0 <= i < n ::
        rows[i] == Evaluated(input.creators[i], SkipOf(input, i), RankingValue(input.creators[i], input.metric), false)
      invariant forall id :: id in seen <==> exists j :: 0 <= j < n && input.creators[j].id == Some(id)
    {
      var c := input.creators[n];
      var skip: Option<SkipReason> := None;
      if c.id.None? {
        skip := Some(InvalidMessagingId);
      } else if !MatchesFilters(c, input.filters) {
        skip := Some(FilterMismatch);
      } else if c.id.value in seen {
        skip := Some(Duplicate);
      } else {
        skip := ContactSkip(input, c.id.value);
      }
      assert c.id.Some? ==> (OccursBefore(input, n) <==> c.id.value in seen);
      rows := rows + [Evaluated(c, skip, RankingValue(c, input.metric), false)];
      if c.id.Some? { seen := seen + {c.id.value}; }
    }
  }

  // ------------------------------------------------------------ sort and cut

  ghost predicate Ranked(input: Input, order: seq<int>) {
    forall a, b | 0 <= a < b < |order| :: Better(input, order[a], order[b])
  }

  function Indices(order: seq<int>): set<int> {
    set i | i in order
  }

  /** Puts one more eligible creator in its place. */
  method Place(input: Input, order: seq<int>, i: int) returns (next: seq<int>)
    requires Ranked(input, order) && 0 <= i < |input.creators| && input.creators[i].id.Some?
    requires forall a | 0 <= a < |order| ::
      0 <= order[a] < |input.creators| && input.creators[order[a]].id.Some? && input.creators[order[a]].id != input.creators[i].id
    ensures Ranked(input, next) && Indices(next) == Indices(order) + {i} && |next| == |order| + 1
  {
    var k := 0;
    while k < |order| && Before(input, input.creators[order[k]], input.creators[i])
      invariant 0 <= k <= |order| && forall a | 0 <= a < k :: Better(input, order[a], i)
    {
      k := k + 1;
    }
    next := order[..k] + [i] + order[k..];
    forall a | k <= a < |order| ensures Better(input, i, order[a]) {
      assert a == k || Better(input, order[k], order[a]);
    }
    assert forall x :: x in next <==> x in order || x == i;
  }

  method SortEligible(input: Input, rows: seq<Evaluated>) returns (order: seq<int>)
    requires |rows| == |input.creators|
    requires forall i | 0 <= i < |rows| :: rows[i].skip == SkipOf(input, i)
    ensures Ranked(input, order) && Indices(order) == EligibleSet(input) && |order| == |EligibleSet(input)|
  {
    order := [];
    for n := 0 to |rows|
      invariant Ranked(input, order) && Indices(order) == (set i | 0 <= i < n && Eligible(input, i))
      invariant |order| == |Indices(order)|
    {
      assert rows[n].skip.None? <==> Eligible(input, n);
      if rows[n].skip.None? {
        assert n !in Indices(order);
        forall a | 0 <= a < |order| ensures Eligible(input, order[a]) && order[a] < n {
          assert order[a] in Indices(order);
        }
        order := Place(input, order, n);
      }
    }
  }

  /** Ranks and marks the first `requested`. */
  method Select(input: Input, rows: seq<Evaluated>) returns (marked: seq<Evaluated>, count: nat)
    requires |rows| == |input.creators|
    requires forall i | 0 <= i < |rows| :: rows[i].skip == SkipOf(input, i) && !rows[i].selected
    ensures |marked| == |rows| && count == |EligibleSet(input)|
    ensures forall i | 0 <= i < |rows| :: marked[i] == rows[i].(selected := marked[i].selected)
    ensures IsTop(input, SelectedSet(marked))
  {
    var order := SortEligible(input, rows);
    count := |order|;
    var cut := if input.requested < |order| then input.requested else |order|;
    marked := rows;
    var k := 0;
    while k < cut
      invariant 0 <= k <= cut && |marked| == |rows|
      invariant forall i | 0 <= i < |rows| :: marked[i] == rows[i].(selected := marked[i].selected)
      invariant SelectedSet(marked) == Indices(order[..k])
    {
      assert order[k] in Indices(order);
      assert order[..k + 1] == order[..k] + [order[k]];
      assert Indices(order[..k + 1]) == Indices(order[..k]) + {order[k]};
      ghost var before := marked;
      marked := marked[order[k] := marked[order[k]].(selected := true)];
      assert SelectedSet(marked) == SelectedSet(before) + {order[k]};
      k := k + 1;
    }
    CutIsTop(input, order, cut);
  }

  function SelectedSet(rows: seq<Evaluated>): set<int> {
    set i | 0 <= i < |rows| && rows[i].selected
  }

  /** No place of a ranking repeats an earlier one. */
  lemma RankedIsNew(input: Input, order: seq<int>, k: nat)
    requires Ranked(input, order) && k < |order|
    ensures order[k] !in order[..k]
  {
    forall a | 0 <= a < k ensures order[a] != order[k] {
      assert Better(input, order[a], order[k]);
    }
  }

  lemma OneMoreIndex(order: seq<int>, k: nat)
    requires k < |order|
    ensures Indices(order[..k + 1]) == Indices(order[..k]) + {order[k]}
  {
    assert order[..k + 1] == order[..k] + [order[k]];
  }

  lemma {:induction false} RankedIsDistinct(input: Input, order: seq<int>, k: nat)
    requires Ranked(input, order) && k <= |order|
    ensures |Indices(order[..k])| == k
  {
    if k == 0 {
      assert order[..0] == [];
    } else {
      RankedIsDistinct(input, order, k - 1);
      RankedIsNew(input, order, k - 1);
      OneMoreIndex(order, k - 1);
      OneMore(Indices(order[..k - 1]), order[k - 1]);
    }
  }

  lemma CutIsTop(input: Input, order: seq<int>, cut: nat)
    requires Ranked(input, order) && Indices(order) == EligibleSet(input) && |order| == |EligibleSet(input)|
    requires cut == if input.requested < |order| then input.requested else |order|
    ensures IsTop(input, Indices(order[..cut]))
  {
    RankedIsDistinct(input, order, cut);
    var chosen := Indices(order[..cut]);
    forall i | i in chosen ensures i in EligibleSet(input) {
      assert i in order;
    }
    forall i, j | i in chosen && j in EligibleSet(input) && j !in chosen ensures Better(input, i, j) {
      var a :| 0 <= a < cut && order[..cut][a] == i;
      assert order == order[..cut] + order[cut..];
      assert j in order && j in order[cut..];
      var b :| 0 <= b < |order[cut..]| && order[cut..][b] == j;
    }
  }

  // ---------------------------------------------------------------- counting

  function CountOf(rows: seq<Evaluated>, skip: Option<SkipReason>): nat {
    if rows == [] then 0
    else CountOf(rows[..|rows| - 1], skip) + if rows[|rows| - 1].skip == skip then 1 else 0
  }

  /** Every row has exactly one outcome. */
  lemma {:induction false} OutcomesAddUp(rows: seq<Evaluated>)
    ensures CountOf(rows, None) + CountOf(rows, Some(InvalidMessagingId)) + CountOf(rows, Some(FilterMismatch))
            + CountOf(rows, Some(Duplicate)) + CountOf(rows, Some(DoNotContact)) + CountOf(rows, Some(DeliveryUnknown))
            + CountOf(rows, Some(Cooldown)) + CountOf(rows, Some(ContactedByApp)) + CountOf(rows, Some(ActiveReservation))
            == |rows|
  {
    if rows != [] {
      OutcomesAddUp(rows[..|rows| - 1]);
      match rows[|rows| - 1].skip
      case None =>
      case Some(reason) =>
        match reason
        case InvalidMessagingId => case FilterMismatch => case Duplicate => case DoNotContact =>
        case DeliveryUnknown => case Cooldown => case ContactedByApp => case ActiveReservation =>
    }
  }

  ghost function EligibleBelow(input: Input, n: nat): set<int> {
    set i | 0 <= i < n && Eligible(input, i)
  }

  lemma EligibleBelowStep(input: Input, n: nat)
    ensures EligibleBelow(input, n + 1) == EligibleBelow(input, n) + if Eligible(input, n) then {n} else {}
  {
  }

  lemma OneMore(s: set<int>, n: int)
    requires n !in s
    ensures |s + {n}| == |s| + 1
  {
  }

  lemma {:induction false} UnskippedAreEligible(input: Input, rows: seq<Evaluated>)
    requires |rows| <= |input.creators| && forall i | 0 <= i < |rows| :: rows[i].skip == SkipOf(input, i)
    ensures CountOf(rows, None) == |EligibleBelow(input, |rows|)|
  {
    if rows != [] {
      var n := |rows| - 1;
      UnskippedAreEligible(input, rows[..n]);
      EligibleBelowStep(input, n);
      if Eligible(input, n) { OneMore(EligibleBelow(input, n), n); }
    }
  }

  ghost predicate Balanced(s: Summary) {
    && s.excludedByFilter + s.duplicates + s.doNotContact + s.unknownDelivery + s.cooldown + s.activeReservation + s.eligible == s.fetched
    && s.selected + s.shortfall == s.requested
  }

  method BuildPreview(input: Input) returns (rows: seq<Evaluated>, summary: Summary)
    ensures |rows| == |input.creators|
    ensures forall i | 0 <= i < |rows| :: rows[i].candidate == input.creators[i] && rows[i].skip == SkipOf(input, i)
    ensures forall i | 0 <= i < |rows| :: rows[i].skip.None? <==> Eligible(input, i)
    ensures IsTop(input, SelectedSet(rows))
    ensures Balanced(summary) && summary.fetched == |input.creators| && summary.requested == input.requested
    ensures summary.eligible == |EligibleSet(input)| && summary.selected == |SelectedSet(rows)|
    ensures summary.duplicates == CountOf(rows, Some(Duplicate)) && summary.doNotContact == CountOf(rows, Some(DoNotContact))
    ensures summary.cooldown == CountOf(rows, Some(Cooldown)) + CountOf(rows, Some(ContactedByApp))
    ensures summary.excludedByFilter == CountOf(rows, Some(FilterMismatch)) + CountOf(rows, Some(InvalidMessagingId))
    ensures summary.unknownDelivery == CountOf(rows, Some(DeliveryUnknown))
    ensures summary.activeReservation == CountOf(rows, Some(ActiveReservation)) && summary.selected <= summary.eligible
  {
    var evaluated := Evaluate(input);
    var eligible;
    rows, eligible := Select(input, evaluated);
    OutcomesAddUp(rows);
    UnskippedAreEligible(input, rows);
    assert EligibleBelow(input, |rows|) == EligibleSet(input);
    var selected := if input.requested < eligible then input.requested else eligible;
    summary := Summary(
      input.requested, |rows|, CountOf(rows, Some(FilterMismatch)) + CountOf(rows, Some(InvalidMessagingId)),
      CountOf(rows, Some(Duplicate)), CountOf(rows, Some(DoNotContact)), CountOf(rows, Some(DeliveryUnknown)),
      CountOf(rows, Some(Cooldown)) + CountOf(rows, Some(ContactedByApp)), CountOf(rows, Some(ActiveReservation)),
      eligible, selected, input.requested - selected);
  }

  // ------------------------------------------------- order of the input

  ghost predicate NoDuplicates(input: Input) {
    forall i, j | 0 <= i < j < |input.creators| && input.creators[i].id.Some? :: input.creators[i].id != input.creators[j].id
  }

  function Picked(input: Input, chosen: set<int>): set<Candidate>
    requires forall i | i in chosen :: 0 <= i < |input.creators|
  {
    set i | i in chosen :: input.creators[i]
  }

  /** Without duplicates a creator passes or fails by itself. */
  ghost predicate PassesAlone(input: Input, c: Candidate) {
    c.id.Some? && MatchesFilters(c, input.filters) && ContactSkip(input, c.id.value).None?
  }

  lemma EligibleAlone(input: Input, i: nat)
    requires NoDuplicates(input) && i < |input.creators|
    ensures Eligible(input, i) <==> PassesAlone(input, input.creators[i])
  {
  }

  lemma EligibleIdsDiffer(input: Input, i: int, j: int)
    requires Eligible(input, i) && Eligible(input, j) && i != j
    ensures input.creators[i].id != input.creators[j].id
  {
    if i < j { assert !OccursBefore(input, j); } else { assert !OccursBefore(input, i); }
  }

  lemma {:induction false} PickedSize(input: Input, chosen: set<int>)
    requires NoDuplicates(input) && chosen <= EligibleSet(input)
    ensures |Picked(input, chosen)| == |chosen|
    decreases chosen
  {
    if chosen != {} {
      var i :| i in chosen;
      PickedSize(input, chosen - {i});
      assert Picked(input, chosen) == Picked(input, chosen - {i}) + {input.creators[i]};
      forall j | j in chosen - {i} ensures input.creators[j] != input.creators[i] {
        EligibleIdsDiffer(input, i, j);
      }
    }
  }

  ghost predicate TopOf(input: Input, eligible: set<Candidate>, picked: set<Candidate>) {
    && picked <= eligible && (forall c | c in eligible :: c.id.Some?)
    && forall p, c | p in picked && c in eligible && c !in picked :: p.id.Some? && c.id.Some? && Before(input, p, c)
  }

  lemma TopIsUnique(input: Input, eligible: set<Candidate>, p: set<Candidate>, q: set<Candidate>)
    requires TopOf(input, eligible, p) && TopOf(input, eligible, q) && |p| == |q|
    ensures p == q
  {
    if p - q != {} && q - p != {} {
      var x :| x in p - q;
      var y :| y in q - p;
      assert Before(input, x, y) && Before(input, y, x);
    } else if p - q == {} {
      assert p <= q by { forall x | x in p ensures x in q { assert x !in p - q; } }
      SameSize(p, q);
    } else {
      assert q <= p by { forall x | x in q ensures x in p { assert x !in q - p; } }
      SameSize(q, p);
    }
  }

  lemma SameSize<T>(a: set<T>, b: set<T>)
    requires a <= b && |a| == |b|
    ensures a == b
  {
    assert b == a + (b - a) && |b| == |a| + |b - a|;
  }

  lemma TopIsTopOf(input: Input, chosen: set<int>)
    requires NoDuplicates(input) && IsTop(input, chosen)
    ensures TopOf(input, Picked(input, EligibleSet(input)), Picked(input, chosen))
  {
    var eligible, picked := Picked(input, EligibleSet(input)), Picked(input, chosen);
    forall p, c | p in picked && c in eligible && c !in picked ensures p.id.Some? && c.id.Some? && Before(input, p, c) {
      var i :| i in chosen && input.creators[i] == p;
      var j :| j in EligibleSet(input) && input.creators[j] == c;
      assert Better(input, i, j);
    }
  }

  lemma SameEligible(x: Input, y: Input)
    requires NoDuplicates(x) && NoDuplicates(y) && y == x.(creators := y.creators)
    requires forall c :: c in x.creators <==> c in y.creators
    ensures Picked(x, EligibleSet(x)) == Picked(y, EligibleSet(y))
  {
    forall c ensures c in Picked(x, EligibleSet(x)) <==> c in x.creators && PassesAlone(x, c) {
      ElementsPass(x, c);
    }
    forall c ensures c in Picked(y, EligibleSet(y)) <==> c in y.creators && PassesAlone(y, c) {
      ElementsPass(y, c);
    }
  }

  lemma ElementsPass(input: Input, c: Candidate)
    requires NoDuplicates(input)
    ensures c in Picked(input, EligibleSet(input)) <==> c in input.creators && PassesAlone(input, c)
  {
    if c in input.creators && PassesAlone(input, c) {
      var i :| 0 <= i < |input.creators| && input.creators[i] == c;
      EligibleAlone(input, i);
    }
    if c in Picked(input, EligibleSet(input)) {
      var i :| i in EligibleSet(input) && input.creators[i] == c;
      EligibleAlone(input, i);
    }
  }

  /** Without duplicate IDs the order of the fetched creators decides nothing: the same creators are picked. */
  lemma OrderDecidesNothing(x: Input, y: Input, s: set<int>, t: set<int>)
    requires NoDuplicates(x) && NoDuplicates(y) && y == x.(creators := y.creators)
    requires forall c :: c in x.creators <==> c in y.creators
    requires IsTop(x, s) && IsTop(y, t)
    ensures Picked(x, s) == Picked(y, t)
  {
    SameEligible(x, y);
    PickedSize(x, EligibleSet(x));
    PickedSize(y, EligibleSet(y));
    PickedSize(x, s);
    PickedSize(y, t);
    TopIsTopOf(x, s);
    TopIsTopOf(y, t);
    var (eligible, q) := (Picked(x, EligibleSet(x)), Picked(y, t));
    assert forall p, c | p in q && c in eligible && c !in q :: Before(y, p, c) ==> Before(x, p, c);
    TopIsUnique(x, eligible, Picked(x, s), q);
  }

  /** Selected creators have IDs, all different. */
  lemma SelectedIdsDiffer(input: Input, chosen: set<int>, i: int, j: int)
    requires IsTop(input, chosen) && i in chosen && j in chosen && i != j
    ensures input.creators[i].id.Some? && input.creators[i].id != input.creators[j].id
  {
    assert Eligible(input, i) && Eligible(input, j);
    EligibleIdsDiffer(input, i, j);
  }
}
