/** The exploration slot: which category is sampled next, and how evenly that covers all of them. */
module CategoryCoverage {
  import opened Options
  import opened Scheduler

  type CategoryId = nat

  /** A child category with its parent; `firstSampled` is when its first page arrived. */
  datatype Child = Child(
    parent: CategoryId, firstSampled: Option<int>, lastSampled: Option<int>, lastClaim: Option<int>, sortOrder: int)
  datatype Parent = Parent(lastClaim: Option<int>, sortOrder: int)
  datatype Catalog = Catalog(parents: map<CategoryId, Parent>, children: map<CategoryId, Child>)

  /** A seed partition that may start, for one child category. */
  datatype Seed = Seed(id: nat, child: CategoryId, position: nat)

  predicate Known(cat: Catalog, seed: Seed) {
    seed.child in cat.children && cat.children[seed.child].parent in cat.parents
  }

  function SampledUnder(cat: Catalog, p: CategoryId): set<CategoryId> {
    set c | c in cat.children && cat.children[c].parent == p && cat.children[c].firstSampled.Some?
  }

  function Untouched(cat: Catalog): set<CategoryId> {
    set c | c in cat.children && cat.children[c].firstSampled.None?
  }

  // ---------------------------------------------------------------- the order

  /** Two levels of fairness, then place and ID; a date never set comes before every date. */
  function SortKey(cat: Catalog, seed: Seed): seq<Option<int>>
    requires Known(cat, seed)
  {
    var child := cat.children[seed.child];
    var parent := cat.parents[child.parent];
    [Some(|SampledUnder(cat, child.parent)|), parent.lastClaim, Some(parent.sortOrder),
     child.lastSampled, child.lastClaim, Some(child.sortOrder), Some(seed.position), Some(seed.id)]
  }

  predicate Before(a: Option<int>, b: Option<int>) {
    b.Some? && (a.None? || a.value < b.value)
  }

  predicate NotAfter(a: seq<Option<int>>, b: seq<Option<int>>)
    requires |a| == |b|
  {
    a == [] || Before(a[0], b[0]) || (a[0] == b[0] && NotAfter(a[1..], b[1..]))
  }

  lemma {:induction false} NotAfterIsTotal(a: seq<Option<int>>, b: seq<Option<int>>)
    requires |a| == |b|
    ensures NotAfter(a, b) || NotAfter(b, a)
  {
    if a != [] && a[0] == b[0] { NotAfterIsTotal(a[1..], b[1..]); }
  }

  lemma {:induction false} NotAfterChains(a: seq<Option<int>>, b: seq<Option<int>>, c: seq<Option<int>>)
    requires |a| == |b| == |c| && NotAfter(a, b) && NotAfter(b, c)
    ensures NotAfter(a, c)
  {
    if a != [] && a[0] == b[0] && b[0] == c[0] { NotAfterChains(a[1..], b[1..], c[1..]); }
  }

  /** The first seed of the sorted list. */
  function First(cat: Catalog, seeds: seq<Seed>): (best: Option<Seed>)
    requires forall x | x in seeds :: Known(cat, x)
    ensures best.None? <==> seeds == []
    ensures best.Some? ==> best.value in seeds && forall x | x in seeds :: NotAfter(SortKey(cat, best.value), SortKey(cat, x))
  {
    if seeds == [] then None
    else
      var rest := First(cat, seeds[1..]);
      NotAfterIsTotal(SortKey(cat, seeds[0]), SortKey(cat, seeds[0]));
      if rest.None? then Some(seeds[0])
      else
        NotAfterIsTotal(SortKey(cat, seeds[0]), SortKey(cat, rest.value));
        if NotAfter(SortKey(cat, seeds[0]), SortKey(cat, rest.value)) then
          assert forall x | x in seeds[1..] :: NotAfter(SortKey(cat, seeds[0]), SortKey(cat, x)) by {
            forall x | x in seeds[1..] ensures NotAfter(SortKey(cat, seeds[0]), SortKey(cat, x)) {
              NotAfterChains(SortKey(cat, seeds[0]), SortKey(cat, rest.value), SortKey(cat, x));
            }
          }
          Some(seeds[0])
        else rest
  }

  /** A date never set comes before every date. */
  predicate Sooner(a: Option<int>, b: Option<int>) {
    (a.None? && b.Some?) || (a.Some? && b.Some? && a.value < b.value)
  }

  /**
   * One seed before another: first the parent with fewer sampled children, then the parent claimed longer ago, then
   * the parent's place; then the child sampled longer ago, the child claimed longer ago, the child's place; then the
   * seed's place, and its ID.
   */
  predicate Fairer(cat: Catalog, a: Seed, b: Seed)
    requires Known(cat, a) && Known(cat, b)
  {
    var (x, y) := (cat.children[a.child], cat.children[b.child]);
    var (p, q) := (cat.parents[x.parent], cat.parents[y.parent]);
    var (m, n) := (|SampledUnder(cat, x.parent)|, |SampledUnder(cat, y.parent)|);
    if m != n then m < n
    else if p.lastClaim != q.lastClaim then Sooner(p.lastClaim, q.lastClaim)
    else if p.sortOrder != q.sortOrder then p.sortOrder < q.sortOrder
    else if x.lastSampled != y.lastSampled then Sooner(x.lastSampled, y.lastSampled)
    else if x.lastClaim != y.lastClaim then Sooner(x.lastClaim, y.lastClaim)
    else if x.sortOrder != y.sortOrder then x.sortOrder < y.sortOrder
    else if a.position != b.position then a.position < b.position
    else a.id <= b.id
  }

  lemma KeysAreFair(cat: Catalog, a: Seed, b: Seed)
    requires Known(cat, a) && Known(cat, b)
    ensures NotAfter(SortKey(cat, a), SortKey(cat, b)) <==> Fairer(cat, a, b)
  {
    var (x, y) := (SortKey(cat, a), SortKey(cat, b));
    KeysUnfold(x, y);
    assert x[7] == Some(a.id) && y[7] == Some(b.id);
  }

  /** One key before another, place by place. */
  predicate InTurn(x: seq<Option<int>>, y: seq<Option<int>>, i: nat)
    requires |x| == |y|
    decreases |x| - i
  {
    i >= |x| || (if x[i] != y[i] then Before(x[i], y[i]) else InTurn(x, y, i + 1))
  }

  lemma {:induction false} NotAfterIsInTurn(x: seq<Option<int>>, y: seq<Option<int>>, i: nat)
    requires |x| == |y| && i <= |x|
    ensures NotAfter(x[i..], y[i..]) <==> InTurn(x, y, i)
    decreases |x| - i
  {
    if i < |x| {
      Unfold(x, y, i);
      NotAfterIsInTurn(x, y, i + 1);
    }
  }

  lemma KeysUnfold(x: seq<Option<int>>, y: seq<Option<int>>)
    requires |x| == 8 && |y| == 8
    ensures NotAfter(x, y) <==>
              if x[0] != y[0] then Before(x[0], y[0]) else if x[1] != y[1] then Before(x[1], y[1])
              else if x[2] != y[2] then Before(x[2], y[2]) else if x[3] != y[3] then Before(x[3], y[3])
              else if x[4] != y[4] then Before(x[4], y[4]) else if x[5] != y[5] then Before(x[5], y[5])
              else if x[6] != y[6] then Before(x[6], y[6]) else if x[7] != y[7] then Before(x[7], y[7]) else true
  {
    assert x[0..] == x && y[0..] == y;
    NotAfterIsInTurn(x, y, 0);
    assert InTurn(x, y, 0) <==> (if x[0] != y[0] then Before(x[0], y[0]) else InTurn(x, y, 1));
    assert InTurn(x, y, 1) <==> (if x[1] != y[1] then Before(x[1], y[1]) else InTurn(x, y, 2));
    assert InTurn(x, y, 2) <==> (if x[2] != y[2] then Before(x[2], y[2]) else InTurn(x, y, 3));
    assert InTurn(x, y, 3) <==> (if x[3] != y[3] then Before(x[3], y[3]) else InTurn(x, y, 4));
    assert InTurn(x, y, 4) <==> (if x[4] != y[4] then Before(x[4], y[4]) else InTurn(x, y, 5));
    assert InTurn(x, y, 5) <==> (if x[5] != y[5] then Before(x[5], y[5]) else InTurn(x, y, 6));
    assert InTurn(x, y, 6) <==> (if x[6] != y[6] then Before(x[6], y[6]) else InTurn(x, y, 7));
    assert InTurn(x, y, 7) <==> (if x[7] != y[7] then Before(x[7], y[7]) else InTurn(x, y, 8));
  }

  lemma Unfold(x: seq<Option<int>>, y: seq<Option<int>>, i: nat)
    requires |x| == |y| && i < |x|
    ensures NotAfter(x[i..], y[i..]) <==> Before(x[i], y[i]) || (x[i] == y[i] && NotAfter(x[i + 1..], y[i + 1..]))
  {
    assert x[i..][1..] == x[i + 1..] && y[i..][1..] == y[i + 1..];
  }

  /** The seed chosen is of an untouched category while there is one among the seeds, and fairer than all others like it. */
  lemma ChoosesFairest(cat: Catalog, seeds: seq<Seed>, x: Seed)
    requires (forall y | y in seeds :: Known(cat, y)) && x in seeds
    ensures var best := SelectCategory(cat, seeds, ModeFor(cat, seeds));
            && best.Some? && best.value in seeds
            && (cat.children[x.child].firstSampled.None? ==> cat.children[best.value.child].firstSampled.None?)
            && (cat.children[x.child].firstSampled.None? || cat.children[best.value.child].firstSampled.Some? ==> Fairer(cat, best.value, x))
  {
    var unseen := OfUntouched(cat, seeds);
    var best := SelectCategory(cat, seeds, ModeFor(cat, seeds)).value;
    if unseen != [] { assert unseen[0] in unseen; }
    KeysAreFair(cat, best, x);
  }

  function OfUntouched(cat: Catalog, seeds: seq<Seed>): (unseen: seq<Seed>)
    ensures forall x :: x in unseen <==> x in seeds && x.child in Untouched(cat)
  {
    if seeds == [] then []
    else (if seeds[0].child in Untouched(cat) then [seeds[0]] else []) + OfUntouched(cat, seeds[1..])
  }

  function SelectCategory(cat: Catalog, seeds: seq<Seed>, mode: Mode): Option<Seed>
    requires forall x | x in seeds :: Known(cat, x)
  {
    var unseen := OfUntouched(cat, seeds);
    First(cat, if mode.Coverage? && unseen != [] then unseen else seeds)
  }

  function ModeFor(cat: Catalog, seeds: seq<Seed>): Mode {
    if OfUntouched(cat, seeds) != [] then Coverage else Balanced
  }

  // --------------------------------------------------------------- one round

  /** The claim of a seed, and the arrival of its first page. */
  function Sampled(cat: Catalog, seed: Seed, claimedAt: int, respondedAt: int): Catalog
    requires Known(cat, seed)
  {
    var child := cat.children[seed.child];
    Catalog(
      cat.parents[child.parent := cat.parents[child.parent].(lastClaim := Some(claimedAt))],
      cat.children[seed.child := child.(
        firstSampled := if child.firstSampled.None? then Some(respondedAt) else child.firstSampled,
        lastSampled := Some(respondedAt), lastClaim := Some(claimedAt))])
  }

  datatype Round = Round(seeds: seq<Seed>, claimedAt: int, respondedAt: int)

  function Explore(cat: Catalog, r: Round): Catalog
    requires forall x | x in r.seeds :: Known(cat, x)
  {
    var chosen := SelectCategory(cat, r.seeds, ModeFor(cat, r.seeds));
    if chosen.None? then cat else Sampled(cat, chosen.value, r.claimedAt, r.respondedAt)
  }

  /** Every category not sampled yet has a seed that may start. */
  ghost predicate Offers(cat: Catalog, r: Round) {
    && (forall x | x in r.seeds :: Known(cat, x))
    && (forall c | c in Untouched(cat) :: exists x :: x in r.seeds && x.child == c)
  }

  /** No parent is more than one sampled child ahead of a parent with a child to go. */
  ghost predicate Level(cat: Catalog) {
    forall c, q: CategoryId | c in Untouched(cat) ::
      |SampledUnder(cat, q)| <= |SampledUnder(cat, cat.children[c].parent)| + 1
  }

  lemma FewestFirst(cat: Catalog, a: Seed, b: Seed)
    requires Known(cat, a) && Known(cat, b) && NotAfter(SortKey(cat, a), SortKey(cat, b))
    ensures |SampledUnder(cat, cat.children[a.child].parent)| <= |SampledUnder(cat, cat.children[b.child].parent)|
  {
    var (x, y) := (SortKey(cat, a), SortKey(cat, b));
    assert Before(x[0], y[0]) || x[0] == y[0];
  }

  /** While a category is untouched, an untouched one is chosen, under a parent with the fewest sampled children. */
  lemma ChoosesLeastCovered(cat: Catalog, r: Round)
    requires Offers(cat, r) && Untouched(cat) != {}
    ensures var chosen := SelectCategory(cat, r.seeds, ModeFor(cat, r.seeds));
            && chosen.Some? && Known(cat, chosen.value) && chosen.value.child in Untouched(cat)
            && forall c | c in Untouched(cat) ::
                 |SampledUnder(cat, cat.children[chosen.value.child].parent)| <= |SampledUnder(cat, cat.children[c].parent)|
  {
    var unseen := OfUntouched(cat, r.seeds);
    var some :| some in Untouched(cat);
    var x :| x in r.seeds && x.child == some;
    assert x in unseen;
    var best := First(cat, unseen).value;
    forall c | c in Untouched(cat)
      ensures |SampledUnder(cat, cat.children[best.child].parent)| <= |SampledUnder(cat, cat.children[c].parent)|
    {
      var y :| y in r.seeds && y.child == c;
      assert y in unseen;
      FewestFirst(cat, best, y);
    }
  }

  lemma SamplingCounts(cat: Catalog, seed: Seed, claimedAt: int, respondedAt: int, q: CategoryId)
    requires Known(cat, seed) && seed.child in Untouched(cat)
    ensures var next := Sampled(cat, seed, claimedAt, respondedAt);
            && Untouched(next) == Untouched(cat) - {seed.child}
            && |SampledUnder(next, q)| == |SampledUnder(cat, q)| + (if q == cat.children[seed.child].parent then 1 else 0)
            && next.children.Keys == cat.children.Keys && next.parents.Keys == cat.parents.Keys
            && forall c | c in cat.children :: next.children[c].parent == cat.children[c].parent
  {
    var next := Sampled(cat, seed, claimedAt, respondedAt);
    if q == cat.children[seed.child].parent {
      assert SampledUnder(next, q) == SampledUnder(cat, q) + {seed.child} && seed.child !in SampledUnder(cat, q);
    } else {
      assert SampledUnder(next, q) == SampledUnder(cat, q);
    }
  }

  /** A round of exploration keeps the parents level and touches one category more, until none is left. */
  lemma ExploreKeepsLevel(cat: Catalog, r: Round)
    requires Level(cat) && Offers(cat, r)
    ensures Level(Explore(cat, r))
    ensures |Untouched(Explore(cat, r))| == if Untouched(cat) == {} then 0 else |Untouched(cat)| - 1
  {
    var next := Explore(cat, r);
    if Untouched(cat) == {} {
      assert Untouched(next) == {};
    } else {
      ChoosesLeastCovered(cat, r);
      var seed := SelectCategory(cat, r.seeds, ModeFor(cat, r.seeds)).value;
      SamplingCounts(cat, seed, r.claimedAt, r.respondedAt, 0);
      forall c, q: CategoryId | c in Untouched(next)
        ensures |SampledUnder(next, q)| <= |SampledUnder(next, next.children[c].parent)| + 1
      {
        SamplingCounts(cat, seed, r.claimedAt, r.respondedAt, q);
        SamplingCounts(cat, seed, r.claimedAt, r.respondedAt, cat.children[c].parent);
      }
    }
  }

  // ------------------------------------------------------------------- runs

  ghost predicate OffersAlways(cat: Catalog, rounds: seq<Round>)
    decreases |rounds|
  {
    rounds == [] || (Offers(cat, rounds[0]) && OffersAlways(Explore(cat, rounds[0]), rounds[1..]))
  }

  ghost function Rounds(cat: Catalog, rounds: seq<Round>): Catalog
    requires OffersAlways(cat, rounds)
    decreases |rounds|
  {
    if rounds == [] then cat else Rounds(Explore(cat, rounds[0]), rounds[1..])
  }

  lemma {:induction false} RoundsKeepLevel(cat: Catalog, rounds: seq<Round>)
    requires Level(cat) && OffersAlways(cat, rounds)
    ensures Level(Rounds(cat, rounds))
    ensures |Untouched(Rounds(cat, rounds))| == if |rounds| < |Untouched(cat)| then |Untouched(cat)| - |rounds| else 0
    decreases |rounds|
  {
    if rounds != [] {
      ExploreKeepsLevel(cat, rounds[0]);
      RoundsKeepLevel(Explore(cat, rounds[0]), rounds[1..]);
    }
  }

  /**
   * From a catalog nobody sampled, any number of exploration rounds leaves parents with untouched
   * children within one of each other, and n rounds touch n categories, or all.
   */
  lemma CoverageIsEven(cat: Catalog, rounds: seq<Round>, c: CategoryId, d: CategoryId)
    requires (forall x | x in cat.children :: cat.children[x].firstSampled.None?) && OffersAlways(cat, rounds)
    requires c in Untouched(Rounds(cat, rounds)) && d in Untouched(Rounds(cat, rounds))
    ensures var t := Rounds(cat, rounds);
            && -1 <= |SampledUnder(t, t.children[c].parent)| - |SampledUnder(t, t.children[d].parent)| <= 1
            && |Untouched(t)| == |Untouched(cat)| - |rounds|
  {
    forall q: CategoryId ensures SampledUnder(cat, q) == {} {
    }
    RoundsKeepLevel(cat, rounds);
  }
}
