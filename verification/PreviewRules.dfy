/** Who is eligible and who goes first, rule by rule on the fetched creator and its contact. */
module PreviewRules {
  import opened Options
  import opened Preview

  predicate NotBelow(x: Option<int>, min: Option<int>) {
    min.Some? ==> x.Some? && min.value <= x.value
  }

  /** The keyword stands somewhere in the text. */
  predicate Mentions(text: string, keyword: string) {
    exists i :: 0 <= i <= |text| - |keyword| && text[i..][..|keyword|] == keyword
  }

  lemma {:induction false} ContainsExactly(text: string, keyword: string)
    ensures ContainsText(text, keyword) <==> Mentions(text, keyword)
    decreases |text|
  {
    if |keyword| <= |text| {
      assert text[0..] == text;
      if text != "" {
        ContainsExactly(text[1..], keyword);
        forall i | 0 <= i <= |text| - 1 - |keyword| ensures text[1..][i..] == text[i + 1..] {
        }
        if Mentions(text, keyword) && text[..|keyword|] != keyword {
          var i :| 0 <= i <= |text| - |keyword| && text[i..][..|keyword|] == keyword;
          assert i > 0 && text[1..][i - 1..] == text[i..];
        }
        if Mentions(text[1..], keyword) {
          var i :| 0 <= i <= |text[1..]| - |keyword| && text[1..][i..][..|keyword|] == keyword;
          assert text[i + 1..][..|keyword|] == keyword;
        }
      }
    }
  }

  /** Every bound the campaign sets is met; a figure that is not known meets none. */
  predicate MeetsBounds(c: Candidate, f: Filters) {
    && (f.keyword != "" ==> Mentions(c.text, f.keyword))
    && (f.categories != {} ==> exists x :: x in f.categories && x in c.categories)
    && NotBelow(c.followers, f.minFollowers) && (f.maxFollowers.Some? ==> c.followers.Some? && c.followers.value <= f.maxFollowers.value)
    && (f.currency.Some? ==> c.gmv.Some? && c.gmv.value.currency == f.currency.value)
    && (f.minGmv.Some? ==> c.gmv.Some? && c.gmv.value.amount >= f.minGmv.value)
    && (f.maxGmv.Some? ==> c.gmv.Some? && c.gmv.value.amount <= f.maxGmv.value)
    && NotBelow(c.unitsSold, f.minUnits) && NotBelow(c.videoViews, f.minVideoViews) && NotBelow(c.liveViewers, f.minLiveViewers)
    && (f.minEngagement.Some? ==> c.engagement.Some? && c.engagement.value >= f.minEngagement.value)
  }

  lemma FiltersExactly(c: Candidate, f: Filters)
    ensures MatchesFilters(c, f) <==> MeetsBounds(c, f)
  {
    ContainsExactly(c.text, f.keyword);
    if f.categories * c.categories != {} {
      var x :| x in f.categories * c.categories;
      assert x in f.categories && x in c.categories;
    }
    if exists x :: x in f.categories && x in c.categories {
      var x :| x in f.categories && x in c.categories;
      assert x in f.categories * c.categories;
    }
  }

  predicate Forbidden(input: Input, id: Id) {
    id in input.contacts && input.contacts[id].doNotContact
  }

  predicate Doubtful(input: Input, id: Id) {
    id in input.contacts && input.contacts[id].unresolvedDelivery
  }

  predicate Lately(input: Input, id: Id) {
    && id in input.contacts && input.contacts[id].lastContactedAt.Some?
    && input.contacts[id].lastContactedAt.value + input.cooldownDays * 86_400_000 > input.now
  }

  /** The first rule that speaks against a creator is the one written down; none does exactly for the eligible. */
  lemma RulesExactly(input: Input, i: nat)
    requires i < |input.creators|
    ensures var (c, skip) := (input.creators[i], SkipOf(input, i));
            && (skip == Some(InvalidMessagingId) <==> c.id.None?)
            && (skip == Some(FilterMismatch) <==> c.id.Some? && !MeetsBounds(c, input.filters))
            && (skip == Some(Duplicate) <==> c.id.Some? && MeetsBounds(c, input.filters) && OccursBefore(input, i))
            && (skip.None? <==> Eligible(input, i))
    ensures var (c, skip) := (input.creators[i], SkipOf(input, i));
            c.id.Some? && MeetsBounds(c, input.filters) && !OccursBefore(input, i) ==>
              var id := c.id.value;
              && (skip == Some(DoNotContact) <==> Forbidden(input, id))
              && (skip == Some(DeliveryUnknown) <==> !Forbidden(input, id) && Doubtful(input, id))
              && (skip == Some(Cooldown) <==>
                    !Forbidden(input, id) && !Doubtful(input, id) && Lately(input, id) && input.contacts[id].historical)
              && (skip == Some(ContactedByApp) <==>
                    !Forbidden(input, id) && !Doubtful(input, id) && Lately(input, id) && !input.contacts[id].historical)
              && (skip == Some(ActiveReservation) <==>
                    !Forbidden(input, id) && !Doubtful(input, id) && !Lately(input, id) && id in input.reserved)
              && (skip.None? <==> !Forbidden(input, id) && !Doubtful(input, id) && !Lately(input, id) && id !in input.reserved)
  {
    FiltersExactly(input.creators[i], input.filters);
  }

  /** A figure, or the least there is when it is not known. */
  function Figure(x: Option<int>): real {
    match x case Some(n) => n as real case None => -9007199254740991.0
  }

  function Worth(c: Candidate, metric: Metric): real {
    match metric
    case Gmv => if c.gmv.None? then -9007199254740991.0 else c.gmv.value.amount
    case UnitsSold => Figure(c.unitsSold)
    case Followers => Figure(c.followers)
    case VideoViews => Figure(c.videoViews)
    case LiveViewers => Figure(c.liveViewers)
    case Engagement => if c.engagement.None? then -9007199254740991.0 else c.engagement.value
    case Relevance => 0.0 - c.ordinal as real
  }

  /** Of two eligible creators the one with more of the metric goes first, or with less if so asked; then the smaller ID. */
  lemma OrderExactly(input: Input, a: Candidate, b: Candidate)
    requires a.id.Some? && b.id.Some?
    ensures var (x, y) := (Worth(a, input.metric), Worth(b, input.metric));
            Before(input, a, b) <==> if x == y then a.id.value < b.id.value else if input.ascending then x < y else y < x
  {
  }
}
