/** What a refresh comes to when nobody interferes, and what has to happen before another may start. */
module TokenProgress {
  import opened Options
  import opened TokenRefresh

  lemma RunOfTwo(s: Sys, a: Step, b: Step)
    ensures Run(s, [a, b]) == Apply(Apply(s, a), b)
  {
    assert [a, b][1..] == [b] && [b][1..] == [];
    assert Run(Apply(s, a), [b]) == Run(Apply(Apply(s, a), b), []);
  }

  lemma RunOfFour(s: Sys, a: Step, b: Step, c: Step, d: Step)
    ensures Run(s, [a, b, c, d]) == Apply(Apply(Apply(Apply(s, a), b), c), d)
  {
    assert [a, b, c, d][1..] == [b, c, d] && [b, c, d][1..] == [c, d];
    RunOfTwo(Apply(Apply(s, a), b), c, d);
  }

  /** A refresh may start: nobody is at it, no outcome is in doubt, and an operator asks if the last one failed. */
  predicate MayRefresh(row: Row, automatic: bool) {
    row.state.Idle? || (row.state.Failed? && !automatic)
  }

  predicate HasTokens(row: Row, now: int) {
    row.tokens.Some? && now < row.refreshExpiresAt
  }

  function Refreshing(e: RefresherId, automatic: bool, now: int, outcome: Outcome): seq<Step> {
    [Begin(automatic, now), TryClaim(e, now), Answer(e, outcome), Settle(e)]
  }

  /** Rotated tokens are stored under the next version; a refusal keeps the old ones; after an ambiguous answer none are left. */
  lemma RefreshComesTo(s: Sys, automatic: bool, now: int, outcome: Outcome)
    requires MayRefresh(s.row, automatic) && HasTokens(s.row, now)
    ensures var (row, next) := (s.row, Run(s, Refreshing(s.nextId, automatic, now, outcome)).row);
            match outcome
            case Rotated(t, at) => next == Row(row.version + 1, Idle, None, Some(t), at)
            case Refused => next.state.Failed? && next.lease.None? && next.tokens == row.tokens && next.version == row.version
            case Ambiguous => next.state.OutcomeUncertain? && next.lease.None? && next.tokens.None? && next.version == row.version
  {
    var e := s.nextId;
    RunOfFour(s, Begin(automatic, now), TryClaim(e, now), Answer(e, outcome), Settle(e));
    var begun := Apply(s, Begin(automatic, now));
    assert begun.refreshers[e] == Starting(s.row) && begun.row == s.row;
    var claimed := Apply(begun, TryClaim(e, now));
    assert claimed.refreshers[e] == Asking(s.row.version) && HoldsLease(claimed.row, Some(e), s.row.version);
  }

  /** While a refresh is under way no other starts before two minutes are over; then the next one finds it uncertain. */
  lemma ExpiredIsUncertain(s: Sys, automatic: bool, claimedAt: int, now: int)
    requires s.row.state.InProgress? && s.row.lease.Some? && s.row.lease.value.expiresAt == claimedAt + 120_000
    ensures now < claimedAt + 120_000 ==> Apply(s, Begin(automatic, now)) == s
    ensures claimedAt + 120_000 <= now ==>
              var next := Run(s, [Begin(automatic, now), Settle(s.nextId)]).row;
              next.state.OutcomeUncertain? && next.tokens.None? && next.lease.None? && next.version == s.row.version
  {
    RunOfTwo(s, Begin(automatic, now), Settle(s.nextId));
  }

  /** A granted claim is one of two minutes. */
  lemma ClaimLasts(row: Row, e: RefresherId, version: nat, now: int)
    requires !row.state.InProgress? && row.version == version
    ensures var next := TokenRefresh.Claim(row, e, version, now);
            next.state.InProgress? && next.lease == Some(Lease(e, now + 120_000)) && next.tokens == row.tokens && next.version == version
  {
  }

  /** Without tokens, or with ones that have run out, a refresh fails at once, and asks nobody. */
  lemma NothingToRefreshWith(s: Sys, automatic: bool, now: int)
    requires MayRefresh(s.row, automatic) && !HasTokens(s.row, now)
    ensures var t := Run(s, [Begin(automatic, now), Settle(s.nextId)]);
            t.row == s.row.(state := Failed) && t.generations == s.generations
  {
    RunOfTwo(s, Begin(automatic, now), Settle(s.nextId));
    Stops(s, automatic, now);
    StoppingFails(Apply(s, Begin(automatic, now)), s.nextId);
  }

  lemma Stops(s: Sys, automatic: bool, now: int)
    requires MayRefresh(s.row, automatic) && !HasTokens(s.row, now)
    ensures var t := Apply(s, Begin(automatic, now));
            t.row == s.row && t.generations == s.generations && s.nextId in t.refreshers && t.refreshers[s.nextId] == Stopping(s.row)
  {
  }

  lemma StoppingFails(s: Sys, e: RefresherId)
    requires e in s.refreshers && s.refreshers[e] == Stopping(s.row)
    ensures Apply(s, Settle(e)).row == s.row.(state := Failed) && Apply(s, Settle(e)).generations == s.generations
  {
  }

  /** After a failure nothing starts by itself, and after a doubt nothing starts at all, until the connection is authorized anew. */
  lemma OperatorIsNeeded(s: Sys, automatic: bool, now: int, t: TokenPair, at: int)
    ensures s.row.state.OutcomeUncertain? || (s.row.state.Failed? && automatic) ==> Apply(s, Begin(automatic, now)) == s
    ensures Apply(s, Reauthorization(t, at)).row == Row(s.row.version + 1, Idle, None, Some(t), at)
    ensures now < at ==> MayRefresh(Apply(s, Reauthorization(t, at)).row, automatic) && HasTokens(Apply(s, Reauthorization(t, at)).row, now)
  {
  }
}
