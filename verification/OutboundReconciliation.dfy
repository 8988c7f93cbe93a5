/**
 * Exactly which steps and runs keep the cooldown's invariant: all but some ends of a
 * reconciliation, neither of whose two final writes reads the tables again.
 */
module OutboundReconciliation {
  import opened Options
  import opened OutreachDb
  import opened OutboundProtocol
  import opened OutboundSafety
  import opened OutboundSpacing
  import opened OutboundCooldown

  lemma WriteStandsTheSame(s: Sys, e: RunId, db: Db)
    requires KnownRuns(s) && e in s.runs && !s.runs[e].Holding? && Quiet(s.db, db)
    ensures SameStandings(StandingsOf(s), StandingsOf(Drop(s, e).(db := db)))
  {
    SameHoldersStandTheSame(s, Drop(s, e).(db := db));
  }

  lemma EndStandsTheSame(s: Sys, e: RunId)
    requires Safe(s) && Runs(s, e) && s.runs[e].Reconciling?
    ensures SameStandings(StandingsOf(s), StandingsOf(EndRun(s, e)))
  {
    var r := s.runs[e].recipient;
    if s.runs[e].matched {
      QuietMarkSent(s.db, r, s.clock);
      WriteStandsTheSame(s, e, MarkSent(s.db, r, s.clock));
    } else {
      QuietUnresolved(s.db, r);
      WriteStandsTheSame(s, e, MarkUnresolved(s.db, r));
    }
  }

  /** A match writes SENT and releases the reservation, whoever is still sending. */
  lemma MatchNeedsAnswer(s: Sys, e: RunId)
    requires Safe(s) && Runs(s, e) && s.runs[e].Reconciling? && s.runs[e].matched && Safe(EndRun(s, e))
    ensures !StandingOf(s, s.runs[e].recipient).Live?
  {
    var r, next := s.runs[e].recipient, EndRun(s, e);
    EndStandsTheSame(s, e);
    assert next.db.deliveries[r].state.Sent? && Settled(next.db, StandingsOf(next), r);
    assert At(StandingsOf(s), r) == At(StandingsOf(next), r);
  }

  /** Giving up releases the reservation, so an open delivery needs the mark on its creator. */
  lemma GivingUpNeedsFlag(s: Sys, e: RunId)
    requires Safe(s) && Runs(s, e) && s.runs[e].Reconciling? && !s.runs[e].matched && Safe(EndRun(s, e))
    ensures Flagged(s.db, s.runs[e].recipient) || !Open(s.db, StandingsOf(s), s.runs[e].recipient)
  {
    var r, next := s.runs[e].recipient, EndRun(s, e);
    EndStandsTheSame(s, e);
    if Open(s.db, StandingsOf(s), r) {
      assert Open(next.db, StandingsOf(next), r);
      GivingUpUnguardsExactly(s.db, r);
    }
  }

  /** For every safe state: a reconciliation's last write keeps the invariant if and only if it is benign. */
  lemma ReconcilingKeepsSafeExactly(s: Sys, e: RunId)
    requires Safe(s) && Runs(s, e) && s.runs[e].Reconciling?
    ensures Safe(EndRun(s, e)) <==> Benign(s, Job(End(e)))
  {
    if Safe(EndRun(s, e)) {
      if s.runs[e].matched { MatchNeedsAnswer(s, e); } else { GivingUpNeedsFlag(s, e); }
    } else if Benign(s, Job(End(e))) {
      EndKeepsSafe(s, e);
    }
  }

  /**
   * What a guard on the giving-up write would have to read: on a delivery claimed again
   * meanwhile it is safe exactly while the contact row is marked.
   */
  lemma MarkIsTheGuard(s: Sys, e: RunId)
    requires Safe(s) && Runs(s, e) && s.runs[e].Reconciling? && !s.runs[e].matched
    requires s.db.deliveries[s.runs[e].recipient].state.Dispatching? && StandingOf(s, s.runs[e].recipient).Live?
    ensures Safe(EndRun(s, e)) <==> ContactAt(s.db, KeyOf(s.db, s.runs[e].recipient)).unresolvedDelivery
  {
    ReconcilingKeepsSafeExactly(s, e);
  }

  // --------------------------------------------------- all steps, and runs

  /** For every safe state and every step, computed rebuilds included: it keeps the invariant if and only if it is benign. */
  lemma StepIsSafeExactly(s: Sys, step: Step)
    requires Safe(s)
    ensures Safe(Apply(s, step)) <==> Benign(s, step)
  {
    if step.Job? && step.job.End? && Runs(s, step.job.run) && s.runs[step.job.run].Reconciling? {
      ReconcilingKeepsSafeExactly(s, step.job.run);
    } else {
      StepKeepsSafe(s, step);
    }
  }

  ghost predicate SafeAlways(s: Sys, steps: seq<Step>)
    decreases |steps|
  {
    Safe(s) && (steps == [] || SafeAlways(Apply(s, steps[0]), steps[1..]))
  }

  /** A run from a safe state stays safe throughout exactly when it is benign. */
  lemma {:induction false} RunIsSafeExactly(s: Sys, steps: seq<Step>)
    requires Safe(s)
    ensures SafeAlways(s, steps) <==> BenignRun(s, steps)
    decreases |steps|
  {
    if steps != [] {
      StepIsSafeExactly(s, steps[0]);
      if Benign(s, steps[0]) { RunIsSafeExactly(Apply(s, steps[0]), steps[1..]); }
    }
  }
}
