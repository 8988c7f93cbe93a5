/**
 * The experiment's state dictionary, rewritten key by key as the outcome of a request is
 * applied.  `history` are the states it has gone through: what an interrupt can save.
 */
module CharacterizerState {
  import opened Options
  import C = Characterizer
  import opened Characterizer

  class State {
    var phase: Phase
    var pending: Option<Action>
    var continuationIndex: nat
    var continuationSuccesses: nat
    var freshIndex: nat
    var freshSuccesses: nat
    var fastestContinuation: Option<nat>
    var failedContinuation: Option<nat>
    var fastestFresh: Option<nat>
    var failedFresh: Option<nat>
    var afterRecovery: Phase
    var result: Result
    ghost var history: seq<Auto>

    ghost function View(): Auto
      reads this
    {
      Auto(phase, pending, continuationIndex, continuationSuccesses, freshIndex, freshSuccesses,
           fastestContinuation, failedContinuation, fastestFresh, failedFresh, afterRecovery, result)
    }

    method EnterPhase(next: Phase)
      modifies `phase, `history
      ensures View() == old(View()).(phase := next) && history == old(history) + [View()]
    {
      phase := next;
      history := history + [View()];
    }

    method EnterRecoveryFor(after: Phase)
      modifies `phase, `afterRecovery, `history
      ensures View() == EnterRecovery(old(View()), after)
      ensures history == old(history) + RecoveryEntry(old(View()), after)
    {
      EnterPhase(Recovery);
      afterRecovery := after;
      history := history + [View()];
    }

    method Conclude()
      modifies `phase, `result, `history
      ensures View() == old(View()).(phase := Complete, result := Conclusive)
      ensures history == old(history) + [old(View()).(phase := Complete), View()]
    {
      EnterPhase(Complete);
      result := Conclusive;
      history := history + [View()];
    }

    method Abandon()
      modifies `phase, `result, `history
      ensures View() == GiveUp(old(View())) && history == old(history) + GivingUp(old(View()))
    {
      result := Incomplete;
      history := history + [View()];
      EnterPhase(Complete);
    }

    /** The third success in a row of a continuation tier. */
    method PassContinuationTier(interval: nat)
      requires continuationIndex < |CONTINUATION_SECONDS| && interval == CONTINUATION_SECONDS[continuationIndex]
      modifies `fastestContinuation, `continuationSuccesses, `continuationIndex, `history
      ensures View() == old(View()).(fastestContinuation := Some(interval), continuationSuccesses := 0,
                                     continuationIndex := old(continuationIndex) + 1)
      ensures history == old(history) + [old(View()).(fastestContinuation := Some(interval)),
                                         old(View()).(fastestContinuation := Some(interval), continuationSuccesses := 0), View()]
    {
      fastestContinuation := Some(interval);
      history := history + [View()];
      continuationSuccesses := 0;
      history := history + [View()];
      continuationIndex := continuationIndex + 1;
      history := history + [View()];
    }

    method ApplyContinuationSuccess(session: Session)
      requires continuationIndex < |CONTINUATION_SECONDS|
      modifies this
      ensures forall cursor :: View() == ContinuationOutcome(old(View()), Success(cursor), session)
      ensures history == old(history) + ContinuationSuccess(old(View()), session)
    {
      var interval := CONTINUATION_SECONDS[continuationIndex];
      var hasCursor := session.resumable && session.page < MAX_PAGES;
      continuationSuccesses := continuationSuccesses + 1;
      history := history + [View()];
      if continuationSuccesses >= SUCCESSES_PER_TIER {
        PassContinuationTier(interval);
        if continuationIndex >= |CONTINUATION_SECONDS| {
          EnterPhase(FreshSearch);
        } else if !hasCursor {
          EnterPhase(SessionRefresh);
        }
      } else if !hasCursor {
        EnterPhase(SessionRefresh);
      }
    }

    method ApplyContinuation(o: Outcome, session: Session)
      requires continuationIndex < |CONTINUATION_SECONDS|
      modifies this
      ensures View() == ContinuationOutcome(old(View()), o, session)
      ensures history == old(history) + ContinuationWrites(old(View()), o, session)
    {
      if o.Throttled? {
        failedContinuation := Some(CONTINUATION_SECONDS[continuationIndex]);
        history := history + [View()];
        EnterRecoveryFor(FreshSearch);
      } else if o.Success? {
        ApplyContinuationSuccess(session);
      } else if o.SessionExpired? {
        EnterPhase(SessionRefresh);
      } else {
        Abandon();
      }
    }

    method PassFreshTier(interval: nat)
      requires freshIndex < |FRESH_SECONDS| && interval == FRESH_SECONDS[freshIndex]
      modifies `fastestFresh, `freshSuccesses, `freshIndex, `history
      ensures View() == old(View()).(fastestFresh := Some(interval), freshSuccesses := 0, freshIndex := old(freshIndex) + 1)
      ensures history == old(history) + [old(View()).(fastestFresh := Some(interval)),
                                         old(View()).(fastestFresh := Some(interval), freshSuccesses := 0), View()]
    {
      fastestFresh := Some(interval);
      history := history + [View()];
      freshSuccesses := 0;
      history := history + [View()];
      freshIndex := freshIndex + 1;
      history := history + [View()];
    }

    method ApplyFresh(o: Outcome)
      requires freshIndex < |FRESH_SECONDS|
      modifies this
      ensures View() == FreshOutcome(old(View()), o)
      ensures history == old(history) + FreshWrites(old(View()), o)
    {
      var interval := FRESH_SECONDS[freshIndex];
      if o.Throttled? {
        failedFresh := Some(interval);
        history := history + [View()];
        EnterRecoveryFor(Complete);
      } else if o.Success? {
        freshSuccesses := freshSuccesses + 1;
        history := history + [View()];
        if freshSuccesses >= SUCCESSES_PER_TIER {
          PassFreshTier(interval);
          if freshIndex >= |FRESH_SECONDS| { Conclude(); }
        }
      } else {
        Abandon();
      }
    }

    method ApplyProbe(kind: Phase, o: Outcome, session: Session)
      requires kind.Recovery? || kind.SessionRefresh?
      modifies this
      ensures View() == if kind.Recovery? then RecoveryOutcome(old(View()), o) else RefreshOutcome(old(View()), o, session)
      ensures history == old(history) + (if kind.Recovery? then RecoveryWrites(old(View()), o) else RefreshWrites(old(View()), o, session))
    {
      if o.Throttled? {
        EnterRecoveryFor(if kind.Recovery? then afterRecovery else Continuation);
      } else if !o.Success? {
        Abandon();
      } else if kind.SessionRefresh? {
        if session.resumable && session.page < MAX_PAGES { EnterPhase(Continuation); } else { Abandon(); }
      } else if afterRecovery.Complete? {
        Conclude();
      } else if afterRecovery.FreshSearch? {
        EnterPhase(FreshSearch);
      } else {
        EnterPhase(Continuation);
      }
    }

    /** The dictionary goes through exactly the states of `Writes`, and ends at the outcome's. */
    method Apply(kind: Phase, o: Outcome, session: Session)
      requires !kind.Complete? && CanApply(View(), kind)
      modifies this
      ensures View() == ApplyOutcome(old(View()), kind, o, session)
      ensures history == old(history) + Writes(old(View()), kind, o, session)
    {
      if kind.Continuation? {
        ApplyContinuation(o, session);
      } else if kind.FreshSearch? {
        ApplyFresh(o);
      } else {
        ApplyProbe(kind, o, session);
      }
      pending := None;
      history := history + [View()];
      WritesComeToOutcome(old(View()), kind, o, session);
    }
  }
}
