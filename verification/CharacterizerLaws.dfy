/** What outcomes lead to: when a tier is passed, when a ladder ends, and what a throttle, an error or a lost session means. */
module CharacterizerLaws {
  import opened Options
  import opened Characterizer

  const GOOD := Success(true)

  /** Applies outcomes of one kind of request one after another. */
  function Twice(a: Auto, kind: Phase, session: Session): Auto
    requires CanApply(a, kind)
  {
    var once := ApplyOutcome(a, kind, GOOD, session);
    if CanApply(once, kind) then ApplyOutcome(once, kind, GOOD, session) else once
  }

  /** Three successes in a row pass a tier of the continuation ladder; after the last tier the fresh ladder begins. */
  lemma ThreeContinuationsPass(a: Auto, session: Session)
    requires a.phase.Continuation? && a.continuationIndex < 10 && a.continuationSuccesses == 0 && session.resumable && session.page < 20
    ensures var b := Twice(a, Continuation, session);
            && b.phase.Continuation? && b.continuationIndex == a.continuationIndex && b.fastestContinuation == a.fastestContinuation
            && CanApply(b, Continuation)
            && var c := ApplyOutcome(b, Continuation, GOOD, session);
               && c.continuationIndex == a.continuationIndex + 1 && c.continuationSuccesses == 0
               && c.fastestContinuation == Some(CONTINUATION_SECONDS[a.continuationIndex])
               && c.phase == (if a.continuationIndex == 9 then FreshSearch else Continuation)
               && c.freshIndex == a.freshIndex && c.fastestFresh == a.fastestFresh && c.result == a.result
  {
  }

  /** The same of the fresh ladder, whose last tier concludes the experiment. */
  lemma ThreeSearchesPass(a: Auto, session: Session)
    requires a.phase.FreshSearch? && a.freshIndex < 6 && a.freshSuccesses == 0
    ensures var b := Twice(a, FreshSearch, session);
            && b.phase.FreshSearch? && b.freshIndex == a.freshIndex && b.fastestFresh == a.fastestFresh && CanApply(b, FreshSearch)
            && var c := ApplyOutcome(b, FreshSearch, GOOD, session);
               && c.freshIndex == a.freshIndex + 1 && c.freshSuccesses == 0 && c.fastestFresh == Some(FRESH_SECONDS[a.freshIndex])
               && (if a.freshIndex == 5 then c.phase.Complete? && c.result.Conclusive? else c.phase.FreshSearch? && c.result == a.result)
               && c.continuationIndex == a.continuationIndex && c.fastestContinuation == a.fastestContinuation
  {
  }

  /**
   * A throttle is waited out, and what comes after a successful recovery depends on what was throttled: the fresh
   * ladder after the continuation ladder, the end after the fresh one, and the continuation ladder after a lost session.
   */
  lemma ThrottleThenRecovery(a: Auto, kind: Phase, session: Session, later: Session)
    requires CanApply(a, kind) && (kind.Continuation? || kind.FreshSearch? || kind.SessionRefresh?)
    ensures var waiting := ApplyOutcome(a, kind, Throttled, session);
            var back := ApplyOutcome(waiting, Recovery, GOOD, later);
            && waiting.phase.Recovery? && waiting.pending.None?
            && ApplyOutcome(waiting, Recovery, Throttled, later) == waiting
            && waiting.failedContinuation == (if kind.Continuation? then Some(CONTINUATION_SECONDS[a.continuationIndex]) else a.failedContinuation)
            && waiting.failedFresh == (if kind.FreshSearch? then Some(FRESH_SECONDS[a.freshIndex]) else a.failedFresh)
            && (match kind
                case Continuation => back.phase.FreshSearch? && back.result == a.result
                case FreshSearch => back.phase.Complete? && back.result.Conclusive?
                case _ => back.phase.Continuation? && back.result == a.result)
            && back.fastestContinuation == a.fastestContinuation && back.fastestFresh == a.fastestFresh
            && back.continuationIndex == a.continuationIndex && back.freshIndex == a.freshIndex
            && back.continuationSuccesses == a.continuationSuccesses && back.freshSuccesses == a.freshSuccesses
  {
  }

  /** An error that is not understood ends the experiment without a conclusion; so does an expired session, but for a continuation. */
  lemma ErrorsGiveUp(a: Auto, kind: Phase, session: Session)
    requires CanApply(a, kind) && !kind.Complete?
    ensures var b := ApplyOutcome(a, kind, OtherError, session); b.phase.Complete? && b.result.Incomplete?
    ensures var b := ApplyOutcome(a, kind, SessionExpired, session);
            if kind.Continuation? then b == a.(phase := SessionRefresh, pending := None) else b.phase.Complete? && b.result.Incomplete?
  {
  }

  /** A new session is used if it can be paged, and is no use if it cannot; a page that was the last asks for a new one. */
  lemma SessionsAreRenewed(a: Auto, session: Session)
    ensures var b := ApplyOutcome(a, SessionRefresh, GOOD, session);
            if session.resumable && session.page < 20 then b == a.(phase := Continuation, pending := None)
            else b.phase.Complete? && b.result.Incomplete?
    ensures a.phase.Continuation? && a.continuationIndex < 9 && !(session.resumable && session.page < 20) ==>
              ApplyOutcome(a, Continuation, GOOD, session).phase.SessionRefresh?
  {
  }
}
