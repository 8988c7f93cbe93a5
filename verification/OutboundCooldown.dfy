/**
 * Cooldown over whole runs: two messages to one creator accepted for different
 * deliveries are at least the later one's cooldown apart, as long as no
 * reconciliation of the run misreads the past (`Benign`).
 */
module OutboundCooldown {
  import opened Options
  import opened OutreachDb
  import opened OutboundProtocol
  import opened OutboundSafety
  import opened OutboundSpacing
  import opened OutboundRebuild

  /**
   * A reconciliation does not match a delivery whose message is still on its way, and a
   * late one does not give up on a delivery claimed again meanwhile and no longer marked.
   */
  ghost predicate Benign(s: Sys, step: Step) {
    step.Job? && step.job.End? && Runs(s, step.job.run) && s.runs[step.job.run].Reconciling? ==>
      var x := s.runs[step.job.run];
      if x.matched then !StandingOf(s, x.recipient).Live? else Flagged(s.db, x.recipient) || !Open(s.db, StandingsOf(s), x.recipient)
  }

  ghost predicate BenignRun(s: Sys, steps: seq<Step>)
    decreases |steps|
  {
    steps == [] || (Benign(s, steps[0]) && BenignRun(Apply(s, steps[0]), steps[1..]))
  }

  // ------------------------------------------ steps that leave the tables alone

  lemma StillKeepsSafe(s: Sys, next: Sys)
    requires Safe(s) && AtMostOnce(next) && AnswersBacked(next)
    requires next.db == s.db && next.clock == s.clock
    requires SameStandings(StandingsOf(s), StandingsOf(next))
    ensures Safe(next)
  {
    assert StandingsOf(next) == StandingsOf(s);
  }

  lemma MoveKeepsSafe(s: Sys, next: Sys, r: RecipientId, to: Standing)
    requires Safe(s) && AtMostOnce(next) && AnswersBacked(next)
    requires next.db == s.db && next.clock == s.clock
    requires r in s.db.deliveries && StandingOf(s, r).Live? && StandingsOf(next) == StandingsOf(s)[r := to]
    requires to == Idle || to == Delivered(StandingOf(s, r).claimedAt, s.clock)
    ensures Safe(next)
  {
    if to.Idle? {
      ReleaseKeepsGaps(s.db, StandingsOf(s), r, s.clock);
    } else {
      AcceptKeepsGaps(s.db, StandingsOf(s), r, s.clock);
    }
  }

  /** A run that holds no claim and has no acceptance to report appears. */
  lemma BeginStandsTheSame(s: Sys, e: RunId, x: Execution)
    requires KnownRuns(s) && AnswersBacked(s) && e !in s.runs && (x.Seen? || x.Reconciling?)
    ensures var next := s.(runs := s.runs[e := x]); AnswersBacked(next) && SameStandings(StandingsOf(s), StandingsOf(next))
  {
    SameHoldersStandTheSame(s, s.(runs := s.runs[e := x]));
  }

  lemma BeginKeepsSafe(s: Sys, next: Sys, e: RunId, x: Execution)
    requires Safe(s) && AtMostOnce(next) && e !in s.runs && next == s.(runs := s.runs[e := x])
    requires x.Seen? || x.Reconciling?
    ensures Safe(next)
  {
    BeginStandsTheSame(s, e, x);
    StillKeepsSafe(s, next);
  }

  lemma StartKeepsSafe(s: Sys, e: RunId, r: RecipientId)
    requires Safe(s)
    ensures Safe(Start(s, e, r))
  {
    StartKeepsAtMostOnce(s, e, r, false);
    if e !in s.runs && e !in s.requests && r in s.db.deliveries {
      match ActionFor(s.db.deliveries[r].state)
      case Dispatch => BeginKeepsSafe(s, Start(s, e, r), e, Seen(r, false));
      case RecoverAsUnknown => BeginKeepsSafe(s, Start(s, e, r), e, Seen(r, true));
      case Skip =>
    }
  }

  lemma StartReconcileKeepsSafe(s: Sys, e: RunId, r: RecipientId, matched: bool)
    requires Safe(s)
    ensures Safe(StartReconcile(s, e, r, matched))
  {
    StartKeepsAtMostOnce(s, e, r, matched);
    var next := StartReconcile(s, e, r, matched);
    if next != s { BeginKeepsSafe(s, next, e, next.runs[e]); }
  }

  /** Run `e` and its request are about delivery `r` alone. */
  predicate About(s: Sys, e: RunId, r: RecipientId) {
    (e in s.runs ==> s.runs[e].recipient == r) && (e in s.requests ==> s.requests[e].recipient == r)
  }

  lemma OthersStandTheSame(s: Sys, next: Sys, e: RunId, r: RecipientId, q: RecipientId)
    requires next.claimedBy == s.claimedBy && next.requests - {e} == s.requests - {e} && next.runs - {e} == s.runs - {e}
    requires About(s, e, r) && About(next, e, r) && q != r
    ensures StandingOf(next, q) == StandingOf(s, q)
  {
    if q in s.claimedBy {
      var f := s.claimedBy[q];
      if f != e {
        assert f in (s.requests - {e}) <==> f in s.requests;
        assert f in (s.runs - {e}) <==> f in s.runs;
        assert f in (next.requests - {e}) <==> f in next.requests;
        assert f in (next.runs - {e}) <==> f in next.runs;
      }
    }
  }

  lemma OneStandingMoves(s: Sys, next: Sys, e: RunId, r: RecipientId)
    requires next.claimedBy == s.claimedBy && next.requests - {e} == s.requests - {e} && next.runs - {e} == s.runs - {e}
    requires About(s, e, r) && About(next, e, r) && next.db == s.db && r in s.db.deliveries
    ensures StandingsOf(next) == StandingsOf(s)[r := StandingOf(next, r)]
  {
    forall q | q in s.db.deliveries && q != r ensures StandingOf(next, q) == StandingOf(s, q) {
      OthersStandTheSame(s, next, e, r, q);
    }
  }

  lemma HolderStandsLive(s: Sys, e: RunId)
    requires AtMostOnce(s) && e in s.runs && s.runs[e].Holding?
    ensures StandingOf(s, s.runs[e].recipient) == Live(s.runs[e].claimedAt) && e !in s.requests
  {
    assert Claims(s, e, s.runs[e].recipient);
  }

  lemma RequestStands(s: Sys, e: RunId)
    requires AtMostOnce(s) && e in s.requests
    ensures var q := s.requests[e];
            StandingOf(s, q.recipient) ==
              if q.acceptedAt.Some? then Delivered(q.claimedAt, q.acceptedAt.value) else Live(q.claimedAt)
  {
    assert Claims(s, e, s.requests[e].recipient);
  }

  /** The holder of a claim crashes, or fails before it sent anything. */
  lemma LetGoKeepsSafe(s: Sys, next: Sys, e: RunId)
    requires Safe(s) && AtMostOnce(next) && e in s.runs && s.runs[e].Holding?
    requires next == s.(runs := next.runs) && next.runs - {e} == s.runs - {e}
    requires e in next.runs ==> next.runs[e].Answered? && next.runs[e].answer.Refused? && next.runs[e].recipient == s.runs[e].recipient
    requires AnswersBacked(next)
    ensures Safe(next)
  {
    var r := s.runs[e].recipient;
    HolderStandsLive(s, e);
    OneStandingMoves(s, next, e, r);
    MoveKeepsSafe(s, next, r, Idle);
  }

  lemma FailLetsGo(s: Sys, e: RunId, how: Refusal)
    requires AnswersBacked(s) && e in s.runs && s.runs[e].Holding?
    ensures var next := AnswerWith(s, e, Refused(how)); AnswersBacked(next) && next.runs - {e} == s.runs - {e}
  {
  }

  lemma FailKeepsSafe(s: Sys, e: RunId, how: Refusal)
    requires Safe(s) && e in s.runs && s.runs[e].Holding?
    ensures Safe(AnswerWith(s, e, Refused(how)))
  {
    FailLetsGo(s, e, how);
    AnswerKeepsAtMostOnce(s, e, Ambiguous, how);
    LetGoKeepsSafe(s, AnswerWith(s, e, Refused(how)), e);
  }

  lemma DropStandsTheSame(s: Sys, e: RunId)
    requires AtMostOnce(s) && AnswersBacked(s) && (e in s.runs ==> !s.runs[e].Holding?)
    ensures AnswersBacked(Drop(s, e)) && SameStandings(StandingsOf(s), StandingsOf(Drop(s, e)))
  {
    SameHoldersStandTheSame(s, Drop(s, e));
  }

  lemma DropLetsGo(s: Sys, e: RunId)
    requires AtMostOnce(s) && AnswersBacked(s)
    ensures AtMostOnce(Drop(s, e)) && AnswersBacked(Drop(s, e)) && Drop(s, e).runs - {e} == s.runs - {e}
  {
    QuietKeepsAtMostOnce(s, Drop(s, e));
  }

  lemma CrashKeepsSafe(s: Sys, e: RunId)
    requires Safe(s)
    ensures Safe(Drop(s, e))
  {
    DropLetsGo(s, e);
    if e in s.runs && s.runs[e].Holding? {
      LetGoKeepsSafe(s, Drop(s, e), e);
    } else {
      DropStandsTheSame(s, e);
      StillKeepsSafe(s, Drop(s, e));
    }
  }

  /** The request takes the place of the claim it was sent under. */
  lemma SentStandsTheSame(s: Sys, e: RunId)
    requires AtMostOnce(s) && AnswersBacked(s) && e in s.runs && s.runs[e].Holding?
    ensures AnswersBacked(SendRequest(s, e)) && SameStandings(StandingsOf(s), StandingsOf(SendRequest(s, e)))
  {
    HolderStandsLive(s, e);
    OneStandingMoves(s, SendRequest(s, e), e, s.runs[e].recipient);
    assert Claims(s, e, s.runs[e].recipient);
  }

  lemma SendKeepsSafe(s: Sys, e: RunId)
    requires Safe(s)
    ensures Safe(SendRequest(s, e))
  {
    if e in s.runs && s.runs[e].Holding? {
      SendKeepsAtMostOnce(s, e);
      SentStandsTheSame(s, e);
      StillKeepsSafe(s, SendRequest(s, e));
    }
  }

  lemma AcceptMoves(s: Sys, e: RunId)
    requires AtMostOnce(s) && AnswersBacked(s) && e in s.requests && s.requests[e].acceptedAt.None?
    ensures var r := s.requests[e].recipient;
            StandingOf(s, r).Live? && AnswersBacked(ProviderAccepts(s, e))
            && StandingsOf(ProviderAccepts(s, e)) == StandingsOf(s)[r := Delivered(StandingOf(s, r).claimedAt, s.clock)]
  {
    RequestStands(s, e);
    OneStandingMoves(s, ProviderAccepts(s, e), e, s.requests[e].recipient);
  }

  lemma AcceptKeepsSafe(s: Sys, e: RunId)
    requires Safe(s)
    ensures Safe(ProviderAccepts(s, e))
  {
    if e in s.requests && s.requests[e].acceptedAt.None? {
      var r := s.requests[e].recipient;
      SendKeepsAtMostOnce(s, e);
      AcceptMoves(s, e);
      MoveKeepsSafe(s, ProviderAccepts(s, e), r, Delivered(StandingOf(s, r).claimedAt, s.clock));
    }
  }

  lemma RefusalMoves(s: Sys, e: RunId, how: Refusal)
    requires AtMostOnce(s) && AnswersBacked(s) && e in s.runs && s.runs[e].Waiting? && e in s.requests
    requires s.requests[e].acceptedAt.None?
    ensures var r := s.runs[e].recipient;
            StandingOf(s, r).Live? && AnswersBacked(SeeAnswer(s, e, Refused(how)))
            && StandingsOf(SeeAnswer(s, e, Refused(how))) == StandingsOf(s)[r := Idle]
  {
    RequestStands(s, e);
    OneStandingMoves(s, SeeAnswer(s, e, Refused(how)), e, s.runs[e].recipient);
  }

  lemma AnswerStandsTheSame(s: Sys, e: RunId, answer: Answer)
    requires AtMostOnce(s) && AnswersBacked(s) && e in s.runs && s.runs[e].Waiting? && e in s.requests
    requires answer.Ambiguous? || (answer.Accepted? && s.requests[e].acceptedAt.Some?)
    ensures AnswersBacked(SeeAnswer(s, e, answer)) && SameStandings(StandingsOf(s), StandingsOf(SeeAnswer(s, e, answer)))
  {
    SameHoldersStandTheSame(s, SeeAnswer(s, e, answer));
  }

  lemma SeeKeepsSafe(s: Sys, e: RunId, answer: Answer)
    requires Safe(s)
    ensures Safe(SeeAnswer(s, e, answer))
  {
    if e in s.runs && s.runs[e].Waiting? && e in s.requests {
      AnswerKeepsAtMostOnce(s, e, answer, RetryLater);
      if answer.Refused? {
        if s.requests[e].acceptedAt.None? {
          RefusalMoves(s, e, answer.how);
          MoveKeepsSafe(s, SeeAnswer(s, e, answer), s.runs[e].recipient, Idle);
        }
      } else if answer.Ambiguous? || s.requests[e].acceptedAt.Some? {
        AnswerStandsTheSame(s, e, answer);
        StillKeepsSafe(s, SeeAnswer(s, e, answer));
      }
    }
  }

  // -------------------------------------------------------------- the claim

  lemma GrantKeepsAnswers(s: Sys, next: Sys, e: RunId, r: RecipientId)
    requires AnswersBacked(s) && next.runs == s.runs[e := Holding(r, s.clock)] && next.requests == s.requests
    ensures AnswersBacked(next)
  {
  }

  lemma GrantedStands(s: Sys, next: Sys, e: RunId, r: RecipientId)
    requires AtMostOnce(s) && r in s.db.deliveries && Claimable(s.db.deliveries[r].state)
    requires e in s.runs && s.runs[e].Seen? && s.runs[e].recipient == r
    requires next.runs == s.runs[e := Holding(r, s.clock)] && next.claimedBy == s.claimedBy[r := e] && next.requests == s.requests
    ensures StandingOf(next, r) == Live(s.clock)
  {
    assert e !in s.requests;
  }

  lemma GrantLeavesStanding(s: Sys, next: Sys, e: RunId, r: RecipientId, q: RecipientId)
    requires e in s.runs && s.runs[e].Seen? && q != r
    requires next.runs == s.runs[e := Holding(r, s.clock)] && next.claimedBy == s.claimedBy[r := e] && next.requests == s.requests
    ensures StandingOf(next, q) == StandingOf(s, q)
  {
  }

  lemma GrantMoves(s: Sys, next: Sys, e: RunId, r: RecipientId)
    requires AtMostOnce(s) && AnswersBacked(s) && r in s.db.deliveries && Claimable(s.db.deliveries[r].state)
    requires e in s.runs && s.runs[e].Seen? && s.runs[e].recipient == r && next.db.deliveries.Keys == s.db.deliveries.Keys
    requires next.runs == s.runs[e := Holding(r, s.clock)] && next.claimedBy == s.claimedBy[r := e] && next.requests == s.requests
    ensures AnswersBacked(next) && StandingsOf(next) == StandingsOf(s)[r := Live(s.clock)]
  {
    GrantKeepsAnswers(s, next, e, r);
    GrantedStands(s, next, e, r);
    forall q | q in s.db.deliveries && q != r ensures StandingOf(next, q) == StandingOf(s, q) {
      GrantLeavesStanding(s, next, e, r, q);
    }
  }

  lemma GrantKeepsSafe(s: Sys, e: RunId)
    requires Safe(s) && Runs(s, e) && s.runs[e].Seen? && !s.runs[e].recover
    requires ReserveDispatchSlot(s.db, s.runs[e].recipient, s.clock).1.Claimed?
    ensures Safe(ClaimSlot(s, e))
  {
    var r, next := s.runs[e].recipient, ClaimSlot(s, e);
    ClaimKeepsAtMostOnce(s, e);
    ClaimKeepsTables(s.db, r, s.clock);
    ClaimableIsIdle(s, r);
    GrantedTables(s.db, r, s.clock);
    GrantKeepsGaps(s.db, next.db, StandingsOf(s), r, s.clock);
    GrantMoves(s, next, e, r);
  }

  // ------------------------------------------------ changes of the tables

  /** Only the tables change, and no run that holds a claim ends. */
  ghost predicate OnlyTables(s: Sys, next: Sys) {
    && next.requests == s.requests && next.claimedBy == s.claimedBy && next.clock == s.clock
    && (forall e | e in next.runs :: e in s.runs && next.runs[e] == s.runs[e])
    && (forall e | e in s.runs && s.runs[e].Holding? :: e in next.runs)
  }

  lemma OnlyTablesKeepsAnswers(s: Sys, next: Sys)
    requires AnswersBacked(s) && OnlyTables(s, next)
    ensures AnswersBacked(next)
  {
  }

  lemma TablesKeepSafe(s: Sys, next: Sys, but: set<RecipientId>)
    requires Safe(s) && OnlyTables(s, next) && AtMostOnce(next) && TablesOk(next.db)
    requires Shelters(s.db, next.db, but, s.clock)
    requires forall r | r in but && r in s.db.deliveries :: !Open(next.db, StandingsOf(s), r)
    requires AllSettled(next.db, StandingsOf(s)) && HoldersClear(next.db, StandingsOf(s), s.clock)
    ensures Safe(next)
  {
    OnlyTablesKeepsAnswers(s, next);
    SameHoldersStandTheSame(s, next);
    DbChangeKeepsGaps(s.db, next.db, StandingsOf(s), StandingsOf(next), but, s.clock);
  }

  /** Rows that stay, and nobody new with a reservation. */
  lemma LeavesKeepsRows(db: Db, next: Db, st: Standings, but: set<RecipientId>, clock: int)
    requires ValidDb(db) && Gaps(db, st, clock) && Leaves(db, next, but) && ReservesNobody(db, next)
    requires (forall r | r in st :: r in db.deliveries) && (forall r | r in but && r in next.deliveries :: Settled(next, st, r))
    ensures AllSettled(next, st) && HoldersClear(next, st, clock)
  {
    LeavesKeepsSettled(db, next, st, but);
    NobodyNewIsClear(db, next, st, clock);
  }

  // ------------------------------------------------------ the end of a run

  /** A run that was refused no longer stands for anything. */
  lemma RefusedIsIdle(s: Sys, e: RunId)
    requires AtMostOnce(s) && e in s.runs && s.runs[e].Answered? && s.runs[e].answer.Refused?
    ensures StandingOf(s, s.runs[e].recipient) == Idle
  {
    assert Claims(s, e, s.runs[e].recipient) && e !in s.requests;
  }

  lemma AcceptedIsDelivered(s: Sys, e: RunId)
    requires AtMostOnce(s) && AnswersBacked(s) && e in s.runs && s.runs[e].Answered? && s.runs[e].answer.Accepted?
    ensures StandingOf(s, s.runs[e].recipient).Delivered?
  {
    RequestStands(s, e);
  }

  lemma SettleIsOnlyTables(s: Sys, e: RunId, db: Db)
    requires e in s.runs ==> !s.runs[e].Holding?
    ensures OnlyTables(s, Drop(s, e).(db := db))
  {
  }

  lemma SettleKeepsSafe(s: Sys, e: RunId, db: Db, but: set<RecipientId>)
    requires Safe(s) && e in s.runs && !s.runs[e].Holding? && AtMostOnce(Drop(s, e).(db := db)) && TablesOk(db)
    requires Shelters(s.db, db, but, s.clock) && (forall r | r in but && r in s.db.deliveries :: !Open(db, StandingsOf(s), r))
    requires AllSettled(db, StandingsOf(s)) && HoldersClear(db, StandingsOf(s), s.clock)
    ensures Safe(Drop(s, e).(db := db))
  {
    SettleIsOnlyTables(s, e, db);
    TablesKeepSafe(s, Drop(s, e).(db := db), but);
  }

  /** A run ends with a change that concerns its own delivery, closed afterwards. */
  lemma ClosedRunKeepsSafe(s: Sys, e: RunId, db: Db)
    requires Safe(s) && Runs(s, e) && !s.runs[e].Holding? && AtMostOnce(Drop(s, e).(db := db)) && TablesOk(db)
    requires Shelters(s.db, db, {s.runs[e].recipient}, s.clock) && !Open(db, StandingsOf(s), s.runs[e].recipient)
    requires AllSettled(db, StandingsOf(s)) && HoldersClear(db, StandingsOf(s), s.clock)
    ensures Safe(Drop(s, e).(db := db))
  {
    SettleKeepsSafe(s, e, db, {s.runs[e].recipient});
  }

  lemma SentCloses(db: Db, st: Standings, r: RecipientId, now: int)
    requires TablesOk(db) && Known(db, r) && !At(st, r).Live? && Gaps(db, st, now) && (forall q | q in st :: q in db.deliveries)
    ensures var next := MarkSent(db, r, now);
            Shelters(db, next, {r}, now) && TablesOk(next) && !Open(next, st, r) && AllSettled(next, st) && HoldersClear(next, st, now)
  {
    MarkSentKeepsTables(db, r, now);
    MarkSentShelters(db, r, now);
    SentLeaves(db, r, now);
    LeavesKeepsRows(db, MarkSent(db, r, now), st, {r}, now);
  }

  lemma SentRunKeepsSafe(s: Sys, e: RunId)
    requires Safe(s) && Runs(s, e) && !s.runs[e].Holding? && !StandingOf(s, s.runs[e].recipient).Live?
    requires AtMostOnce(Drop(s, e).(db := MarkSent(s.db, s.runs[e].recipient, s.clock)))
    ensures Safe(Drop(s, e).(db := MarkSent(s.db, s.runs[e].recipient, s.clock)))
  {
    var r := s.runs[e].recipient;
    SentCloses(s.db, StandingsOf(s), r, s.clock);
    ClosedRunKeepsSafe(s, e, MarkSent(s.db, r, s.clock));
  }

  lemma UnknownRunKeepsSafe(s: Sys, e: RunId)
    requires Safe(s) && Runs(s, e) && !s.runs[e].Holding?
    requires AtMostOnce(Drop(s, e).(db := MarkUnknown(s.db, s.runs[e].recipient)))
    ensures Safe(Drop(s, e).(db := MarkUnknown(s.db, s.runs[e].recipient)))
  {
    var r := s.runs[e].recipient;
    MarkUnknownKeepsTables(s.db, r);
    MarkUnknownShelters(s.db, r, s.clock);
    UnknownLeaves(s.db, r);
    LeavesKeepsRows(s.db, MarkUnknown(s.db, r), StandingsOf(s), {r}, s.clock);
    SettleKeepsSafe(s, e, MarkUnknown(s.db, r), {});
  }

  lemma UnresolvedRunKeepsSafe(s: Sys, e: RunId)
    requires Safe(s) && Runs(s, e) && !s.runs[e].Holding?
    requires Flagged(s.db, s.runs[e].recipient) || !Open(s.db, StandingsOf(s), s.runs[e].recipient)
    requires AtMostOnce(Drop(s, e).(db := MarkUnresolved(s.db, s.runs[e].recipient)))
    ensures Safe(Drop(s, e).(db := MarkUnresolved(s.db, s.runs[e].recipient)))
  {
    var r := s.runs[e].recipient;
    UnresolvedKeepsTables(s.db, r);
    GivingUpLeaves(s.db, r);
    LeavesKeepsRows(s.db, MarkUnresolved(s.db, r), StandingsOf(s), {r}, s.clock);
    if Flagged(s.db, r) {
      UnresolvedShelters(s.db, r, s.clock);
      SettleKeepsSafe(s, e, MarkUnresolved(s.db, r), {});
    } else {
      UnresolvedSheltersOthers(s.db, r, s.clock);
      ClosedRunKeepsSafe(s, e, MarkUnresolved(s.db, r));
    }
  }

  /** A change that concerns one delivery, which it does not send. */
  ghost predicate GivesUpOnly(db: Db, next: Db, r: RecipientId, now: int) {
    Shelters(db, next, {r}, now) && TablesOk(next) && Leaves(db, next, {r}) && ReservesNobody(db, next)
  }

  lemma RetryGivesUpOnly(db: Db, r: RecipientId, now: int)
    requires TablesOk(db) && Known(db, r)
    ensures GivesUpOnly(db, MakeRetryable(db, r), r, now)
  {
    RetryShelters(db, r, now);
    RetryKeepsTables(db, r);
    RetryLeaves(db, r);
  }

  lemma FailureGivesUpOnly(db: Db, r: RecipientId, now: int)
    requires TablesOk(db) && Known(db, r)
    ensures GivesUpOnly(db, MarkTerminalFailure(db, r), r, now)
  {
    FailureShelters(db, r, now);
    TerminalKeepsTables(db, r);
    FailureLeaves(db, r);
  }

  lemma RestrictionGivesUpOnly(db: Db, r: RecipientId, now: int)
    requires TablesOk(db) && Known(db, r)
    ensures GivesUpOnly(db, MarkRestricted(db, r), r, now)
  {
    RestrictedShelters(db, r, now);
    RestrictedKeepsTables(db, r);
    RestrictionLeaves(db, r);
  }

  lemma IdleRunKeepsSafe(s: Sys, e: RunId, db: Db)
    requires Safe(s) && Runs(s, e) && !s.runs[e].Holding? && StandingOf(s, s.runs[e].recipient).Idle?
    requires AtMostOnce(Drop(s, e).(db := db)) && GivesUpOnly(s.db, db, s.runs[e].recipient, s.clock)
    ensures Safe(Drop(s, e).(db := db))
  {
    LeavesKeepsRows(s.db, db, StandingsOf(s), {s.runs[e].recipient}, s.clock);
    ClosedRunKeepsSafe(s, e, db);
  }

  /** A claim turned down concerns a delivery that is idle. */
  lemma DenialGivesUpOnly(db: Db, r: RecipientId, now: int)
    requires TablesOk(db) && Known(db, r)
    ensures GivesUpOnly(db, ReserveDispatchSlot(db, r, now).0, r, now)
  {
    ClaimKeepsTables(db, r, now);
    ClaimShelters(db, r, now);
    ClaimLeaves(db, r, now);
  }

  lemma ClaimKeepsSafe(s: Sys, e: RunId)
    requires Safe(s)
    ensures Safe(ClaimSlot(s, e))
  {
    if Runs(s, e) && s.runs[e].Seen? && !s.runs[e].recover {
      var r := s.runs[e].recipient;
      var result := ReserveDispatchSlot(s.db, r, s.clock);
      ClaimKeepsAtMostOnce(s, e);
      if result.1.Claimed? {
        GrantKeepsSafe(s, e);
      } else if Claimable(s.db.deliveries[r].state) {
        ClaimableIsIdle(s, r);
        DenialGivesUpOnly(s.db, r, s.clock);
        IdleRunKeepsSafe(s, e, result.0);
      } else {
        CrashKeepsSafe(s, e);
      }
    }
  }

  lemma RefusedRunKeepsSafe(s: Sys, e: RunId)
    requires Safe(s) && Runs(s, e) && s.runs[e].Answered? && s.runs[e].answer.Refused?
    requires AtMostOnce(Drop(s, e).(db := FinalWrite(s.db, s.runs[e], s.clock)))
    ensures Safe(Drop(s, e).(db := FinalWrite(s.db, s.runs[e], s.clock)))
  {
    var x := s.runs[e];
    RefusedIsIdle(s, e);
    match x.answer.how
    case RetryLater => RetryGivesUpOnly(s.db, x.recipient, s.clock); IdleRunKeepsSafe(s, e, MakeRetryable(s.db, x.recipient));
    case GiveUp => FailureGivesUpOnly(s.db, x.recipient, s.clock); IdleRunKeepsSafe(s, e, MarkTerminalFailure(s.db, x.recipient));
    case CreatorRestricted => RestrictionGivesUpOnly(s.db, x.recipient, s.clock); IdleRunKeepsSafe(s, e, MarkRestricted(s.db, x.recipient));
  }

  lemma EndKeepsSafe(s: Sys, e: RunId)
    requires Safe(s) && Benign(s, Job(End(e)))
    ensures Safe(EndRun(s, e))
  {
    EndKeepsAtMostOnce(s, e);
    if Runs(s, e) {
      match s.runs[e]
      case Seen(_, recover) => if recover { UnknownRunKeepsSafe(s, e); } else { CrashKeepsSafe(s, e); }
      case Answered(_, _, Accepted) => AcceptedIsDelivered(s, e); SentRunKeepsSafe(s, e);
      case Answered(_, _, Ambiguous) => UnknownRunKeepsSafe(s, e);
      case Answered(_, _, Refused(_)) => RefusedRunKeepsSafe(s, e);
      case Reconciling(_, matched) => if matched { SentRunKeepsSafe(s, e); } else { UnresolvedRunKeepsSafe(s, e); }
      case _ =>
    }
  }

  // ------------------------------------------------- all the other steps

  lemma StateKeepsTables(db: Db, c: CampaignId, state: CampaignState)
    requires TablesOk(db)
    ensures TablesOk(SetState(db, c, state))
  {
    var next := SetState(db, c, state);
    forall k ensures ReservationOk(next, k) {
      assert ReservationOk(db, k);
    }
    forall r ensures RowOk(next, r) {
      assert RowOk(db, r);
    }
  }

  lemma StateShelters(db: Db, c: CampaignId, state: CampaignState, now: int)
    requires TablesOk(db)
    ensures Shelters(db, SetState(db, c, state), {}, now)
  {
  }

  lemma StateLeaves(db: Db, c: CampaignId, state: CampaignState)
    requires ValidDb(db)
    ensures Leaves(db, SetState(db, c, state), {}) && ReservesNobody(db, SetState(db, c, state))
  {
  }

  lemma ContactShelters(db: Db, k: ContactKey, step: ContactStep, now: int)
    requires TablesOk(db) && !step.RebuildContact?
    ensures Shelters(db, ApplyContact(db, k, step), {}, now)
  {
  }

  lemma CampaignKeepsTables(db: Db, step: CampaignStep, now: int)
    requires TablesOk(db) && step.campaign in db.campaigns && now < FAR_FUTURE
    ensures TablesOk(ApplyCampaign(db, step, now))
  {
    match step
    case Rediscover(c, found) => PreviewKeepsTables(db, c, found);
    case FreezeCampaign(c, version) => FreezeKeepsTables(db, c, version, now);
    case QueueCampaign(c, version) => QueueKeepsTables(db, c, version);
    case CancelCampaign(c) => CancelKeepsTables(db, c);
    case SetCampaignState(c, state) => StateKeepsTables(db, c, state);
  }

  lemma CampaignShelters(db: Db, step: CampaignStep, now: int)
    requires TablesOk(db) && step.campaign in db.campaigns && now < FAR_FUTURE
    ensures Shelters(db, ApplyCampaign(db, step, now), ClaimableIn(db), now)
  {
    match step
    case Rediscover(c, found) => PreviewShelters(db, c, found, now);
    case FreezeCampaign(c, version) => FreezeShelters(db, c, version, now);
    case QueueCampaign(c, version) => QueueShelters(db, c, version, now);
    case CancelCampaign(c) => CancelShelters(db, c, now);
    case SetCampaignState(c, state) => StateShelters(db, c, state, now);
  }

  lemma ClaimableOnesAreIdle(s: Sys)
    requires AtMostOnce(s)
    ensures forall r | r in ClaimableIn(s.db) :: StandingOf(s, r) == Idle
  {
    forall r | r in ClaimableIn(s.db) ensures StandingOf(s, r) == Idle {
      ClaimableIsIdle(s, r);
    }
  }

  /** What a change of a campaign keeps of rows and reservations; only a freeze reserves anybody. */
  lemma CampaignKeepsRows(db: Db, step: CampaignStep, st: Standings, now: int)
    requires TablesOk(db) && step.campaign in db.campaigns && Gaps(db, st, now) && (forall r | r in st :: r in db.deliveries)
    requires ValidDb(ApplyCampaign(db, step, now)) && (forall r | r in ClaimableIn(db) :: At(st, r).Idle?)
    ensures AllSettled(ApplyCampaign(db, step, now), st) && HoldersClear(ApplyCampaign(db, step, now), st, now)
  {
    var next := ApplyCampaign(db, step, now);
    match step
    case Rediscover(c, found) => PreviewLeaves(db, c, found); LeavesKeepsRows(db, next, st, {}, now);
    case FreezeCampaign(c, version) =>
      FreezeLeaves(db, c, version, now);
      LeavesKeepsSettled(db, next, st, {});
      FreezeKeepsClear(db, st, c, version, now);
    case QueueCampaign(c, version) => QueueLeaves(db, c, version); LeavesKeepsRows(db, next, st, {}, now);
    case CancelCampaign(c) => CancelLeaves(db, c); LeavesKeepsRows(db, next, st, ClaimableIn(db), now);
    case SetCampaignState(c, state) => StateLeaves(db, c, state); LeavesKeepsRows(db, next, st, {}, now);
  }

  lemma CampaignKeepsSafe(s: Sys, step: CampaignStep)
    requires Safe(s) && step.campaign in s.db.campaigns
    ensures Safe(s.(db := ApplyCampaign(s.db, step, s.clock)))
  {
    CampaignKeepsAtMostOnce(s, step);
    CampaignKeepsTables(s.db, step, s.clock);
    CampaignShelters(s.db, step, s.clock);
    ClaimableOnesAreIdle(s);
    CampaignKeepsRows(s.db, step, StandingsOf(s), s.clock);
    TablesKeepSafe(s, s.(db := ApplyCampaign(s.db, step, s.clock)), ClaimableIn(s.db));
  }

  lemma ExpireKeepsSafe(s: Sys)
    requires Safe(s)
    ensures Safe(s.(db := ExpireFrozen(s.db, s.clock)))
  {
    ExpireKeepsAtMostOnce(s);
    ExpireKeepsTables(s.db, s.clock);
    ExpireShelters(s.db, s.clock);
    ExpireLeaves(s.db, s.clock);
    LeavesKeepsRows(s.db, ExpireFrozen(s.db, s.clock), StandingsOf(s), {}, s.clock);
    TablesKeepSafe(s, s.(db := ExpireFrozen(s.db, s.clock)), {});
  }

  lemma ContactKeepsSafe(s: Sys, k: ContactKey, step: ContactStep)
    requires Safe(s) && Finds(s, k, step)
    ensures Safe(s.(db := ApplyContact(s.db, k, step)))
  {
    if step.RebuildContact? {
      ComputedRebuildCovers(s, k, step.history, step.rebuilt.last);
      RebuildKeepsSafe(s, k, step.rebuilt);
    } else {
      ContactKeepsAtMostOnce(s, k, step);
      ContactKeepsTables(s.db, k, step);
      ContactShelters(s.db, k, step, s.clock);
      ContactLeaves(s.db, k, step);
      LeavesKeepsRows(s.db, ApplyContact(s.db, k, step), StandingsOf(s), {}, s.clock);
      TablesKeepSafe(s, s.(db := ApplyContact(s.db, k, step)), {});
    }
  }

  lemma TickKeepsGaps(db: Db, st: Standings, clock: int, later: int)
    requires ValidDb(db) && Gaps(db, st, clock) && clock <= later < FAR_FUTURE
    ensures Gaps(db, st, later)
  {
  }

  lemma TickMovesNothing(s: Sys, next: Sys)
    requires AtMostOnce(s) && AnswersBacked(s) && next == s.(clock := next.clock)
    ensures AtMostOnce(next) && AnswersBacked(next) && StandingsOf(next) == StandingsOf(s)
  {
    QuietKeepsAtMostOnce(s, next);
  }

  lemma LaterIsSafe(s: Sys, next: Sys)
    requires Safe(s) && next == s.(clock := next.clock) && s.clock <= next.clock < FAR_FUTURE
    ensures Safe(next)
  {
    TickMovesNothing(s, next);
    TickKeepsGaps(s.db, StandingsOf(s), s.clock, next.clock);
  }

  lemma TickKeepsSafe(s: Sys, ms: nat)
    requires Safe(s)
    ensures Safe(Advance(s, ms))
  {
    var next := Advance(s, ms);
    LaterIsSafe(s, next);
  }

  lemma JobKeepsSafe(s: Sys, step: JobStep)
    requires Safe(s) && Benign(s, Job(step))
    ensures Safe(ApplyJob(s, step))
  {
    match step
    case Begin(e, r) => StartKeepsSafe(s, e, r);
    case BeginReconcile(e, r, matched) => StartReconcileKeepsSafe(s, e, r, matched);
    case Claim(e) => ClaimKeepsSafe(s, e);
    case FailBeforeSend(e, how) => if e in s.runs && s.runs[e].Holding? { FailKeepsSafe(s, e, how); }
    case Issue(e) => SendKeepsSafe(s, e);
    case See(e, answer) => SeeKeepsSafe(s, e, answer);
    case End(e) => EndKeepsSafe(s, e);
    case Crash(e) => CrashKeepsSafe(s, e);
    case Accept(e) => AcceptKeepsSafe(s, e);
  }

  lemma OperatorKeepsSafe(s: Sys, step: Step)
    requires Safe(s) && Benign(s, step) && (step.Campaign? || step.ContactRow?)
    ensures Safe(Apply(s, step))
  {
    if step.Campaign? {
      if step.change.campaign in s.db.campaigns { CampaignKeepsSafe(s, step.change); }
    } else if Finds(s, step.key, step.update) {
      ContactKeepsSafe(s, step.key, step.update);
    }
  }

  lemma StepKeepsSafe(s: Sys, step: Step)
    requires Safe(s) && Benign(s, step)
    ensures Safe(Apply(s, step))
  {
    match step
    case Job(job) => JobKeepsSafe(s, job);
    case Expire => ExpireKeepsSafe(s);
    case Tick(ms) => TickKeepsSafe(s, ms);
    case _ => OperatorKeepsSafe(s, step);
  }

  lemma {:induction false} RunKeepsSafe(s: Sys, steps: seq<Step>)
    requires Safe(s) && BenignRun(s, steps)
    ensures Safe(Run(s, steps))
    decreases |steps|
  {
    if steps != [] {
      StepKeepsSafe(s, steps[0]);
      RunKeepsSafe(Apply(s, steps[0]), steps[1..]);
    }
  }

  lemma InitialIsSafe(s: Sys)
    requires Initial(s)
    ensures Safe(s)
  {
  }

  lemma SafeMeansApart(t: Sys, e: RunId, f: RunId)
    requires Safe(t)
    requires e in t.requests && t.requests[e].acceptedAt.Some? && f in t.requests && t.requests[f].acceptedAt.Some?
    requires SameCreator(t.db.terms, t.requests[e].recipient, t.requests[f].recipient)
    ensures var (x, y) := (t.requests[e], t.requests[f]);
            || x.acceptedAt.value + CooldownMs(t.db, y.recipient) <= y.acceptedAt.value
            || y.acceptedAt.value + CooldownMs(t.db, x.recipient) <= x.acceptedAt.value
  {
    RequestStands(t, e);
    RequestStands(t, f);
    var st := StandingsOf(t);
    var (x, y) := (t.requests[e], t.requests[f]);
    assert At(st, x.recipient).acceptedAt == x.acceptedAt.value && At(st, y.recipient).acceptedAt == y.acceptedAt.value;
    assert Apart(t.db.terms, st, x.recipient, y.recipient) || Apart(t.db.terms, st, y.recipient, x.recipient);
  }

  /**
   * However the workers, crashes, campaigns, imports and rebuilds interleave, of two messages the
   * provider accepted for different deliveries to one creator, one came at least
   * the other's own cooldown after it.
   */
  lemma CooldownIsKept(s: Sys, steps: seq<Step>, e: RunId, f: RunId)
    requires Initial(s) && BenignRun(s, steps)
    requires var t := Run(s, steps);
             e in t.requests && t.requests[e].acceptedAt.Some? && f in t.requests && t.requests[f].acceptedAt.Some?
             && SameCreator(t.db.terms, t.requests[e].recipient, t.requests[f].recipient)
    ensures var t := Run(s, steps);
            var (x, y) := (t.requests[e], t.requests[f]);
            || x.acceptedAt.value + CooldownMs(t.db, y.recipient) <= y.acceptedAt.value
            || y.acceptedAt.value + CooldownMs(t.db, x.recipient) <= x.acceptedAt.value
  {
    InitialIsSafe(s);
    RunKeepsSafe(s, steps);
    SafeMeansApart(Run(s, steps), e, f);
  }

  /** And at no time are messages for two deliveries to one creator on their way. */
  lemma OneInFlight(s: Sys, steps: seq<Step>, e: RunId, f: RunId)
    requires Initial(s) && BenignRun(s, steps)
    requires var t := Run(s, steps);
             e in t.requests && t.requests[e].acceptedAt.None? && f in t.requests && t.requests[f].acceptedAt.None?
    ensures var t := Run(s, steps); !SameCreator(t.db.terms, t.requests[e].recipient, t.requests[f].recipient)
  {
    InitialIsSafe(s);
    RunKeepsSafe(s, steps);
    RequestStands(Run(s, steps), e);
    RequestStands(Run(s, steps), f);
  }
}
