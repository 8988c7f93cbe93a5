/** Exactly when the experiment reports the interval before the first that failed as the fastest that passed. */
module CharacterizerLadders {
  import opened Options
  import opened Characterizer
  import opened CharacterizerRuns

  /** The third success has recorded its tier as passed and cleared the count, and not moved on. */
  predicate BetweenRecordAndMove(p: Process) {
    && p.stage.Applying? && p.stage.done == 3 && p.stage.outcome.Success? && p.stage.base.pending.Some?
    && var (a, kind) := (p.stage.base, p.stage.base.pending.value.kind);
       || (kind.Continuation? && a.continuationSuccesses + 1 >= SUCCESSES_PER_TIER)
       || (kind.FreshSearch? && a.freshSuccesses + 1 >= SUCCESSES_PER_TIER)
  }

  predicate TearsRecord(s: Sys, step: Step) {
    step.Interrupt? && s.process.Some? && BetweenRecordAndMove(s.process.value)
  }

  /** Tiers of the two ladders. */
  datatype Ladders = Ladders(continuation: set<nat>, search: set<nat>)

  function Both(a: Ladders, b: Ladders): Ladders {
    Ladders(a.continuation + b.continuation, a.search + b.search)
  }

  /** The tier whose record this step cuts off from the move to the next, if any. */
  function TornBy(s: Sys, step: Step): Ladders {
    if !TearsRecord(s, step) then Ladders({}, {})
    else
      var base := s.process.value.stage.base;
      if base.pending.value.kind.Continuation? then Ladders({base.continuationIndex}, {}) else Ladders({}, {base.freshIndex})
  }

  function TornTiers(s: Sys, steps: seq<Step>): Ladders
    decreases |steps|
  {
    if steps == [] then Ladders({}, {}) else Both(TornBy(s, steps[0]), TornTiers(Apply(s, steps[0]), steps[1..]))
  }

  predicate Reached(torn: set<nat>, index: nat, tiers: seq<nat>) {
    forall i | i in torn :: i <= index && i < |tiers|
  }

  /** The fastest interval is of the tier before, or of the tier under test if that was torn. */
  predicate FastestAs(fastest: Option<nat>, index: nat, tiers: seq<nat>, torn: set<nat>) {
    && index <= |tiers| && Reached(torn, index, tiers)
    && fastest == if index in torn then Some(tiers[index]) else Before(tiers, index)
  }

  predicate ContinuationAs(a: Auto, torn: Ladders) {
    FastestAs(a.fastestContinuation, a.continuationIndex, CONTINUATION_SECONDS, torn.continuation)
  }

  predicate FreshAs(a: Auto, torn: Ladders) {
    FastestAs(a.fastestFresh, a.freshIndex, FRESH_SECONDS, torn.search)
  }

  predicate BothAs(a: Auto, torn: Ladders) {
    ContinuationAs(a, torn) && FreshAs(a, torn)
  }

  /** A tier recorded early is one whose pass the pending row will complete. */
  ghost predicate Exact(a: Auto, kind: Phase, o: Outcome, torn: Ladders) {
    && Reached(torn.continuation, a.continuationIndex, CONTINUATION_SECONDS) && Reached(torn.search, a.freshIndex, FRESH_SECONDS)
    && (ContinuationAs(a, torn) || (kind.Continuation? && o.Success? && a.continuationSuccesses >= SUCCESSES_PER_TIER))
    && (FreshAs(a, torn) || (kind.FreshSearch? && o.Success? && a.freshSuccesses >= SUCCESSES_PER_TIER))
  }

  ghost predicate SavedExact(d: Disk, torn: Ladders) {
    if RowPending(d) && !d.auto.phase.Complete? then Exact(d.auto, d.auto.pending.value.kind, LastOutcome(d), torn)
    else BothAs(d.auto, torn)
  }

  /** While a request is out no pass is under way. */
  ghost predicate AllExact(s: Sys, torn: Ladders) {
    && SavedExact(s.disk, torn)
    && (s.process.Some? && !s.process.value.stage.Ready? && !s.process.value.stage.Applying? ==> BothAs(s.disk.auto, torn))
  }

  lemma ContinuationSuccessExact(a: Auto, cursor: bool, session: Session, k: nat, torn: Ladders)
    requires Half(a, Continuation, Success(cursor)) && Exact(a, Continuation, Success(cursor), torn)
    requires a.continuationIndex < |CONTINUATION_SECONDS| && k < |ContinuationSuccess(a, session)|
    ensures Exact(ContinuationSuccess(a, session)[k], Continuation, Success(cursor), torn)
            || (k == 2 && a.continuationSuccesses + 1 >= SUCCESSES_PER_TIER)
    ensures var states := ContinuationSuccess(a, session); BothAs(states[|states| - 1], torn)
  {
  }

  lemma ContinuationWritesExact(a: Auto, o: Outcome, session: Session, k: nat, torn: Ladders)
    requires Half(a, Continuation, o) && Exact(a, Continuation, o, torn) && a.continuationIndex < |CONTINUATION_SECONDS|
    requires k < |ContinuationWrites(a, o, session)|
    ensures Exact(ContinuationWrites(a, o, session)[k], Continuation, o, torn)
            || (k == 2 && o.Success? && a.continuationSuccesses + 1 >= SUCCESSES_PER_TIER)
    ensures var states := ContinuationWrites(a, o, session); BothAs(states[|states| - 1], torn)
  {
    match o
    case Success(cursor) => ContinuationSuccessExact(a, cursor, session, k, torn);
    case _ =>
  }

  lemma FreshSuccessExact(a: Auto, cursor: bool, k: nat, torn: Ladders)
    requires Half(a, FreshSearch, Success(cursor)) && Exact(a, FreshSearch, Success(cursor), torn)
    requires a.freshIndex < |FRESH_SECONDS| && k < |FreshSuccess(a)|
    ensures Exact(FreshSuccess(a)[k], FreshSearch, Success(cursor), torn) || (k == 2 && a.freshSuccesses + 1 >= SUCCESSES_PER_TIER)
    ensures FreshSuccess(a)[k].phase.Complete? ==> BothAs(FreshSuccess(a)[k], torn)
    ensures BothAs(FreshSuccess(a)[|FreshSuccess(a)| - 1], torn)
  {
  }

  lemma FreshWritesExact(a: Auto, o: Outcome, k: nat, torn: Ladders)
    requires Half(a, FreshSearch, o) && Exact(a, FreshSearch, o, torn) && a.freshIndex < |FRESH_SECONDS|
    requires k < |FreshWrites(a, o)|
    ensures Exact(FreshWrites(a, o)[k], FreshSearch, o, torn)
            || (k == 2 && o.Success? && a.freshSuccesses + 1 >= SUCCESSES_PER_TIER)
    ensures FreshWrites(a, o)[k].phase.Complete? ==> BothAs(FreshWrites(a, o)[k], torn)
    ensures BothAs(FreshWrites(a, o)[|FreshWrites(a, o)| - 1], torn)
  {
    match o
    case Success(cursor) => FreshSuccessExact(a, cursor, k, torn);
    case _ =>
  }

  /** Recoveries and session refreshes leave both ladders alone. */
  lemma ProbeWritesExact(a: Auto, kind: Phase, o: Outcome, session: Session, k: nat, torn: Ladders)
    requires (kind.Recovery? || kind.SessionRefresh?) && BothAs(a, torn) && k < |Body(a, kind, o, session)|
    ensures BothAs(Body(a, kind, o, session)[k], torn)
  {
  }

  lemma BodyEndsExact(a: Auto, kind: Phase, o: Outcome, session: Session, torn: Ladders)
    requires Half(a, kind, o) && Exact(a, kind, o, torn) && CanApply(a, kind)
    ensures BothAs(Body(a, kind, o, session)[|Body(a, kind, o, session)| - 1], torn)
  {
    var k := |Body(a, kind, o, session)| - 1;
    match kind
    case Continuation => ContinuationWritesExact(a, o, session, k, torn);
    case FreshSearch => FreshWritesExact(a, o, k, torn);
    case Recovery => ProbeWritesExact(a, kind, o, session, k, torn);
    case SessionRefresh => ProbeWritesExact(a, kind, o, session, k, torn);
    case Complete =>
  }

  /** Outside recoveries and fresh searches only the last write completes the experiment. */
  lemma CompleteIsLast(a: Auto, kind: Phase, o: Outcome, session: Session, k: nat)
    requires Half(a, kind, o) && CanApply(a, kind) && !kind.FreshSearch? && !a.phase.Complete? && k < |Body(a, kind, o, session)|
    ensures Body(a, kind, o, session)[k].phase.Complete? ==> kind.Recovery? || k == |Body(a, kind, o, session)| - 1
  {
  }

  lemma BodyStateExact(a: Auto, kind: Phase, o: Outcome, session: Session, k: nat, torn: Ladders)
    requires Half(a, kind, o) && Exact(a, kind, o, torn) && CanApply(a, kind) && !a.phase.Complete? && k < |Body(a, kind, o, session)|
    requires !(k == 2 && o.Success? && kind.Continuation? && a.continuationSuccesses + 1 >= SUCCESSES_PER_TIER)
    requires !(k == 2 && o.Success? && kind.FreshSearch? && a.freshSuccesses + 1 >= SUCCESSES_PER_TIER)
    ensures var b := Body(a, kind, o, session)[k]; Exact(b, kind, o, torn) && (b.phase.Complete? ==> BothAs(b, torn))
  {
    BodyEndsExact(a, kind, o, session, torn);
    match kind
    case Continuation => CompleteIsLast(a, kind, o, session, k); ContinuationWritesExact(a, o, session, k, torn);
    case FreshSearch => FreshWritesExact(a, o, k, torn);
    case Recovery => ProbeWritesExact(a, kind, o, session, k, torn);
    case SessionRefresh => ProbeWritesExact(a, kind, o, session, k, torn);
    case Complete =>
  }

  lemma BodyExact(d: Disk, p: Process, torn: Ladders)
    requires Saved(d) && SavedExact(d, torn) && ApplyingOk(d, p) && !BetweenRecordAndMove(p) && 0 < p.stage.done < |WritesOf(p)|
    ensures SavedExact(d.(auto := p.auto), torn)
  {
    var (a, kind, o, k) := (d.auto, d.auto.pending.value.kind, LastOutcome(d), p.stage.done - 1);
    BodyIsSaved(d, p);
    assert p.auto == Body(a, kind, o, p.session)[k];
    BodyStateExact(a, kind, o, p.session, k, torn);
  }

  lemma InsideExact(d: Disk, p: Process, torn: Ladders)
    requires Saved(d) && SavedExact(d, torn) && ApplyingOk(d, p) && !BetweenRecordAndMove(p)
    ensures SavedExact(d.(auto := p.auto), torn)
  {
    if 0 < p.stage.done < |WritesOf(p)| {
      BodyExact(d, p, torn);
    } else if p.stage.done == |WritesOf(p)| {
      StateAt(d, p);
      InsideIsSaved(d, p);
      BodyEndsExact(d.auto, d.auto.pending.value.kind, LastOutcome(d), p.session, torn);
    }
  }

  lemma EndIsNotTearing(d: Disk, p: Process)
    requires Saved(d) && ApplyingOk(d, p) && p.stage.done == |WritesOf(p)|
    ensures !BetweenRecordAndMove(p)
  {
  }

  lemma AdvanceKeepsExact(s: Sys, p: Process, torn: Ladders)
    requires Sound(s) && AllExact(s, torn) && s.process == Some(p)
    ensures AllExact(Apply(s, Advance), torn)
  {
    if p.stage.Applying? {
      if p.stage.done == |WritesOf(p)| {
        EndIsNotTearing(s.disk, p);
        InsideExact(s.disk, p, torn);
      }
    } else if p.stage.Ready? && !p.auto.phase.Complete? && InRange(p.auto) && p.auto.pending.None? {
      PrepareIsClean(p.auto, |s.disk.rows|, p.session);
    }
  }

  /** An interrupt between record and move saves the tier under test as the fastest that passed. */
  lemma TearRecords(s: Sys, p: Process, inRequest: bool, torn: Ladders)
    requires Sound(s) && AllExact(s, torn) && s.process == Some(p) && BetweenRecordAndMove(p)
    ensures BothAs(p.auto, Both(torn, TornBy(s, Interrupt(inRequest))))
  {
    var (a, kind, o) := (s.disk.auto, s.disk.auto.pending.value.kind, LastOutcome(s.disk));
    assert p.auto == Body(a, kind, o, p.session)[2] && Exact(a, kind, o, torn);
  }

  lemma InterruptKeepsExact(s: Sys, p: Process, inRequest: bool, torn: Ladders)
    requires Sound(s) && AllExact(s, torn) && s.process == Some(p)
    ensures AllExact(InterruptStep(s, p, inRequest), Both(torn, TornBy(s, Interrupt(inRequest))))
  {
    if BetweenRecordAndMove(p) {
      TearRecords(s, p, inRequest, torn);
    } else {
      assert Both(torn, TornBy(s, Interrupt(inRequest))) == torn;
      if p.stage.Applying? { InsideExact(s.disk, p, torn); }
    }
  }

  lemma StepKeepsExact(s: Sys, step: Step, torn: Ladders)
    requires Sound(s) && AllExact(s, torn)
    ensures AllExact(Apply(s, step), Both(torn, TornBy(s, step)))
  {
    if s.process.Some? && step.Interrupt? {
      InterruptKeepsExact(s, s.process.value, step.inRequest, torn);
    } else {
      assert Both(torn, TornBy(s, step)) == torn;
      if s.process.Some? && step.Advance? { AdvanceKeepsExact(s, s.process.value, torn); }
    }
  }

  lemma TornTiersOn(s: Sys, steps: seq<Step>, torn: Ladders)
    requires steps != []
    ensures Both(torn, TornTiers(s, steps)) == Both(Both(torn, TornBy(s, steps[0])), TornTiers(Apply(s, steps[0]), steps[1..]))
  {
    var (a, b, c) := (torn, TornBy(s, steps[0]), TornTiers(Apply(s, steps[0]), steps[1..]));
    assert Both(a, Both(b, c)) == Both(Both(a, b), c);
  }

  lemma {:induction false} RunKeepsExact(s: Sys, steps: seq<Step>, torn: Ladders)
    requires Sound(s) && AllExact(s, torn)
    ensures AllExact(Run(s, steps), Both(torn, TornTiers(s, steps)))
    decreases |steps|
  {
    if steps == [] {
      assert TornTiers(s, steps) == Ladders({}, {}) && Both(torn, Ladders({}, {})) == torn;
    } else {
      StepKeepsSound(s, steps[0]);
      StepKeepsExact(s, steps[0], torn);
      RunKeepsExact(Apply(s, steps[0]), steps[1..], Both(torn, TornBy(s, steps[0])));
      TornTiersOn(s, steps, torn);
    }
  }

  /** Each tier of a ladder waits less than the one before. */
  predicate Falls(tiers: seq<nat>) {
    forall i, j | 0 <= i < j < |tiers| :: tiers[j] < tiers[i]
  }

  lemma FailedExactly(fastest: Option<nat>, failed: Option<nat>, index: nat, tiers: seq<nat>, torn: set<nat>, i: nat)
    requires Falls(tiers) && FastestAs(fastest, index, tiers, torn) && FailedOk(failed, index, tiers)
    requires i < |tiers| && failed == Some(tiers[i])
    ensures fastest == Before(tiers, i) <==> i !in torn
  {
    assert i == index;
  }

  /** Once an interval failed on a ladder no pass of it is under way. */
  lemma FailedIsSettled(d: Disk, torn: Ladders)
    requires Saved(d) && SavedExact(d, torn)
    ensures d.auto.failedContinuation.Some? ==> ContinuationAs(d.auto, torn)
    ensures d.auto.failedFresh.Some? ==> FreshAs(d.auto, torn)
  {
  }

  lemma SavedExactly(d: Disk, torn: Ladders, i: nat)
    requires Saved(d) && SavedExact(d, torn)
    ensures i < |CONTINUATION_SECONDS| && d.auto.failedContinuation == Some(CONTINUATION_SECONDS[i]) ==>
              (d.auto.fastestContinuation == Before(CONTINUATION_SECONDS, i) <==> i !in torn.continuation)
    ensures i < |FRESH_SECONDS| && d.auto.failedFresh == Some(FRESH_SECONDS[i]) ==>
              (d.auto.fastestFresh == Before(FRESH_SECONDS, i) <==> i !in torn.search)
  {
    var a := d.auto;
    FailedIsSettled(d, torn);
    if i < |CONTINUATION_SECONDS| && a.failedContinuation == Some(CONTINUATION_SECONDS[i]) {
      FailedExactly(a.fastestContinuation, a.failedContinuation, a.continuationIndex, CONTINUATION_SECONDS, torn.continuation, i);
    }
    if i < |FRESH_SECONDS| && a.failedFresh == Some(FRESH_SECONDS[i]) {
      FailedExactly(a.fastestFresh, a.failedFresh, a.freshIndex, FRESH_SECONDS, torn.search, i);
    }
  }

  /**
   * Over any invocations, interrupts and kills, on each ladder: the fastest interval that passed is the one
   * just before the first that failed if and only if no interrupt fell between the record of that very tier
   * and the move to the next.
   */
  lemma FastestIsBeforeFailed(s: Sys, steps: seq<Step>, i: nat)
    requires Initial(s)
    ensures var (a, torn) := (Run(s, steps).disk.auto, TornTiers(s, steps));
            && (i < |CONTINUATION_SECONDS| && a.failedContinuation == Some(CONTINUATION_SECONDS[i]) ==>
                  (a.fastestContinuation == Before(CONTINUATION_SECONDS, i) <==> i !in torn.continuation))
            && (i < |FRESH_SECONDS| && a.failedFresh == Some(FRESH_SECONDS[i]) ==>
                  (a.fastestFresh == Before(FRESH_SECONDS, i) <==> i !in torn.search))
  {
    StartIsSound(s);
    RunKeepsSound(s, steps);
    RunKeepsExact(s, steps, Ladders({}, {}));
    var torn := TornTiers(s, steps);
    assert Both(Ladders({}, {}), torn) == torn;
    SavedExactly(Run(s, steps).disk, torn, i);
  }
}
