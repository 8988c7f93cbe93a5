/** What the experiment's saved state satisfies over any invocations, interrupts and kills. */
module CharacterizerRuns {
  import opened Options
  import opened Characterizer

  // ------------------------------------------------------------ the saved state

  predicate ContinuationDone(a: Auto) {
    a.failedContinuation.Some? || a.continuationIndex == |CONTINUATION_SECONDS|
  }

  /** The interval of the tier before, or the tier under test when its pass was cut short. */
  predicate FastestOk(fastest: Option<nat>, index: nat, tiers: seq<nat>) {
    && index <= |tiers|
    && (fastest == (if index == 0 then None else Some(tiers[index - 1])) || (index < |tiers| && fastest == Some(tiers[index])))
  }

  predicate FailedOk(failed: Option<nat>, index: nat, tiers: seq<nat>) {
    failed.Some? ==> index < |tiers| && failed.value == tiers[index]
  }

  /** Holds of every state the dictionary goes through. */
  ghost predicate Core(a: Auto) {
    && FastestOk(a.fastestContinuation, a.continuationIndex, CONTINUATION_SECONDS)
    && FastestOk(a.fastestFresh, a.freshIndex, FRESH_SECONDS)
    && FailedOk(a.failedContinuation, a.continuationIndex, CONTINUATION_SECONDS)
    && FailedOk(a.failedFresh, a.freshIndex, FRESH_SECONDS)
    && (a.afterRecovery.Continuation? || a.afterRecovery.FreshSearch? || a.afterRecovery.Complete?)
    && (a.result.Conclusive? ==>
          a.phase.Complete? && ContinuationDone(a) && (a.failedFresh.Some? || a.freshIndex == |FRESH_SECONDS|))
  }

  /** The continuation ladder is being climbed. */
  predicate Climbing(a: Auto) {
    !ContinuationDone(a) && a.failedFresh.None? && a.freshIndex == 0 && a.afterRecovery.Continuation?
  }

  /** The fresh ladder is being climbed. */
  predicate Searching(a: Auto) {
    ContinuationDone(a) && a.failedFresh.None? && a.freshIndex < |FRESH_SECONDS|
  }

  predicate StageOk(a: Auto, phase: Phase) {
    match phase
    case Continuation => Climbing(a)
    case SessionRefresh => Climbing(a)
    case FreshSearch => Searching(a)
    case Complete => true
    case Recovery =>
      match a.afterRecovery
      case FreshSearch => Searching(a)
      case Complete => ContinuationDone(a) && a.failedFresh.Some?
      case _ => Climbing(a)
  }

  /** Between two applications. */
  ghost predicate Clean(a: Auto) {
    StageOk(a, a.phase) && (a.pending.Some? ==> a.pending.value.kind == a.phase)
  }

  /** The phase a recovery goes on with. */
  function Destination(a: Auto): Phase {
    match a.afterRecovery case Complete => Complete case FreshSearch => FreshSearch case _ => Continuation
  }

  /** Inside the application of `o` to a request of `kind`, or after it was cut short anywhere, any number of times. */
  ghost predicate Half(a: Auto, kind: Phase, o: Outcome) {
    match kind
    case Recovery =>
      StageOk(a, Recovery)
      && (match o
          case Throttled => a.phase.Recovery?
          case Success(_) => a.phase.Recovery? || a.phase == Destination(a)
          case _ => a.phase.Recovery? || a.phase.Complete?)
    case SessionRefresh =>
      Climbing(a) && (a.phase.SessionRefresh? || (match o
          case Throttled => a.phase.Recovery?
          case Success(_) => a.phase.Continuation? || a.phase.Complete?
          case _ => a.phase.Complete?))
    case Continuation =>
      (match o
       case Throttled =>
         && a.continuationIndex < |CONTINUATION_SECONDS| && a.failedFresh.None? && a.freshIndex == 0
         && (|| (a.phase.Continuation? && a.afterRecovery.Continuation?)
             || (a.phase.Recovery? && a.failedContinuation.Some? && !a.afterRecovery.Complete?))
       case Success(_) =>
         && a.failedContinuation.None? && a.failedFresh.None? && a.freshIndex == 0 && a.afterRecovery.Continuation?
         && (|| a.phase.Continuation? || a.phase.SessionRefresh?
             || (a.phase.FreshSearch? && a.continuationIndex == |CONTINUATION_SECONDS|))
       case SessionExpired => Climbing(a) && (a.phase.Continuation? || a.phase.SessionRefresh?)
       case OtherError => Climbing(a) && (a.phase.Continuation? || a.phase.Complete?))
    case FreshSearch =>
      ContinuationDone(a)
      && (match o
          case Throttled => a.freshIndex < |FRESH_SECONDS| && (a.phase.FreshSearch? || (a.phase.Recovery? && a.failedFresh.Some?))
          case Success(_) => a.failedFresh.None? && (a.phase.FreshSearch? || (a.phase.Complete? && a.freshIndex == |FRESH_SECONDS|))
          case _ => Searching(a) && (a.phase.FreshSearch? || a.phase.Complete?))
    case Complete => false
  }

  /** The pending action's row is logged, and not wholly applied. */
  predicate RowPending(d: Disk) {
    d.auto.pending.Some? && !d.auto.pending.value.uncertain && d.rows != [] && d.auto.pending.value.number == |d.rows|
  }

  function LastOutcome(d: Disk): Outcome
    requires d.rows != []
  {
    d.rows[|d.rows| - 1].outcome
  }

  ghost predicate Saved(d: Disk) {
    && Core(d.auto)
    && (d.auto.phase.Complete?
        || if RowPending(d) then Half(d.auto, d.auto.pending.value.kind, LastOutcome(d)) else Clean(d.auto))
  }

  // ---------------------------------------------------------------- the writes

  /** What a state inside an application of `o` satisfies; `last` has no action pending any more. */
  ghost predicate Inside(a: Auto, kind: Phase, o: Outcome, had: Auto) {
    Core(a) && a.pending == had.pending && (a.phase.Complete? || Half(a, kind, o))
  }

  ghost predicate Through(a: Auto, kind: Phase, o: Outcome, states: seq<Auto>) {
    && (forall k {:trigger states[k]} | 0 <= k < |states| :: Inside(states[k], kind, o, a))
    && (states != [] ==> var last := states[|states| - 1]; last.phase.Complete? || StageOk(last, last.phase))
  }

  lemma RecoveryGoesThrough(a: Auto, o: Outcome)
    requires Core(a) && Half(a, Recovery, o)
    ensures Through(a, Recovery, o, RecoveryWrites(a, o))
  {
  }

  lemma RefreshGoesThrough(a: Auto, o: Outcome, session: Session)
    requires Core(a) && Half(a, SessionRefresh, o)
    ensures Through(a, SessionRefresh, o, RefreshWrites(a, o, session))
  {
  }

  lemma ContinuationSuccessGoesThrough(a: Auto, cursor: bool, session: Session)
    requires Core(a) && Half(a, Continuation, Success(cursor)) && a.continuationIndex < |CONTINUATION_SECONDS|
    ensures Through(a, Continuation, Success(cursor), ContinuationSuccess(a, session))
  {
  }

  lemma ContinuationGoesThrough(a: Auto, o: Outcome, session: Session)
    requires Core(a) && Half(a, Continuation, o) && a.continuationIndex < |CONTINUATION_SECONDS|
    ensures Through(a, Continuation, o, ContinuationWrites(a, o, session))
  {
    match o
    case Success(cursor) => ContinuationSuccessGoesThrough(a, cursor, session);
    case _ =>
  }

  lemma FreshSuccessGoesThrough(a: Auto, cursor: bool)
    requires Core(a) && Half(a, FreshSearch, Success(cursor)) && a.freshIndex < |FRESH_SECONDS|
    ensures Through(a, FreshSearch, Success(cursor), FreshSuccess(a))
  {
  }

  lemma FreshThrottleGoesThrough(a: Auto)
    requires Core(a) && Half(a, FreshSearch, Throttled) && a.freshIndex < |FRESH_SECONDS|
    ensures Through(a, FreshSearch, Throttled, FreshWrites(a, Throttled))
  {
  }

  lemma FreshGoesThrough(a: Auto, o: Outcome)
    requires Core(a) && Half(a, FreshSearch, o) && a.freshIndex < |FRESH_SECONDS|
    ensures Through(a, FreshSearch, o, FreshWrites(a, o))
  {
    match o
    case Success(cursor) => FreshSuccessGoesThrough(a, cursor);
    case Throttled => FreshThrottleGoesThrough(a);
    case _ =>
  }

  /** Wherever an application is cut short, and even if what it starts from was cut short before. */
  lemma WritesGoThrough(a: Auto, kind: Phase, o: Outcome, session: Session)
    requires Core(a) && Half(a, kind, o) && CanApply(a, kind)
    ensures Through(a, kind, o, Body(a, kind, o, session))
  {
    match kind
    case Recovery => RecoveryGoesThrough(a, o);
    case Continuation => ContinuationGoesThrough(a, o, session);
    case SessionRefresh => RefreshGoesThrough(a, o, session);
    case FreshSearch => FreshGoesThrough(a, o);
  }

  /** An outcome not yet applied. */
  lemma CleanIsHalf(a: Auto, o: Outcome)
    requires Clean(a) && a.pending.Some? && !a.phase.Complete? && Core(a)
    ensures Half(a, a.phase, o)
  {
  }

  // ------------------------------------------------------------- the process

  /** What an application starts from, and how far it has got. */
  ghost predicate ApplyingOk(d: Disk, p: Process) {
    && p.stage.Applying? && p.stage.base == d.auto && RowPending(d) && !d.auto.phase.Complete?
    && CanApply(d.auto, d.auto.pending.value.kind) && p.stage.outcome == LastOutcome(d) && p.stage.done <= |WritesOf(p)|
    && p.auto == (if p.stage.done == 0 then d.auto else WritesOf(p)[p.stage.done - 1])
  }

  /** A request is out, or its row not looked at yet. */
  ghost predicate RequestOk(d: Disk, p: Process) {
    && p.auto == d.auto && Clean(d.auto) && d.auto.pending.Some? && !d.auto.pending.value.uncertain && !d.auto.phase.Complete?
    && d.auto.pending.value.number == |d.rows| + (if p.stage.Sending? then 1 else 0) && (p.stage.Sending? || d.rows != [])
  }

  ghost predicate ProcessOk(d: Disk, p: Process) {
    match p.stage
    case Ready => p.auto == d.auto
    case Applying(_, _, _) => ApplyingOk(d, p)
    case _ => RequestOk(d, p)
  }

  /** Holds through every interrupt and kill. */
  ghost predicate Sound(s: Sys) {
    && Saved(s.disk) && (s.process.Some? ==> ProcessOk(s.disk, s.process.value))
    && (s.process.Some? && s.process.value.stage.Sending? ==> s.sent != [] && s.sent[|s.sent| - 1] == |s.disk.rows| + 1)
  }

  lemma BodyIsSaved(d: Disk, p: Process)
    requires Saved(d) && ApplyingOk(d, p) && 0 < p.stage.done < |WritesOf(p)|
    ensures Saved(d.(auto := p.auto)) && p.auto.pending == d.auto.pending
  {
    var (kind, o) := (d.auto.pending.value.kind, LastOutcome(d));
    WritesGoThrough(d.auto, kind, o, p.session);
    assert p.auto == Body(d.auto, kind, o, p.session)[p.stage.done - 1];
    assert Inside(p.auto, kind, o, d.auto);
  }

  lemma EndIsSaved(d: Disk, p: Process)
    requires Saved(d) && ApplyingOk(d, p) && p.stage.done == |WritesOf(p)|
    ensures Saved(d.(auto := p.auto)) && p.auto.pending.None?
  {
    var (kind, o) := (d.auto.pending.value.kind, LastOutcome(d));
    WritesGoThrough(d.auto, kind, o, p.session);
    var body := Body(d.auto, kind, o, p.session);
    assert Inside(body[|body| - 1], kind, o, d.auto);
    assert p.auto == body[|body| - 1].(pending := None);
  }

  /** Any state inside an application, or at its end, may be saved. */
  lemma InsideIsSaved(d: Disk, p: Process)
    requires Saved(d) && ApplyingOk(d, p)
    ensures Saved(d.(auto := p.auto))
    ensures p.stage.done == |WritesOf(p)| ==> p.auto.pending.None?
    ensures p.stage.done < |WritesOf(p)| ==> p.auto.pending == d.auto.pending
  {
    if 0 < p.stage.done < |WritesOf(p)| { BodyIsSaved(d, p); }
    else if p.stage.done == |WritesOf(p)| { EndIsSaved(d, p); }
  }

  lemma BeginKeepsSound(s: Sys, p: Process)
    requires Sound(s) && s.process == Some(p) && p.auto == s.disk.auto && RowPending(s.disk) && !p.auto.phase.Complete?
    ensures Sound(BeginApplying(s, p))
  {
  }

  lemma PrepareIsClean(a: Auto, requests: nat, session: Session)
    requires Core(a) && Clean(a) && a.pending.None? && !a.phase.Complete?
    ensures var b := Prepare(a, requests, session);
            Core(b) && Clean(b) && (b.pending.Some? ==> b.pending.value.number == requests + 1 && !b.pending.value.uncertain)
  {
  }

  lemma ReadyKeepsSound(s: Sys, p: Process)
    requires Sound(s) && s.process == Some(p) && p.stage.Ready?
    ensures Sound(AdvanceReady(s, p))
  {
    var a := p.auto;
    if !a.phase.Complete? && InRange(a) {
      if a.pending.None? {
        PrepareIsClean(a, |s.disk.rows|, p.session);
      } else if !a.pending.value.uncertain && |s.disk.rows| == a.pending.value.number && a.pending.value.number > 0 {
        BeginKeepsSound(s, p);
      }
    }
  }

  lemma WriteKeepsSound(s: Sys, p: Process)
    requires Sound(s) && s.process == Some(p) && p.stage.Applying? && p.stage.done < |WritesOf(p)|
    ensures Sound(AdvanceApplying(s, p))
  {
    var next := p.(auto := WritesOf(p)[p.stage.done], stage := p.stage.(done := p.stage.done + 1));
    assert WritesOf(next) == WritesOf(p);
    assert ApplyingOk(s.disk, next);
  }

  lemma SaveKeepsSound(s: Sys, p: Process)
    requires Sound(s) && s.process == Some(p) && p.stage.Applying? && p.stage.done == |WritesOf(p)|
    ensures Sound(AdvanceApplying(s, p))
  {
    InsideIsSaved(s.disk, p);
    var d := s.disk.(auto := p.auto);
    assert AdvanceApplying(s, p).disk == d.(session := p.session);
    assert !RowPending(d);
  }

  lemma ApplyingKeepsSound(s: Sys, p: Process)
    requires Sound(s) && s.process == Some(p) && p.stage.Applying?
    ensures Sound(AdvanceApplying(s, p))
  {
    if p.stage.done < |WritesOf(p)| { WriteKeepsSound(s, p); } else { SaveKeepsSound(s, p); }
  }

  /** A request marked uncertain has no row to take. */
  lemma UncertainIsSaved(d: Disk)
    requires Saved(d) && Clean(d.auto) && d.auto.pending.Some?
    ensures Saved(d.(auto := d.auto.(pending := Some(d.auto.pending.value.(uncertain := true)))))
  {
    var marked := d.auto.(pending := Some(d.auto.pending.value.(uncertain := true)));
    assert Core(marked) && Clean(marked);
  }

  lemma InterruptKeepsSound(s: Sys, p: Process, inRequest: bool)
    requires Sound(s) && s.process == Some(p)
    ensures Sound(InterruptStep(s, p, inRequest))
  {
    if p.stage.Applying? {
      InsideIsSaved(s.disk, p);
    } else if !p.stage.Ready? {
      UncertainIsSaved(s.disk);
    }
  }

  lemma ReceiveKeepsSound(s: Sys, p: Process, o: Outcome)
    requires Sound(s) && s.process == Some(p) && p.stage.Sending?
    ensures Sound(Apply(s, Receive(o)))
  {
    CleanIsHalf(s.disk.auto, o);
    assert LastOutcome(Apply(s, Receive(o)).disk) == o;
  }

  lemma StepKeepsSound(s: Sys, step: Step)
    requires Sound(s)
    ensures Sound(Apply(s, step))
  {
    if s.process.Some? {
      var p := s.process.value;
      match step
      case Advance =>
        if p.stage.Ready? { ReadyKeepsSound(s, p); }
        else if p.stage.Recorded? { BeginKeepsSound(s, p); }
        else if p.stage.Applying? { ApplyingKeepsSound(s, p); }
      case Interrupt(inRequest) => InterruptKeepsSound(s, p, inRequest);
      case Receive(o) => if p.stage.Sending? { ReceiveKeepsSound(s, p, o); }
      case _ =>
    }
  }

  lemma {:induction false} RunKeepsSound(s: Sys, steps: seq<Step>)
    requires Sound(s)
    ensures Sound(Run(s, steps))
    decreases |steps|
  {
    if steps != [] {
      StepKeepsSound(s, steps[0]);
      RunKeepsSound(Apply(s, steps[0]), steps[1..]);
    }
  }

  lemma StartIsSound(s: Sys)
    requires Initial(s)
    ensures Sound(s)
  {
  }

  // ------------------------------------------------ the tier under test exists

  /**
   * The next write of a last-tier pass is its change of phase, and the phase still names the
   * ladder: the tier has been moved on, and the phase has not.
   */
  predicate BetweenTierAndPhase(p: Process) {
    && p.stage.Applying? && p.stage.done == 4 && p.stage.outcome.Success? && p.stage.base.pending.Some?
    && var (a, kind) := (p.stage.base, p.stage.base.pending.value.kind);
       || (kind.Continuation? && a.phase.Continuation? && a.continuationIndex == |CONTINUATION_SECONDS| - 1
           && a.continuationSuccesses + 1 >= SUCCESSES_PER_TIER)
       || (kind.FreshSearch? && a.phase.FreshSearch? && a.freshIndex == |FRESH_SECONDS| - 1
           && a.freshSuccesses + 1 >= SUCCESSES_PER_TIER)
  }

  predicate TearsPass(s: Sys, step: Step) {
    step.Interrupt? && s.process.Some? && BetweenTierAndPhase(s.process.value)
  }

  ghost predicate NeverTearsPass(s: Sys, steps: seq<Step>)
    decreases |steps|
  {
    steps == [] || (!TearsPass(s, steps[0]) && NeverTearsPass(Apply(s, steps[0]), steps[1..]))
  }

  /** A state inside an application by its place: before the first write, after each, and with the action cleared. */
  lemma StateAt(d: Disk, p: Process)
    requires ApplyingOk(d, p)
    ensures var body := Body(d.auto, d.auto.pending.value.kind, LastOutcome(d), p.session);
            p.auto.(pending := None) ==
              (if p.stage.done == 0 then d.auto
               else if p.stage.done <= |body| then body[p.stage.done - 1] else body[|body| - 1]).(pending := None)
  {
  }

  lemma ContinuationInRange(a: Auto, o: Outcome, session: Session, k: nat)
    requires Core(a) && Half(a, Continuation, o) && InRange(a) && a.continuationIndex < |CONTINUATION_SECONDS|
    requires 0 < k <= |ContinuationWrites(a, o, session)|
    ensures InRange(ContinuationWrites(a, o, session)[k - 1]) <==>
              !(k == 4 && o.Success? && a.phase.Continuation? && a.continuationIndex == |CONTINUATION_SECONDS| - 1
                && a.continuationSuccesses + 1 >= SUCCESSES_PER_TIER)
    ensures InRange(ContinuationWrites(a, o, session)[|ContinuationWrites(a, o, session)| - 1])
  {
  }

  lemma FreshInRange(a: Auto, o: Outcome, k: nat)
    requires Core(a) && Half(a, FreshSearch, o) && InRange(a) && a.freshIndex < |FRESH_SECONDS| && !a.phase.Complete?
    requires 0 < k <= |FreshWrites(a, o)|
    ensures InRange(FreshWrites(a, o)[k - 1]) <==>
              !(k == 4 && o.Success? && a.phase.FreshSearch? && a.freshIndex == |FRESH_SECONDS| - 1
                && a.freshSuccesses + 1 >= SUCCESSES_PER_TIER)
    ensures InRange(FreshWrites(a, o)[|FreshWrites(a, o)| - 1])
  {
  }

  lemma ProbeInRange(a: Auto, kind: Phase, o: Outcome, session: Session, k: nat)
    requires Core(a) && Half(a, kind, o) && (kind.Recovery? || kind.SessionRefresh?)
    requires k < |Body(a, kind, o, session)|
    ensures InRange(Body(a, kind, o, session)[k])
  {
    WritesGoThrough(a, kind, o, session);
    assert Inside(Body(a, kind, o, session)[k], kind, o, a);
  }

  /** For every place in every application: the tier exists unless the pass of the last tier is between its two writes. */
  lemma InsideInRangeExactly(d: Disk, p: Process)
    requires Saved(d) && ApplyingOk(d, p) && InRange(d.auto)
    ensures InRange(p.auto) <==> !BetweenTierAndPhase(p)
  {
    var (a, kind, o) := (d.auto, d.auto.pending.value.kind, LastOutcome(d));
    var body := Body(a, kind, o, p.session);
    var k := if p.stage.done == 0 then 1 else if p.stage.done <= |body| then p.stage.done else |body|;
    StateAt(d, p);
    match kind
    case Continuation => ContinuationInRange(a, o, p.session, k);
    case FreshSearch => FreshInRange(a, o, k);
    case Recovery => ProbeInRange(a, kind, o, p.session, k - 1);
    case SessionRefresh => ProbeInRange(a, kind, o, p.session, k - 1);
    case Complete =>
  }

  lemma StepInRangeExactly(s: Sys, step: Step)
    requires Sound(s) && InRange(s.disk.auto)
    ensures InRange(Apply(s, step).disk.auto) <==> !TearsPass(s, step)
  {
    if s.process.Some? {
      var p := s.process.value;
      if p.stage.Applying? {
        InsideIsSaved(s.disk, p);
        InsideInRangeExactly(s.disk, p);
      }
      match step
      case Advance => AdvanceInRange(s, p);
      case _ =>
    }
  }

  lemma AdvanceInRange(s: Sys, p: Process)
    requires Sound(s) && s.process == Some(p) && InRange(s.disk.auto)
    ensures InRange(Apply(s, Advance).disk.auto)
  {
    if p.stage.Applying? {
      InsideInRangeExactly(s.disk, p);
      if p.stage.done == |WritesOf(p)| { EndIsNotBetween(s.disk, p); }
    } else if p.stage.Ready? && !p.auto.phase.Complete? && p.auto.pending.None? {
      PrepareIsClean(p.auto, |s.disk.rows|, p.session);
    }
  }

  lemma EndIsNotBetween(d: Disk, p: Process)
    requires Saved(d) && ApplyingOk(d, p) && p.stage.done == |WritesOf(p)|
    ensures !BetweenTierAndPhase(p)
  {
  }

  /** Once the saved tier does not exist every invocation ends at once, and nothing changes any more. */
  ghost predicate Broken(s: Sys) {
    && !InRange(s.disk.auto) && !s.disk.auto.phase.Complete?
    && (s.process.Some? ==> s.process.value.stage.Ready? && s.process.value.auto == s.disk.auto)
  }

  lemma {:induction false} BrokenStays(s: Sys, steps: seq<Step>)
    requires Broken(s)
    ensures var t := Run(s, steps); Broken(t) && t.disk == s.disk && t.sent == s.sent
    decreases |steps|
  {
    if steps != [] {
      assert Apply(s, steps[0]).disk.auto == s.disk.auto;
      BrokenStays(Apply(s, steps[0]), steps[1..]);
    }
  }

  lemma TearBreaks(s: Sys, step: Step)
    requires Sound(s) && InRange(s.disk.auto) && TearsPass(s, step)
    ensures Broken(Apply(s, step))
  {
    StepInRangeExactly(s, step);
  }

  lemma {:induction false} InRangeExactly(s: Sys, steps: seq<Step>)
    requires Sound(s) && InRange(s.disk.auto)
    ensures InRange(Run(s, steps).disk.auto) <==> NeverTearsPass(s, steps)
    decreases |steps|
  {
    if steps != [] {
      StepKeepsSound(s, steps[0]);
      StepInRangeExactly(s, steps[0]);
      if TearsPass(s, steps[0]) {
        TearBreaks(s, steps[0]);
        BrokenStays(Apply(s, steps[0]), steps[1..]);
      } else {
        InRangeExactly(Apply(s, steps[0]), steps[1..]);
      }
    }
  }

  /**
   * Over any invocations, interrupts and kills: the saved tier exists whenever its phase is active
   * if and only if no interrupt fell between the two writes of a last-tier pass.
   */
  lemma TierInRangeExactly(s: Sys, steps: seq<Step>)
    requires Initial(s)
    ensures var a := Run(s, steps).disk.auto;
            ((a.phase.Continuation? ==> a.continuationIndex < |CONTINUATION_SECONDS|)
             && (a.phase.FreshSearch? ==> a.freshIndex < |FRESH_SECONDS|))
            <==> NeverTearsPass(s, steps)
  {
    InRangeExactly(s, steps);
  }

  /** After such an interrupt nothing is ever sent or changed again. */
  lemma TornPassIsStuck(s: Sys, before: seq<Step>, step: Step, after: seq<Step>)
    requires Initial(s) && NeverTearsPass(s, before) && TearsPass(Run(s, before), step)
    ensures var torn := Apply(Run(s, before), step);
            Run(torn, after).disk == torn.disk && Run(torn, after).sent == torn.sent && !torn.disk.auto.phase.Complete?
  {
    RunKeepsSound(s, before);
    InRangeExactly(s, before);
    TearBreaks(Run(s, before), step);
    BrokenStays(Apply(Run(s, before), step), after);
  }

  /**
   * The same after any interrupt that finds the last tier passed and the action still pending,
   * whatever the phase says by then: its outcome is looked up a tier that does not exist.
   */
  ghost predicate Stuck(s: Sys) {
    && RowPending(s.disk) && !s.disk.auto.phase.Complete? && !CanApply(s.disk.auto, s.disk.auto.pending.value.kind)
    && (s.process.Some? ==> s.process.value.stage.Ready? && s.process.value.auto == s.disk.auto)
  }

  lemma {:induction false} StuckStays(s: Sys, steps: seq<Step>)
    requires Stuck(s)
    ensures var t := Run(s, steps); t.disk.auto == s.disk.auto && t.disk.rows == s.disk.rows && t.sent == s.sent
    decreases |steps|
  {
    if steps != [] {
      assert Stuck(Apply(s, steps[0]));
      StuckStays(Apply(s, steps[0]), steps[1..]);
    }
  }

  lemma LateInterruptIsStuck(s: Sys, p: Process, inRequest: bool, after: seq<Step>)
    requires Sound(s) && s.process == Some(p) && p.stage.Applying? && p.stage.done < |WritesOf(p)|
    requires !p.auto.phase.Complete? && !CanApply(p.auto, p.stage.base.pending.value.kind)
    ensures var torn := Apply(s, Interrupt(inRequest));
            Run(torn, after).disk.auto == torn.disk.auto && Run(torn, after).disk.rows == torn.disk.rows && Run(torn, after).sent == torn.sent
  {
    InsideIsSaved(s.disk, p);
    StuckStays(Apply(s, Interrupt(inRequest)), after);
  }

  // ------------------------------------------------------ requests and the log

  ghost predicate InFlight(s: Sys, n: nat) {
    s.process.Some? && s.process.value.stage.Sending? && n == |s.disk.rows| + 1
  }

  ghost predicate GivenUpOn(s: Sys, n: nat) {
    s.disk.auto.pending.Some? && s.disk.auto.pending.value.uncertain && s.disk.auto.pending.value.number == n
  }

  /** A number that went out is in the log, on its way, or given up as uncertain; and none went out twice. */
  ghost predicate SentOk(s: Sys) {
    && (forall i | 0 <= i < |s.sent| :: s.sent[i] <= |s.disk.rows| || InFlight(s, s.sent[i]) || GivenUpOn(s, s.sent[i]))
    && (forall i, j | 0 <= i < j < |s.sent| :: s.sent[i] != s.sent[j])
  }

  /** A kill after the request went out and before its row was written. */
  predicate KillsInFlight(s: Sys, step: Step) {
    step.Kill? && s.process.Some? && s.process.value.stage.Sending?
  }

  ghost predicate NoKillInFlight(s: Sys, steps: seq<Step>)
    decreases |steps|
  {
    steps == [] || (!KillsInFlight(s, steps[0]) && NoKillInFlight(Apply(s, steps[0]), steps[1..]))
  }

  lemma ApplyingKeepsSent(s: Sys, p: Process)
    requires Sound(s) && SentOk(s) && s.process == Some(p) && p.stage.Applying?
    ensures SentOk(AdvanceApplying(s, p))
  {
    InsideIsSaved(s.disk, p);
    assert AdvanceApplying(s, p).sent == s.sent && AdvanceApplying(s, p).disk.rows == s.disk.rows;
  }

  lemma ReadyKeepsSent(s: Sys, p: Process)
    requires Sound(s) && SentOk(s) && s.process == Some(p) && p.stage.Ready?
    ensures SentOk(AdvanceReady(s, p))
  {
  }

  lemma AdvanceKeepsSent(s: Sys, p: Process)
    requires Sound(s) && SentOk(s) && s.process == Some(p)
    ensures SentOk(Apply(s, Advance))
  {
    if p.stage.Ready? { ReadyKeepsSent(s, p); } else if p.stage.Applying? { ApplyingKeepsSent(s, p); }
  }

  lemma InterruptKeepsSent(s: Sys, p: Process, inRequest: bool)
    requires Sound(s) && SentOk(s) && s.process == Some(p)
    ensures SentOk(InterruptStep(s, p, inRequest))
  {
    if p.stage.Applying? { InsideIsSaved(s.disk, p); }
  }

  lemma StepKeepsSent(s: Sys, step: Step)
    requires Sound(s) && SentOk(s) && !KillsInFlight(s, step)
    ensures SentOk(Apply(s, step))
  {
    if s.process.Some? {
      match step
      case Advance => AdvanceKeepsSent(s, s.process.value);
      case Interrupt(inRequest) => InterruptKeepsSent(s, s.process.value, inRequest);
      case _ =>
    }
  }

  lemma {:induction false} RunKeepsSent(s: Sys, steps: seq<Step>)
    requires Sound(s) && SentOk(s) && NoKillInFlight(s, steps)
    ensures SentOk(Run(s, steps))
    decreases |steps|
  {
    if steps != [] {
      StepKeepsSound(s, steps[0]);
      StepKeepsSent(s, steps[0]);
      RunKeepsSent(Apply(s, steps[0]), steps[1..]);
    }
  }

  /**
   * Over any sequence of invocations and keyboard interrupts, and kills that miss the
   * window between request and log, no request number goes out twice.
   */
  lemma OneRequestPerNumber(s: Sys, steps: seq<Step>, i: nat, j: nat)
    requires Initial(s) && NoKillInFlight(s, steps) && i < j < |Run(s, steps).sent|
    ensures Run(s, steps).sent[i] != Run(s, steps).sent[j]
  {
    RunKeepsSent(s, steps);
  }

  lemma RunFrom(s: Sys, steps: seq<Step>, i: nat)
    requires i < |steps|
    ensures Run(s, steps[i..]) == Run(Apply(s, steps[i]), steps[i + 1..])
  {
    assert steps[i..][1..] == steps[i + 1..];
  }

  /** Wherever an experiment has got to, a kill inside the window makes the next invocation repeat the number. */
  lemma KillInFlightRepeats(start: Sys, steps: seq<Step>)
    requires Initial(start) && KillsInFlight(Run(start, steps), Kill)
    ensures var s := Run(start, steps);
            var n := |s.disk.rows| + 1;
            n in s.sent && Run(s, [Kill, Invoke, Advance]).sent == s.sent + [n]
  {
    RunKeepsSound(start, steps);
    var s := Run(start, steps);
    var killed := Apply(s, Kill);
    var invoked := Apply(killed, Invoke);
    var again := [Kill, Invoke, Advance];
    RunFrom(s, again, 0);
    RunFrom(killed, again, 1);
    RunFrom(invoked, again, 2);
    assert again[0..] == again && again[3..] == [];
  }

  // ---------------------------------------------------------- the conclusions

  /**
   * Over any invocations, interrupts and kills: an interval that failed is the one under test, the
   * fastest that passed is the one before it or that very one, and a conclusive result means both
   * ladders ended in a recorded failure or ran out of tiers.
   */
  lemma ConclusionsAreBacked(s: Sys, steps: seq<Step>)
    requires Initial(s)
    ensures var a := Run(s, steps).disk.auto;
            && (forall i | 0 <= i < |CONTINUATION_SECONDS| && a.failedContinuation == Some(CONTINUATION_SECONDS[i]) ::
                  a.fastestContinuation == Before(CONTINUATION_SECONDS, i) || a.fastestContinuation == a.failedContinuation)
            && (forall i | 0 <= i < |FRESH_SECONDS| && a.failedFresh == Some(FRESH_SECONDS[i]) ::
                  a.fastestFresh == Before(FRESH_SECONDS, i) || a.fastestFresh == a.failedFresh)
            && (a.result.Conclusive? ==>
                  && (a.failedContinuation.Some? || a.fastestContinuation == Some(3))
                  && (a.failedFresh.Some? || a.fastestFresh == Some(60)))
  {
    RunKeepsSound(s, steps);
  }

  /** The interval of the tier before the `i`-th. */
  function Before(tiers: seq<nat>, i: nat): Option<nat>
    requires i <= |tiers|
  {
    if i == 0 then None else Some(tiers[i - 1])
  }
}
