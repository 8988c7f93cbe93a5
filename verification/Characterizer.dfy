/**
 * The unattended characterization of the marketplace throttle: an experiment that
 * writes down each request before it makes it, applies each outcome key by key, and goes
 * through invocations that are interrupted, stopped or killed.
 */
module Characterizer {
  import opened Options

  const MAX_PAGES: nat := 20
  const SUCCESSES_PER_TIER: nat := 3
  const CONTINUATION_SECONDS: seq<nat> := [3600, 1800, 900, 300, 120, 60, 30, 15, 5, 3]
  const FRESH_SECONDS: seq<nat> := [3600, 1800, 900, 300, 120, 60]

  datatype Phase = Recovery | Continuation | SessionRefresh | FreshSearch | Complete
  datatype Result = Incomplete | Conclusive

  /** What the log keeps of a response; `cursor` says it returned a search key and a page token. */
  datatype Outcome = Success(cursor: bool) | Throttled | SessionExpired | OtherError
  datatype Row = Row(outcome: Outcome, page: nat)

  datatype Action = Action(number: nat, kind: Phase, page: nat, uncertain: bool)

  datatype Auto = Auto(
    phase: Phase, pending: Option<Action>,
    continuationIndex: nat, continuationSuccesses: nat, freshIndex: nat, freshSuccesses: nat,
    fastestContinuation: Option<nat>, failedContinuation: Option<nat>, fastestFresh: Option<nat>, failedFresh: Option<nat>,
    afterRecovery: Phase, result: Result)

  /** The saved search session: the page last asked for, and whether it can be continued. */
  datatype Session = Session(page: nat, resumable: bool)

  function Fresh(phase: Phase): Auto {
    Auto(phase, None, 0, 0, 0, 0, None, None, None, None, Continuation, Incomplete)
  }

  // -------------------------------------------------------------- decisions

  predicate Exhausted(session: Session) {
    !session.resumable || session.page >= MAX_PAGES
  }

  /** The next action, or a change of phase when the session cannot be continued. */
  function Prepare(a: Auto, requests: nat, session: Session): Auto {
    match a.phase
    case Complete => a
    case Continuation =>
      if Exhausted(session) then a.(phase := SessionRefresh)
      else a.(pending := Some(Action(requests + 1, Continuation, session.page + 1, false)))
    case _ => a.(pending := Some(Action(requests + 1, a.phase, 1, false)))
  }

  function EnterRecovery(a: Auto, after: Phase): Auto {
    a.(phase := Recovery, afterRecovery := after)
  }

  function GiveUp(a: Auto): Auto {
    a.(phase := Complete, result := Incomplete)
  }

  function RecoveryOutcome(a: Auto, o: Outcome): Auto {
    match o
    case Throttled => EnterRecovery(a, a.afterRecovery)
    case Success(_) =>
      if a.afterRecovery.Complete? then a.(phase := Complete, result := Conclusive)
      else if a.afterRecovery.FreshSearch? then a.(phase := FreshSearch)
      else a.(phase := Continuation)
    case _ => GiveUp(a)
  }

  function ContinuationOutcome(a: Auto, o: Outcome, session: Session): Auto
    requires a.continuationIndex < |CONTINUATION_SECONDS|
  {
    var interval := CONTINUATION_SECONDS[a.continuationIndex];
    match o
    case Throttled => EnterRecovery(a.(failedContinuation := Some(interval)), FreshSearch)
    case Success(_) =>
      if a.continuationSuccesses + 1 >= SUCCESSES_PER_TIER then
        var passed := a.(fastestContinuation := Some(interval), continuationSuccesses := 0, continuationIndex := a.continuationIndex + 1);
        if passed.continuationIndex >= |CONTINUATION_SECONDS| then passed.(phase := FreshSearch)
        else if Exhausted(session) then passed.(phase := SessionRefresh)
        else passed
      else
        var counted := a.(continuationSuccesses := a.continuationSuccesses + 1);
        if Exhausted(session) then counted.(phase := SessionRefresh) else counted
    case SessionExpired => a.(phase := SessionRefresh)
    case OtherError => GiveUp(a)
  }

  function RefreshOutcome(a: Auto, o: Outcome, session: Session): Auto {
    match o
    case Success(_) => if Exhausted(session) then GiveUp(a) else a.(phase := Continuation)
    case Throttled => EnterRecovery(a, Continuation)
    case _ => GiveUp(a)
  }

  function FreshOutcome(a: Auto, o: Outcome): Auto
    requires a.freshIndex < |FRESH_SECONDS|
  {
    var interval := FRESH_SECONDS[a.freshIndex];
    match o
    case Throttled => EnterRecovery(a.(failedFresh := Some(interval)), Complete)
    case Success(_) =>
      if a.freshSuccesses + 1 >= SUCCESSES_PER_TIER then
        var passed := a.(fastestFresh := Some(interval), freshSuccesses := 0, freshIndex := a.freshIndex + 1);
        if passed.freshIndex >= |FRESH_SECONDS| then passed.(phase := Complete, result := Conclusive) else passed
      else a.(freshSuccesses := a.freshSuccesses + 1)
    case _ => GiveUp(a)
  }

  /** An interval that does not exist is looked up, and raises. */
  predicate CanApply(a: Auto, kind: Phase) {
    (kind.Continuation? ==> a.continuationIndex < |CONTINUATION_SECONDS|) && (kind.FreshSearch? ==> a.freshIndex < |FRESH_SECONDS|)
  }

  /** What an outcome comes to, once it is wholly applied. */
  function ApplyOutcome(a: Auto, kind: Phase, o: Outcome, session: Session): Auto
    requires CanApply(a, kind)
  {
    var next :=
      match kind
      case Recovery => RecoveryOutcome(a, o)
      case Continuation => ContinuationOutcome(a, o, session)
      case SessionRefresh => RefreshOutcome(a, o, session)
      case FreshSearch => FreshOutcome(a, o)
      case Complete => a;
    next.(pending := None)
  }

  // ----------------------------------------------------------- write by write

  // The state dictionary is changed key by key: the states it goes through, in order.

  function RecoveryEntry(a: Auto, after: Phase): seq<Auto> {
    [a.(phase := Recovery), a.(phase := Recovery, afterRecovery := after)]
  }

  function GivingUp(a: Auto): seq<Auto> {
    [a.(result := Incomplete), a.(result := Incomplete, phase := Complete)]
  }

  function RecoveryWrites(a: Auto, o: Outcome): seq<Auto> {
    match o
    case Throttled => RecoveryEntry(a, a.afterRecovery)
    case Success(_) =>
      if a.afterRecovery.Complete? then [a.(phase := Complete), a.(phase := Complete, result := Conclusive)]
      else if a.afterRecovery.FreshSearch? then [a.(phase := FreshSearch)]
      else [a.(phase := Continuation)]
    case _ => GivingUp(a)
  }

  /** A success is counted; the third records the tier, clears the count and moves on, in this order. */
  function ContinuationSuccess(a: Auto, session: Session): seq<Auto>
    requires a.continuationIndex < |CONTINUATION_SECONDS|
  {
    var counted := a.(continuationSuccesses := a.continuationSuccesses + 1);
    if a.continuationSuccesses + 1 >= SUCCESSES_PER_TIER then
      var recorded := counted.(fastestContinuation := Some(CONTINUATION_SECONDS[a.continuationIndex]));
      var cleared := recorded.(continuationSuccesses := 0);
      var moved := cleared.(continuationIndex := a.continuationIndex + 1);
      [counted, recorded, cleared, moved]
      + (if moved.continuationIndex >= |CONTINUATION_SECONDS| then [moved.(phase := FreshSearch)]
         else if Exhausted(session) then [moved.(phase := SessionRefresh)] else [])
    else [counted] + (if Exhausted(session) then [counted.(phase := SessionRefresh)] else [])
  }

  function ContinuationWrites(a: Auto, o: Outcome, session: Session): seq<Auto>
    requires a.continuationIndex < |CONTINUATION_SECONDS|
  {
    match o
    case Throttled =>
      var failed := a.(failedContinuation := Some(CONTINUATION_SECONDS[a.continuationIndex]));
      [failed] + RecoveryEntry(failed, FreshSearch)
    case Success(_) => ContinuationSuccess(a, session)
    case SessionExpired => [a.(phase := SessionRefresh)]
    case OtherError => GivingUp(a)
  }

  function RefreshWrites(a: Auto, o: Outcome, session: Session): seq<Auto> {
    match o
    case Success(_) => if Exhausted(session) then GivingUp(a) else [a.(phase := Continuation)]
    case Throttled => RecoveryEntry(a, Continuation)
    case _ => GivingUp(a)
  }

  function FreshSuccess(a: Auto): seq<Auto>
    requires a.freshIndex < |FRESH_SECONDS|
  {
    var counted := a.(freshSuccesses := a.freshSuccesses + 1);
    if a.freshSuccesses + 1 >= SUCCESSES_PER_TIER then
      var recorded := counted.(fastestFresh := Some(FRESH_SECONDS[a.freshIndex]));
      var cleared := recorded.(freshSuccesses := 0);
      var moved := cleared.(freshIndex := a.freshIndex + 1);
      [counted, recorded, cleared, moved]
      + (if moved.freshIndex >= |FRESH_SECONDS| then [moved.(phase := Complete), moved.(phase := Complete, result := Conclusive)] else [])
    else [counted]
  }

  function FreshWrites(a: Auto, o: Outcome): seq<Auto>
    requires a.freshIndex < |FRESH_SECONDS|
  {
    match o
    case Throttled =>
      var failed := a.(failedFresh := Some(FRESH_SECONDS[a.freshIndex]));
      [failed] + RecoveryEntry(failed, Complete)
    case Success(_) => FreshSuccess(a)
    case _ => GivingUp(a)
  }

  function Body(a: Auto, kind: Phase, o: Outcome, session: Session): (states: seq<Auto>)
    requires CanApply(a, kind)
    ensures states != []
  {
    match kind
    case Recovery => RecoveryWrites(a, o)
    case Continuation => ContinuationWrites(a, o, session)
    case SessionRefresh => RefreshWrites(a, o, session)
    case FreshSearch => FreshWrites(a, o)
    case Complete => [a]
  }

  /** The last write clears the pending action. */
  function Writes(a: Auto, kind: Phase, o: Outcome, session: Session): (states: seq<Auto>)
    requires CanApply(a, kind)
    ensures |states| == |Body(a, kind, o, session)| + 1
  {
    var body := Body(a, kind, o, session);
    body + [body[|body| - 1].(pending := None)]
  }

  /** All writes together are the outcome's. */
  lemma WritesComeToOutcome(a: Auto, kind: Phase, o: Outcome, session: Session)
    requires CanApply(a, kind)
    ensures var states := Writes(a, kind, o, session); states[|states| - 1] == ApplyOutcome(a, kind, o, session)
  {
    match kind
    case Recovery =>
    case Continuation => match o { case Throttled => case Success(_) => case SessionExpired => case OtherError => }
    case SessionRefresh =>
    case FreshSearch =>
    case Complete =>
  }

  // ------------------------------------------------------------ invocations

  /**
   * `Recorded` lasts from the last write inside the request to the application of its outcome.
   * In `Applying`, `done` of the writes from `base` have been made in memory, and none on disk.
   */
  datatype Stage = Ready | Sending | Logged | Recorded | Applying(base: Auto, outcome: Outcome, done: nat)

  /** A running invocation. */
  datatype Process = Process(auto: Auto, session: Session, stage: Stage)
  datatype Disk = Disk(rows: seq<Row>, auto: Auto, session: Session)

  /**
   * `sent` is the provider's view: the numbers of the requests that physically went out.
   * `taken` are the numbers of the rows whose outcome went into the saved state, wholly or in part.
   */
  datatype Sys = Sys(disk: Disk, process: Option<Process>, sent: seq<nat>, taken: seq<nat>)

  datatype Step =
    | Invoke
    | Stop
    | Advance
    | Receive(outcome: Outcome)
    | Record
    | Interrupt(inRequest: bool)
    | Kill

  /** In memory and on disk. */
  function Persisted(s: Sys, p: Process): Sys {
    s.(disk := s.disk.(auto := p.auto, session := p.session), process := Some(p))
  }

  function Ended(s: Sys, a: Auto): Sys {
    s.(disk := s.disk.(auto := a), process := None)
  }

  /** The tier under test, which every turn of the loop looks up first, exists. */
  predicate InRange(a: Auto) {
    CanApply(a, a.phase)
  }

  function BeginApplying(s: Sys, p: Process): Sys
    requires p.auto.pending.Some? && s.disk.rows != []
  {
    if !CanApply(p.auto, p.auto.pending.value.kind) then Ended(s, p.auto)
    else s.(process := Some(p.(stage := Applying(p.auto, s.disk.rows[|s.disk.rows| - 1].outcome, 0))))
  }

  /** One turn of the loop: look up the tier, prepare, refuse, catch up with the log, or send. */
  function AdvanceReady(s: Sys, p: Process): Sys {
    var a := p.auto;
    if a.phase.Complete? || !InRange(a) then Ended(s, a)
    else if a.pending.None? then Persisted(s, p.(auto := Prepare(a, |s.disk.rows|, p.session)))
    else
      var action := a.pending.value;
      if action.uncertain then Persisted(s, p.(auto := GiveUp(a)))
      else if |s.disk.rows| == action.number && action.number > 0 then BeginApplying(s, p)
      else if |s.disk.rows| + 1 != action.number then Ended(s, a)
      else s.(process := Some(p.(stage := Sending)), sent := s.sent + [action.number])
  }

  function SessionAfter(row: Row): Session {
    Session(row.page, row.outcome == Success(true))
  }

  /** What an applying invocation still has to write, and has written. */
  function WritesOf(p: Process): seq<Auto> {
    if p.stage.Applying? && p.stage.base.pending.Some? && CanApply(p.stage.base, p.stage.base.pending.value.kind)
    then Writes(p.stage.base, p.stage.base.pending.value.kind, p.stage.outcome, p.session) else []
  }

  function Taken(s: Sys, base: Auto): Sys {
    if base.pending.Some? then s.(taken := s.taken + [base.pending.value.number]) else s
  }

  /** One more write in memory; after the last the state is saved. */
  function AdvanceApplying(s: Sys, p: Process): Sys
    requires p.stage.Applying?
  {
    var states := WritesOf(p);
    if p.stage.done < |states|
    then s.(process := Some(p.(auto := states[p.stage.done], stage := p.stage.(done := p.stage.done + 1))))
    else Taken(Persisted(s, p.(stage := Ready)), p.stage.base)
  }

  /** A request cut short is marked uncertain; whatever else the memory holds is saved as it is. */
  function InterruptStep(s: Sys, p: Process, inRequest: bool): Sys {
    if (p.stage.Sending? || p.stage.Logged? || (p.stage.Recorded? && inRequest)) && p.auto.pending.Some?
    then Ended(s, p.auto.(pending := Some(p.auto.pending.value.(uncertain := true))))
    else if p.stage.Applying? && p.stage.done > 0 then Taken(Ended(s, p.auto), p.stage.base)
    else Ended(s, p.auto)
  }

  function Apply(s: Sys, step: Step): Sys {
    if s.process.None? then
      if step.Invoke? then s.(process := Some(Process(s.disk.auto, s.disk.session, Ready))) else s
    else
      var p := s.process.value;
      match step
      case Invoke => s
      case Stop => if p.stage.Ready? then Ended(s, p.auto) else s
      case Advance =>
        if p.stage.Ready? then AdvanceReady(s, p)
        else if p.stage.Recorded? && p.auto.pending.Some? && s.disk.rows != [] then BeginApplying(s, p)
        else if p.stage.Applying? then AdvanceApplying(s, p)
        else s
      case Receive(o) =>
        if p.stage.Sending? && p.auto.pending.Some?
        then s.(disk := s.disk.(rows := s.disk.rows + [Row(o, p.auto.pending.value.page)]), process := Some(p.(stage := Logged)))
        else s
      case Record =>
        if p.stage.Logged? && s.disk.rows != []
        then Persisted(s, p.(stage := Recorded, session := SessionAfter(s.disk.rows[|s.disk.rows| - 1])))
        else s
      case Interrupt(inRequest) => InterruptStep(s, p, inRequest)
      case Kill => s.(process := None)
  }

  function Run(s: Sys, steps: seq<Step>): Sys
    decreases |steps|
  {
    if steps == [] then s else Run(Apply(s, steps[0]), steps[1..])
  }

  /** A new experiment, possibly on a log and a session that exist already. */
  predicate Initial(s: Sys) {
    && s.process.None? && s.sent == [] && s.taken == []
    && (s.disk.auto == Fresh(Recovery) || s.disk.auto == Fresh(Continuation))
  }
}
