/**
 * What an interrupt inside the application of an outcome can do: runs from a new experiment
 * in which a tier is left that does not exist, a row counts twice, and a failed interval is
 * reported as the fastest that passed.
 */
module CharacterizerTears {
  import opened Options
  import opened Characterizer
  import opened CharacterizerRuns

  /** A set of systems that no step leaves. */
  ghost predicate Closed(p: Sys -> bool) {
    forall s, step {:trigger Apply(s, step)} | p(s) :: p(Apply(s, step))
  }

  lemma Then(p: Sys -> bool, s: Sys, step: Step, next: Sys)
    requires Closed(p) && p(s) && Apply(s, step) == next
    ensures p(next)
  {
  }

  // ------------------------------------------------------------ one request

  /** No invocation runs, and the next one makes a request. */
  predicate Idle(s: Sys) {
    && s.process.None? && s.disk.auto.pending.None? && !s.disk.auto.phase.Complete? && InRange(s.disk.auto)
    && (s.disk.auto.phase.Continuation? ==> !Exhausted(s.disk.session))
  }

  function Pending(s: Sys): Auto
    requires Idle(s)
  {
    Prepare(s.disk.auto, |s.disk.rows|, s.disk.session)
  }

  function RowFor(s: Sys, o: Outcome): Row
    requires Idle(s)
  {
    Row(o, Pending(s).pending.value.page)
  }

  function RunningAs(s: Sys, a: Auto, rows: seq<Row>, session: Session, stage: Stage): Sys {
    s.(disk := Disk(rows, a, session), process := Some(Process(a, session, stage)))
  }

  /** The request was made and answered with `o`, and nothing is applied yet. */
  function Answered(s: Sys, o: Outcome): Sys
    requires Idle(s)
  {
    var a := Pending(s);
    RunningAs(s, a, s.disk.rows + [RowFor(s, o)], SessionAfter(RowFor(s, o)), Applying(a, o, 0))
    .(sent := s.sent + [|s.disk.rows| + 1])
  }

  lemma ThenSends(p: Sys -> bool, s: Sys)
    requires Closed(p) && p(s) && Idle(s)
    ensures p(RunningAs(s, Pending(s), s.disk.rows, s.disk.session, Sending).(sent := s.sent + [|s.disk.rows| + 1]))
  {
    var a := RunningAs(s, s.disk.auto, s.disk.rows, s.disk.session, Ready);
    var b := RunningAs(s, Pending(s), s.disk.rows, s.disk.session, Ready);
    Then(p, s, Invoke, a);
    Then(p, a, Advance, b);
    Then(p, b, Advance, RunningAs(s, Pending(s), s.disk.rows, s.disk.session, Sending).(sent := s.sent + [|s.disk.rows| + 1]));
  }

  lemma ThenAnswered(p: Sys -> bool, s: Sys, o: Outcome)
    requires Closed(p) && p(s) && Idle(s) && CanApply(s.disk.auto, s.disk.auto.phase)
    ensures p(Answered(s, o))
  {
    ThenSends(p, s);
    var a, rows, sent := Pending(s), s.disk.rows + [RowFor(s, o)], s.sent + [|s.disk.rows| + 1];
    var out := RunningAs(s, a, s.disk.rows, s.disk.session, Sending).(sent := sent);
    var logged := RunningAs(s, a, rows, s.disk.session, Logged).(sent := sent);
    var recorded := RunningAs(s, a, rows, SessionAfter(RowFor(s, o)), Recorded).(sent := sent);
    Then(p, out, Receive(o), logged);
    Then(p, logged, Record, recorded);
    Then(p, recorded, Advance, Answered(s, o));
  }

  // ----------------------------------------------------------- the writes

  predicate Fresh0(m: Sys) {
    && m.process.Some? && m.process.value.stage.Applying? && m.process.value.stage.done == 0
    && m.process.value.stage.base == m.process.value.auto && m.process.value.auto.pending.Some?
    && CanApply(m.process.value.auto, m.process.value.auto.pending.value.kind)
  }

  function StatesOf(m: Sys): seq<Auto>
    requires Fresh0(m)
  {
    WritesOf(m.process.value)
  }

  /** The same application after `k` writes. */
  function After(m: Sys, k: nat): Sys
    requires Fresh0(m) && k <= |StatesOf(m)|
  {
    var p := m.process.value;
    m.(process := Some(p.(auto := if k == 0 then p.auto else StatesOf(m)[k - 1], stage := p.stage.(done := k))))
  }

  lemma {:induction false} ThenWrites(p: Sys -> bool, m: Sys, k: nat)
    requires Closed(p) && p(m) && Fresh0(m) && k <= |StatesOf(m)|
    ensures p(After(m, k))
  {
    if k > 0 {
      ThenWrites(p, m, k - 1);
      assert WritesOf(After(m, k - 1).process.value) == StatesOf(m);
      Then(p, After(m, k - 1), Advance, After(m, k));
    } else {
      assert After(m, 0) == m;
    }
  }

  /** Cut short after `k` writes: what is saved. */
  function Torn(m: Sys, k: nat): Sys
    requires Fresh0(m) && 0 < k <= |StatesOf(m)|
  {
    m.(process := None, disk := m.disk.(auto := StatesOf(m)[k - 1]), taken := m.taken + [m.process.value.auto.pending.value.number])
  }

  lemma ThenTorn(p: Sys -> bool, m: Sys, k: nat)
    requires Closed(p) && p(m) && Fresh0(m) && 0 < k <= |StatesOf(m)|
    ensures p(Torn(m, k))
  {
    ThenWrites(p, m, k);
    Then(p, After(m, k), Interrupt(false), Torn(m, k));
  }

  /** The whole outcome applied. */
  function Done(m: Sys): Sys
    requires Fresh0(m)
  {
    var p := m.process.value;
    m.(process := None, disk := m.disk.(auto := ApplyOutcome(p.auto, p.auto.pending.value.kind, p.stage.outcome, p.session)),
       taken := m.taken + [p.auto.pending.value.number])
  }

  lemma ThenDone(p: Sys -> bool, m: Sys)
    requires Closed(p) && p(m) && Fresh0(m)
    ensures p(Done(m))
  {
    var q := m.process.value;
    WritesComeToOutcome(q.auto, q.auto.pending.value.kind, q.stage.outcome, q.session);
    ThenTorn(p, m, |StatesOf(m)|);
  }

  /** The next invocation catches up with the log. */
  function CatchingUp(s: Sys): Sys
    requires s.disk.rows != []
  {
    RunningAs(s, s.disk.auto, s.disk.rows, s.disk.session, Applying(s.disk.auto, LastOutcome(s.disk), 0))
  }

  lemma ThenCatchesUp(p: Sys -> bool, s: Sys)
    requires Closed(p) && p(s) && s.process.None? && RowPending(s.disk) && !s.disk.auto.phase.Complete?
    requires InRange(s.disk.auto) && CanApply(s.disk.auto, s.disk.auto.pending.value.kind)
    ensures p(CatchingUp(s))
  {
    var a := RunningAs(s, s.disk.auto, s.disk.rows, s.disk.session, Ready);
    Then(p, s, Invoke, a);
    Then(p, a, Advance, CatchingUp(s));
  }

  // ------------------------------------------------------------- climbing

  function Tier(phase: Phase, i: nat, c: nat): Auto
    requires i <= |CONTINUATION_SECONDS|
  {
    Fresh(phase).(continuationIndex := i, continuationSuccesses := c, fastestContinuation := Before(CONTINUATION_SECONDS, i))
  }

  /** On tier `i` with `c` successes; the first ten pages need no new search. */
  predicate OnTier(s: Sys, i: nat, c: nat) {
    && i < |CONTINUATION_SECONDS| && s.process.None? && s.disk.auto == Tier(Continuation, i, c) && !Exhausted(s.disk.session)
    && (3 * i + c <= 10 ==> s.disk.session.page == 1 + 3 * i + c)
  }

  predicate NeedsSearch(s: Sys, i: nat, c: nat) {
    i < |CONTINUATION_SECONDS| && s.process.None? && s.disk.auto == Tier(SessionRefresh, i, c) && 3 * i + c > 10
  }

  const START := Sys(Disk([], Fresh(Continuation), Session(1, true)), None, [], [])
  const GOOD := Success(true)

  function NextTier(i: nat, c: nat): (nat, nat) {
    if c + 1 >= SUCCESSES_PER_TIER then (i + 1, 0) else (i, c + 1)
  }

  /** One success more, on the same tier or the next. */
  lemma OneMore(p: Sys -> bool, s: Sys, i: nat, c: nat)
    requires Closed(p) && p(s) && OnTier(s, i, c) && c < SUCCESSES_PER_TIER && NextTier(i, c).0 < |CONTINUATION_SECONDS|
    ensures var (j, d) := NextTier(i, c);
            p(Done(Answered(s, GOOD))) && (OnTier(Done(Answered(s, GOOD)), j, d) || NeedsSearch(Done(Answered(s, GOOD)), j, d))
  {
    ThenAnswered(p, s, GOOD);
    ThenDone(p, Answered(s, GOOD));
  }

  lemma NewSearch(p: Sys -> bool, s: Sys, i: nat, c: nat)
    requires Closed(p) && p(s) && NeedsSearch(s, i, c)
    ensures p(Done(Answered(s, GOOD))) && OnTier(Done(Answered(s, GOOD)), i, c)
  {
    ThenAnswered(p, s, GOOD);
    ThenDone(p, Answered(s, GOOD));
  }

  /** Every tier is reached with every number of successes. */
  lemma {:induction false} Climbs(p: Sys -> bool, n: nat)
    requires Closed(p) && p(START) && n < 3 * |CONTINUATION_SECONDS|
    ensures exists s :: p(s) && OnTier(s, n / 3, n % 3)
  {
    if n == 0 {
      assert OnTier(START, 0, 0);
    } else {
      Climbs(p, n - 1);
      var s :| p(s) && OnTier(s, (n - 1) / 3, (n - 1) % 3);
      assert NextTier((n - 1) / 3, (n - 1) % 3) == (n / 3, n % 3);
      OneMore(p, s, (n - 1) / 3, (n - 1) % 3);
      var t := Done(Answered(s, GOOD));
      if NeedsSearch(t, n / 3, n % 3) { NewSearch(p, t, n / 3, n % 3); }
    }
  }

  // --------------------------------------------------------------- results

  ghost predicate Reached(s: Sys) {
    exists steps :: Run(START, steps) == s
  }

  lemma {:induction false} RunExtends(s: Sys, steps: seq<Step>, step: Step)
    ensures Run(s, steps + [step]) == Apply(Run(s, steps), step)
    decreases |steps|
  {
    if steps == [] {
      assert ([] + [step])[0] == step && ([] + [step])[1..] == [];
      assert Run(Apply(s, step), []) == Apply(s, step);
    } else {
      assert (steps + [step])[0] == steps[0] && (steps + [step])[1..] == steps[1..] + [step];
      RunExtends(Apply(s, steps[0]), steps[1..], step);
    }
  }

  lemma ReachedIsClosed()
    ensures Closed((s: Sys) => Reached(s)) && Reached(START)
  {
    forall s, step {:trigger Apply(s, step)} | Reached(s) ensures Reached(Apply(s, step)) {
      var steps :| Run(START, steps) == s;
      RunExtends(START, steps, step);
    }
    assert Run(START, []) == START;
  }

  /** The third success of the last tier, cut short after the tier was moved on. */
  lemma TornPass(p: Sys -> bool)
    requires Closed(p) && p(START)
    ensures exists s :: p(s) && s.disk.auto.phase.Continuation? && s.disk.auto.continuationIndex == |CONTINUATION_SECONDS|
  {
    Climbs(p, 29);
    var s :| p(s) && OnTier(s, 9, 2);
    ThenAnswered(p, s, GOOD);
    ThenTorn(p, Answered(s, GOOD), 4);
    assert Torn(Answered(s, GOOD), 4).disk.auto.continuationIndex == |CONTINUATION_SECONDS|;
  }

  /** A run that leaves an experiment on a continuation tier that does not exist. */
  lemma TierIsLost()
    ensures Initial(START)
    ensures exists steps :: var a := Run(START, steps).disk.auto;
              a.phase.Continuation? && a.continuationIndex == |CONTINUATION_SECONDS|
  {
    ReachedIsClosed();
    TornPass((s: Sys) => Reached(s));
  }

  /** A success cut short after it was counted, and counted again by the next invocation. */
  lemma CountedTwice(p: Sys -> bool)
    requires Closed(p) && p(START)
    ensures exists s :: p(s) && |s.disk.rows| == 1 && s.disk.auto.continuationSuccesses == 2 && s.taken == [1, 1]
  {
    assert OnTier(START, 0, 0);
    ThenAnswered(p, START, GOOD);
    var torn := Torn(Answered(START, GOOD), 1);
    ThenTorn(p, Answered(START, GOOD), 1);
    ThenCatchesUp(p, torn);
    ThenDone(p, CatchingUp(torn));
    assert Done(CatchingUp(torn)).disk.auto.continuationSuccesses == 2;
  }

  /** A run in which one request counts as two successes. */
  lemma RowCountsTwice()
    ensures exists steps :: var s := Run(START, steps);
              |s.disk.rows| == 1 && s.disk.auto.continuationSuccesses == 2 && s.taken == [1, 1]
  {
    ReachedIsClosed();
    CountedTwice((s: Sys) => Reached(s));
  }

  /** The third success of the first tier, cut short between record and move. */
  lemma RecordedEarly(p: Sys -> bool)
    requires Closed(p) && p(START)
    ensures exists s :: p(s) && Idle(s)
              && s.disk.auto == Tier(Continuation, 0, 1).(fastestContinuation := Some(CONTINUATION_SECONDS[0]))
  {
    Climbs(p, 2);
    var s :| p(s) && OnTier(s, 0, 2);
    ThenAnswered(p, s, GOOD);
    var torn := Torn(Answered(s, GOOD), 3);
    ThenTorn(p, Answered(s, GOOD), 3);
    ThenCatchesUp(p, torn);
    ThenDone(p, CatchingUp(torn));
    assert Idle(Done(CatchingUp(torn)));
  }

  /** A run in which the interval that failed first is reported as the fastest that passed. */
  lemma FailedIsFastest()
    ensures exists steps :: var a := Run(START, steps).disk.auto;
              a.failedContinuation == Some(3600) && a.fastestContinuation == Some(3600)
  {
    ReachedIsClosed();
    var p := (s: Sys) => Reached(s);
    RecordedEarly(p);
    var s :| p(s) && Idle(s) && s.disk.auto == Tier(Continuation, 0, 1).(fastestContinuation := Some(CONTINUATION_SECONDS[0]));
    ThenAnswered(p, s, Throttled);
    ThenDone(p, Answered(s, Throttled));
    assert Done(Answered(s, Throttled)).disk.auto.failedContinuation == Some(3600);
  }
}
