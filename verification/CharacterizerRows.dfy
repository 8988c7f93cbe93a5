/** How often the outcome of a logged row goes into the saved state, and what more than once does. */
module CharacterizerRows {
  import opened Options
  import opened Characterizer
  import opened CharacterizerRuns

  /** An interrupt with some of an application's writes made, and not all. */
  predicate TearsApplication(s: Sys, step: Step) {
    && step.Interrupt? && s.process.Some? && s.process.value.stage.Applying? && s.process.value.stage.base.pending.Some?
    && 0 < s.process.value.stage.done < |WritesOf(s.process.value)|
  }

  /** The row whose application this step cuts short, if any. */
  function TornBy(s: Sys, step: Step): multiset<nat> {
    if TearsApplication(s, step) then multiset{s.process.value.stage.base.pending.value.number} else multiset{}
  }

  /** The rows whose applications a run cuts short, as often as it does. */
  function TornRows(s: Sys, steps: seq<Step>): multiset<nat>
    decreases |steps|
  {
    if steps == [] then multiset{} else TornBy(s, steps[0]) + TornRows(Apply(s, steps[0]), steps[1..])
  }

  /** The last row is the pending action's, and not wholly taken into account yet. */
  predicate RowWaits(d: Disk) {
    d.auto.pending.Some? && d.auto.pending.value.number == |d.rows|
  }

  /** The row was logged since the start, and is settled. */
  predicate WhollyTaken(d: Disk, start: nat, n: nat) {
    start < n <= |d.rows| && !(RowWaits(d) && n == |d.rows|)
  }

  predicate PendingIsNext(d: Disk, start: nat) {
    && start <= |d.rows|
    && (d.auto.pending.Some? ==> start < d.auto.pending.value.number && |d.rows| <= d.auto.pending.value.number <= |d.rows| + 1)
  }

  /** Rows are taken in the order of their numbers. */
  predicate InOrder(taken: seq<nat>, last: nat) {
    (forall i, j | 0 <= i < j < |taken| :: taken[i] <= taken[j]) && (forall i | 0 <= i < |taken| :: taken[i] <= last)
  }

  ghost predicate TakenOk(s: Sys, start: nat, torn: multiset<nat>) {
    && PendingIsNext(s.disk, start) && InOrder(s.taken, |s.disk.rows|)
    && (forall n: nat :: multiset(s.taken)[n] == torn[n] + if WhollyTaken(s.disk, start, n) then 1 else 0)
  }

  lemma TakesOneMore(taken: seq<nat>, n: nat)
    ensures multiset(taken + [n]) == multiset(taken) + multiset{n}
  {
  }

  /** The row of the pending action is taken, once more or at last. */
  lemma TakingKeepsTaken(s: Sys, next: Sys, start: nat, torn: multiset<nat>, more: multiset<nat>)
    requires TakenOk(s, start, torn) && RowWaits(s.disk) && next.disk.rows == s.disk.rows
    requires next.taken == s.taken + [|s.disk.rows|]
    requires (next.disk.auto.pending == s.disk.auto.pending && more == multiset{|s.disk.rows|})
             || (next.disk.auto.pending.None? && more == multiset{})
    ensures TakenOk(next, start, torn + more)
  {
    TakesOneMore(s.taken, |s.disk.rows|);
  }

  lemma ApplyingKeepsTaken(s: Sys, p: Process, start: nat, torn: multiset<nat>)
    requires Sound(s) && TakenOk(s, start, torn) && s.process == Some(p) && p.stage.Applying?
    ensures TakenOk(AdvanceApplying(s, p), start, torn)
  {
    if p.stage.done == |WritesOf(p)| {
      InsideIsSaved(s.disk, p);
      TakingKeepsTaken(s, AdvanceApplying(s, p), start, torn, multiset{});
      assert torn + multiset{} == torn;
    }
  }

  lemma ReadyKeepsTaken(s: Sys, p: Process, start: nat, torn: multiset<nat>)
    requires Sound(s) && TakenOk(s, start, torn) && s.process == Some(p) && p.stage.Ready?
    ensures TakenOk(AdvanceReady(s, p), start, torn)
  {
    if !p.auto.phase.Complete? && InRange(p.auto) && p.auto.pending.None? {
      PrepareIsClean(p.auto, |s.disk.rows|, p.session);
    }
  }

  lemma InterruptKeepsTaken(s: Sys, p: Process, inRequest: bool, start: nat, torn: multiset<nat>)
    requires Sound(s) && TakenOk(s, start, torn) && s.process == Some(p)
    ensures TakenOk(InterruptStep(s, p, inRequest), start, torn + TornBy(s, Interrupt(inRequest)))
  {
    if p.stage.Applying? && p.stage.done > 0 {
      InsideIsSaved(s.disk, p);
      TakingKeepsTaken(s, InterruptStep(s, p, inRequest), start, torn, TornBy(s, Interrupt(inRequest)));
    } else {
      assert torn + TornBy(s, Interrupt(inRequest)) == torn;
    }
  }

  lemma ReceiveKeepsTaken(s: Sys, p: Process, o: Outcome, start: nat, torn: multiset<nat>)
    requires Sound(s) && TakenOk(s, start, torn) && s.process == Some(p)
    ensures TakenOk(Apply(s, Receive(o)), start, torn)
  {
  }

  lemma AdvanceKeepsTaken(s: Sys, p: Process, start: nat, torn: multiset<nat>)
    requires Sound(s) && TakenOk(s, start, torn) && s.process == Some(p)
    ensures TakenOk(Apply(s, Advance), start, torn)
  {
    if p.stage.Applying? { ApplyingKeepsTaken(s, p, start, torn); } else if p.stage.Ready? { ReadyKeepsTaken(s, p, start, torn); }
  }

  /** The other steps neither log nor take a row, nor change what is pending. */
  lemma OtherStepKeepsTaken(s: Sys, step: Step, start: nat, torn: multiset<nat>)
    requires Sound(s) && TakenOk(s, start, torn) && (step.Invoke? || step.Stop? || step.Record? || step.Kill?)
    ensures TakenOk(Apply(s, step), start, torn)
  {
    var next := Apply(s, step);
    assert next.taken == s.taken && next.disk.rows == s.disk.rows && next.disk.auto == s.disk.auto;
  }

  lemma RunningKeepsTaken(s: Sys, p: Process, step: Step, start: nat, torn: multiset<nat>)
    requires Sound(s) && TakenOk(s, start, torn) && s.process == Some(p) && !step.Interrupt?
    ensures TakenOk(Apply(s, step), start, torn)
  {
    match step
    case Advance => AdvanceKeepsTaken(s, p, start, torn);
    case Receive(o) => ReceiveKeepsTaken(s, p, o, start, torn);
    case _ => OtherStepKeepsTaken(s, step, start, torn);
  }

  lemma IdleKeepsTaken(s: Sys, step: Step, start: nat, torn: multiset<nat>)
    requires TakenOk(s, start, torn) && s.process.None?
    ensures TakenOk(Apply(s, step), start, torn)
  {
    assert Apply(s, step).taken == s.taken && Apply(s, step).disk == s.disk;
  }

  lemma NothingTorn(s: Sys, step: Step, torn: multiset<nat>)
    requires s.process.None? || !step.Interrupt?
    ensures torn + TornBy(s, step) == torn
  {
  }

  lemma StepKeepsTaken(s: Sys, step: Step, start: nat, torn: multiset<nat>)
    requires Sound(s) && TakenOk(s, start, torn)
    ensures TakenOk(Apply(s, step), start, torn + TornBy(s, step))
  {
    if s.process.Some? && step.Interrupt? {
      InterruptKeepsTaken(s, s.process.value, step.inRequest, start, torn);
    } else {
      NothingTorn(s, step, torn);
      if s.process.Some? { RunningKeepsTaken(s, s.process.value, step, start, torn); } else { IdleKeepsTaken(s, step, start, torn); }
    }
  }

  lemma {:induction false} RunKeepsTaken(s: Sys, steps: seq<Step>, start: nat, torn: multiset<nat>)
    requires Sound(s) && TakenOk(s, start, torn)
    ensures TakenOk(Run(s, steps), start, torn + TornRows(s, steps))
    decreases |steps|
  {
    if steps == [] {
      assert torn + TornRows(s, steps) == torn;
    } else {
      var more := TornBy(s, steps[0]);
      StepKeepsSound(s, steps[0]);
      StepKeepsTaken(s, steps[0], start, torn);
      RunKeepsTaken(Apply(s, steps[0]), steps[1..], start, torn + more);
      assert torn + more + TornRows(Apply(s, steps[0]), steps[1..]) == torn + TornRows(s, steps);
    }
  }

  /**
   * Over any invocations, interrupts and kills rows are taken into the saved state in the order of
   * their numbers, and each exactly once more than its applications were cut short; the pending
   * action's only as often as that.
   */
  lemma RowsTakenExactly(s: Sys, steps: seq<Step>, n: nat)
    requires Initial(s)
    ensures var t := Run(s, steps);
            && (forall i, j | 0 <= i < j < |t.taken| :: t.taken[i] <= t.taken[j])
            && multiset(t.taken)[n] == TornRows(s, steps)[n] + if WhollyTaken(t.disk, |s.disk.rows|, n) then 1 else 0
  {
    StartIsSound(s);
    RunKeepsTaken(s, steps, |s.disk.rows|, multiset{});
    assert multiset{} + TornRows(s, steps) == TornRows(s, steps);
  }

  // ------------------------------------------ once in part, and once wholly

  /** A success is counted by the part of an application that was made, and not taken back by the rest. */
  predicate CountsAgain(a: Auto, kind: Phase, o: Outcome, made: nat) {
    && o.Success?
    && (|| (kind.Continuation? && (a.continuationSuccesses + 1 >= SUCCESSES_PER_TIER ==> made >= 3))
        || (kind.FreshSearch? && (a.freshSuccesses + 1 >= SUCCESSES_PER_TIER ==> made >= 3)))
  }

  lemma ContinuationTwice(a: Auto, o: Outcome, session: Session, made: nat)
    requires a.continuationIndex < |CONTINUATION_SECONDS| && 0 < made <= |ContinuationWrites(a, o, session)|
    requires ContinuationWrites(a, o, session)[made - 1].continuationIndex < |CONTINUATION_SECONDS|
    ensures ContinuationOutcome(ContinuationWrites(a, o, session)[made - 1], o, session) == ContinuationOutcome(a, o, session)
            <==> !CountsAgain(a, Continuation, o, made)
  {
  }

  lemma FreshTwice(a: Auto, o: Outcome, made: nat)
    requires a.freshIndex < |FRESH_SECONDS| && 0 < made <= |FreshWrites(a, o)|
    requires FreshWrites(a, o)[made - 1].freshIndex < |FRESH_SECONDS|
    ensures FreshOutcome(FreshWrites(a, o)[made - 1], o) == FreshOutcome(a, o) <==> !CountsAgain(a, FreshSearch, o, made)
  {
  }

  lemma ProbeTwice(a: Auto, kind: Phase, o: Outcome, session: Session, made: nat)
    requires (kind.Recovery? || kind.SessionRefresh?) && 0 < made <= |Body(a, kind, o, session)|
    ensures ApplyOutcome(Body(a, kind, o, session)[made - 1], kind, o, session) == ApplyOutcome(a, kind, o, session)
  {
  }

  /**
   * An application cut short after `made` writes, and then made whole, comes to what one would have
   * come to if and only if it does not count a success again: before a third success
   * is cleared away the whole application makes up for the part, afterwards it counts as one more.
   */
  lemma TornThenWhole(a: Auto, kind: Phase, o: Outcome, session: Session, made: nat)
    requires CanApply(a, kind) && !kind.Complete? && 0 < made <= |Body(a, kind, o, session)|
    requires CanApply(Body(a, kind, o, session)[made - 1], kind)
    ensures ApplyOutcome(Body(a, kind, o, session)[made - 1], kind, o, session) == ApplyOutcome(a, kind, o, session)
            <==> !CountsAgain(a, kind, o, made)
  {
    match kind
    case Continuation => ContinuationTwice(a, o, session, made);
    case FreshSearch => FreshTwice(a, o, made);
    case Recovery => ProbeTwice(a, kind, o, session, made);
    case SessionRefresh => ProbeTwice(a, kind, o, session, made);
  }
}
