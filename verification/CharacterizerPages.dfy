/** How far the experiment pages: a continuation asks for the next page of its search, and never beyond the twentieth. */
module CharacterizerPages {
  import opened Options
  import opened Characterizer
  import opened CharacterizerRuns

  predicate Asks(a: Auto) {
    a.pending.Some? ==> 1 <= a.pending.value.page <= 20
  }

  ghost predicate PagesOk(s: Sys, start: nat) {
    && start <= |s.disk.rows| && Asks(s.disk.auto)
    && (forall i | start <= i < |s.disk.rows| :: 1 <= s.disk.rows[i].page <= 20)
  }

  /** The next page while the search can go on; a new search, or a probe, asks for the first. */
  lemma NextPageIsAsked(a: Auto, requests: nat, session: Session)
    requires a.pending.None? && !a.phase.Complete?
    ensures var b := Prepare(a, requests, session);
            if a.phase.Continuation? then
              if session.resumable && session.page < 20
              then b.pending.Some? && b.pending.value.page == session.page + 1 && b.phase == a.phase
              else b.pending.None? && b.phase.SessionRefresh?
            else b.pending.Some? && b.pending.value.page == 1 && b.phase == a.phase
  {
  }

  lemma ApplyingKeepsPages(s: Sys, p: Process, start: nat)
    requires Sound(s) && PagesOk(s, start) && s.process == Some(p) && p.stage.Applying?
    ensures PagesOk(AdvanceApplying(s, p), start)
  {
    InsideIsSaved(s.disk, p);
  }

  lemma ReadyKeepsPages(s: Sys, p: Process, start: nat)
    requires Sound(s) && PagesOk(s, start) && s.process == Some(p) && p.stage.Ready?
    ensures PagesOk(AdvanceReady(s, p), start)
  {
    if p.auto.pending.None? && !p.auto.phase.Complete? { NextPageIsAsked(p.auto, |s.disk.rows|, p.session); }
  }

  lemma InterruptKeepsPages(s: Sys, p: Process, inRequest: bool, start: nat)
    requires Sound(s) && PagesOk(s, start) && s.process == Some(p)
    ensures PagesOk(InterruptStep(s, p, inRequest), start)
  {
    if p.stage.Applying? { InsideIsSaved(s.disk, p); }
  }

  lemma StepKeepsPages(s: Sys, step: Step, start: nat)
    requires Sound(s) && PagesOk(s, start)
    ensures PagesOk(Apply(s, step), start)
  {
    if s.process.Some? {
      var p := s.process.value;
      match step
      case Advance => if p.stage.Applying? { ApplyingKeepsPages(s, p, start); } else if p.stage.Ready? { ReadyKeepsPages(s, p, start); }
      case Interrupt(inRequest) => InterruptKeepsPages(s, p, inRequest, start);
      case _ =>
    }
  }

  lemma {:induction false} RunKeepsPages(s: Sys, steps: seq<Step>, start: nat)
    requires Sound(s) && PagesOk(s, start)
    ensures PagesOk(Run(s, steps), start)
    decreases |steps|
  {
    if steps != [] {
      StepKeepsSound(s, steps[0]);
      StepKeepsPages(s, steps[0], start);
      RunKeepsPages(Apply(s, steps[0]), steps[1..], start);
    }
  }

  /** Over any invocations, interrupts and kills, whatever session was saved before. */
  lemma NoPageBeyondTwenty(s: Sys, steps: seq<Step>, i: nat)
    requires Initial(s) && |s.disk.rows| <= i < |Run(s, steps).disk.rows|
    ensures 1 <= Run(s, steps).disk.rows[i].page <= 20
  {
    StartIsSound(s);
    RunKeepsPages(s, steps, |s.disk.rows|);
  }

  // --------------------------------------------------- an uncertain request

  /** The saved state says that a request's outcome is not known, or that the experiment is over; nothing else is at work. */
  ghost predicate Refuses(s: Sys) {
    && (s.disk.auto.phase.Complete? || (s.disk.auto.pending.Some? && s.disk.auto.pending.value.uncertain))
    && (s.process.Some? ==> s.process.value.stage.Ready? && s.process.value.auto == s.disk.auto)
  }

  lemma StepRefuses(s: Sys, step: Step)
    requires Refuses(s)
    ensures Refuses(Apply(s, step)) && Apply(s, step).sent == s.sent && Apply(s, step).disk.rows == s.disk.rows
  {
  }

  /** After an interrupt inside a request nothing is ever sent or logged again: the request is not repeated. */
  lemma {:induction false} UncertainIsNotRepeated(s: Sys, steps: seq<Step>)
    requires Refuses(s)
    ensures Run(s, steps).sent == s.sent && Run(s, steps).disk.rows == s.disk.rows
    decreases |steps|
  {
    if steps != [] {
      StepRefuses(s, steps[0]);
      UncertainIsNotRepeated(Apply(s, steps[0]), steps[1..]);
    }
  }

  lemma InterruptedIsUncertain(s: Sys, inRequest: bool)
    requires s.process.Some? && s.process.value.stage.Sending? && s.process.value.auto.pending.Some?
    ensures Refuses(Apply(s, Interrupt(inRequest)))
  {
  }

  /** The next invocation closes the experiment as incomplete, unless its tier is gone. */
  lemma UncertainIsClosed(s: Sys)
    requires s.process.None? && s.disk.auto.pending.Some? && s.disk.auto.pending.value.uncertain
    requires !s.disk.auto.phase.Complete? && InRange(s.disk.auto)
    ensures var t := Apply(Apply(s, Invoke), Advance); t.disk.auto.phase.Complete? && t.disk.auto.result.Incomplete? && t.sent == s.sent
  {
  }
}
