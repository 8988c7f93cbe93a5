/** How the passes of the history import follow each other: HEAD passes at regular distances, incremental ones short. */
module HistoryPasses {
  import opened Options
  import opened HistoryDb
  import opened HistoryRuns
  import opened HistoryProgress

  function AtLeastOne(n: nat): nat {
    if n == 0 then 1 else n
  }

  // ------------------------------------------------------ the first pages

  /** A HEAD pass asks for the first page, an incremental one for one of the first few. */
  predicate FirstPages(limits: Limits, c: Cursor) {
    && (c.pass.Head? ==> c.incrementalToken.None?)
    && c.incrementalIndex < AtLeastOne(limits.incrementalPages)
    && (c.pass.IncrementalPass? ==> IndexOf(c.incrementalToken) <= c.incrementalIndex)
  }

  /** Page after page in order: the next page of the answer is the one after the page asked for. */
  predicate NextIsNext(c: Cursor) {
    c.phase.Messages? && c.pendingNext.Some? ==> c.pendingNext.value == IndexOf(ListCursor(c)) + 1
  }

  ghost predicate FirstOnes(p: Provider, limits: Limits, s: Sys) {
    Inv(p, s) && FirstPages(limits, s.db.job.cursor) && NextIsNext(s.db.job.cursor)
  }

  lemma StepKeepsFirstOnes(p: Provider, limits: Limits, s: Sys, step: Step)
    requires ValidProvider(p) && FirstOnes(p, limits, s)
    ensures FirstOnes(p, limits, Apply(p, limits, s, step))
  {
    ApplyKeepsInv(p, limits, s, step);
    match step
    case CommitList(e, _) => if e in s.workers { assert WorkerOk(p, s.db, e, s.workers[e]); }
    case CommitAdvance(e, now) => if e in s.workers { assert WorkerOk(p, s.db, e, s.workers[e]); }
    case _ =>
  }

  lemma {:induction false} RunKeepsFirstOnes(p: Provider, limits: Limits, s: Sys, steps: seq<Step>)
    requires ValidProvider(p) && FirstOnes(p, limits, s)
    ensures FirstOnes(p, limits, Run(p, limits, s, steps))
    decreases |steps|
  {
    if steps != [] {
      StepKeepsFirstOnes(p, limits, s, steps[0]);
      RunKeepsFirstOnes(p, limits, Apply(p, limits, s, steps[0]), steps[1..]);
    }
  }

  /** Over any run: a HEAD pass always lists the first page, and an incremental pass no page beyond its limit. */
  lemma PassesListFirstPages(p: Provider, limits: Limits, s: Sys, steps: seq<Step>)
    requires ValidProvider(p) && Initial(s)
    ensures var c := Run(p, limits, s, steps).db.job.cursor;
            && (c.pass.Head? ==> IndexOf(ListCursor(c)) == 0)
            && (c.pass.IncrementalPass? ==> IndexOf(ListCursor(c)) < AtLeastOne(limits.incrementalPages))
  {
    RunKeepsFirstOnes(p, limits, s, steps);
  }

  /** An answer of the provider for the page the job is at. */
  predicate Answered(p: Provider, c: Cursor) {
    var i := IndexOf(ListCursor(c));
    c.phase.Messages? && c.pendingNext == NextOf(i, |p.pages|) && c.pendingHasMore == Some(i + 1 < |p.pages|)
  }

  /** An incremental pass goes on to the very next page exactly while there is one within the limit; else the job is complete. */
  lemma IncrementalGoesOnExactly(p: Provider, limits: Limits, s: Sys, e: Owner, now: int)
    requires Inv(p, s) && e in s.workers && s.workers[e].Advancing? && Owns(s.db.job, e)
    requires s.db.job.cursor.pass.IncrementalPass? && Answered(p, s.db.job.cursor)
    ensures var (c, t) := (s.db.job.cursor, Apply(p, limits, s, CommitAdvance(e, now)).db.job);
            var i := IndexOf(c.incrementalToken);
            && t.cursor.phase.List? && t.cursor.pass.IncrementalPass? && t.lease.None? && t.cursor.pageSequence == c.pageSequence + 1
            && (if i + 1 < |p.pages| && c.incrementalIndex + 1 < limits.incrementalPages
                then t.cursor.incrementalToken == Some(i + 1) && t.cursor.incrementalIndex == c.incrementalIndex + 1 && t.state == s.db.job.state
                else t.state.Complete? && t.cursor.incrementalToken.None? && t.cursor.incrementalIndex == 0)
  {
    assert WorkerOk(p, s.db, e, s.workers[e]);
  }

  // -------------------------------------------------------- HEAD passes

  predicate Regular(limits: Limits, c: Cursor) {
    c.initialCompletedAt.None? ==>
      if c.pass.Head? then c.pagesSinceHead == AtLeastOne(limits.headEvery) else c.pagesSinceHead < AtLeastOne(limits.headEvery)
  }

  lemma StepKeepsRegular(p: Provider, limits: Limits, s: Sys, step: Step)
    requires ValidProvider(p) && Inv(p, s) && Regular(limits, s.db.job.cursor) && !step.HandleError?
    ensures Regular(limits, Apply(p, limits, s, step).db.job.cursor)
  {
    match step
    case Claim(e, now) => if e in s.workers { assert WorkerOk(p, s.db, e, s.workers[e]); }
    case CommitAdvance(e, now) => if e in s.workers { assert WorkerOk(p, s.db, e, s.workers[e]); }
    case _ =>
  }

  /** As long as no cursor is given up: a HEAD pass comes after every so many pages of the backfill, and only then. */
  lemma {:induction false} HeadsAreRegular(p: Provider, limits: Limits, s: Sys, steps: seq<Step>)
    requires ValidProvider(p) && Inv(p, s) && Regular(limits, s.db.job.cursor) && forall i | 0 <= i < |steps| :: !steps[i].HandleError?
    ensures Regular(limits, Run(p, limits, s, steps).db.job.cursor)
    decreases |steps|
  {
    if steps != [] {
      StepKeepsRegular(p, limits, s, steps[0]);
      ApplyKeepsInv(p, limits, s, steps[0]);
      HeadsAreRegular(p, limits, Apply(p, limits, s, steps[0]), steps[1..]);
    }
  }

  /** A finished page of the backfill counts once towards the next HEAD pass, which starts the count anew. */
  lemma PagesCount(p: Provider, limits: Limits, s: Sys, e: Owner, now: int)
    requires Inv(p, s) && e in s.workers && s.workers[e].Advancing? && Owns(s.db.job, e) && !MissingContinuation(s.db.job.cursor)
    requires s.db.job.cursor.initialCompletedAt.None? && !Finished(Apply(p, limits, s, CommitAdvance(e, now)).db)
    ensures var (c, d) := (s.db.job.cursor, Apply(p, limits, s, CommitAdvance(e, now)).db.job.cursor);
            && d.pagesSinceHead == (if c.pass.Head? then 0 else c.pagesSinceHead + 1)
            && (d.pass.Head? ==> c.pass.Backfill?)
  {
    assert WorkerOk(p, s.db, e, s.workers[e]);
  }

  // ------------------------------------------------ after the backfill

  /** A complete import is taken up again, at its first page, whatever its cursor was left at. */
  lemma CompleteStartsOver(p: Provider, limits: Limits, s: Sys)
    requires s.db.job.state.Complete? && s.db.job.cursor.mode.Incremental?
    ensures var (e, t) := (s.nextOwner, Run(p, limits, s, TakeSteps(s)));
            && t.db.job.state == JobState.Running && Owns(t.db.job, e) && e in t.workers && t.workers[e].Listing?
            && t.workers[e].read == t.db.job.cursor && t.db.job.cursor.pass.IncrementalPass?
            && IndexOf(ListCursor(t.db.job.cursor)) == 0 && t.db.job.cursor.incrementalIndex == 0
            && t.db.job.cursor.initialCompletedAt == s.db.job.cursor.initialCompletedAt
  {
    var (e, now) := (s.nextOwner, LeaseEnd(s.db.job));
    var (a, b, c) := (Look(now), Claim(e, now), Read(e));
    assert TakeSteps(s) == [a, b] + [c];
    RunInTwo(p, limits, s, [a, b], [c]);
    RunOfTwo(p, limits, s, a, b);
    CompleteIsClaimed(p, limits, s);
    var claimed := Apply(p, limits, Apply(p, limits, s, a), b);
    RunOfTwo(p, limits, claimed, c, c);
  }

  lemma CompleteIsClaimed(p: Provider, limits: Limits, s: Sys)
    requires s.db.job.state.Complete? && s.db.job.cursor.mode.Incremental?
    ensures var (e, now) := (s.nextOwner, LeaseEnd(s.db.job));
            var t := Apply(p, limits, Apply(p, limits, s, Look(now)), Claim(e, now));
            && t.db.job.state == JobState.Running && Owns(t.db.job, e) && e in t.workers && t.workers[e] == Worker.Claimed
            && t.db.job.cursor == s.db.job.cursor.(pass := IncrementalPass, phase := List, incrementalToken := None, incrementalIndex := 0)
  {
  }

  /** The operator's request for new messages queues a pass from the first page, once the backfill is complete. */
  lemma RequestQueuesPass(p: Provider, limits: Limits, s: Sys)
    ensures var t := Apply(p, limits, s, Operate(DoRunIncremental)).db;
            if s.db.job.cursor.initialCompletedAt.None? then t == s.db
            else t.job.state == JobState.Queued && t.job.lease.None? && t.job.cursor.phase.List? && t.job.cursor.pass.IncrementalPass?
                 && IndexOf(ListCursor(t.job.cursor)) == 0 && t.job.cursor.incrementalIndex == 0
                 && t.works == s.db.works && t.imported == s.db.imported
  {
  }

  /** When the backfill was complete is never rewritten. */
  lemma {:induction false} CompletionStays(p: Provider, limits: Limits, s: Sys, steps: seq<Step>)
    requires ValidProvider(p) && Inv(p, s) && s.db.job.cursor.initialCompletedAt.Some?
    ensures Run(p, limits, s, steps).db.job.cursor.initialCompletedAt == s.db.job.cursor.initialCompletedAt
    decreases |steps|
  {
    if steps != [] {
      StepKeepsCompletion(p, limits, s, steps[0]);
      ApplyKeepsInv(p, limits, s, steps[0]);
      CompletionStays(p, limits, Apply(p, limits, s, steps[0]), steps[1..]);
    }
  }

  lemma StepKeepsCompletion(p: Provider, limits: Limits, s: Sys, step: Step)
    requires ValidProvider(p) && Inv(p, s) && s.db.job.cursor.initialCompletedAt.Some?
    ensures Apply(p, limits, s, step).db.job.cursor.initialCompletedAt == s.db.job.cursor.initialCompletedAt
  {
    match step
    case CommitAdvance(e, now) => if e in s.workers { assert WorkerOk(p, s.db, e, s.workers[e]); }
    case _ =>
  }

  // ---------------------------------------------------- errors and pauses

  /** A lease lasts two minutes: until then nobody else finds the job, and afterwards somebody may. */
  lemma LeaseKeepsOthersOut(p: Provider, limits: Limits, s: Sys, e: Owner, now: int, later: int)
    requires e in s.workers && s.workers[e].Looking? && Claimable(s.db.job, now)
    ensures var t := Apply(p, limits, s, Claim(e, now));
            Owns(t.db.job, e) && (LookForJob(t, later) == t <==> later < now + 120_000)
  {
  }

  /** Nobody finds the job to claim, at any time. */
  ghost predicate OutOfReach(s: Sys) {
    forall now :: LookForJob(s, now) == s
  }

  /** A temporary failure gives the lease back and leaves the job to be taken again; a fatal one, and a pause, take it off. */
  lemma FailuresAndPauses(p: Provider, limits: Limits, s: Sys, e: Owner)
    ensures e in s.workers && s.workers[e].Failing? && s.workers[e].failure.Fatal? ==>
              OutOfReach(Apply(p, limits, s, HandleError(e))) && Apply(p, limits, s, HandleError(e)).db.job.lease.None?
    ensures e in s.workers && s.workers[e].Failing? && s.workers[e].failure.Temporary? ==>
              var t := Apply(p, limits, s, HandleError(e));
              t.db.job.cursor == s.db.job.cursor && Workable(t.db) && forall now :: LookForJob(t, now) != t
    ensures OutOfReach(Apply(p, limits, s, Operate(DoPause)))
    ensures var t := Apply(p, limits, s, Operate(DoStart(true)));
            Workable(t.db) && t.db.job.cursor == s.db.job.cursor && forall now :: LookForJob(t, now) != t
  {
  }
}
