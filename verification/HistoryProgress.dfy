/**
 * What the history import gets done: a listed page is followed by its messages, every undisturbed turn
 * of a worker comes closer to the end of the backfill, and from where it can still be finished.
 */
module HistoryProgress {
  import opened Options
  import opened FiniteSets
  import opened HistoryDb
  import opened HistoryRuns

  // ---------------------------------------------------------- a worker's turn

  /** Some state in which a worker may take the job, as soon as the last lease is over. */
  predicate Workable(db: Db) {
    db.job.state.Queued? || db.job.state.Running? || db.job.state.BackingOff?
  }

  predicate Finished(db: Db) {
    db.job.cursor.initialCompletedAt.Some?
  }

  /** A page of the backfill whose continuation is missing. */
  predicate Stuck(c: Cursor) {
    c.pass.Backfill? && c.phase.Messages? && c.pendingHasMore == Some(true) && c.pendingNext.None?
  }

  function LeaseEnd(job: Job): int {
    if job.lease.Some? then job.lease.value.expiresAt else 0
  }

  function TakeSteps(s: Sys): seq<Step> {
    [Look(LeaseEnd(s.db.job)), Claim(s.nextOwner, LeaseEnd(s.db.job)), Read(s.nextOwner)]
  }

  /** What an undisturbed worker does in one turn; `c` is the conversation it picks if there is work. */
  function TurnSteps(s: Sys, c: ConversationId): seq<Step> {
    var e := s.nextOwner;
    TakeSteps(s) +
    if s.db.job.cursor.phase.List? then [CommitList(e, false)]
    else if NoWork(s.db, s.db.job.cursor.pageSequence) then [FindNoWork(e), CommitAdvance(e, LeaseEnd(s.db.job))]
    else [Pick(e, c), CommitMessages(e)]
  }

  /** The picked conversation has work left, if any has. */
  predicate PicksWork(s: Sys, c: ConversationId) {
    s.db.job.cursor.phase.Messages? && !NoWork(s.db, s.db.job.cursor.pageSequence) ==>
      Unfinished(s.db, WorkKey(s.db.job.cursor.pageSequence, c))
  }

  lemma {:induction false} RunInTwo(p: Provider, limits: Limits, s: Sys, a: seq<Step>, b: seq<Step>)
    ensures Run(p, limits, s, a + b) == Run(p, limits, Run(p, limits, s, a), b)
    decreases |a|
  {
    if a == [] {
      assert a + b == b;
    } else {
      assert (a + b)[0] == a[0] && (a + b)[1..] == a[1..] + b;
      RunInTwo(p, limits, Apply(p, limits, s, a[0]), a[1..], b);
    }
  }

  lemma RunOfTwo(p: Provider, limits: Limits, s: Sys, a: Step, b: Step)
    ensures Run(p, limits, s, [a]) == Apply(p, limits, s, a)
    ensures Run(p, limits, s, [a, b]) == Apply(p, limits, Apply(p, limits, s, a), b)
  {
    assert [a][1..] == [] && [a, b][1..] == [b];
    assert Run(p, limits, Apply(p, limits, s, a), [b]) == Apply(p, limits, Apply(p, limits, s, a), b);
  }

  /** The worker holds the lease, on the cursor as it was. */
  function Taken(s: Sys): Sys {
    var e := s.nextOwner;
    var c := s.db.job.cursor;
    Sys(s.db.(job := Job(JobState.Running, c, Some(Lease(e, LeaseEnd(s.db.job) + RUN_LEASE_MS)))),
        s.workers[e := if c.phase.List? then Listing(c) else Picking(c)], e + 1)
  }

  lemma TurnTakes(p: Provider, limits: Limits, s: Sys)
    requires Workable(s.db)
    ensures Run(p, limits, s, TakeSteps(s)) == Taken(s)
  {
    var (e, now) := (s.nextOwner, LeaseEnd(s.db.job));
    var (a, b, c) := (Look(now), Claim(e, now), Read(e));
    assert TakeSteps(s) == [a, b] + [c];
    RunInTwo(p, limits, s, [a, b], [c]);
    RunOfTwo(p, limits, s, a, b);
    var looked := Apply(p, limits, s, a);
    assert looked.workers == s.workers[e := Looking(false)];
    var claimed := Apply(p, limits, looked, b);
    assert claimed.workers == s.workers[e := Claimed] by {
      assert s.workers[e := Looking(false)][e := Claimed] == s.workers[e := Claimed];
    }
    RunOfTwo(p, limits, claimed, c, c);
    assert Apply(p, limits, claimed, c).workers == Taken(s).workers;
  }

  /** After its owner's listing the page's conversations are all staged, and the next worker picks from them. */
  lemma ListingIsFollowed(p: Provider, limits: Limits, s: Sys, e: Owner, tokenMissing: bool)
    requires e in s.workers && s.workers[e].Listing? && Owns(s.db.job, e) && s.workers[e].read == s.db.job.cursor && Workable(s.db)
    ensures var (read, t) := (s.workers[e].read, Apply(p, limits, s, CommitList(e, tokenMissing)));
            && Workable(t.db) && t.db.job.lease.None?
            && (forall c | c in PageAt(p, IndexOf(ListCursor(read))) :: WorkKey(read.pageSequence, c) in t.db.works)
            && var next := Run(p, limits, t, TakeSteps(t));
               t.nextOwner in next.workers && next.workers[t.nextOwner].Picking?
               && next.workers[t.nextOwner].read.pageSequence == read.pageSequence
  {
    TurnTakes(p, limits, Apply(p, limits, s, CommitList(e, tokenMissing)));
  }

  // ----------------------------------------------------------- what is left

  /** The message pages of the current page of conversations that are still to be asked for. */
  ghost function Left(p: Provider, db: Db): set<(ConversationId, nat)> {
    set k, j: nat | k in db.works && k.pageSequence == db.job.cursor.pageSequence && !db.works[k].state.Complete?
                    && k.conversation in p.messagePages && IndexOf(db.works[k].token) <= j < p.messagePages[k.conversation]
      :: (k.conversation, j)
  }

  ghost function AllPages(p: Provider): set<(ConversationId, nat)> {
    set c, j: nat | c in p.messagePages && j < p.messagePages[c] :: (c, j)
  }

  /** How many message pages all listed conversations have. */
  ghost function Total(p: Provider): nat {
    |AllPages(p)|
  }

  lemma LeftIsBounded(p: Provider, db: Db)
    ensures |Left(p, db)| <= Total(p)
  {
    SubsetSize(Left(p, db), AllPages(p));
  }

  /** The pages of the backfill left, each with a HEAD pass before it, a listing and its messages. */
  ghost function Remaining(p: Provider, db: Db): nat
    requires IndexOf(db.job.cursor.backfillToken) <= |p.pages|
  {
    var c := db.job.cursor;
    (4 * (|p.pages| - IndexOf(c.backfillToken)) + (if c.pass.Head? then 2 else 0) + (if c.phase.List? then 1 else 0)) * (Total(p) + 1)
    + if c.phase.List? then 0 else |Left(p, db)|
  }

  ghost predicate Going(p: Provider, s: Sys) {
    Inv(p, s) && !Finished(s.db) && Workable(s.db) && !Stuck(s.db.job.cursor)
  }

  ghost function Turn(p: Provider, limits: Limits, s: Sys, c: ConversationId): Sys {
    Run(p, limits, s, TurnSteps(s, c))
  }

  lemma ListTurn(p: Provider, limits: Limits, s: Sys, c: ConversationId)
    requires ValidProvider(p) && Going(p, s) && s.db.job.cursor.phase.List?
    ensures var (t, cursor) := (Turn(p, limits, s, c).db, s.db.job.cursor);
            var i := IndexOf(ListCursor(cursor));
            && t.job.state.Running?
            && t.job.cursor == cursor.(phase := Messages, pendingNext := NextOf(i, |p.pages|), pendingHasMore := Some(i + 1 < |p.pages|))
  {
    TurnTakes(p, limits, s);
    RunInTwo(p, limits, s, TakeSteps(s), [CommitList(s.nextOwner, false)]);
    RunOfTwo(p, limits, Taken(s), CommitList(s.nextOwner, false), CommitList(s.nextOwner, false));
  }

  lemma MessageTurn(p: Provider, limits: Limits, s: Sys, c: ConversationId)
    requires ValidProvider(p) && Going(p, s) && s.db.job.cursor.phase.Messages?
    requires Unfinished(s.db, WorkKey(s.db.job.cursor.pageSequence, c))
    ensures var k := WorkKey(s.db.job.cursor.pageSequence, c);
            var j := IndexOf(s.db.works[k].token);
            var t := Turn(p, limits, s, c).db;
            && c in p.messagePages && t.job.state.Running? && t.job.cursor == s.db.job.cursor
            && t.works == s.db.works[k := if NextOf(j, p.messagePages[c]).Some? then Work(WorkState.Running, NextOf(j, p.messagePages[c]))
                                          else Work(WorkState.Complete, None)]
  {
    var (e, k) := (s.nextOwner, WorkKey(s.db.job.cursor.pageSequence, c));
    TurnTakes(p, limits, s);
    assert !NoWork(s.db, k.pageSequence);
    RunInTwo(p, limits, s, TakeSteps(s), [Pick(e, c), CommitMessages(e)]);
    RunOfTwo(p, limits, Taken(s), Pick(e, c), CommitMessages(e));
    assert WorkOk(p, s.db.imported, k, s.db.works[k]);
    assert Taken(s).db.works == s.db.works && Unfinished(Taken(s).db, k);
  }

  lemma MessageTurnLeavesLess(p: Provider, db: Db, next: Db, k: WorkKey)
    requires k in db.works && !db.works[k].state.Complete? && k.pageSequence == db.job.cursor.pageSequence && k.conversation in p.messagePages
    requires IndexOf(db.works[k].token) < p.messagePages[k.conversation] && next.job.cursor == db.job.cursor
    requires var (j, n) := (IndexOf(db.works[k].token), p.messagePages[k.conversation]);
             next.works == db.works[k := if NextOf(j, n).Some? then Work(WorkState.Running, NextOf(j, n)) else Work(WorkState.Complete, None)]
    ensures |Left(p, next)| < |Left(p, db)|
  {
    var j := IndexOf(db.works[k].token);
    assert (k.conversation, j) in Left(p, db);
    forall x | x in Left(p, next) ensures x in Left(p, db) && x != (k.conversation, j) {
      var l, i: nat :| l in next.works && l.pageSequence == next.job.cursor.pageSequence && !next.works[l].state.Complete?
                       && l.conversation in p.messagePages && IndexOf(next.works[l].token) <= i < p.messagePages[l.conversation]
                       && x == (l.conversation, i);
      assert l in db.works;
    }
    SubsetSize(Left(p, next), Left(p, db) - {(k.conversation, j)});
  }

  /** The end of a page: completion, the next page, a HEAD pass, or back from one. */
  lemma AdvanceTurn(p: Provider, limits: Limits, s: Sys, c: ConversationId)
    requires ValidProvider(p) && Going(p, s) && s.db.job.cursor.phase.Messages? && NoWork(s.db, s.db.job.cursor.pageSequence)
    ensures var (t, cursor) := (Turn(p, limits, s, c).db, s.db.job.cursor);
            && t.job.cursor.phase.List?
            && (cursor.pass.Head? ==> t.job.state.Running? && t.job.cursor.pass.Backfill? && t.job.cursor.backfillToken == cursor.backfillToken)
            && (cursor.pass.Backfill? && IndexOf(cursor.backfillToken) + 1 < |p.pages| ==>
                  t.job.state.Running? && t.job.cursor.backfillToken == Some(IndexOf(cursor.backfillToken) + 1))
            && (cursor.pass.Backfill? && IndexOf(cursor.backfillToken) + 1 == |p.pages| ==> Finished(t))
  {
    var (e, now) := (s.nextOwner, LeaseEnd(s.db.job));
    TurnTakes(p, limits, s);
    RunInTwo(p, limits, s, TakeSteps(s), [FindNoWork(e), CommitAdvance(e, now)]);
    RunOfTwo(p, limits, Taken(s), FindNoWork(e), CommitAdvance(e, now));
    assert NoWork(Taken(s).db, s.db.job.cursor.pageSequence);
  }

  lemma Less(a: nat, b: nat, total: nat, w: nat)
    requires a < b && w <= total
    ensures a * (total + 1) + w < b * (total + 1)
  {
    Grows(a + 1, b, total + 1);
    assert (a + 1) * (total + 1) == a * (total + 1) + (total + 1);
  }

  lemma {:induction false} Grows(a: nat, b: nat, n: nat)
    requires a <= b
    ensures a * n <= b * n
    decreases b - a
  {
    if a < b { Grows(a + 1, b, n); }
  }

  /** Every turn of a worker that nobody disturbs finishes the backfill or leaves less to do, whatever it picks. */
  lemma TurnGetsOn(p: Provider, limits: Limits, s: Sys, c: ConversationId)
    requires ValidProvider(p) && Going(p, s) && PicksWork(s, c)
    ensures var t := Turn(p, limits, s, c); Finished(t.db) || (Going(p, t) && Remaining(p, t.db) < Remaining(p, s.db))
  {
    var (t, cursor) := (Turn(p, limits, s, c), s.db.job.cursor);
    RunKeepsInv(p, limits, s, TurnSteps(s, c));
    LeftIsBounded(p, t.db);
    var n := |p.pages| - IndexOf(cursor.backfillToken);
    var head := if cursor.pass.Head? then 2 else 0;
    if cursor.phase.List? {
      ListTurn(p, limits, s, c);
      Less(4 * n + head, 4 * n + head + 1, Total(p), |Left(p, t.db)|);
    } else if NoWork(s.db, cursor.pageSequence) {
      AdvanceTurn(p, limits, s, c);
      if cursor.pass.Head? {
        Less(4 * n + 1, 4 * n + 2, Total(p), 0);
      } else if !Finished(t.db) {
        Less(4 * (n - 1) + 3, 4 * n, Total(p), 0);
        HeadOrNot(p, t.db, n - 1);
      }
    } else {
      MessageTurn(p, limits, s, c);
      var k := WorkKey(cursor.pageSequence, c);
      assert WorkOk(p, s.db.imported, k, s.db.works[k]);
      MessageTurnLeavesLess(p, s.db, t.db, k);
    }
  }

  lemma HeadOrNot(p: Provider, db: Db, n: nat)
    requires db.job.cursor.phase.List? && IndexOf(db.job.cursor.backfillToken) <= |p.pages|
    requires n == |p.pages| - IndexOf(db.job.cursor.backfillToken)
    ensures Remaining(p, db) <= (4 * n + 3) * (Total(p) + 1)
  {
    var head := if db.job.cursor.pass.Head? then 2 else 0;
    Grows(4 * n + head + 1, 4 * n + 3, Total(p) + 1);
  }

  // ------------------------------------------------------------- to the end

  /** Turn after turn, until the backfill is complete. */
  ghost function Turns(p: Provider, limits: Limits, s: Sys, picks: seq<ConversationId>): Sys
    decreases |picks|
  {
    if picks == [] || Finished(s.db) then s else Turns(p, limits, Turn(p, limits, s, picks[0]), picks[1..])
  }

  ghost predicate AllPickWork(p: Provider, limits: Limits, s: Sys, picks: seq<ConversationId>)
    decreases |picks|
  {
    picks == [] || Finished(s.db) || (PicksWork(s, picks[0]) && AllPickWork(p, limits, Turn(p, limits, s, picks[0]), picks[1..]))
  }

  /** Enough undisturbed turns finish the backfill, whatever conversations they pick. */
  lemma {:induction false} EnoughTurnsFinish(p: Provider, limits: Limits, s: Sys, picks: seq<ConversationId>)
    requires ValidProvider(p) && Going(p, s) && AllPickWork(p, limits, s, picks) && |picks| > Remaining(p, s.db)
    ensures Finished(Turns(p, limits, s, picks).db)
    decreases |picks|
  {
    TurnGetsOn(p, limits, s, picks[0]);
    var t := Turn(p, limits, s, picks[0]);
    if !Finished(t.db) { EnoughTurnsFinish(p, limits, t, picks[1..]); }
  }

  lemma StartIsGoing(p: Provider, s: Sys)
    requires ValidProvider(p) && Initial(s)
    ensures Going(p, s) && Remaining(p, s.db) == (4 * |p.pages| + 1) * (Total(p) + 1)
  {
  }

  /** A new import is complete after so many turns at most, for every provider. */
  lemma NewImportFinishes(p: Provider, limits: Limits, s: Sys, picks: seq<ConversationId>)
    requires ValidProvider(p) && Initial(s) && AllPickWork(p, limits, s, picks) && |picks| > (4 * |p.pages| + 1) * (Total(p) + 1)
    ensures Finished(Turns(p, limits, s, picks).db)
  {
    StartIsGoing(p, s);
    EnoughTurnsFinish(p, limits, s, picks);
  }

  /** No error is met or handled, and an operator only starts a job that failed or was paused. */
  predicate Undisturbed(s: Sys, step: Step) {
    && !step.Err? && !step.HandleError?
    && (step.Operate? ==>
          step.operation == DoStart(s.db.job.state.Failed?) && (s.db.job.state.Failed? || s.db.job.state.Paused?))
  }

  ghost predicate AllUndisturbed(p: Provider, limits: Limits, s: Sys, steps: seq<Step>)
    decreases |steps|
  {
    steps == [] || (Undisturbed(s, steps[0]) && AllUndisturbed(p, limits, Apply(p, limits, s, steps[0]), steps[1..]))
  }

  ghost predicate CanFinish(p: Provider, limits: Limits, s: Sys) {
    exists steps :: AllUndisturbed(p, limits, s, steps) && Finished(Run(p, limits, s, steps).db)
  }

  lemma {:induction false} UndisturbedInTwo(p: Provider, limits: Limits, s: Sys, a: seq<Step>, b: seq<Step>)
    requires AllUndisturbed(p, limits, s, a) && AllUndisturbed(p, limits, Run(p, limits, s, a), b)
    ensures AllUndisturbed(p, limits, s, a + b)
    decreases |a|
  {
    if a == [] {
      assert a + b == b;
    } else {
      assert (a + b)[0] == a[0] && (a + b)[1..] == a[1..] + b;
      UndisturbedInTwo(p, limits, Apply(p, limits, s, a[0]), a[1..], b);
    }
  }

  lemma {:induction false} WorkIsUndisturbed(p: Provider, limits: Limits, s: Sys, steps: seq<Step>)
    requires forall i | 0 <= i < |steps| :: !steps[i].Err? && !steps[i].HandleError? && !steps[i].Operate?
    ensures AllUndisturbed(p, limits, s, steps)
    decreases |steps|
  {
    if steps != [] { WorkIsUndisturbed(p, limits, Apply(p, limits, s, steps[0]), steps[1..]); }
  }

  lemma LaterCanFinish(p: Provider, limits: Limits, s: Sys, first: seq<Step>)
    requires AllUndisturbed(p, limits, s, first) && CanFinish(p, limits, Run(p, limits, s, first))
    ensures CanFinish(p, limits, s)
  {
    var t := Run(p, limits, s, first);
    var rest :| AllUndisturbed(p, limits, t, rest) && Finished(Run(p, limits, t, rest).db);
    RunInTwo(p, limits, s, first, rest);
    UndisturbedInTwo(p, limits, s, first, rest);
  }

  lemma {:induction false} GoingCanFinish(p: Provider, limits: Limits, s: Sys)
    requires ValidProvider(p) && Going(p, s)
    ensures CanFinish(p, limits, s)
    decreases Remaining(p, s.db)
  {
    var n := s.db.job.cursor.pageSequence;
    var c: ConversationId := 0;
    if s.db.job.cursor.phase.Messages? && !NoWork(s.db, n) {
      var k :| k in s.db.works && k.pageSequence == n && !s.db.works[k].state.Complete?;
      c := k.conversation;
      assert k == WorkKey(n, c);
    }
    TurnGetsOn(p, limits, s, c);
    var t := Turn(p, limits, s, c);
    if Finished(t.db) {
      assert Run(p, limits, t, []) == t && AllUndisturbed(p, limits, t, []);
      assert CanFinish(p, limits, t);
    } else {
      GoingCanFinish(p, limits, t);
    }
    WorkIsUndisturbed(p, limits, s, TurnSteps(s, c));
    LaterCanFinish(p, limits, s, TurnSteps(s, c));
  }

  // ------------------------------------------------- a missing continuation

  lemma StuckStays(p: Provider, limits: Limits, s: Sys, step: Step)
    requires ValidProvider(p) && Inv(p, s) && !Finished(s.db) && Stuck(s.db.job.cursor) && !step.HandleError?
    ensures var t := Apply(p, limits, s, step); !Finished(t.db) && t.db.job.cursor == s.db.job.cursor
  {
    match step
    case Claim(e, now) => if e in s.workers { assert WorkerOk(p, s.db, e, s.workers[e]); }
    case CommitList(e, _) => if e in s.workers { assert WorkerOk(p, s.db, e, s.workers[e]); }
    case CommitAdvance(e, now) => if e in s.workers { assert WorkerOk(p, s.db, e, s.workers[e]); }
    case _ =>
  }

  lemma {:induction false} StuckForGood(p: Provider, limits: Limits, s: Sys, steps: seq<Step>)
    requires ValidProvider(p) && Inv(p, s) && !Finished(s.db) && Stuck(s.db.job.cursor) && AllUndisturbed(p, limits, s, steps)
    ensures !Finished(Run(p, limits, s, steps).db)
    decreases |steps|
  {
    if steps != [] {
      StuckStays(p, limits, s, steps[0]);
      ApplyKeepsInv(p, limits, s, steps[0]);
      StuckForGood(p, limits, Apply(p, limits, s, steps[0]), steps[1..]);
    }
  }

  /** A failed or paused job is set going by its operator. */
  lemma OperatorSetsGoing(p: Provider, limits: Limits, s: Sys)
    requires ValidProvider(p) && Inv(p, s) && !Finished(s.db) && !Stuck(s.db.job.cursor) && !Workable(s.db)
    ensures var first := [Operate(DoStart(s.db.job.state.Failed?))];
            AllUndisturbed(p, limits, s, first) && Going(p, Run(p, limits, s, first))
  {
    var step := Operate(DoStart(s.db.job.state.Failed?));
    RunOfTwo(p, limits, s, step, step);
    ApplyKeepsInv(p, limits, s, step);
    assert AllUndisturbed(p, limits, Apply(p, limits, s, step), []);
  }

  /**
   * Wherever errors, crashes, expired leases and operators have brought an unfinished import: without meeting another
   * error it can still be finished if and only if it is not at a page whose continuation the provider left out.
   */
  lemma CanFinishExactly(p: Provider, limits: Limits, start: Sys, before: seq<Step>)
    requires ValidProvider(p) && Initial(start) && !Finished(Run(p, limits, start, before).db)
    ensures var s := Run(p, limits, start, before); CanFinish(p, limits, s) <==> !Stuck(s.db.job.cursor)
  {
    RunKeepsInv(p, limits, start, before);
    var s := Run(p, limits, start, before);
    if Stuck(s.db.job.cursor) {
      forall steps | AllUndisturbed(p, limits, s, steps) ensures !Finished(Run(p, limits, s, steps).db) {
        StuckForGood(p, limits, s, steps);
      }
    } else if Workable(s.db) {
      GoingCanFinish(p, limits, s);
    } else {
      OperatorSetsGoing(p, limits, s);
      var first := [Operate(DoStart(s.db.job.state.Failed?))];
      GoingCanFinish(p, limits, Run(p, limits, s, first));
      LaterCanFinish(p, limits, s, first);
    }
  }
}
