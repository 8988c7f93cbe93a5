/**
 * Any number of history workers, whose leases expire under them, crashes, errors,
 * cursor recoveries and operators, freely interleaved over one provider chain.
 */
module HistoryRuns {
  import opened Options
  import opened HistoryDb

  datatype Failure = CursorInvalid | Temporary | Fatal

  /** What a worker holds between two transactions. */
  datatype Worker =
    | Looking(sawComplete: bool)
    | Claimed
    | Listing(read: Cursor)
    | Picking(read: Cursor)
    | Fetching(read: Cursor, key: WorkKey, index: nat)
    | Advancing(read: Cursor)
    | Failing(read: Cursor, failure: Failure)

  datatype Sys = Sys(db: Db, workers: map<Owner, Worker>, nextOwner: Owner)

  datatype Operation = DoPause | DoStart(sawFailed: bool) | DoRunIncremental

  datatype Step =
    | Look(now: int)
    | Claim(owner: Owner, now: int)
    | Read(owner: Owner)
    | Pick(owner: Owner, conversation: ConversationId)
    | FindNoWork(owner: Owner)
    | CommitList(owner: Owner, tokenMissing: bool)
    | CommitMessages(owner: Owner)
    | CommitAdvance(owner: Owner, now: int)
    | Err(owner: Owner, failure: Failure)
    | HandleError(owner: Owner)
    | Crash(owner: Owner)
    | Operate(operation: Operation)

  function With(s: Sys, e: Owner, w: Worker): Sys {
    s.(workers := s.workers[e := w])
  }

  function Gone(s: Sys, e: Owner, db: Db): Sys {
    s.(workers := s.workers - {e}, db := db)
  }

  function LookForJob(s: Sys, now: int): Sys {
    if Claimable(s.db.job, now) && !(s.db.job.state.Complete? && !s.db.job.cursor.mode.Incremental?)
    then With(s, s.nextOwner, Looking(s.db.job.state.Complete?)).(nextOwner := s.nextOwner + 1) else s
  }

  function ClaimStep(s: Sys, e: Owner, now: int): Sys {
    if e in s.workers && s.workers[e].Looking? then
      if Claimable(s.db.job, now)
      then With(s, e, Claimed).(db := ClaimJob(s.db, e, s.workers[e].sawComplete, now))
      else Gone(s, e, s.db)
    else s
  }

  /** A worker that lost its lease before it read the job ends without a write. */
  function ReadStep(s: Sys, e: Owner): Sys {
    if e in s.workers && s.workers[e].Claimed? then
      if !Owns(s.db.job, e) then Gone(s, e, s.db)
      else if s.db.job.cursor.phase.List? then With(s, e, Listing(s.db.job.cursor))
      else With(s, e, Picking(s.db.job.cursor))
    else s
  }

  predicate Unfinished(db: Db, k: WorkKey) {
    k in db.works && !db.works[k].state.Complete?
  }

  function PickStep(s: Sys, e: Owner, conversation: ConversationId): Sys {
    if e in s.workers && s.workers[e].Picking? then
      var k := WorkKey(s.workers[e].read.pageSequence, conversation);
      if Unfinished(s.db, k) then With(s, e, Fetching(s.workers[e].read, k, IndexOf(s.db.works[k].token))) else s
    else s
  }

  predicate NoWork(db: Db, pageSequence: nat) {
    forall k | k in db.works && k.pageSequence == pageSequence :: db.works[k].state.Complete?
  }

  function FindNoWorkStep(s: Sys, e: Owner): Sys {
    if e in s.workers && s.workers[e].Picking? && NoWork(s.db, s.workers[e].read.pageSequence)
    then With(s, e, Advancing(s.workers[e].read)) else s
  }

  /** A malformed answer says there is more and gives no token. */
  function ListStep(p: Provider, s: Sys, e: Owner, tokenMissing: bool): Sys {
    if e in s.workers && s.workers[e].Listing? then
      var read := s.workers[e].read;
      var i := IndexOf(ListCursor(read));
      var next := if tokenMissing then None else NextOf(i, |p.pages|);
      Gone(s, e, StagePage(s.db, e, read, PageAt(p, i), next, tokenMissing || next.Some?))
    else s
  }

  /** A staged row deleted meanwhile makes the transaction fail as a whole. */
  function MessageStep(p: Provider, s: Sys, e: Owner): Sys {
    if e in s.workers && s.workers[e].Fetching? && s.workers[e].key in s.db.works then
      var w := s.workers[e];
      var count := if w.key.conversation in p.messagePages then p.messagePages[w.key.conversation] else 0;
      Gone(s, e, ImportPage(s.db, e, w.key, w.index, NextOf(w.index, count)))
    else s
  }

  function AdvanceStep(limits: Limits, s: Sys, e: Owner, now: int): Sys {
    if e in s.workers && s.workers[e].Advancing? && !MissingContinuation(s.workers[e].read)
    then Gone(s, e, AdvancePage(s.db, e, s.workers[e].read, limits, now)) else s
  }

  /** An error is handled only by the owner of the lease, found before it is written down. */
  function ErrStep(s: Sys, e: Owner, failure: Failure): Sys {
    if e !in s.workers || s.workers[e].Looking? || s.workers[e].Failing? then s
    else if !Owns(s.db.job, e) then Gone(s, e, s.db)
    else if failure.CursorInvalid? && ListCursor(s.db.job.cursor).None? then s
    else With(s, e, Failing(s.db.job.cursor, failure))
  }

  function HandleStep(s: Sys, e: Owner): Sys {
    if e in s.workers && s.workers[e].Failing? then
      match s.workers[e].failure
      case CursorInvalid => Gone(s, e, Recover(s.db, s.workers[e].read))
      case Temporary => Gone(s, e, Stop(s.db, BackingOff))
      case Fatal => Gone(s, e, Stop(s.db, JobState.Failed))
    else s
  }

  function OperateStep(s: Sys, o: Operation): Sys {
    match o
    case DoPause => s.(db := Pause(s.db))
    case DoStart(sawFailed) => s.(db := Start(s.db, sawFailed))
    case DoRunIncremental => s.(db := RunIncremental(s.db))
  }

  function Apply(p: Provider, limits: Limits, s: Sys, step: Step): Sys {
    match step
    case Look(now) => LookForJob(s, now)
    case Claim(e, now) => ClaimStep(s, e, now)
    case Read(e) => ReadStep(s, e)
    case Pick(e, c) => PickStep(s, e, c)
    case FindNoWork(e) => FindNoWorkStep(s, e)
    case CommitList(e, tokenMissing) => ListStep(p, s, e, tokenMissing)
    case CommitMessages(e) => MessageStep(p, s, e)
    case CommitAdvance(e, now) => AdvanceStep(limits, s, e, now)
    case Err(e, failure) => ErrStep(s, e, failure)
    case HandleError(e) => HandleStep(s, e)
    case Crash(e) => Gone(s, e, s.db)
    case Operate(o) => OperateStep(s, o)
  }

  function Run(p: Provider, limits: Limits, s: Sys, steps: seq<Step>): Sys
    decreases |steps|
  {
    if steps == [] then s else Run(p, limits, Apply(p, limits, s, steps[0]), steps[1..])
  }

  const FreshCursor := Cursor(InitialBackfill, Backfill, List, None, None, None, None, 0, 0, 0, None)

  predicate Initial(s: Sys) {
    s.db == Db(Job(JobState.Queued, FreshCursor, None), map[], s.db.imported) && s.workers == map[]
  }

  // ------------------------------------------------------------- invariant

  /** The first `n` message pages of a conversation are stored. */
  ghost predicate Has(imported: set<MessagePage>, c: ConversationId, n: nat) {
    forall i | 0 <= i < n :: MessagePage(c, i) in imported
  }

  ghost predicate HasAll(p: Provider, imported: set<MessagePage>, c: ConversationId) {
    c in p.messagePages && Has(imported, c, p.messagePages[c])
  }

  ghost predicate PageDone(p: Provider, imported: set<MessagePage>, i: nat) {
    forall c | c in PageAt(p, i) :: HasAll(p, imported, c)
  }

  /** Every conversation on the first `n` pages of the chain is wholly stored. */
  ghost predicate DoneBefore(p: Provider, imported: set<MessagePage>, n: nat) {
    forall i | 0 <= i < n :: PageDone(p, imported, i)
  }

  ghost predicate WorkOk(p: Provider, imported: set<MessagePage>, k: WorkKey, w: Work) {
    && k.conversation in p.messagePages
    && if w.state.Complete? then HasAll(p, imported, k.conversation)
       else IndexOf(w.token) < p.messagePages[k.conversation] && Has(imported, k.conversation, IndexOf(w.token))
  }

  ghost predicate WorksOk(p: Provider, db: Db) {
    forall k | k in db.works :: WorkOk(p, db.imported, k, db.works[k]) && k.pageSequence <= db.job.cursor.pageSequence
  }

  ghost predicate CursorOk(p: Provider, imported: set<MessagePage>, c: Cursor) {
    if c.initialCompletedAt.Some? then DoneBefore(p, imported, |p.pages|)
    else
      && c.mode.InitialBackfill? && !c.pass.IncrementalPass? && c.incrementalToken.None?
      && IndexOf(c.backfillToken) < |p.pages| && DoneBefore(p, imported, IndexOf(c.backfillToken))
  }

  /** During the initial backfill a page under work is wholly staged, its continuation remembered, or known to be missing. */
  ghost predicate PendingOk(p: Provider, works: map<WorkKey, Work>, c: Cursor) {
    c.initialCompletedAt.None? && c.phase.Messages? ==>
      var i := IndexOf(ListCursor(c));
      && (|| (c.pendingNext == NextOf(i, |p.pages|) && c.pendingHasMore == Some(i + 1 < |p.pages|))
          || (c.pendingNext.None? && c.pendingHasMore == Some(true)))
      && (forall x | x in PageAt(p, i) :: WorkKey(c.pageSequence, x) in works)
  }

  ghost predicate DbOk(p: Provider, db: Db) {
    && (db.job.state.Complete? ==> db.job.cursor.initialCompletedAt.Some?)
    && WorksOk(p, db) && CursorOk(p, db.imported, db.job.cursor) && PendingOk(p, db.works, db.job.cursor)
  }

  /** What a worker remembers is still true if it still holds the lease. */
  ghost predicate WorkerOk(p: Provider, db: Db, e: Owner, w: Worker) {
    match w
    case Looking(sawComplete) => !Owns(db.job, e) && (sawComplete ==> db.job.cursor.initialCompletedAt.Some?)
    case Claimed => true
    case Listing(read) => ReadOk(p, db, e, read) && read.phase.List?
    case Picking(read) => ReadOk(p, db, e, read) && read.phase.Messages?
    case Fetching(read, k, index) =>
      && ReadOk(p, db, e, read) && k.conversation in p.messagePages
      && index < p.messagePages[k.conversation] && Has(db.imported, k.conversation, index)
    case Advancing(read) =>
      && ReadOk(p, db, e, read) && read.phase.Messages?
      && (Owns(db.job, e) && read.initialCompletedAt.None? ==> PageDone(p, db.imported, IndexOf(ListCursor(read))))
    case Failing(read, _) => read.pageSequence <= db.job.cursor.pageSequence && ReadModeOk(db, read)
  }

  ghost predicate ReadModeOk(db: Db, read: Cursor) {
    !read.mode.InitialBackfill? ==> db.job.cursor.initialCompletedAt.Some?
  }

  ghost predicate ReadOk(p: Provider, db: Db, e: Owner, read: Cursor) {
    && read.pageSequence <= db.job.cursor.pageSequence
    && (Owns(db.job, e) ==> read == db.job.cursor)
    && (read.initialCompletedAt.Some? ==> db.job.cursor.initialCompletedAt.Some?)
  }

  ghost predicate OwnersOk(s: Sys) {
    && (forall e | e in s.workers :: e < s.nextOwner)
    && (s.db.job.lease.Some? ==> s.db.job.lease.value.owner < s.nextOwner)
  }

  ghost predicate Inv(p: Provider, s: Sys) {
    DbOk(p, s.db) && OwnersOk(s) && forall e | e in s.workers :: WorkerOk(p, s.db, e, s.workers[e])
  }

  // ---------------------------------------------------- what a change keeps

  /** Nothing is forgotten, and a lease that is not `taken` anew still covers the same cursor. */
  ghost predicate Follows(db: Db, next: Db, taken: Owner) {
    && db.imported <= next.imported
    && db.job.cursor.pageSequence <= next.job.cursor.pageSequence
    && (db.job.cursor.initialCompletedAt.Some? ==> next.job.cursor.initialCompletedAt.Some?)
    && (next.job.lease.Some? && next.job.lease.value.owner != taken ==>
          db.job.lease.Some? && next.job.lease.value.owner == db.job.lease.value.owner && next.job.cursor == db.job.cursor)
  }

  lemma WorkerStaysOk(p: Provider, db: Db, next: Db, taken: Owner, e: Owner, w: Worker)
    requires Follows(db, next, taken) && WorkerOk(p, db, e, w) && e != taken
    ensures WorkerOk(p, next, e, w)
  {
  }

  /** One worker takes a step, or none (`e !in next.workers`); the others only see the tables change. */
  lemma StepKeepsInv(p: Provider, s: Sys, next: Sys, e: Owner)
    requires Inv(p, s) && DbOk(p, next.db) && Follows(s.db, next.db, e) && OwnersOk(next)
    requires forall o | o in next.workers && o != e :: o in s.workers && next.workers[o] == s.workers[o]
    requires e in next.workers ==> WorkerOk(p, next.db, e, next.workers[e])
    ensures Inv(p, next)
  {
    forall o | o in next.workers ensures WorkerOk(p, next.db, o, next.workers[o]) {
      if o != e { WorkerStaysOk(p, s.db, next.db, e, o, s.workers[o]); }
    }
  }

  lemma DoneStays(p: Provider, had: set<MessagePage>, has: set<MessagePage>, n: nat)
    requires had <= has && DoneBefore(p, had, n)
    ensures DoneBefore(p, has, n)
  {
    forall i | 0 <= i < n ensures PageDone(p, has, i) {
      assert PageDone(p, had, i);
    }
  }

  // ------------------------------------------------------------ the steps

  lemma LookKeepsInv(p: Provider, s: Sys, now: int)
    requires Inv(p, s)
    ensures Inv(p, LookForJob(s, now))
  {
    var next := LookForJob(s, now);
    if next.nextOwner > s.nextOwner { StepKeepsInv(p, s, next, s.nextOwner); }
  }

  lemma ClaimKeepsInv(p: Provider, s: Sys, e: Owner, now: int)
    requires Inv(p, s)
    ensures Inv(p, ClaimStep(s, e, now))
  {
    if e in s.workers && s.workers[e].Looking? {
      assert WorkerOk(p, s.db, e, s.workers[e]);
      StepKeepsInv(p, s, ClaimStep(s, e, now), e);
    }
  }

  lemma ReadKeepsInv(p: Provider, s: Sys, e: Owner)
    requires Inv(p, s)
    ensures Inv(p, ReadStep(s, e))
  {
    if e in s.workers && s.workers[e].Claimed? { StepKeepsInv(p, s, ReadStep(s, e), e); }
  }

  lemma PickKeepsInv(p: Provider, s: Sys, e: Owner, c: ConversationId)
    requires Inv(p, s)
    ensures Inv(p, PickStep(s, e, c))
  {
    if e in s.workers && s.workers[e].Picking? {
      var k := WorkKey(s.workers[e].read.pageSequence, c);
      if Unfinished(s.db, k) {
        assert WorkOk(p, s.db.imported, k, s.db.works[k]) && WorkerOk(p, s.db, e, s.workers[e]);
        StepKeepsInv(p, s, PickStep(s, e, c), e);
      }
    }
  }

  /** A page without unfinished work is wholly imported, if the lease still holds. */
  lemma NoWorkMeansDone(p: Provider, db: Db, e: Owner, read: Cursor)
    requires DbOk(p, db) && ReadOk(p, db, e, read) && NoWork(db, read.pageSequence) && read.phase.Messages?
    requires Owns(db.job, e) && read.initialCompletedAt.None?
    ensures PageDone(p, db.imported, IndexOf(ListCursor(read)))
  {
    forall c | c in PageAt(p, IndexOf(ListCursor(read))) ensures HasAll(p, db.imported, c) {
      var k := WorkKey(read.pageSequence, c);
      assert k in db.works && WorkOk(p, db.imported, k, db.works[k]);
    }
  }

  lemma FindNoWorkKeepsInv(p: Provider, s: Sys, e: Owner)
    requires Inv(p, s)
    ensures Inv(p, FindNoWorkStep(s, e))
  {
    if e in s.workers && s.workers[e].Picking? && NoWork(s.db, s.workers[e].read.pageSequence) {
      var read := s.workers[e].read;
      assert WorkerOk(p, s.db, e, s.workers[e]);
      if Owns(s.db.job, e) && read.initialCompletedAt.None? { NoWorkMeansDone(p, s.db, e, read); }
      StepKeepsInv(p, s, FindNoWorkStep(s, e), e);
    }
  }

  lemma StageKeepsDbOk(p: Provider, db: Db, e: Owner, read: Cursor, tokenMissing: bool)
    requires ValidProvider(p) && DbOk(p, db) && ReadOk(p, db, e, read)
    ensures var i := IndexOf(ListCursor(read));
            var next := if tokenMissing then None else NextOf(i, |p.pages|);
            DbOk(p, StagePage(db, e, read, PageAt(p, i), next, tokenMissing || next.Some?))
  {
  }

  lemma ListKeepsInv(p: Provider, s: Sys, e: Owner, tokenMissing: bool)
    requires ValidProvider(p) && Inv(p, s)
    ensures Inv(p, ListStep(p, s, e, tokenMissing))
  {
    if e in s.workers && s.workers[e].Listing? {
      assert WorkerOk(p, s.db, e, s.workers[e]);
      StageKeepsDbOk(p, s.db, e, s.workers[e].read, tokenMissing);
      StepKeepsInv(p, s, ListStep(p, s, e, tokenMissing), e);
    }
  }

  lemma ImportKeepsDbOk(p: Provider, db: Db, e: Owner, k: WorkKey, index: nat)
    requires ValidProvider(p) && DbOk(p, db) && k in db.works && k.conversation in p.messagePages
    requires index < p.messagePages[k.conversation] && Has(db.imported, k.conversation, index)
    ensures DbOk(p, ImportPage(db, e, k, index, NextOf(index, p.messagePages[k.conversation])))
  {
    var next := ImportPage(db, e, k, index, NextOf(index, p.messagePages[k.conversation]));
    var c := db.job.cursor;
    DoneStays(p, db.imported, next.imported, if c.initialCompletedAt.Some? then |p.pages| else IndexOf(c.backfillToken));
    assert Has(next.imported, k.conversation, index + 1);
    assert WorksOk(p, next);
  }

  lemma MessagesKeepInv(p: Provider, s: Sys, e: Owner)
    requires ValidProvider(p) && Inv(p, s)
    ensures Inv(p, MessageStep(p, s, e))
  {
    if e in s.workers && s.workers[e].Fetching? && s.workers[e].key in s.db.works {
      assert WorkerOk(p, s.db, e, s.workers[e]);
      ImportKeepsDbOk(p, s.db, e, s.workers[e].key, s.workers[e].index);
      StepKeepsInv(p, s, MessageStep(p, s, e), e);
    }
  }

  lemma AdvanceKeepsDbOk(p: Provider, limits: Limits, db: Db, e: Owner, read: Cursor, now: int)
    requires ValidProvider(p) && DbOk(p, db) && read == db.job.cursor && read.phase.Messages? && !MissingContinuation(read)
    requires read.initialCompletedAt.None? ==> PageDone(p, db.imported, IndexOf(ListCursor(read)))
    ensures DbOk(p, AdvancePage(db, e, read, limits, now))
  {
    var i := IndexOf(read.backfillToken);
    if read.initialCompletedAt.None? && read.pass.Backfill? {
      assert DoneBefore(p, db.imported, i + 1);
    }
  }

  lemma AdvanceKeepsInv(p: Provider, limits: Limits, s: Sys, e: Owner, now: int)
    requires ValidProvider(p) && Inv(p, s)
    ensures Inv(p, AdvanceStep(limits, s, e, now))
  {
    if e in s.workers && s.workers[e].Advancing? && !MissingContinuation(s.workers[e].read) {
      assert WorkerOk(p, s.db, e, s.workers[e]);
      if Owns(s.db.job, e) { AdvanceKeepsDbOk(p, limits, s.db, e, s.workers[e].read, now); }
      StepKeepsInv(p, s, AdvanceStep(limits, s, e, now), e);
    }
  }

  lemma ErrKeepsInv(p: Provider, s: Sys, e: Owner, failure: Failure)
    requires Inv(p, s)
    ensures Inv(p, ErrStep(s, e, failure))
  {
    if e in s.workers { StepKeepsInv(p, s, ErrStep(s, e, failure), e); }
  }

  lemma RecoverKeepsDbOk(p: Provider, db: Db, read: Cursor)
    requires ValidProvider(p) && DbOk(p, db) && ReadModeOk(db, read)
    ensures DbOk(p, Recover(db, read))
  {
  }

  lemma HandleKeepsInv(p: Provider, s: Sys, e: Owner)
    requires ValidProvider(p) && Inv(p, s)
    ensures Inv(p, HandleStep(s, e))
  {
    if e in s.workers && s.workers[e].Failing? {
      assert WorkerOk(p, s.db, e, s.workers[e]);
      RecoverKeepsDbOk(p, s.db, s.workers[e].read);
      StepKeepsInv(p, s, HandleStep(s, e), e);
    }
  }

  lemma OperateKeepsInv(p: Provider, s: Sys, o: Operation)
    requires Inv(p, s)
    ensures Inv(p, OperateStep(s, o))
  {
    StepKeepsInv(p, s.(nextOwner := s.nextOwner + 1), OperateStep(s, o).(nextOwner := s.nextOwner + 1), s.nextOwner);
  }

  lemma ApplyKeepsInv(p: Provider, limits: Limits, s: Sys, step: Step)
    requires ValidProvider(p) && Inv(p, s)
    ensures Inv(p, Apply(p, limits, s, step))
  {
    match step
    case Look(now) => LookKeepsInv(p, s, now);
    case Claim(e, now) => ClaimKeepsInv(p, s, e, now);
    case Read(e) => ReadKeepsInv(p, s, e);
    case Pick(e, c) => PickKeepsInv(p, s, e, c);
    case FindNoWork(e) => FindNoWorkKeepsInv(p, s, e);
    case CommitList(e, tokenMissing) => ListKeepsInv(p, s, e, tokenMissing);
    case CommitMessages(e) => MessagesKeepInv(p, s, e);
    case CommitAdvance(e, now) => AdvanceKeepsInv(p, limits, s, e, now);
    case Err(e, failure) => ErrKeepsInv(p, s, e, failure);
    case HandleError(e) => HandleKeepsInv(p, s, e);
    case Crash(e) => StepKeepsInv(p, s, Gone(s, e, s.db), e);
    case Operate(o) => OperateKeepsInv(p, s, o);
  }

  lemma {:induction false} RunKeepsInv(p: Provider, limits: Limits, s: Sys, steps: seq<Step>)
    requires ValidProvider(p) && Inv(p, s)
    ensures Inv(p, Run(p, limits, s, steps))
    decreases |steps|
  {
    if steps != [] {
      ApplyKeepsInv(p, limits, s, steps[0]);
      RunKeepsInv(p, limits, Apply(p, limits, s, steps[0]), steps[1..]);
    }
  }

  /**
   * Once the initial backfill counts as complete, every message page of every
   * conversation on the chain is stored; and at any time before that, the same
   * holds for all pages before the saved backfill cursor.
   */
  lemma BackfillIsComplete(p: Provider, limits: Limits, s: Sys, steps: seq<Step>, i: nat, c: ConversationId, j: nat)
    requires ValidProvider(p) && Initial(s)
    requires i < |p.pages| && c in p.pages[i] && j < p.messagePages[c]
    ensures var t := Run(p, limits, s, steps).db;
            t.job.cursor.initialCompletedAt.Some? || i < IndexOf(t.job.cursor.backfillToken) ==> MessagePage(c, j) in t.imported
  {
    RunKeepsInv(p, limits, s, steps);
    var t := Run(p, limits, s, steps).db;
    if t.job.cursor.initialCompletedAt.Some? || i < IndexOf(t.job.cursor.backfillToken) {
      assert PageDone(p, t.imported, i);
      assert HasAll(p, t.imported, c);
    }
  }

  /**
   * Before completion the backfill cursor moves only when a BACKFILL page was
   * finished, and then to the very next page, or when an invalid cursor is given
   * up, and then back to the first page.  A HEAD pass returns to it unchanged.
   */
  lemma CursorMovesPageByPage(p: Provider, limits: Limits, s: Sys, step: Step)
    requires ValidProvider(p) && Inv(p, s) && s.db.job.cursor.initialCompletedAt.None?
    ensures var (before, after) := (s.db.job.cursor, Apply(p, limits, s, step).db.job.cursor);
            || after.backfillToken == before.backfillToken
            || (step.HandleError? && after.backfillToken.None?)
            || (step.CommitAdvance? && before.pass.Backfill?
                && after.backfillToken == NextOf(IndexOf(before.backfillToken), |p.pages|)
                && (after.backfillToken.None? ==> after.initialCompletedAt.Some?))
  {
    ApplyKeepsInv(p, limits, s, step);
    match step
    case CommitAdvance(e, now) => if e in s.workers { assert WorkerOk(p, s.db, e, s.workers[e]); }
    case _ =>
  }
}
