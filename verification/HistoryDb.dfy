/**
 * The persistent history import: one job row, the staged conversations of each
 * listed page, and the message pages imported so far.  One function is one
 * transaction.
 *
 * The provider's listing is a chain of pages; a page token is the index of its
 * page, and no token stands for the first page.
 */
module HistoryDb {
  import opened Options

  type ConversationId = nat
  type Owner = nat
  type Token = Option<nat>

  datatype JobState = Queued | Running | BackingOff | Paused | Complete | Failed
  datatype Mode = InitialBackfill | Incremental
  datatype Pass = Backfill | Head | IncrementalPass
  datatype Phase = List | Messages

  /** Where the job is: everything a claimed run reads and later writes back. */
  datatype Cursor = Cursor(
    mode: Mode, pass: Pass, phase: Phase,
    backfillToken: Token, incrementalToken: Token,
    pendingNext: Token, pendingHasMore: Option<bool>,
    pageSequence: nat, pagesSinceHead: nat, incrementalIndex: nat,
    initialCompletedAt: Option<int>)

  datatype Lease = Lease(owner: Owner, expiresAt: int)
  datatype Job = Job(state: JobState, cursor: Cursor, lease: Option<Lease>)

  datatype WorkKey = WorkKey(pageSequence: nat, conversation: ConversationId)
  datatype WorkState = Pending | Running | Complete
  datatype Work = Work(state: WorkState, token: Token)

  datatype MessagePage = MessagePage(conversation: ConversationId, index: nat)

  datatype Db = Db(job: Job, works: map<WorkKey, Work>, imported: set<MessagePage>)

  datatype Provider = Provider(pages: seq<seq<ConversationId>>, messagePages: map<ConversationId, nat>)

  datatype Limits = Limits(headEvery: nat, incrementalPages: nat)

  const RUN_LEASE_MS: int := 120_000

  ghost predicate ValidProvider(p: Provider) {
    && |p.pages| > 0
    && (forall i, c | 0 <= i < |p.pages| && c in p.pages[i] :: c in p.messagePages)
    && (forall c | c in p.messagePages :: p.messagePages[c] > 0)
  }

  function IndexOf(t: Token): nat {
    if t.Some? then t.value else 0
  }

  function PageAt(p: Provider, i: nat): seq<ConversationId> {
    if i < |p.pages| then p.pages[i] else []
  }

  function NextOf(i: nat, count: nat): Token {
    if i + 1 < count then Some(i + 1) else None
  }

  function ListCursor(c: Cursor): Token {
    if c.pass.Backfill? then c.backfillToken else c.incrementalToken
  }

  predicate Owns(job: Job, owner: Owner) {
    job.lease.Some? && job.lease.value.owner == owner
  }

  // ----------------------------------------------------------------- claim

  predicate Claimable(job: Job, now: int) {
    && (job.state.Queued? || job.state.Running? || job.state.BackingOff? || job.state.Complete?)
    && (job.lease.None? || job.lease.value.expiresAt <= now)
  }

  /** `sawComplete` is what the candidate query read, which may be out of date by now. */
  function ClaimJob(db: Db, owner: Owner, sawComplete: bool, now: int): Db
    requires Claimable(db.job, now)
  {
    var c := db.job.cursor;
    db.(job := Job(JobState.Running,
                   if sawComplete then c.(pass := IncrementalPass, phase := List, incrementalToken := None, incrementalIndex := 0)
                   else c,
                   Some(Lease(owner, now + RUN_LEASE_MS))))
  }

  // ------------------------------------------------------------- one page

  function Staged(works: map<WorkKey, Work>, pageSequence: nat, page: seq<ConversationId>): (next: map<WorkKey, Work>)
    ensures forall k | k in works :: k in next && next[k] == works[k]
    ensures forall c | c in page :: WorkKey(pageSequence, c) in next
    ensures forall k | k in next && k !in works ::
              k.pageSequence == pageSequence && k.conversation in page && next[k] == Work(Pending, None)
    decreases |page|
  {
    if page == [] then works
    else
      var k := WorkKey(pageSequence, page[0]);
      Staged(if k in works then works else works[k := Work(Pending, None)], pageSequence, page[1..])
  }

  /** The conversations are staged whoever holds the lease; the job moves only for its owner. */
  function StagePage(db: Db, owner: Owner, read: Cursor, page: seq<ConversationId>, next: Token, hasMore: bool): Db {
    var staged := db.(works := Staged(db.works, read.pageSequence, page));
    if !Owns(db.job, owner) then staged
    else staged.(job := db.job.(
      cursor := db.job.cursor.(phase := Messages, pendingNext := next, pendingHasMore := Some(hasMore)), lease := None))
  }

  function ImportPage(db: Db, owner: Owner, k: WorkKey, index: nat, next: Token): Db
    requires k in db.works
  {
    Db(if Owns(db.job, owner) then db.job.(lease := None) else db.job,
       db.works[k := if next.Some? then Work(WorkState.Running, next) else Work(WorkState.Complete, None)],
       db.imported + {MessagePage(k.conversation, index)})
  }

  predicate MissingContinuation(read: Cursor) {
    read.pass.Backfill? && read.pendingHasMore == Some(true) && read.pendingNext.None?
  }

  /** The cursor after every conversation of the page was imported. */
  function Advanced(read: Cursor, limits: Limits, now: int): Cursor
    requires !MissingContinuation(read)
  {
    var c := read.(pageSequence := read.pageSequence + 1, phase := List, pendingNext := None, pendingHasMore := None);
    var hasMore := read.pendingHasMore == Some(true);
    match read.pass
    case Head => c.(pass := Backfill, incrementalToken := None, pagesSinceHead := 0)
    case Backfill =>
      if hasMore then
        var since := read.pagesSinceHead + 1;
        var moved := c.(backfillToken := read.pendingNext, pagesSinceHead := since);
        if since >= limits.headEvery then moved.(pass := Head, incrementalToken := None) else moved
      else
        c.(mode := Incremental, pass := IncrementalPass, backfillToken := None, incrementalToken := None,
           initialCompletedAt := if read.initialCompletedAt.Some? then read.initialCompletedAt else Some(now))
    case IncrementalPass =>
      if hasMore && read.pendingNext.Some? && read.incrementalIndex + 1 < limits.incrementalPages
      then c.(incrementalToken := read.pendingNext, incrementalIndex := read.incrementalIndex + 1)
      else c.(incrementalToken := None, incrementalIndex := 0)
  }

  predicate Finishes(read: Cursor, limits: Limits) {
    match read.pass
    case Head => false
    case Backfill => read.pendingHasMore != Some(true)
    case IncrementalPass =>
      !(read.pendingHasMore == Some(true) && read.pendingNext.Some? && read.incrementalIndex + 1 < limits.incrementalPages)
  }

  function AdvancePage(db: Db, owner: Owner, read: Cursor, limits: Limits, now: int): Db
    requires !MissingContinuation(read)
  {
    if !Owns(db.job, owner) then db
    else db.(job := Job(if Finishes(read, limits) then JobState.Complete else db.job.state, Advanced(read, limits, now), None))
  }

  // ---------------------------------------------------------------- errors

  /** Only the cursors and the page's own staging are given up; what was imported stays. */
  function Recover(db: Db, read: Cursor): Db {
    var c := db.job.cursor;
    db.(works := map k | k in db.works && k.pageSequence != read.pageSequence :: db.works[k],
        job := Job(JobState.Queued,
                   c.(pass := if read.mode.InitialBackfill? then Backfill else IncrementalPass, phase := List,
                      backfillToken := None, incrementalToken := None, pendingNext := None, pendingHasMore := None,
                      pageSequence := c.pageSequence + 1),
                   None))
  }

  function Stop(db: Db, state: JobState): Db {
    db.(job := db.job.(state := state, lease := None))
  }

  // -------------------------------------------------------------- operator

  function Pause(db: Db): Db {
    db.(job := db.job.(state := Paused))
  }

  function Start(db: Db, sawFailed: bool): Db {
    db.(job := Job(JobState.Queued, db.job.cursor, if sawFailed then None else db.job.lease))
  }

  function RunIncremental(db: Db): Db {
    if db.job.cursor.initialCompletedAt.None? then db
    else db.(job := Job(JobState.Queued,
                        db.job.cursor.(mode := Incremental, pass := IncrementalPass, phase := List,
                                       incrementalToken := None, incrementalIndex := 0),
                        None))
  }
}
