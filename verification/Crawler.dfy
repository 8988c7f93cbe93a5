/**
 * The creator crawler: a job whose lease one worker holds at a time, partitions
 * with a provider cursor, and a receipt per requested page.
 *
 * One function is one transaction.  Which partition a worker asks next is left
 * open here; what the job's pointer adds is in `CrawlerPointer`.
 */
module Crawler {
  import opened Options
  import opened FiniteSets

  type Owner = nat
  type PartitionId = nat
  type CreatorId = nat
  type Token = string
  type SearchKey = string

  // The request token of the first page of a search.
  const FIRST: Token := "FIRST"

  datatype Cursor = Cursor(token: Option<Token>, searchKey: Option<SearchKey>, pagesCompleted: nat)
  datatype Partition = Partition(cursor: Cursor, rows: nat, unique: nat, duplicates: nat, exhausted: bool)

  datatype PageKey = PageKey(partition: PartitionId, requestToken: Token)
  datatype PageState = Received | Committed
  datatype Page = Page(
    state: PageState, pageNumber: nat, next: Option<Token>, searchKey: SearchKey, hasMore: bool,
    returned: nat, unique: nat, duplicates: nat, persisted: bool)

  datatype Job = Job(leaseOwner: Option<Owner>, current: Option<PartitionId>, pagesCompleted: nat, fetched: nat)

  /** `sheet` is the spreadsheet outside: the pages whose creators it shows. */
  datatype Db = Db(job: Job, partitions: map<PartitionId, Partition>, pages: map<PageKey, Page>, sheet: set<PageKey>)

  datatype Response = Response(creators: seq<CreatorId>, next: Option<Token>, hasMore: bool, searchKey: Option<SearchKey>)

  function RequestToken(c: Cursor): Token {
    if c.token.Some? then c.token.value else FIRST
  }

  function KeyOf(p: PartitionId, c: Cursor): PageKey {
    PageKey(p, RequestToken(c))
  }

  function Ids(creators: seq<CreatorId>): set<CreatorId> {
    set c | c in creators
  }

  lemma {:induction false} FewerIds(creators: seq<CreatorId>)
    ensures |Ids(creators)| <= |creators|
  {
    if creators != [] {
      FewerIds(creators[1..]);
      assert Ids(creators) == {creators[0]} + Ids(creators[1..]);
    }
  }

  /** Distinct creators of the page that were not stored when it was staged. */
  function NewCount(creators: seq<CreatorId>, known: set<CreatorId>): (n: nat)
    ensures n <= |creators|
  {
    FewerIds(creators);
    var unseen := Ids(creators) - known;
    assert unseen <= Ids(creators);
    SubsetSize(unseen, Ids(creators));
    |unseen|
  }

  /** A response the worker does not refuse as a cursor error. */
  predicate Acceptable(asked: Cursor, r: Response) {
    && (r.hasMore ==> r.next.Some?)
    && !(asked.token.Some? && r.next == asked.token)
    && (asked.searchKey.Some? || r.searchKey.Some?)
  }

  function NewPage(asked: Cursor, r: Response, known: set<CreatorId>): Page
    requires Acceptable(asked, r)
  {
    var unique := NewCount(r.creators, known);
    Page(Received, asked.pagesCompleted + 1, r.next,
         if asked.searchKey.Some? then asked.searchKey.value else r.searchKey.value,
         r.hasMore, |r.creators|, unique, |r.creators| - unique, false)
  }

  /** A page staged before stays as it was staged: the lease is not asked. */
  function StagePage(db: Db, p: PartitionId, asked: Cursor, r: Response, known: set<CreatorId>): Db
    requires Acceptable(asked, r)
  {
    var k := KeyOf(p, asked);
    if k in db.pages then db else db.(pages := db.pages[k := NewPage(asked, r, known)])
  }

  function Applied(row: Partition, page: Page): Partition {
    Partition(
      Cursor(if page.hasMore then page.next else None, Some(page.searchKey), row.cursor.pagesCompleted + 1),
      row.rows + page.returned, row.unique + page.unique, row.duplicates + page.duplicates, !page.hasMore)
  }

  /** The page, its partition and the job move together, and only for the owner of the lease. */
  function CommitPage(db: Db, owner: Owner, k: PageKey): Db
    requires k in db.pages && k.partition in db.partitions
  {
    var page := db.pages[k];
    if db.job.leaseOwner != Some(owner) then db
    else
      db.(
        pages := db.pages[k := page.(state := Committed)],
        partitions := db.partitions[k.partition := Applied(db.partitions[k.partition], page)],
        job := if db.job.current != Some(k.partition) then db.job
               else Job(None, if page.hasMore then db.job.current else None,
                        db.job.pagesCompleted + 1, db.job.fetched + page.returned))
  }

  // ------------------------------------------------------------- the workers

  datatype Worker =
    | Claimed
    | Selected(partition: PartitionId, asked: Cursor)
    | Responded(partition: PartitionId, asked: Cursor, response: Response)
    | Staged(key: PageKey)
    | Committing(key: PageKey, persisted: bool, written: bool)
    | Failing

  /**
   * `order` and `missed` only remember, for the proofs: the request tokens of a
   * partition in the order they were committed, and how many commits found the
   * job's pointer on another partition.
   */
  datatype Sys = Sys(
    db: Db, workers: map<Owner, Worker>, nextOwner: Owner, order: map<PartitionId, seq<Token>>, missed: nat)

  datatype Step =
    | Claim
    | TakePending(owner: Owner, key: PageKey)
    | Select(owner: Owner, partition: PartitionId)
    | PointAt(owner: Owner, partition: PartitionId)
    | Release
    | Respond(owner: Owner, response: Response)
    | Stage(owner: Owner, known: set<CreatorId>)
    | ReadStaged(owner: Owner)
    | Persist(owner: Owner)
    | WriteSheet(owner: Owner)
    | Commit(owner: Owner)
    | Err(owner: Owner)
    | HandleError(owner: Owner)
    | Crash(owner: Owner)
    | AddPartition(partition: PartitionId)

  function With(s: Sys, e: Owner, w: Worker): Sys {
    s.(workers := s.workers[e := w])
  }

  function Gone(s: Sys, e: Owner): Sys {
    s.(workers := s.workers - {e})
  }

  /** The lease may have expired at any time, so a claim may come at any time. */
  function ClaimJob(s: Sys): Sys {
    With(s, s.nextOwner, Claimed).(
      db := s.db.(job := s.db.job.(leaseOwner := Some(s.nextOwner))), nextOwner := s.nextOwner + 1)
  }

  function SelectPartition(s: Sys, e: Owner, p: PartitionId): Sys {
    if e in s.workers && s.workers[e].Claimed? && p in s.db.partitions
    then With(s, e, Selected(p, s.db.partitions[p].cursor)) else s
  }

  function PointJob(s: Sys, e: Owner, p: PartitionId): Sys {
    if s.db.job.leaseOwner == Some(e) then s.(db := s.db.(job := s.db.job.(current := Some(p)))) else s
  }

  function ReadPage(s: Sys, e: Owner, k: PageKey): Sys {
    if k in s.db.pages && s.db.pages[k].state.Received? then With(s, e, Committing(k, s.db.pages[k].persisted, false)) else s
  }

  function TakePendingPage(s: Sys, e: Owner, k: PageKey): Sys {
    if e in s.workers && s.workers[e].Claimed? then ReadPage(s, e, k) else s
  }

  function SeeResponse(s: Sys, e: Owner, r: Response): Sys {
    if e in s.workers && s.workers[e].Selected? && Acceptable(s.workers[e].asked, r)
    then With(s, e, Responded(s.workers[e].partition, s.workers[e].asked, r)) else s
  }

  function StageResponse(s: Sys, e: Owner, known: set<CreatorId>): Sys {
    if e in s.workers && s.workers[e].Responded? && Acceptable(s.workers[e].asked, s.workers[e].response) then
      var w := s.workers[e];
      With(s, e, Staged(KeyOf(w.partition, w.asked))).(db := StagePage(s.db, w.partition, w.asked, w.response, known))
    else s
  }

  function PersistCreators(s: Sys, e: Owner): Sys {
    if e in s.workers && s.workers[e].Committing? && s.workers[e].key in s.db.pages then
      var w := s.workers[e];
      With(s, e, w.(persisted := true)).(
        db := s.db.(pages := s.db.pages[w.key := s.db.pages[w.key].(persisted := true)]))
    else s
  }

  function WritePage(s: Sys, e: Owner): Sys {
    if e in s.workers && s.workers[e].Committing? && s.workers[e].persisted
    then With(s, e, s.workers[e].(written := true)).(db := s.db.(sheet := s.db.sheet + {s.workers[e].key})) else s
  }

  function OrderOf(s: Sys, p: PartitionId): seq<Token> {
    if p in s.order then s.order[p] else []
  }

  function CommitStep(s: Sys, e: Owner): Sys {
    if e in s.workers && s.workers[e].Committing? && s.workers[e].written
       && s.workers[e].key in s.db.pages && s.workers[e].key.partition in s.db.partitions
    then
      var k := s.workers[e].key;
      var next := Gone(s, e).(db := CommitPage(s.db, e, k));
      if s.db.job.leaseOwner != Some(e) then next
      else next.(order := s.order[k.partition := OrderOf(s, k.partition) + [k.requestToken]],
                 missed := if s.db.job.current == Some(k.partition) then s.missed else s.missed + 1)
    else s
  }

  /** An error is handled only by the owner of the lease, but written down unconditionally later. */
  function ErrStep(s: Sys, e: Owner): Sys {
    if e !in s.workers then s
    else if s.db.job.leaseOwner == Some(e) then With(s, e, Failing) else Gone(s, e)
  }

  function HandleErrorStep(s: Sys, e: Owner): Sys {
    if e in s.workers && s.workers[e].Failing? then Gone(s, e).(db := s.db.(job := s.db.job.(leaseOwner := None))) else s
  }

  const FreshPartition := Partition(Cursor(None, None, 0), 0, 0, 0, false)

  /** Initialization and the splits of `expandReadyBranches` add partitions. */
  function AddRow(s: Sys, p: PartitionId): Sys {
    if p in s.db.partitions then s else s.(db := s.db.(partitions := s.db.partitions[p := FreshPartition]))
  }

  function Apply(s: Sys, step: Step): Sys {
    match step
    case Claim => ClaimJob(s)
    case TakePending(e, k) => TakePendingPage(s, e, k)
    case Select(e, p) => SelectPartition(s, e, p)
    case PointAt(e, p) => PointJob(s, e, p)
    case Release => s.(db := s.db.(job := s.db.job.(current := None)))
    case Respond(e, r) => SeeResponse(s, e, r)
    case Stage(e, known) => StageResponse(s, e, known)
    case ReadStaged(e) => if e in s.workers && s.workers[e].Staged? then ReadPage(s, e, s.workers[e].key) else s
    case Persist(e) => PersistCreators(s, e)
    case WriteSheet(e) => WritePage(s, e)
    case Commit(e) => CommitStep(s, e)
    case Err(e) => ErrStep(s, e)
    case HandleError(e) => HandleErrorStep(s, e)
    case Crash(e) => Gone(s, e)
    case AddPartition(p) => AddRow(s, p)
  }

  function Run(s: Sys, steps: seq<Step>): Sys
    decreases |steps|
  {
    if steps == [] then s else Run(Apply(s, steps[0]), steps[1..])
  }

  predicate Initial(s: Sys) {
    && s.workers == map[] && s.order == map[] && s.missed == 0
    && s.db.pages == map[] && s.db.partitions == map[] && s.db.job.pagesCompleted == 0 && s.db.job.fetched == 0
    && s.db.job.leaseOwner.None? && s.db.job.current.None?
  }
}
