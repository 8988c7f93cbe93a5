/** Every staged page counts exactly once, in the order of the provider's cursor. */
module CrawlerRuns {
  import opened Options
  import opened Crawler

  // ------------------------------------------------------------- invariant

  ghost predicate InOrder(pages: map<PageKey, Page>, p: PartitionId, order: seq<Token>, i: nat)
    requires i < |order|
  {
    var k := PageKey(p, order[i]);
    k in pages && pages[k].state.Committed? && pages[k].pageNumber == i + 1
  }

  /** Page i + 1 was requested with the token, and under the search key, that page i returned. */
  ghost predicate Linked(pages: map<PageKey, Page>, p: PartitionId, order: seq<Token>, i: nat)
    requires i + 1 < |order| && InOrder(pages, p, order, i) && InOrder(pages, p, order, i + 1)
  {
    var (page, following) := (pages[PageKey(p, order[i])], pages[PageKey(p, order[i + 1])]);
    page.hasMore && page.next == Some(order[i + 1]) && following.searchKey == page.searchKey
  }

  ghost predicate Chain(pages: map<PageKey, Page>, p: PartitionId, order: seq<Token>) {
    && (forall i | 0 <= i < |order| :: InOrder(pages, p, order, i))
    && (forall i {:trigger Linked(pages, p, order, i)} | 0 <= i < |order| - 1 :: Linked(pages, p, order, i))
    && (order != [] ==> order[0] == FIRST)
  }

  /** The partition's cursor continues the last committed page. */
  ghost predicate Continues(pages: map<PageKey, Page>, p: PartitionId, row: Partition, order: seq<Token>)
    requires Chain(pages, p, order)
  {
    && row.cursor.pagesCompleted == |order|
    && (order == [] ==> row == FreshPartition)
    && (order != [] ==>
          assert InOrder(pages, p, order, |order| - 1);
          var last := pages[PageKey(p, order[|order| - 1])];
          && row.cursor.token == (if last.hasMore then last.next else None) && row.cursor.searchKey == Some(last.searchKey)
          && (last.hasMore ==> last.next.Some?) && row.exhausted == !last.hasMore)
  }

  function Returned(page: Page): nat { page.returned }
  function Unique(page: Page): nat { page.unique }

  function Sum(pages: map<PageKey, Page>, p: PartitionId, order: seq<Token>, of: Page -> nat): nat {
    if order == [] then 0
    else
      var k := PageKey(p, order[|order| - 1]);
      Sum(pages, p, order[..|order| - 1], of) + if k in pages then of(pages[k]) else 0
  }

  ghost predicate Counted(pages: map<PageKey, Page>, p: PartitionId, row: Partition, order: seq<Token>) {
    && row.rows == Sum(pages, p, order, Returned)
    && row.unique == Sum(pages, p, order, Unique)
    && row.rows == row.unique + row.duplicates
  }

  ghost predicate RowOk(pages: map<PageKey, Page>, p: PartitionId, row: Partition, order: seq<Token>) {
    Chain(pages, p, order) && Continues(pages, p, row, order) && Counted(pages, p, row, order)
  }

  /** A received page is the one at its partition's cursor; a committed one is in the order. */
  ghost predicate PageOk(db: Db, k: PageKey, order: seq<Token>)
    requires k in db.pages && k.partition in db.partitions
  {
    var (page, row) := (db.pages[k], db.partitions[k.partition]);
    && page.returned == page.unique + page.duplicates && (page.hasMore ==> page.next.Some?)
    && (page.state.Committed? ==> k.requestToken in order && page.persisted && k in db.sheet)
    && (page.state.Received? ==>
          && k == KeyOf(k.partition, row.cursor) && page.pageNumber == row.cursor.pagesCompleted + 1
          && (row.cursor.searchKey.Some? ==> page.searchKey == row.cursor.searchKey.value))
  }

  /** A cursor read earlier is the current one, or its page is staged already. */
  ghost predicate AskedOk(db: Db, p: PartitionId, asked: Cursor) {
    p in db.partitions && (asked == db.partitions[p].cursor || KeyOf(p, asked) in db.pages)
  }

  ghost predicate WorkerOk(db: Db, e: Owner, w: Worker) {
    match w
    case Selected(p, asked) => AskedOk(db, p, asked)
    case Responded(p, asked, r) => AskedOk(db, p, asked) && Acceptable(asked, r)
    case Staged(k) => k in db.pages
    case Committing(k, persisted, written) =>
      && k in db.pages && (persisted ==> db.pages[k].persisted) && (written ==> persisted && k in db.sheet)
      && (db.job.leaseOwner == Some(e) ==> db.pages[k].state.Received?)
    case _ => true
  }

  ghost predicate RowsOk(s: Sys) {
    && (forall p | p in s.order :: p in s.db.partitions)
    && (forall p | p in s.db.partitions :: RowOk(s.db.pages, p, s.db.partitions[p], OrderOf(s, p)))
  }

  ghost predicate PagesOk(s: Sys) {
    forall k | k in s.db.pages :: k.partition in s.db.partitions && PageOk(s.db, k, OrderOf(s, k.partition))
  }

  ghost predicate WorkersOk(s: Sys) {
    && (forall e | e in s.workers :: e < s.nextOwner && WorkerOk(s.db, e, s.workers[e]))
    && (s.db.job.leaseOwner.Some? ==> s.db.job.leaseOwner.value < s.nextOwner)
  }

  function CommittedPages(pages: map<PageKey, Page>): set<PageKey> {
    set k | k in pages && pages[k].state.Committed?
  }

  ghost predicate JobOk(s: Sys) {
    |CommittedPages(s.db.pages)| == s.db.job.pagesCompleted + s.missed
  }

  ghost predicate Inv(s: Sys) {
    RowsOk(s) && PagesOk(s) && WorkersOk(s) && JobOk(s)
  }

  // ------------------------------------------------------------- the tables

  /** Committed pages keep everything but the mark that their creators are stored. */
  ghost predicate KeepsCommitted(pages: map<PageKey, Page>, next: map<PageKey, Page>) {
    forall k | k in pages && pages[k].state.Committed? :: k in next && next[k].(persisted := pages[k].persisted) == pages[k]
  }

  lemma {:induction false} SumStays(pages: map<PageKey, Page>, next: map<PageKey, Page>, p: PartitionId, order: seq<Token>)
    requires KeepsCommitted(pages, next) && forall i | 0 <= i < |order| :: InOrder(pages, p, order, i)
    ensures Sum(next, p, order, Returned) == Sum(pages, p, order, Returned)
    ensures Sum(next, p, order, Unique) == Sum(pages, p, order, Unique)
  {
    if order != [] {
      var front := order[..|order| - 1];
      forall i | 0 <= i < |front| ensures InOrder(pages, p, front, i) {
        assert InOrder(pages, p, order, i);
      }
      assert InOrder(pages, p, order, |order| - 1);
      SumStays(pages, next, p, front);
    }
  }

  lemma ChainStays(pages: map<PageKey, Page>, next: map<PageKey, Page>, p: PartitionId, order: seq<Token>)
    requires KeepsCommitted(pages, next) && Chain(pages, p, order)
    ensures Chain(next, p, order)
  {
    forall i | 0 <= i < |order| ensures InOrder(next, p, order, i) {
      assert InOrder(pages, p, order, i);
    }
    forall i {:trigger Linked(next, p, order, i)} | 0 <= i < |order| - 1 ensures Linked(next, p, order, i) {
      assert InOrder(pages, p, order, i) && InOrder(pages, p, order, i + 1) && Linked(pages, p, order, i);
    }
  }

  lemma RowStays(pages: map<PageKey, Page>, next: map<PageKey, Page>, p: PartitionId, row: Partition, order: seq<Token>)
    requires KeepsCommitted(pages, next) && RowOk(pages, p, row, order)
    ensures RowOk(next, p, row, order)
  {
    ChainStays(pages, next, p, order);
    SumStays(pages, next, p, order);
    if order != [] { assert InOrder(pages, p, order, |order| - 1); }
  }

  /** The page at the cursor extends the chain. */
  lemma ChainGrows(pages: map<PageKey, Page>, next: map<PageKey, Page>, p: PartitionId, row: Partition, order: seq<Token>)
    requires RowOk(pages, p, row, order) && KeepsCommitted(pages, next)
    requires var k := KeyOf(p, row.cursor);
             && k in pages && k in next && next[k] == pages[k].(state := Committed) && pages[k].state.Received?
             && pages[k].pageNumber == row.cursor.pagesCompleted + 1
             && (row.cursor.searchKey.Some? ==> pages[k].searchKey == row.cursor.searchKey.value)
    ensures Chain(next, p, order + [RequestToken(row.cursor)])
  {
    var grown := order + [RequestToken(row.cursor)];
    ChainStays(pages, next, p, order);
    forall i | 0 <= i < |grown| ensures InOrder(next, p, grown, i) {
      if i < |order| { assert InOrder(next, p, order, i); }
    }
    forall i {:trigger Linked(next, p, grown, i)} | 0 <= i < |grown| - 1 ensures Linked(next, p, grown, i) {
      assert InOrder(next, p, grown, i) && InOrder(next, p, grown, i + 1);
      if i < |order| - 1 {
        assert InOrder(next, p, order, i) && InOrder(next, p, order, i + 1) && Linked(next, p, order, i);
      } else {
        NotExhausted(pages, p, row, order);
      }
    }
  }

  /** After its last page a partition asks for its first page again, which is committed. */
  lemma NotExhausted(pages: map<PageKey, Page>, p: PartitionId, row: Partition, order: seq<Token>)
    requires RowOk(pages, p, row, order) && order != []
    requires KeyOf(p, row.cursor) in pages && pages[KeyOf(p, row.cursor)].state.Received?
    ensures InOrder(pages, p, order, |order| - 1)
    ensures var last := pages[PageKey(p, order[|order| - 1])]; last.hasMore && last.next == Some(RequestToken(row.cursor))
  {
    assert InOrder(pages, p, order, |order| - 1) && InOrder(pages, p, order, 0);
  }

  lemma RowGrows(pages: map<PageKey, Page>, next: map<PageKey, Page>, p: PartitionId, row: Partition, order: seq<Token>)
    requires RowOk(pages, p, row, order) && KeepsCommitted(pages, next)
    requires var k := KeyOf(p, row.cursor);
             && k in pages && k in next && next[k] == pages[k].(state := Committed) && pages[k].state.Received?
             && pages[k].pageNumber == row.cursor.pagesCompleted + 1 && pages[k].returned == pages[k].unique + pages[k].duplicates
             && (row.cursor.searchKey.Some? ==> pages[k].searchKey == row.cursor.searchKey.value)
             && (pages[k].hasMore ==> pages[k].next.Some?)
    ensures RowOk(next, p, Applied(row, pages[KeyOf(p, row.cursor)]), order + [RequestToken(row.cursor)])
  {
    var grown := order + [RequestToken(row.cursor)];
    ChainGrows(pages, next, p, row, order);
    SumStays(pages, next, p, order);
    assert grown[..|grown| - 1] == order;
    assert InOrder(next, p, grown, |grown| - 1);
  }

  // -------------------------------------------------------------- the steps

  /** Pages and cursors only move forward; a lease that survives covers the same received page. */
  ghost predicate Follows(db: Db, next: Db, taken: Owner) {
    && (forall k | k in db.pages :: k in next.pages && (db.pages[k].persisted ==> next.pages[k].persisted))
    && (forall p | p in db.partitions :: p in next.partitions
          && (next.partitions[p].cursor == db.partitions[p].cursor || KeyOf(p, db.partitions[p].cursor) in next.pages))
    && db.sheet <= next.sheet
    && (next.job.leaseOwner.Some? && next.job.leaseOwner.value != taken ==>
          next.job.leaseOwner == db.job.leaseOwner
          && forall k | k in db.pages && db.pages[k].state.Received? :: next.pages[k].state.Received?)
  }

  lemma WorkerStaysOk(db: Db, next: Db, taken: Owner, e: Owner, w: Worker)
    requires Follows(db, next, taken) && WorkerOk(db, e, w) && e != taken
    ensures WorkerOk(next, e, w)
  {
  }

  lemma WorkersStayOk(s: Sys, next: Sys, e: Owner)
    requires WorkersOk(s) && Follows(s.db, next.db, e) && s.nextOwner <= next.nextOwner
    requires forall o | o in next.workers && o != e :: o in s.workers && next.workers[o] == s.workers[o]
    requires e in next.workers ==> e < next.nextOwner && WorkerOk(next.db, e, next.workers[e])
    requires next.db.job.leaseOwner == Some(e) ==> e < next.nextOwner
    ensures WorkersOk(next)
  {
    forall o | o in next.workers ensures o < next.nextOwner && WorkerOk(next.db, o, next.workers[o]) {
      if o != e { WorkerStaysOk(s.db, next.db, e, o, s.workers[o]); }
    }
  }

  /** A step that changes neither pages nor partitions. */
  lemma QuietStepKeepsInv(s: Sys, next: Sys, e: Owner)
    requires Inv(s) && s.nextOwner <= next.nextOwner && next.order == s.order && next.missed == s.missed
    requires next.db == s.db.(job := next.db.job, sheet := next.db.sheet) && s.db.sheet <= next.db.sheet
    requires next.db.job.pagesCompleted == s.db.job.pagesCompleted
    requires next.db.job.leaseOwner.None? || next.db.job.leaseOwner == s.db.job.leaseOwner || next.db.job.leaseOwner == Some(e)
    requires next.db.job.leaseOwner == Some(e) ==> e < next.nextOwner
    requires forall o | o in next.workers && o != e :: o in s.workers && next.workers[o] == s.workers[o]
    requires e in next.workers ==> e < next.nextOwner && WorkerOk(next.db, e, next.workers[e])
    ensures Inv(next)
  {
    WorkersStayOk(s, next, e);
  }

  lemma StageKeepsRows(s: Sys, next: Sys)
    requires RowsOk(s) && next.db.partitions == s.db.partitions && next.order == s.order
    requires KeepsCommitted(s.db.pages, next.db.pages)
    ensures RowsOk(next)
  {
    forall p | p in next.db.partitions ensures RowOk(next.db.pages, p, next.db.partitions[p], OrderOf(next, p)) {
      RowStays(s.db.pages, next.db.pages, p, s.db.partitions[p], OrderOf(s, p));
    }
  }

  lemma StageFollows(db: Db, p: PartitionId, asked: Cursor, r: Response, known: set<CreatorId>, e: Owner)
    requires Acceptable(asked, r)
    ensures var next := StagePage(db, p, asked, r, known);
            && Follows(db, next, e) && KeepsCommitted(db.pages, next.pages) && KeyOf(p, asked) in next.pages
            && CommittedPages(next.pages) == CommittedPages(db.pages)
  {
  }

  lemma StageKeepsPages(s: Sys, next: Sys, p: PartitionId, asked: Cursor, r: Response, known: set<CreatorId>)
    requires PagesOk(s) && AskedOk(s.db, p, asked) && Acceptable(asked, r) && next.order == s.order
    requires next.db == StagePage(s.db, p, asked, r, known)
    ensures PagesOk(next)
  {
    forall k | k in next.db.pages
      ensures k.partition in next.db.partitions && PageOk(next.db, k, OrderOf(next, k.partition))
    {
      if k in s.db.pages { assert PageOk(s.db, k, OrderOf(s, k.partition)); }
    }
  }

  predicate HasResponse(s: Sys, e: Owner) {
    e in s.workers && s.workers[e].Responded? && Acceptable(s.workers[e].asked, s.workers[e].response)
  }

  lemma StageKeepsWorkers(s: Sys, e: Owner, known: set<CreatorId>)
    requires WorkersOk(s) && HasResponse(s, e)
    ensures WorkersOk(StageResponse(s, e, known))
  {
    var next, w := StageResponse(s, e, known), s.workers[e];
    assert WorkerOk(s.db, e, w);
    StageFollows(s.db, w.partition, w.asked, w.response, known, e);
    WorkersStayOk(s, next, e);
  }

  lemma StageKeepsTables(s: Sys, e: Owner, known: set<CreatorId>)
    requires RowsOk(s) && PagesOk(s) && JobOk(s) && WorkersOk(s) && HasResponse(s, e)
    ensures RowsOk(StageResponse(s, e, known)) && PagesOk(StageResponse(s, e, known)) && JobOk(StageResponse(s, e, known))
  {
    var next, w := StageResponse(s, e, known), s.workers[e];
    assert WorkerOk(s.db, e, w);
    StageFollows(s.db, w.partition, w.asked, w.response, known, e);
    StageKeepsRows(s, next);
    StageKeepsPages(s, next, w.partition, w.asked, w.response, known);
  }

  lemma StageKeepsInv(s: Sys, e: Owner, known: set<CreatorId>)
    requires Inv(s)
    ensures Inv(Apply(s, Stage(e, known)))
  {
    if HasResponse(s, e) {
      StageKeepsWorkers(s, e, known);
      StageKeepsTables(s, e, known);
    }
  }

  lemma PersistFollows(s: Sys, e: Owner)
    requires e in s.workers && s.workers[e].Committing? && s.workers[e].key in s.db.pages
    ensures var next := PersistCreators(s, e).db;
            && Follows(s.db, next, e) && KeepsCommitted(s.db.pages, next.pages)
            && CommittedPages(next.pages) == CommittedPages(s.db.pages)
  {
  }

  lemma PersistKeepsPages(s: Sys, e: Owner)
    requires PagesOk(s) && e in s.workers && s.workers[e].Committing? && s.workers[e].key in s.db.pages
    ensures PagesOk(PersistCreators(s, e))
  {
    var next := PersistCreators(s, e);
    forall k | k in next.db.pages
      ensures k.partition in next.db.partitions && PageOk(next.db, k, OrderOf(next, k.partition))
    {
      assert PageOk(s.db, k, OrderOf(s, k.partition));
    }
  }

  lemma PersistKeepsWorkers(s: Sys, e: Owner)
    requires WorkersOk(s) && e in s.workers && s.workers[e].Committing? && s.workers[e].key in s.db.pages
    ensures WorkersOk(PersistCreators(s, e))
  {
    assert WorkerOk(s.db, e, s.workers[e]);
    PersistFollows(s, e);
    WorkersStayOk(s, PersistCreators(s, e), e);
  }

  lemma PersistKeepsInv(s: Sys, e: Owner)
    requires Inv(s)
    ensures Inv(Apply(s, Persist(e)))
  {
    if e in s.workers && s.workers[e].Committing? && s.workers[e].key in s.db.pages {
      PersistFollows(s, e);
      StageKeepsRows(s, PersistCreators(s, e));
      PersistKeepsPages(s, e);
      PersistKeepsWorkers(s, e);
    }
  }

  lemma CommitKeepsRow(s: Sys, e: Owner, k: PageKey, p: PartitionId)
    requires RowsOk(s) && k in s.db.pages && k.partition in s.db.partitions && PageOk(s.db, k, OrderOf(s, k.partition))
    requires s.db.job.leaseOwner == Some(e) && s.db.pages[k].state.Received? && p in s.db.partitions
    ensures var next := CommitPage(s.db, e, k);
            RowOk(next.pages, p, next.partitions[p],
                  if p == k.partition then OrderOf(s, p) + [k.requestToken] else OrderOf(s, p))
  {
    var next := CommitPage(s.db, e, k);
    if p == k.partition {
      RowGrows(s.db.pages, next.pages, p, s.db.partitions[p], OrderOf(s, p));
    } else {
      RowStays(s.db.pages, next.pages, p, s.db.partitions[p], OrderOf(s, p));
    }
  }

  lemma CommitKeepsRows(s: Sys, e: Owner)
    requires RowsOk(s) && PagesOk(s) && WorkersOk(s) && e in s.workers && s.workers[e].Committing? && s.workers[e].written
    requires s.db.job.leaseOwner == Some(e)
    ensures RowsOk(CommitStep(s, e))
  {
    var next, k := CommitStep(s, e), s.workers[e].key;
    assert WorkerOk(s.db, e, s.workers[e]) && PageOk(s.db, k, OrderOf(s, k.partition));
    forall p | p in next.db.partitions ensures RowOk(next.db.pages, p, next.db.partitions[p], OrderOf(next, p)) {
      CommitKeepsRow(s, e, k, p);
    }
  }

  lemma CommitKeepsPages(s: Sys, e: Owner)
    requires RowsOk(s) && PagesOk(s) && WorkersOk(s) && e in s.workers && s.workers[e].Committing? && s.workers[e].written
    requires s.db.job.leaseOwner == Some(e)
    ensures PagesOk(CommitStep(s, e))
  {
    var next, k := CommitStep(s, e), s.workers[e].key;
    assert WorkerOk(s.db, e, s.workers[e]) && PageOk(s.db, k, OrderOf(s, k.partition));
    forall x | x in next.db.pages
      ensures x.partition in next.db.partitions && PageOk(next.db, x, OrderOf(next, x.partition))
    {
      assert PageOk(s.db, x, OrderOf(s, x.partition));
    }
  }

  /** Without the lease a commit changes nothing; with it, one received page becomes committed. */
  lemma CommitMoves(db: Db, e: Owner, k: PageKey)
    requires k in db.pages && k.partition in db.partitions
    requires db.job.leaseOwner == Some(e) ==> k == KeyOf(k.partition, db.partitions[k.partition].cursor) && db.pages[k].state.Received?
    ensures var next := CommitPage(db, e, k);
            && Follows(db, next, e)
            && (db.job.leaseOwner == Some(e) ==>
                  k !in CommittedPages(db.pages) && CommittedPages(next.pages) == CommittedPages(db.pages) + {k})
  {
  }

  lemma CommitKeepsWorkers(s: Sys, e: Owner, k: PageKey)
    requires WorkersOk(s) && e in s.workers && s.workers[e].Committing? && s.workers[e].written && s.workers[e].key == k
    requires s.db.job.leaseOwner == Some(e) && k in s.db.pages && k.partition in s.db.partitions
    requires Follows(s.db, CommitPage(s.db, e, k), e)
    ensures WorkersOk(CommitStep(s, e))
  {
    var next := CommitStep(s, e);
    assert next.workers == s.workers - {e} && next.nextOwner == s.nextOwner && next.db == CommitPage(s.db, e, k);
    WorkersStayOk(s, next, e);
  }

  lemma CommitKeepsJob(s: Sys, e: Owner, k: PageKey)
    requires JobOk(s) && e in s.workers && s.workers[e].Committing? && s.workers[e].written && s.workers[e].key == k
    requires s.db.job.leaseOwner == Some(e) && k in s.db.pages && k.partition in s.db.partitions
    requires k !in CommittedPages(s.db.pages)
    requires CommittedPages(CommitPage(s.db, e, k).pages) == CommittedPages(s.db.pages) + {k}
    ensures JobOk(CommitStep(s, e))
  {
    assert CommitStep(s, e).db == CommitPage(s.db, e, k);
  }

  lemma LeasedCommitIsDue(s: Sys, e: Owner, k: PageKey)
    requires PagesOk(s) && WorkersOk(s) && e in s.workers && s.workers[e].Committing? && s.workers[e].key == k
    requires s.db.job.leaseOwner == Some(e) && k in s.db.pages && k.partition in s.db.partitions
    ensures k == KeyOf(k.partition, s.db.partitions[k.partition].cursor) && s.db.pages[k].state.Received?
  {
    assert WorkerOk(s.db, e, s.workers[e]) && PageOk(s.db, k, OrderOf(s, k.partition));
  }

  lemma LeasedCommitKeepsInv(s: Sys, e: Owner, k: PageKey)
    requires Inv(s) && e in s.workers && s.workers[e].Committing? && s.workers[e].written && s.workers[e].key == k
    requires s.db.job.leaseOwner == Some(e) && k in s.db.pages && k.partition in s.db.partitions
    ensures Inv(CommitStep(s, e))
  {
    LeasedCommitIsDue(s, e, k);
    CommitMoves(s.db, e, k);
    CommitKeepsRows(s, e);
    CommitKeepsPages(s, e);
    CommitKeepsWorkers(s, e, k);
    CommitKeepsJob(s, e, k);
  }

  lemma CommitKeepsInv(s: Sys, e: Owner)
    requires Inv(s)
    ensures Inv(Apply(s, Commit(e)))
  {
    if e in s.workers && s.workers[e].Committing? && s.workers[e].written
       && s.workers[e].key in s.db.pages && s.workers[e].key.partition in s.db.partitions {
      if s.db.job.leaseOwner == Some(e) {
        LeasedCommitKeepsInv(s, e, s.workers[e].key);
      } else {
        QuietStepKeepsInv(s, Gone(s, e), e);
      }
    }
  }

  lemma AddKeepsPages(s: Sys, p: PartitionId)
    requires PagesOk(s) && p !in s.db.partitions
    ensures PagesOk(AddRow(s, p))
  {
    forall k | k in s.db.pages ensures PageOk(AddRow(s, p).db, k, OrderOf(s, k.partition)) {
      assert PageOk(s.db, k, OrderOf(s, k.partition));
    }
  }

  lemma AddKeepsRows(s: Sys, p: PartitionId)
    requires RowsOk(s) && p !in s.db.partitions
    ensures RowsOk(AddRow(s, p))
  {
    var next := AddRow(s, p);
    forall q | q in next.db.partitions ensures RowOk(next.db.pages, q, next.db.partitions[q], OrderOf(next, q)) {
      if q != p { assert RowOk(s.db.pages, q, s.db.partitions[q], OrderOf(s, q)); }
    }
  }

  lemma AddKeepsWorkers(s: Sys, p: PartitionId)
    requires WorkersOk(s) && p !in s.db.partitions
    ensures WorkersOk(AddRow(s, p))
  {
    WorkersStayOk(s, AddRow(s, p), s.nextOwner);
  }

  lemma AddKeepsInv(s: Sys, p: PartitionId)
    requires Inv(s)
    ensures Inv(Apply(s, AddPartition(p)))
  {
    if p !in s.db.partitions {
      AddKeepsRows(s, p);
      AddKeepsPages(s, p);
      AddKeepsWorkers(s, p);
    }
  }

  lemma ReadKeepsInv(s: Sys, e: Owner, k: PageKey)
    requires Inv(s) && e in s.workers
    ensures Inv(ReadPage(s, e, k))
  {
    QuietStepKeepsInv(s, ReadPage(s, e, k), e);
  }

  lemma ClaimKeepsInv(s: Sys)
    requires Inv(s)
    ensures Inv(Apply(s, Claim))
  {
    var next := ClaimJob(s);
    assert next.db == s.db.(job := next.db.job) && next.db.job.pagesCompleted == s.db.job.pagesCompleted;
    assert next.workers == s.workers[s.nextOwner := Claimed] && next.order == s.order;
    QuietStepKeepsInv(s, next, s.nextOwner);
  }

  lemma SelectKeepsInv(s: Sys, e: Owner, p: PartitionId)
    requires Inv(s)
    ensures Inv(Apply(s, Select(e, p)))
  {
    if e in s.workers && s.workers[e].Claimed? && p in s.db.partitions {
      var next := SelectPartition(s, e, p);
      assert next.db == s.db && next.order == s.order && next.workers == s.workers[e := Selected(p, s.db.partitions[p].cursor)];
      assert WorkerOk(next.db, e, next.workers[e]);
      QuietStepKeepsInv(s, next, e);
    }
  }

  lemma RespondKeepsInv(s: Sys, e: Owner, r: Response)
    requires Inv(s)
    ensures Inv(Apply(s, Respond(e, r)))
  {
    if e in s.workers && s.workers[e].Selected? && Acceptable(s.workers[e].asked, r) {
      var next := SeeResponse(s, e, r);
      assert WorkerOk(s.db, e, s.workers[e]);
      assert next.db == s.db && next.order == s.order && WorkerOk(next.db, e, next.workers[e]);
      QuietStepKeepsInv(s, next, e);
    }
  }

  lemma PointKeepsInv(s: Sys, e: Owner, p: PartitionId)
    requires Inv(s)
    ensures Inv(Apply(s, PointAt(e, p)))
  {
    QuietStepKeepsInv(s, PointJob(s, e, p), s.nextOwner);
  }

  lemma ReleaseKeepsInv(s: Sys)
    requires Inv(s)
    ensures Inv(Apply(s, Release))
  {
    QuietStepKeepsInv(s, Apply(s, Release), s.nextOwner);
  }

  lemma SheetKeepsInv(s: Sys, e: Owner)
    requires Inv(s)
    ensures Inv(Apply(s, WriteSheet(e)))
  {
    QuietStepKeepsInv(s, WritePage(s, e), e);
  }

  lemma ErrKeepsInv(s: Sys, e: Owner)
    requires Inv(s)
    ensures Inv(Apply(s, Err(e)))
  {
    QuietStepKeepsInv(s, ErrStep(s, e), e);
  }

  lemma HandlingKeepsInv(s: Sys, e: Owner)
    requires Inv(s)
    ensures Inv(Apply(s, HandleError(e)))
  {
    QuietStepKeepsInv(s, HandleErrorStep(s, e), e);
  }

  lemma CrashKeepsInv(s: Sys, e: Owner)
    requires Inv(s)
    ensures Inv(Apply(s, Crash(e)))
  {
    QuietStepKeepsInv(s, Gone(s, e), e);
  }

  lemma TakePendingKeepsInv(s: Sys, e: Owner, k: PageKey)
    requires Inv(s)
    ensures Inv(Apply(s, TakePending(e, k)))
  {
    if e in s.workers { ReadKeepsInv(s, e, k); }
  }

  lemma ReadStagedKeepsInv(s: Sys, e: Owner)
    requires Inv(s)
    ensures Inv(Apply(s, ReadStaged(e)))
  {
    if e in s.workers && s.workers[e].Staged? { ReadKeepsInv(s, e, s.workers[e].key); }
  }

  lemma ApplyKeepsInv(s: Sys, step: Step)
    requires Inv(s)
    ensures Inv(Apply(s, step))
  {
    match step
    case Claim => ClaimKeepsInv(s);
    case TakePending(e, k) => TakePendingKeepsInv(s, e, k);
    case Select(e, p) => SelectKeepsInv(s, e, p);
    case PointAt(e, p) => PointKeepsInv(s, e, p);
    case Release => ReleaseKeepsInv(s);
    case Respond(e, r) => RespondKeepsInv(s, e, r);
    case Stage(e, known) => StageKeepsInv(s, e, known);
    case ReadStaged(e) => ReadStagedKeepsInv(s, e);
    case Persist(e) => PersistKeepsInv(s, e);
    case WriteSheet(e) => SheetKeepsInv(s, e);
    case Commit(e) => CommitKeepsInv(s, e);
    case Err(e) => ErrKeepsInv(s, e);
    case HandleError(e) => HandlingKeepsInv(s, e);
    case Crash(e) => CrashKeepsInv(s, e);
    case AddPartition(p) => AddKeepsInv(s, p);
  }

  lemma {:induction false} RunKeepsInv(s: Sys, steps: seq<Step>)
    requires Inv(s)
    ensures Inv(Run(s, steps))
    decreases |steps|
  {
    if steps != [] {
      ApplyKeepsInv(s, steps[0]);
      RunKeepsInv(Apply(s, steps[0]), steps[1..]);
    }
  }

  // -------------------------------------------------------------- the results

  lemma StartIsInv(s: Sys)
    requires Initial(s)
    ensures Inv(s)
  {
    assert CommittedPages(s.db.pages) == {};
  }

  /** A committed page stands at the place its number says. */
  lemma StandsAt(db: Db, k: PageKey, order: seq<Token>) returns (i: nat)
    requires k in db.pages && k.partition in db.partitions && db.pages[k].state.Committed?
    requires Chain(db.pages, k.partition, order) && PageOk(db, k, order)
    ensures i < |order| && order[i] == k.requestToken && db.pages[k].pageNumber == i + 1
  {
    i :| 0 <= i < |order| && order[i] == k.requestToken;
    assert InOrder(db.pages, k.partition, order, i);
  }

  /**
   * In every reachable state: a partition has at most one received page, no two
   * committed pages of a partition have the same number, the numbers stay within
   * the partition's counter, and a committed page is in the database and the sheet.
   */
  lemma EveryPageCountsOnce(s: Sys, steps: seq<Step>, k: PageKey, l: PageKey)
    requires Initial(s)
    requires k in Run(s, steps).db.pages && l in Run(s, steps).db.pages && k.partition == l.partition
    ensures var t := Run(s, steps).db;
            var (page, other) := (t.pages[k], t.pages[l]);
            && k.partition in t.partitions
            && (page.state.Received? && other.state.Received? ==> k == l)
            && (page.state.Committed? && other.state.Committed? && page.pageNumber == other.pageNumber ==> k == l)
            && (page.state.Committed? ==>
                  1 <= page.pageNumber <= t.partitions[k.partition].cursor.pagesCompleted && page.persisted && k in t.sheet)
  {
    StartIsInv(s);
    RunKeepsInv(s, steps);
    var t := Run(s, steps);
    var order := OrderOf(t, k.partition);
    assert PageOk(t.db, k, order) && PageOk(t.db, l, order) && RowOk(t.db.pages, k.partition, t.db.partitions[k.partition], order);
    if t.db.pages[k].state.Committed? {
      var i := StandsAt(t.db, k, order);
      if t.db.pages[l].state.Committed? { var j := StandsAt(t.db, l, order); }
    }
  }

  /**
   * Every number up to the partition's counter has its committed page: the first was
   * requested without a token, every later one with the token and under the search key
   * of the page before, and the cursor continues the last.
   */
  lemma CursorFollowsPages(s: Sys, steps: seq<Step>, p: PartitionId)
    requires Initial(s) && p in Run(s, steps).db.partitions
    ensures var t := Run(s, steps);
            Chain(t.db.pages, p, OrderOf(t, p)) && Continues(t.db.pages, p, t.db.partitions[p], OrderOf(t, p))
  {
    StartIsInv(s);
    RunKeepsInv(s, steps);
  }

  /** Counters: rows are what the committed pages returned, each row new or a duplicate; no commit is lost or doubled. */
  lemma CountersBalance(s: Sys, steps: seq<Step>, p: PartitionId)
    requires Initial(s) && p in Run(s, steps).db.partitions
    ensures var t := Run(s, steps);
            var row := t.db.partitions[p];
            && row.rows == row.unique + row.duplicates && row.rows == Sum(t.db.pages, p, OrderOf(t, p), Returned)
            && row.unique == Sum(t.db.pages, p, OrderOf(t, p), Unique)
            && |CommittedPages(t.db.pages)| == t.db.job.pagesCompleted + t.missed
  {
    StartIsInv(s);
    RunKeepsInv(s, steps);
  }
}
