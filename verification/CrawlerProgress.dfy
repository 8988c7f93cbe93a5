/**
 * What a crawl gets done: an undisturbed worker brings in the next page of its partition, no page leads back to itself,
 * and the job's count of rows is what its partitions add up to.
 */
module CrawlerProgress {
  import opened Options
  import opened FiniteSets
  import opened Crawler
  import opened CrawlerRuns

  // ------------------------------------------------------------- one page

  /** A page's rows: the distinct creators not known before are new, everything else is a duplicate. */
  lemma NewPageCounts(asked: Cursor, r: Response, known: set<CreatorId>)
    requires Acceptable(asked, r)
    ensures var page := NewPage(asked, r, known);
            && page.returned == |r.creators| && page.unique == |set c | c in r.creators && c !in known|
            && page.duplicates == |r.creators| - page.unique
            && page.pageNumber == asked.pagesCompleted + 1 && page.next == r.next && page.hasMore == r.hasMore
            && page.searchKey == (if asked.searchKey.Some? then asked.searchKey.value else r.searchKey.value)
  {
    assert (set c | c in r.creators && c !in known) == Ids(r.creators) - known;
  }

  lemma RunTwo(s: Sys, a: Step, b: Step)
    ensures Run(s, [a, b]) == Apply(Apply(s, a), b)
  {
    assert [a, b][1..] == [b] && [b][1..] == [];
    assert Run(Apply(s, a), [b]) == Run(Apply(Apply(s, a), b), []);
  }

  lemma {:induction false} RunInTwo(s: Sys, a: seq<Step>, b: seq<Step>)
    ensures Run(s, a + b) == Run(Run(s, a), b)
    decreases |a|
  {
    if a == [] {
      assert a + b == b;
    } else {
      assert (a + b)[0] == a[0] && (a + b)[1..] == a[1..] + b;
      RunInTwo(Apply(s, a[0]), a[1..], b);
    }
  }

  /** Lease, partition, answer, receipt, creators, sheet, commit. */
  function Reading(e: Owner, p: PartitionId, r: Response, known: set<CreatorId>): seq<Step> {
    [Claim, Select(e, p)] + ([Respond(e, r), Stage(e, known)] + ([ReadStaged(e), Persist(e)] + [WriteSheet(e), Commit(e)]))
  }

  function Selecting(s: Sys, e: Owner, p: PartitionId): Sys
    requires p in s.db.partitions
  {
    s.(db := s.db.(job := s.db.job.(leaseOwner := Some(e))), workers := s.workers[e := Selected(p, s.db.partitions[p].cursor)],
       nextOwner := e + 1)
  }

  lemma ClaimIs(s: Sys)
    ensures Apply(s, Claim) == s.(db := s.db.(job := s.db.job.(leaseOwner := Some(s.nextOwner))),
                                  workers := s.workers[s.nextOwner := Worker.Claimed], nextOwner := s.nextOwner + 1)
  {
  }

  lemma SelectIs(s: Sys, e: Owner, p: PartitionId)
    requires e in s.workers && s.workers[e] == Worker.Claimed && p in s.db.partitions
    ensures Apply(s, Select(e, p)) == s.(workers := s.workers[e := Selected(p, s.db.partitions[p].cursor)])
  {
  }

  lemma ClaimThenSelect(s: Sys, p: PartitionId)
    requires p in s.db.partitions
    ensures Apply(Apply(s, Claim), Select(s.nextOwner, p)) == Selecting(s, s.nextOwner, p)
  {
    var e := s.nextOwner;
    ClaimIs(s);
    SelectIs(Apply(s, Claim), e, p);
    assert s.workers[e := Worker.Claimed][e := Selected(p, s.db.partitions[p].cursor)] == s.workers[e := Selected(p, s.db.partitions[p].cursor)];
  }

  lemma FirstSelects(s: Sys, p: PartitionId)
    requires p in s.db.partitions
    ensures Run(s, [Claim, Select(s.nextOwner, p)]) == Selecting(s, s.nextOwner, p)
  {
    RunTwo(s, Claim, Select(s.nextOwner, p));
    ClaimThenSelect(s, p);
  }

  lemma ThenStages(s: Sys, e: Owner, p: PartitionId, asked: Cursor, r: Response, known: set<CreatorId>)
    requires e in s.workers && s.workers[e] == Selected(p, asked) && Acceptable(asked, r) && KeyOf(p, asked) !in s.db.pages
    ensures Run(s, [Respond(e, r), Stage(e, known)]) ==
              s.(db := s.db.(pages := s.db.pages[KeyOf(p, asked) := NewPage(asked, r, known)]), workers := s.workers[e := Staged(KeyOf(p, asked))])
  {
    RunTwo(s, Respond(e, r), Stage(e, known));
    var w := Responded(p, asked, r);
    assert Apply(s, Respond(e, r)) == s.(workers := s.workers[e := w]);
    assert s.workers[e := w][e := Staged(KeyOf(p, asked))] == s.workers[e := Staged(KeyOf(p, asked))];
  }

  lemma ThenPersists(s: Sys, e: Owner, k: PageKey)
    requires e in s.workers && s.workers[e] == Staged(k) && k in s.db.pages && s.db.pages[k].state.Received?
    ensures Run(s, [ReadStaged(e), Persist(e)]) ==
              s.(db := s.db.(pages := s.db.pages[k := s.db.pages[k].(persisted := true)]), workers := s.workers[e := Committing(k, true, false)])
  {
    RunTwo(s, ReadStaged(e), Persist(e));
    var w := Committing(k, s.db.pages[k].persisted, false);
    assert Apply(s, ReadStaged(e)) == s.(workers := s.workers[e := w]);
    assert s.workers[e := w][e := Committing(k, true, false)] == s.workers[e := Committing(k, true, false)];
  }

  lemma ThenCommits(s: Sys, e: Owner, k: PageKey)
    requires e in s.workers && s.workers[e] == Committing(k, true, false) && k in s.db.pages && k.partition in s.db.partitions
    requires s.db.job.leaseOwner == Some(e)
    ensures var t := Run(s, [WriteSheet(e), Commit(e)]);
            t.db == CommitPage(s.db.(sheet := s.db.sheet + {k}), e, k) && e !in t.workers
            && t.order == s.order[k.partition := OrderOf(s, k.partition) + [k.requestToken]]
            && t.missed == s.missed + (if s.db.job.current == Some(k.partition) then 0 else 1)
  {
    RunTwo(s, WriteSheet(e), Commit(e));
    assert Apply(s, WriteSheet(e)) == s.(db := s.db.(sheet := s.db.sheet + {k}), workers := s.workers[e := Committing(k, true, true)]);
  }

  /** The tables once the page is in: on the page, its partition, the job and the sheet. */
  function ReadIn(db: Db, p: PartitionId, r: Response, known: set<CreatorId>): Db
    requires p in db.partitions && Acceptable(db.partitions[p].cursor, r)
  {
    var (row, page) := (db.partitions[p], NewPage(db.partitions[p].cursor, r, known));
    var k := KeyOf(p, row.cursor);
    Db(Job(None, if r.hasMore then Some(p) else None, db.job.pagesCompleted + 1, db.job.fetched + |r.creators|),
       db.partitions[p := Partition(
         Cursor(if r.hasMore then r.next else None, Some(page.searchKey), row.cursor.pagesCompleted + 1),
         row.rows + |r.creators|, row.unique + page.unique, row.duplicates + page.duplicates, !r.hasMore)],
       db.pages[k := page.(persisted := true, state := Committed)], db.sheet + {k})
  }

  lemma ReadingRuns(s: Sys, e: Owner, p: PartitionId, r: Response, known: set<CreatorId>)
    ensures Run(s, Reading(e, p, r, known)) ==
      Run(Run(Run(Run(s, [Claim, Select(e, p)]), [Respond(e, r), Stage(e, known)]), [ReadStaged(e), Persist(e)]), [WriteSheet(e), Commit(e)])
  {
    var (a, b, c, d) := ([Claim, Select(e, p)], [Respond(e, r), Stage(e, known)], [ReadStaged(e), Persist(e)], [WriteSheet(e), Commit(e)]);
    RunInTwo(s, a, b + (c + d));
    RunInTwo(Run(s, a), b, c + d);
    RunInTwo(Run(Run(s, a), b), c, d);
  }

  /** The page is asked for, received and stored, and not committed. */
  function Stored(s: Sys, p: PartitionId, r: Response, known: set<CreatorId>): Sys
    requires p in s.db.partitions && Acceptable(s.db.partitions[p].cursor, r)
  {
    var (e, k) := (s.nextOwner, KeyOf(p, s.db.partitions[p].cursor));
    s.(db := s.db.(job := s.db.job.(leaseOwner := Some(e)),
                   pages := s.db.pages[k := NewPage(s.db.partitions[p].cursor, r, known).(persisted := true)]),
       workers := s.workers[e := Committing(k, true, false)], nextOwner := e + 1)
  }

  function Received(s: Sys, p: PartitionId, r: Response, known: set<CreatorId>): Sys
    requires p in s.db.partitions && Acceptable(s.db.partitions[p].cursor, r)
  {
    var (e, k) := (s.nextOwner, KeyOf(p, s.db.partitions[p].cursor));
    s.(db := s.db.(job := s.db.job.(leaseOwner := Some(e)), pages := s.db.pages[k := NewPage(s.db.partitions[p].cursor, r, known)]),
       workers := s.workers[e := Staged(k)], nextOwner := e + 1)
  }

  lemma PageIsReceived(s: Sys, p: PartitionId, r: Response, known: set<CreatorId>)
    requires p in s.db.partitions && KeyOf(p, s.db.partitions[p].cursor) !in s.db.pages && Acceptable(s.db.partitions[p].cursor, r)
    ensures Run(Selecting(s, s.nextOwner, p), [Respond(s.nextOwner, r), Stage(s.nextOwner, known)]) == Received(s, p, r, known)
  {
    var (e, asked) := (s.nextOwner, s.db.partitions[p].cursor);
    ThenStages(Selecting(s, e, p), e, p, asked, r, known);
    assert s.workers[e := Selected(p, asked)][e := Staged(KeyOf(p, asked))] == s.workers[e := Staged(KeyOf(p, asked))];
  }

  lemma ReceivedIsStored(s: Sys, p: PartitionId, r: Response, known: set<CreatorId>)
    requires p in s.db.partitions && Acceptable(s.db.partitions[p].cursor, r)
    ensures Run(Received(s, p, r, known), [ReadStaged(s.nextOwner), Persist(s.nextOwner)]) == Stored(s, p, r, known)
  {
    var (e, k) := (s.nextOwner, KeyOf(p, s.db.partitions[p].cursor));
    ThenPersists(Received(s, p, r, known), e, k);
    PagesAre(s.db.pages, k, NewPage(s.db.partitions[p].cursor, r, known));
    assert s.workers[e := Staged(k)][e := Committing(k, true, false)] == s.workers[e := Committing(k, true, false)];
  }

  lemma PageIsStored(s: Sys, p: PartitionId, r: Response, known: set<CreatorId>)
    requires p in s.db.partitions && KeyOf(p, s.db.partitions[p].cursor) !in s.db.pages && Acceptable(s.db.partitions[p].cursor, r)
    ensures var e := s.nextOwner;
            Run(Run(Run(s, [Claim, Select(e, p)]), [Respond(e, r), Stage(e, known)]), [ReadStaged(e), Persist(e)]) == Stored(s, p, r, known)
  {
    FirstSelects(s, p);
    PageIsReceived(s, p, r, known);
    ReceivedIsStored(s, p, r, known);
  }

  lemma StoredIsCommitted(s: Sys, p: PartitionId, r: Response, known: set<CreatorId>)
    requires p in s.db.partitions && s.db.job.current == Some(p) && Acceptable(s.db.partitions[p].cursor, r)
    ensures var k := KeyOf(p, s.db.partitions[p].cursor);
            CommitPage(Stored(s, p, r, known).db.(sheet := s.db.sheet + {k}), s.nextOwner, k) == ReadIn(s.db, p, r, known)
  {
    PagesAre(s.db.pages, KeyOf(p, s.db.partitions[p].cursor), NewPage(s.db.partitions[p].cursor, r, known));
  }

  /** At the pointer's partition an undisturbed worker brings in the very page the cursor asks for, and nothing else. */
  lemma NextPageIsRead(s: Sys, p: PartitionId, r: Response, known: set<CreatorId>)
    requires p in s.db.partitions && s.db.job.current == Some(p) && KeyOf(p, s.db.partitions[p].cursor) !in s.db.pages
    requires Acceptable(s.db.partitions[p].cursor, r)
    ensures var t := Run(s, Reading(s.nextOwner, p, r, known));
            t.db == ReadIn(s.db, p, r, known) && t.missed == s.missed && s.nextOwner !in t.workers
            && OrderOf(t, p) == OrderOf(s, p) + [RequestToken(s.db.partitions[p].cursor)]
  {
    ReadingRuns(s, s.nextOwner, p, r, known);
    PageIsStored(s, p, r, known);
    ThenCommits(Stored(s, p, r, known), s.nextOwner, KeyOf(p, s.db.partitions[p].cursor));
    StoredIsCommitted(s, p, r, known);
  }

  lemma PagesAre(pages: map<PageKey, Page>, k: PageKey, page: Page)
    ensures pages[k := page][k := page.(persisted := true)] == pages[k := page.(persisted := true)]
    ensures pages[k := page.(persisted := true)][k := page.(persisted := true, state := Committed)]
            == pages[k := page.(persisted := true, state := Committed)]
  {
  }

  // ------------------------------------------------------- never in a circle

  /** No stored page names as its next page the very page it was asked as. */
  ghost predicate LeadsOn(s: Sys) {
    && (forall k | k in s.db.pages && k.requestToken != FIRST :: s.db.pages[k].next != Some(k.requestToken))
    && (forall e | e in s.workers && s.workers[e].Responded? :: Acceptable(s.workers[e].asked, s.workers[e].response))
  }

  lemma StepLeadsOn(s: Sys, step: Step)
    requires LeadsOn(s)
    ensures LeadsOn(Apply(s, step))
  {
  }

  lemma {:induction false} RunLeadsOn(s: Sys, steps: seq<Step>)
    requires LeadsOn(s)
    ensures LeadsOn(Run(s, steps))
    decreases |steps|
  {
    if steps != [] {
      StepLeadsOn(s, steps[0]);
      RunLeadsOn(Apply(s, steps[0]), steps[1..]);
    }
  }

  /** Over any run: after a page asked for by a token the crawler never asks by the same token next. */
  lemma NoPageLeadsToItself(s: Sys, steps: seq<Step>, k: PageKey)
    requires Initial(s) && k in Run(s, steps).db.pages && k.requestToken != FIRST
    ensures Run(s, steps).db.pages[k].next != Some(k.requestToken)
  {
    RunLeadsOn(s, steps);
  }

  // ------------------------------------------------------------- the totals

  ghost function RowsOf(partitions: map<PartitionId, Partition>, ids: set<PartitionId>): nat
    requires ids <= partitions.Keys
  {
    if ids == {} then 0
    else
      var p :| p in ids;
      partitions[p].rows + RowsOf(partitions, ids - {p})
  }

  lemma {:induction false} RowsWithout(partitions: map<PartitionId, Partition>, ids: set<PartitionId>, q: PartitionId)
    requires ids <= partitions.Keys && q in ids
    ensures RowsOf(partitions, ids) == partitions[q].rows + RowsOf(partitions, ids - {q})
    decreases ids
  {
    var p :| p in ids && RowsOf(partitions, ids) == partitions[p].rows + RowsOf(partitions, ids - {p});
    if p != q {
      RowsWithout(partitions, ids - {p}, q);
      RowsWithout(partitions, ids - {q}, p);
      assert ids - {p} - {q} == ids - {q} - {p};
    }
  }

  lemma {:induction false} RowsSame(partitions: map<PartitionId, Partition>, next: map<PartitionId, Partition>, ids: set<PartitionId>)
    requires ids <= partitions.Keys && ids <= next.Keys && forall p | p in ids :: next[p].rows == partitions[p].rows
    ensures RowsOf(next, ids) == RowsOf(partitions, ids)
    decreases ids
  {
    if ids != {} {
      var p :| p in ids;
      RowsWithout(partitions, ids, p);
      RowsWithout(next, ids, p);
      RowsSame(partitions, next, ids - {p});
    }
  }

  lemma RowsChange(partitions: map<PartitionId, Partition>, p: PartitionId, row: Partition)
    ensures var next := partitions[p := row];
            RowsOf(next, next.Keys) + (if p in partitions then partitions[p].rows else 0) == RowsOf(partitions, partitions.Keys) + row.rows
  {
    var next := partitions[p := row];
    RowsWithout(next, next.Keys, p);
    RowsSame(partitions, next, partitions.Keys - {p});
    assert next.Keys - {p} == partitions.Keys - {p};
    if p in partitions { RowsWithout(partitions, partitions.Keys, p); } else { assert partitions.Keys - {p} == partitions.Keys; }
  }

  ghost predicate AddsUp(db: Db) {
    db.job.fetched == RowsOf(db.partitions, db.partitions.Keys)
  }

  lemma CommitAddsUp(s: Sys, e: Owner)
    requires AddsUp(s.db) && s.missed == 0 && Apply(s, Commit(e)).missed == 0
    ensures AddsUp(Apply(s, Commit(e)).db)
  {
    if e in s.workers && s.workers[e].Committing? && s.workers[e].key in s.db.pages && s.workers[e].key.partition in s.db.partitions {
      var k := s.workers[e].key;
      RowsChange(s.db.partitions, k.partition, Applied(s.db.partitions[k.partition], s.db.pages[k]));
    }
  }

  lemma AddAddsUp(s: Sys, p: PartitionId)
    requires AddsUp(s.db)
    ensures AddsUp(Apply(s, AddPartition(p)).db)
  {
    RowsChange(s.db.partitions, p, FreshPartition);
  }

  lemma OtherAddsUp(s: Sys, step: Step)
    requires AddsUp(s.db) && !step.Commit? && !step.AddPartition?
    ensures AddsUp(Apply(s, step).db)
  {
    assert Apply(s, step).db.partitions == s.db.partitions && Apply(s, step).db.job.fetched == s.db.job.fetched;
  }

  lemma MissedGrows(s: Sys, steps: seq<Step>)
    ensures s.missed <= Run(s, steps).missed
    decreases |steps|
  {
    if steps != [] { MissedGrows(Apply(s, steps[0]), steps[1..]); }
  }

  lemma {:induction false} RunAddsUp(s: Sys, steps: seq<Step>)
    requires AddsUp(s.db) && s.missed == 0 && Run(s, steps).missed == 0
    ensures AddsUp(Run(s, steps).db)
    decreases |steps|
  {
    if steps != [] {
      MissedGrows(Apply(s, steps[0]), steps[1..]);
      match steps[0] {
        case Commit(e) => CommitAddsUp(s, e);
        case AddPartition(p) => AddAddsUp(s, p);
        case _ => OtherAddsUp(s, steps[0]);
      }
      RunAddsUp(Apply(s, steps[0]), steps[1..]);
    }
  }

  /** Over any run whose commits found the pointer on their partition, the job has fetched what its partitions have. */
  lemma FetchedIsTheTotal(s: Sys, steps: seq<Step>)
    requires Initial(s) && Run(s, steps).missed == 0
    ensures AddsUp(Run(s, steps).db)
  {
    RunAddsUp(s, steps);
  }
}
