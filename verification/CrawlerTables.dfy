/** The crawler's two page transactions on tables updated in place. */
module CrawlerTables {
  import opened Options
  import Db = Crawler
  import opened Crawler

  class Tables {
    var leaseOwner: Option<Owner>
    var current: Option<PartitionId>
    var pagesCompleted: nat
    var creatorsFetched: nat
    var partitions: map<PartitionId, Partition>
    var pages: map<PageKey, Page>
    var sheet: set<PageKey>

    ghost function View(): Crawler.Db
      reads this
    {
      Crawler.Db(Job(leaseOwner, current, pagesCompleted, creatorsFetched), partitions, pages, sheet)
    }

    /** Collects the distinct creators of a response that are not known yet. */
    method FindNew(creators: seq<CreatorId>, known: set<CreatorId>) returns (newIds: set<CreatorId>)
      ensures newIds == Ids(creators) - known
    {
      newIds := {};
      for i := 0 to |creators|
        invariant newIds == Ids(creators[..i]) - known
      {
        assert creators[..i + 1] == creators[..i] + [creators[i]];
        if creators[i] !in known { newIds := newIds + {creators[i]}; }
      }
      assert creators[..|creators|] == creators;
    }

    method StageReceipt(p: PartitionId, asked: Cursor, r: Response, known: set<CreatorId>) returns (key: PageKey)
      requires Acceptable(asked, r)
      modifies `pages
      ensures key == KeyOf(p, asked) && View() == StagePage(old(View()), p, asked, r, known)
    {
      key := PageKey(p, if asked.token.Some? then asked.token.value else FIRST);
      var newIds := FindNew(r.creators, known);
      var searchKey := if asked.searchKey.Some? then asked.searchKey.value else r.searchKey.value;
      assert |newIds| == NewCount(r.creators, known);
      if key !in pages {
        pages := pages[key := Page(Received, asked.pagesCompleted + 1, r.next, searchKey, r.hasMore,
                                   |r.creators|, |newIds|, |r.creators| - |newIds|, false)];
      }
    }

    method CommitReceipt(owner: Owner, k: PageKey)
      requires k in pages && k.partition in partitions
      modifies this
      ensures View() == CommitPage(old(View()), owner, k)
    {
      if leaseOwner != Some(owner) { return; }
      var page, row := pages[k], partitions[k.partition];
      pages := pages[k := page.(state := Committed)];
      var cursor := Cursor(None, Some(page.searchKey), row.cursor.pagesCompleted + 1);
      if page.hasMore { cursor := cursor.(token := page.next); }
      partitions := partitions[k.partition := Partition(
        cursor, row.rows + page.returned, row.unique + page.unique, row.duplicates + page.duplicates, !page.hasMore)];
      if current == Some(k.partition) {
        pagesCompleted, creatorsFetched := pagesCompleted + 1, creatorsFetched + page.returned;
        if !page.hasMore { current := None; }
        leaseOwner := None;
      }
    }
  }
}
