/**
 * The worker's transactions on the job and work rows, updated in place; each is
 * proved to be the one change of the tables that the interleaved runs use.
 */
module HistoryTables {
  import opened Options
  import Db = HistoryDb
  import opened HistoryDb
  import opened HistoryRuns

  class Tables {
    var state: JobState
    var cursor: Cursor
    var lease: Option<Lease>
    var works: map<WorkKey, Work>
    var imported: set<MessagePage>

    ghost function View(): HistoryDb.Db
      reads this
    {
      HistoryDb.Db(Job(state, cursor, lease), works, imported)
    }

    predicate OwnedBy(owner: Owner)
      reads `lease
    {
      lease.Some? && lease.value.owner == owner
    }

    /** Conversations staged before keep their row and their message cursor. */
    method StageConversations(pageSequence: nat, page: seq<ConversationId>)
      modifies `works
      ensures works == Staged(old(works), pageSequence, page)
    {
      var i := 0;
      while i < |page|
        invariant 0 <= i <= |page|
        invariant Staged(works, pageSequence, page[i..]) == Staged(old(works), pageSequence, page)
      {
        var k := WorkKey(pageSequence, page[i]);
        assert page[i..][0] == page[i] && page[i..][1..] == page[i + 1..];
        if k !in works { works := works[k := Work(Pending, None)]; }
        i := i + 1;
      }
    }

    method CommitConversationPage(owner: Owner, read: Cursor, page: seq<ConversationId>, next: Token, hasMore: bool)
      modifies this
      ensures View() == StagePage(old(View()), owner, read, page, next, hasMore)
      ensures state == old(state) && imported == old(imported)
      ensures if old(OwnedBy(owner)) then lease.None? && cursor == old(cursor).(phase := Messages, pendingNext := next, pendingHasMore := Some(hasMore))
              else lease == old(lease) && cursor == old(cursor)
      ensures works.Keys == old(works).Keys + (set c | c in page :: WorkKey(read.pageSequence, c))
      ensures forall k | k in works :: works[k] == if k in old(works) then old(works)[k] else Work(Pending, None)
    {
      StagedKeys(works, read.pageSequence, page);
      StageConversations(read.pageSequence, page);
      if OwnedBy(owner) {
        cursor := cursor.(phase := Messages, pendingNext := next, pendingHasMore := Some(hasMore));
        lease := None;
      }
    }

    method CommitMessagePage(owner: Owner, k: WorkKey, index: nat, next: Token)
      requires k in works
      modifies this
      ensures View() == ImportPage(old(View()), owner, k, index, next)
      ensures imported == old(imported) + {MessagePage(k.conversation, index)}
      ensures works.Keys == old(works).Keys && (forall l | l in works && l != k :: works[l] == old(works)[l])
      ensures works[k].state.Complete? <==> next.None?
      ensures cursor == old(cursor) && state == old(state)
      ensures lease == if old(OwnedBy(owner)) then None else old(lease)
      ensures forall p | ValidProvider(p) && DbOk(p, old(View())) && Answers(p, old(imported), k, index, next) :: DbOk(p, View())
    {
      forall p | ValidProvider(p) && DbOk(p, View()) && Answers(p, imported, k, index, next)
        ensures DbOk(p, ImportPage(View(), owner, k, index, next))
      {
        ImportKeepsDbOk(p, View(), owner, k, index);
      }
      imported := imported + {MessagePage(k.conversation, index)};
      if next.Some? {
        works := works[k := Work(WorkState.Running, next)];
      } else {
        works := works[k := Work(WorkState.Complete, None)];
      }
      if OwnedBy(owner) { lease := None; }
    }

    /** Every branch starts from the same page-closing update. */
    method AdvanceCompletedPage(owner: Owner, read: Cursor, limits: Limits, now: int)
      requires !MissingContinuation(read)
      modifies this
      ensures View() == AdvancePage(old(View()), owner, read, limits, now)
    {
      if !OwnedBy(owner) { return; }
      var hasMore := read.pendingHasMore == Some(true);
      cursor := read.(pageSequence := read.pageSequence + 1, phase := List, pendingNext := None, pendingHasMore := None);
      lease := None;
      if read.pass.Head? {
        cursor := cursor.(pass := Backfill, incrementalToken := None, pagesSinceHead := 0);
      } else if read.pass.Backfill? {
        if hasMore {
          var pagesSinceHead := read.pagesSinceHead + 1;
          cursor := cursor.(backfillToken := read.pendingNext, pagesSinceHead := pagesSinceHead);
          if pagesSinceHead >= limits.headEvery { cursor := cursor.(pass := Head, incrementalToken := None); }
        } else {
          state := JobState.Complete;
          cursor := cursor.(mode := Incremental, pass := IncrementalPass, backfillToken := None, incrementalToken := None);
          if read.initialCompletedAt.None? { cursor := cursor.(initialCompletedAt := Some(now)); }
        }
      } else {
        var nextIndex := read.incrementalIndex + 1;
        if hasMore && read.pendingNext.Some? && nextIndex < limits.incrementalPages {
          cursor := cursor.(incrementalToken := read.pendingNext, incrementalIndex := nextIndex);
        } else {
          state := JobState.Complete;
          cursor := cursor.(incrementalToken := None, incrementalIndex := 0);
        }
      }
    }

    /**
     * Only the staging of the current page and the cursors are given up: the next list
     * request starts the chain anew, and all that was imported or proved of it stays.
     */
    method RecoverCursor(read: Cursor)
      modifies this
      ensures View() == Recover(old(View()), read)
      ensures imported == old(imported)
      ensures works.Keys == (set k | k in old(works) && k.pageSequence != read.pageSequence)
      ensures forall k | k in works :: works[k] == old(works)[k]
      ensures state.Queued? && lease.None? && cursor.phase.List? && ListCursor(cursor).None? && cursor.backfillToken.None?
      ensures cursor.mode == old(cursor).mode && cursor.initialCompletedAt == old(cursor).initialCompletedAt
      ensures cursor.pageSequence == old(cursor).pageSequence + 1
      ensures forall p | ValidProvider(p) && DbOk(p, old(View())) && ReadModeOk(old(View()), read) :: DbOk(p, View())
    {
      forall p | ValidProvider(p) && DbOk(p, View()) && ReadModeOk(View(), read) ensures DbOk(p, Recover(View(), read)) {
        RecoverKeepsDbOk(p, View(), read);
      }
      works := map k | k in works && k.pageSequence != read.pageSequence :: works[k];
      state, lease := JobState.Queued, None;
      cursor := cursor.(pass := if read.mode.InitialBackfill? then Backfill else IncrementalPass, phase := List,
                        backfillToken := None, incrementalToken := None, pendingNext := None, pendingHasMore := None,
                        pageSequence := cursor.pageSequence + 1);
    }
  }

  lemma {:induction false} StagedKeys(works: map<WorkKey, Work>, n: nat, page: seq<ConversationId>)
    ensures Staged(works, n, page).Keys == works.Keys + (set c | c in page :: WorkKey(n, c))
    decreases |page|
  {
    if page != [] {
      var k := WorkKey(n, page[0]);
      StagedKeys(if k in works then works else works[k := Work(Pending, None)], n, page[1..]);
      assert forall c :: c in page <==> c == page[0] || c in page[1..];
    }
  }

  /** The answer is the provider's for a page all of whose predecessors are stored. */
  ghost predicate Answers(p: Provider, imported: set<MessagePage>, k: WorkKey, index: nat, next: Token) {
    && k.conversation in p.messagePages && index < p.messagePages[k.conversation] && Has(imported, k.conversation, index)
    && next == NextOf(index, p.messagePages[k.conversation])
  }
}
