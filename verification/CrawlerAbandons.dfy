/**
 * A run in which the crawler abandons a partition: an error left by a worker that lost its
 * lease opens a job that another error had stopped, and two pages are staged at once.
 */
module CrawlerAbandons {
  import opened Options
  import Crawler
  import C = CrawlerClaims
  import opened CrawlerClaims

  type Workers = map<Crawler.Owner, Crawler.Worker>
  type Found = map<Crawler.Owner, Option<Crawler.PartitionId>>
  type Statuses3 = map<Crawler.PartitionId, Status>

  const LAST_PAGE := Crawler.Response([], None, false, Some("key"))
  const ASKED := Crawler.Cursor(None, None, 0)
  const START := Machine(
    Crawler.Sys(Crawler.Db(Crawler.Job(None, None, 0, 0), map[], map[], {}), map[], 0, map[], 0), map[], Active, false, map[])

  /** A set of machines that no move leaves. */
  ghost predicate Closed(p: Machine -> bool) {
    forall m, move {:trigger C.Apply(m, move)} | p(m) :: p(C.Apply(m, move))
  }

  lemma Then(p: Machine -> bool, m: Machine, move: Move, next: Machine)
    requires Closed(p) && p(m) && C.Apply(m, move) == next
    ensures p(next)
  {
  }

  function Doing(m: Machine, e: Crawler.Owner, w: Crawler.Worker): Machine {
    m.(sys := m.sys.(workers := m.sys.workers[e := w]))
  }

  function Pointing(m: Machine, q: Crawler.PartitionId): Machine {
    m.(sys := m.sys.(db := m.sys.db.(job := m.sys.db.job.(current := Some(q)))), status := m.status[q := Starting])
  }

  /** A claim that takes the queued partition `q`. */
  lemma Chooses(m: Machine, e: Crawler.Owner, q: Crawler.PartitionId)
    requires Holds(m, e) && m.sys.workers[e].Claimed? && !Resumes(m) && q in m.status && m.status[q].Queued?
    requires q in m.sys.db.partitions && m.sys.db.partitions[q].cursor == ASKED
    ensures C.Apply(m, ClaimPartition(e, Some(q))) == Doing(Pointing(m, q), e, Crawler.Selected(q, ASKED))
  {
  }

  lemma Receives(m: Machine, e: Crawler.Owner, q: Crawler.PartitionId)
    requires e in m.sys.workers && m.sys.workers[e] == Crawler.Selected(q, ASKED)
    ensures C.Apply(m, Receive(e, LAST_PAGE)) == Doing(m, e, Crawler.Responded(q, ASKED, LAST_PAGE))
  {
  }

  lemma Resumed(m: Machine, e: Crawler.Owner, q: Crawler.PartitionId)
    requires Holds(m, e) && m.sys.workers[e].Claimed? && Resumes(m) && m.sys.db.job.current == Some(q)
    requires q in m.sys.db.partitions && m.sys.db.partitions[q].cursor == ASKED
    ensures C.Apply(m, ClaimPartition(e, None)) == Doing(m, e, Crawler.Selected(q, ASKED))
  {
  }

  // ------------------------------------------------- the first partition

  function ThreeRows(first: Crawler.Partition): map<Crawler.PartitionId, Crawler.Partition> {
    map[0 := first, 1 := Crawler.FreshPartition, 2 := Crawler.FreshPartition]
  }

  function Three(first: Status, second: Status, third: Status): Statuses3 {
    map[0 := first, 1 := second, 2 := third]
  }

  /** The job at partition 0, with at most that partition's page staged. */
  function Early(lease: Option<Crawler.Owner>, current: Option<Crawler.PartitionId>, workers: Workers, next: Crawler.Owner,
                 first: Status, found: Found, pages: map<Crawler.PageKey, Crawler.Page>, sheet: set<Crawler.PageKey>): Machine
  {
    Machine(Crawler.Sys(Crawler.Db(Crawler.Job(lease, current, 0, 0), ThreeRows(Crawler.FreshPartition), pages, sheet), workers, next, map[], 0),
            Three(first, Queued, Queued), Active, false, found)
  }

  function Added3(): Machine {
    Early(None, None, map[], 0, Queued, map[], map[], {})
  }

  lemma PartitionsAreAdded(p: Machine -> bool)
    requires Closed(p) && p(START)
    ensures p(Added3())
  {
    var a := C.Apply(START, NewPartition(0));
    var b := C.Apply(a, NewPartition(1));
    Then(p, START, NewPartition(0), a);
    Then(p, a, NewPartition(1), b);
    AddsThird(b);
    Then(p, b, NewPartition(2), Added3());
  }

  lemma AddsThird(b: Machine)
    requires b == C.Apply(C.Apply(START, NewPartition(0)), NewPartition(1))
    ensures C.Apply(b, NewPartition(2)) == Added3()
  {
    assert b.sys.db.partitions == map[0 := Crawler.FreshPartition, 1 := Crawler.FreshPartition];
    assert b.status == map[0 := Queued, 1 := Queued];
  }

  const LATE: Found := map[0 := Some(0)]
  const FAILING: Workers := map[0 := Crawler.Failing]

  function Failed0(): Machine {
    Early(Some(0), Some(0), FAILING, 1, Starting, LATE, map[], {})
  }

  /** Worker 0 takes partition 0, and writes its request's error down much later. */
  lemma FirstFails(p: Machine -> bool)
    requires Closed(p) && p(Added3())
    ensures p(Failed0())
  {
    var a := Early(Some(0), None, map[0 := Crawler.Claimed], 1, Queued, map[], map[], {});
    var b := Early(Some(0), Some(0), map[0 := Crawler.Selected(0, ASKED)], 1, Starting, map[], map[], {});
    Then(p, Added3(), ClaimLease, a);
    FirstChooses(a);
    Then(p, a, ClaimPartition(0, Some(0)), b);
    FindsError(b);
    Then(p, b, Fail(0), Failed0());
  }

  lemma FindsError(b: Machine)
    requires b == Early(Some(0), Some(0), map[0 := Crawler.Selected(0, ASKED)], 1, Starting, map[], map[], {})
    ensures C.Apply(b, Fail(0)) == Failed0()
  {
    assert C.Apply(b, Fail(0)).sys.workers == FAILING && C.Apply(b, Fail(0)).found == LATE;
  }

  lemma FirstChooses(a: Machine)
    requires a == Early(Some(0), None, map[0 := Crawler.Claimed], 1, Queued, map[], map[], {})
    ensures C.Apply(a, ClaimPartition(0, Some(0)))
            == Early(Some(0), Some(0), map[0 := Crawler.Selected(0, ASKED)], 1, Starting, map[], map[], {})
  {
    Chooses(a, 0, 0);
    assert a.sys.workers[0 := Crawler.Selected(0, ASKED)] == map[0 := Crawler.Selected(0, ASKED)];
    assert a.status[0 := Starting] == Three(Starting, Queued, Queued);
  }

  const K0 := Crawler.PageKey(0, Crawler.FIRST)

  function PageOf(state: Crawler.PageState, persisted: bool): Crawler.Page {
    Crawler.Page(state, 1, None, "key", false, 0, 0, 0, persisted)
  }

  function Working(w: Crawler.Worker, pages: map<Crawler.PageKey, Crawler.Page>, sheet: set<Crawler.PageKey>): Machine {
    Early(Some(1), Some(0), FAILING[1 := w], 2, Starting, LATE, pages, sheet)
  }

  lemma SecondAsks(p: Machine -> bool)
    requires Closed(p) && p(Failed0())
    ensures p(Working(Crawler.Responded(0, ASKED, LAST_PAGE), map[], {}))
  {
    var (a, b, c) := (Working(Crawler.Claimed, map[], {}), Working(Crawler.Selected(0, ASKED), map[], {}),
                      Working(Crawler.Responded(0, ASKED, LAST_PAGE), map[], {}));
    Then(p, Failed0(), ClaimLease, a);
    Resumed(a, 1, 0);
    assert a.sys.workers[1 := Crawler.Selected(0, ASKED)] == b.sys.workers;
    Then(p, a, ClaimPartition(1, None), b);
    Receives(b, 1, 0);
    assert b.sys.workers[1 := Crawler.Responded(0, ASKED, LAST_PAGE)] == c.sys.workers;
    Then(p, b, Receive(1, LAST_PAGE), c);
  }

  lemma NewPageIs()
    ensures Crawler.NewPage(ASKED, LAST_PAGE, {}) == PageOf(Crawler.Received, false)
  {
    assert Crawler.Ids([]) - {} == {};
  }

  /** Its page is staged, and its creators stored. */
  lemma SecondPutsDown(p: Machine -> bool)
    requires Closed(p) && p(Working(Crawler.Responded(0, ASKED, LAST_PAGE), map[], {}))
    ensures p(Working(Crawler.Staged(K0), map[K0 := PageOf(Crawler.Received, false)], {}))
  {
    var a := Working(Crawler.Responded(0, ASKED, LAST_PAGE), map[], {});
    var b := Working(Crawler.Staged(K0), map[K0 := PageOf(Crawler.Received, false)], {});
    NewPageIs();
    assert C.Apply(a, StagePageOf(1, {})).sys.workers == b.sys.workers;
    Then(p, a, StagePageOf(1, {}), b);
  }

  lemma SecondStages(p: Machine -> bool)
    requires Closed(p) && p(Working(Crawler.Responded(0, ASKED, LAST_PAGE), map[], {}))
    ensures p(Working(Crawler.Committing(K0, false, false), map[K0 := PageOf(Crawler.Received, false)], {}))
  {
    SecondPutsDown(p);
    var b := Working(Crawler.Staged(K0), map[K0 := PageOf(Crawler.Received, false)], {});
    var c := Working(Crawler.Committing(K0, false, false), map[K0 := PageOf(Crawler.Received, false)], {});
    assert C.Apply(b, ReadStagedPage(1)).sys.workers == c.sys.workers;
    Then(p, b, ReadStagedPage(1), c);
  }

  lemma SecondSaves(p: Machine -> bool)
    requires Closed(p) && p(Working(Crawler.Committing(K0, false, false), map[K0 := PageOf(Crawler.Received, false)], {}))
    ensures p(Working(Crawler.Committing(K0, true, false), map[K0 := PageOf(Crawler.Received, true)], {}))
  {
    var a := Working(Crawler.Committing(K0, false, false), map[K0 := PageOf(Crawler.Received, false)], {});
    var b := Working(Crawler.Committing(K0, true, false), map[K0 := PageOf(Crawler.Received, true)], {});
    assert C.Apply(a, SaveCreators(1)).sys.workers == b.sys.workers && C.Apply(a, SaveCreators(1)).sys.db.pages == b.sys.db.pages;
    Then(p, a, SaveCreators(1), b);
  }

  lemma SecondWrites(p: Machine -> bool)
    requires Closed(p) && p(Working(Crawler.Committing(K0, true, false), map[K0 := PageOf(Crawler.Received, true)], {}))
    ensures p(Working(Crawler.Committing(K0, true, true), map[K0 := PageOf(Crawler.Received, true)], {K0}))
  {
    var b := Working(Crawler.Committing(K0, true, false), map[K0 := PageOf(Crawler.Received, true)], {});
    var c := Working(Crawler.Committing(K0, true, true), map[K0 := PageOf(Crawler.Received, true)], {K0});
    assert C.Apply(b, SaveSheet(1)).sys.workers == c.sys.workers && {} + {K0} == {K0};
    Then(p, b, SaveSheet(1), c);
  }

  // ------------------------------------------------ the other partitions

  const DONE := Crawler.Partition(Crawler.Cursor(None, Some("key"), 1), 0, 0, 0, true)

  /** Partition 0 is complete. */
  function Late(lease: Option<Crawler.Owner>, current: Option<Crawler.PartitionId>, workers: Workers, next: Crawler.Owner,
                statuses: Statuses3, state: JobState, found: Found): Machine
  {
    Machine(
      Crawler.Sys(Crawler.Db(Crawler.Job(lease, current, 1, 0), ThreeRows(DONE), map[K0 := PageOf(Crawler.Committed, true)], {K0}),
                  workers, next, map[0 := [Crawler.FIRST]], 0),
      statuses, state, false, found)
  }

  function Done0(): Machine {
    Late(None, None, FAILING, 2, Three(Complete, Queued, Queued), Active, LATE)
  }

  lemma CommitsLast(a: Machine)
    requires a == Working(Crawler.Committing(K0, true, true), map[K0 := PageOf(Crawler.Received, true)], {K0})
    ensures C.Apply(a, CommitPageOf(1)) == Done0()
  {
    var b := C.Apply(a, CommitPageOf(1));
    assert Commits(a, 1) && FAILING[1 := Crawler.Committing(K0, true, true)] - {1} == FAILING;
    assert b.sys.db.pages == Done0().sys.db.pages;
    assert b.sys.db.partitions == ThreeRows(DONE);
    assert b.status == Three(Complete, Queued, Queued) && b.status[1].Queued?;
    assert Crawler.OrderOf(a.sys, 0) + [Crawler.FIRST] == [Crawler.FIRST];
    assert b.sys.order == map[0 := [Crawler.FIRST]];
  }

  lemma SecondCommits(p: Machine -> bool)
    requires Closed(p) && p(Working(Crawler.Committing(K0, true, true), map[K0 := PageOf(Crawler.Received, true)], {K0}))
    ensures p(Done0())
  {
    var a := Working(Crawler.Committing(K0, true, true), map[K0 := PageOf(Crawler.Received, true)], {K0});
    CommitsLast(a);
    Then(p, a, CommitPageOf(1), Done0());
  }

  const RESPONDED := Crawler.Responded(1, ASKED, LAST_PAGE)
  const WAITING: Workers := map[0 := Crawler.Failing, 2 := RESPONDED]

  function Third(w: Crawler.Worker): Machine {
    Late(Some(2), Some(1), FAILING[2 := w], 3, Three(Complete, Starting, Queued), Active, LATE)
  }

  lemma ThirdChooses(a: Machine)
    requires a == Late(Some(2), None, FAILING[2 := Crawler.Claimed], 3, Three(Complete, Queued, Queued), Active, LATE)
    ensures C.Apply(a, ClaimPartition(2, Some(1))) == Third(Crawler.Selected(1, ASKED))
  {
    Chooses(a, 2, 1);
    assert a.sys.workers[2 := Crawler.Selected(1, ASKED)] == FAILING[2 := Crawler.Selected(1, ASKED)];
    assert a.status[1 := Starting] == Three(Complete, Starting, Queued);
  }

  /** Worker 2 asks partition 1, and is not heard of until the job has moved on. */
  lemma ThirdAsks(p: Machine -> bool)
    requires Closed(p) && p(Done0())
    ensures p(Third(RESPONDED))
  {
    var a := Late(Some(2), None, FAILING[2 := Crawler.Claimed], 3, Three(Complete, Queued, Queued), Active, LATE);
    Then(p, Done0(), ClaimLease, a);
    ThirdChooses(a);
    Then(p, a, ClaimPartition(2, Some(1)), Third(Crawler.Selected(1, ASKED)));
    Receives(Third(Crawler.Selected(1, ASKED)), 2, 1);
    assert Third(Crawler.Selected(1, ASKED)).sys.workers[2 := RESPONDED] == FAILING[2 := RESPONDED];
    Then(p, Third(Crawler.Selected(1, ASKED)), Receive(2, LAST_PAGE), Third(RESPONDED));
  }

  const BOTH: Found := map[0 := Some(0), 3 := Some(1)]

  function Fourth(w: Crawler.Worker, found: Found): Machine {
    Late(Some(3), Some(1), WAITING[3 := w], 4, Three(Complete, Starting, Queued), Active, found)
  }

  lemma FourthAsks(p: Machine -> bool)
    requires Closed(p) && p(Third(RESPONDED))
    ensures p(Fourth(Crawler.Selected(1, ASKED), LATE))
  {
    assert FAILING[2 := RESPONDED] == WAITING;
    Then(p, Third(RESPONDED), ClaimLease, Fourth(Crawler.Claimed, LATE));
    Resumed(Fourth(Crawler.Claimed, LATE), 3, 1);
    assert Fourth(Crawler.Claimed, LATE).sys.workers[3 := Crawler.Selected(1, ASKED)] == WAITING[3 := Crawler.Selected(1, ASKED)];
    Then(p, Fourth(Crawler.Claimed, LATE), ClaimPartition(3, None), Fourth(Crawler.Selected(1, ASKED), LATE));
  }

  function Stopped3(): Machine {
    Late(None, Some(1), WAITING, 4, Three(Complete, Error, Queued), Failed, BOTH)
  }

  lemma StopsInError()
    ensures C.Apply(Fourth(Crawler.Failing, BOTH), Handle(3, Fatal)) == Stopped3()
  {
    assert WAITING[3 := Crawler.Failing] - {3} == WAITING;
    assert Three(Complete, Starting, Queued)[1 := Error] == Three(Complete, Error, Queued);
  }

  /** Worker 3 goes on with partition 1 and fails for good: partition and job are in error. */
  lemma FourthFails(p: Machine -> bool)
    requires Closed(p) && p(Fourth(Crawler.Selected(1, ASKED), LATE))
    ensures p(Stopped3())
  {
    var a := Fourth(Crawler.Selected(1, ASKED), LATE);
    assert C.Apply(a, Fail(3)).sys.workers == WAITING[3 := Crawler.Failing] && C.Apply(a, Fail(3)).found == BOTH;
    Then(p, a, Fail(3), Fourth(Crawler.Failing, BOTH));
    StopsInError();
    Then(p, Fourth(Crawler.Failing, BOTH), Handle(3, Fatal), Stopped3());
  }

  const ONE: Workers := map[2 := RESPONDED]

  function Reopened(): Machine {
    Late(Some(4), Some(1), ONE[4 := Crawler.Claimed], 5, Three(WaitingRetry, Error, Queued), Active, BOTH)
  }

  lemma LeavesOne()
    ensures With(Stopped3(), Crawler.HandleError(0)) == Late(None, Some(1), ONE, 4, Three(Complete, Error, Queued), Failed, BOTH)
  {
    assert WAITING - {0} == ONE;
  }

  lemma RetryWrites(m: Machine, e: Crawler.Owner, q: Crawler.PartitionId, next: Machine)
    requires e in m.sys.workers && m.sys.workers[e].Failing? && ReadBy(m, e) == Some(q) && With(m, Crawler.HandleError(e)) == next
    ensures C.Apply(m, Handle(e, Retry(false))) == Set(next, q, WaitingRetry).(state := Waiting, pauseRequested := false)
  {
  }

  lemma ErrorIsLate()
    ensures C.Apply(Stopped3(), Handle(0, Retry(false)))
            == Late(None, Some(1), ONE, 4, Three(WaitingRetry, Error, Queued), Waiting, BOTH)
  {
    LeavesOne();
    RetryWrites(Stopped3(), 0, 0, Late(None, Some(1), ONE, 4, Three(Complete, Error, Queued), Failed, BOTH));
    assert Three(Complete, Error, Queued)[0 := WaitingRetry] == Three(WaitingRetry, Error, Queued);
  }

  /** Worker 0 writes down its error of partition 0, which sets the job waiting; worker 4 claims it. */
  lemma LateErrorReopens(p: Machine -> bool)
    requires Closed(p) && p(Stopped3())
    ensures p(Reopened())
  {
    var a := Late(None, Some(1), ONE, 4, Three(WaitingRetry, Error, Queued), Waiting, BOTH);
    ErrorIsLate();
    Then(p, Stopped3(), Handle(0, Retry(false)), a);
    Then(p, a, ClaimLease, Reopened());
  }

  function Moved(w: Crawler.Worker): Machine {
    Late(Some(4), Some(2), ONE[4 := w], 5, Three(WaitingRetry, Error, Starting), Active, BOTH)
  }

  /** The claim that does it. */
  lemma ClaimAbandons()
    ensures Abandons(Reopened(), ClaimPartition(4, Some(2)))
  {
  }

  lemma FifthChooses()
    ensures C.Apply(Reopened(), ClaimPartition(4, Some(2))) == Moved(Crawler.Selected(2, ASKED))
  {
    Chooses(Reopened(), 4, 2);
    assert Reopened().sys.workers[4 := Crawler.Selected(2, ASKED)] == ONE[4 := Crawler.Selected(2, ASKED)];
    assert Reopened().status[2 := Starting] == Three(WaitingRetry, Error, Starting);
  }

  /** The job moves on to partition 2. */
  lemma JobMovesOn(p: Machine -> bool)
    requires Closed(p) && p(Reopened())
    ensures p(Moved(Crawler.Responded(2, ASKED, LAST_PAGE)))
  {
    FifthChooses();
    var a := Moved(Crawler.Selected(2, ASKED));
    Then(p, Reopened(), ClaimPartition(4, Some(2)), a);
    Receives(a, 4, 2);
    assert a.sys.workers[4 := Crawler.Responded(2, ASKED, LAST_PAGE)] == ONE[4 := Crawler.Responded(2, ASKED, LAST_PAGE)];
    Then(p, a, Receive(4, LAST_PAGE), Moved(Crawler.Responded(2, ASKED, LAST_PAGE)));
  }

  ghost predicate TwoReceived(m: Machine) {
    exists k, l :: k != l && k in m.sys.db.pages && l in m.sys.db.pages
                   && m.sys.db.pages[k].state.Received? && m.sys.db.pages[l].state.Received?
  }

  lemma StagedTwice(a: Machine)
    requires a == Moved(Crawler.Responded(2, ASKED, LAST_PAGE))
    ensures TwoReceived(C.Apply(C.Apply(a, StagePageOf(4, {})), StagePageOf(2, {})))
  {
    var (k, l) := (Crawler.PageKey(2, Crawler.FIRST), Crawler.PageKey(1, Crawler.FIRST));
    var b := C.Apply(a, StagePageOf(4, {}));
    assert k in b.sys.db.pages && b.sys.db.pages[k].state.Received? && l !in b.sys.db.pages && b.sys.workers[2] == RESPONDED;
    var c := C.Apply(b, StagePageOf(2, {}));
    assert c.sys.db.pages[k] == b.sys.db.pages[k] && c.sys.db.pages[l].state.Received?;
  }

  /** Both workers stage their page. */
  lemma BothStage(p: Machine -> bool)
    requires Closed(p) && p(Moved(Crawler.Responded(2, ASKED, LAST_PAGE)))
    ensures exists m :: p(m) && TwoReceived(m)
  {
    var a := Moved(Crawler.Responded(2, ASKED, LAST_PAGE));
    var b := C.Apply(a, StagePageOf(4, {}));
    Then(p, a, StagePageOf(4, {}), b);
    Then(p, b, StagePageOf(2, {}), C.Apply(b, StagePageOf(2, {})));
    StagedTwice(a);
  }

  // ----------------------------------------------------------------- result

  ghost predicate Reached(m: Machine) {
    exists moves :: C.Run(START, moves) == m
  }

  lemma {:induction false} RunExtends(m: Machine, moves: seq<Move>, move: Move)
    ensures C.Run(m, moves + [move]) == C.Apply(C.Run(m, moves), move)
    decreases |moves|
  {
    if moves == [] {
      assert ([] + [move])[0] == move && ([] + [move])[1..] == [];
      assert C.Run(C.Apply(m, move), []) == C.Apply(m, move);
    } else {
      assert (moves + [move])[0] == moves[0] && (moves + [move])[1..] == moves[1..] + [move];
      RunExtends(C.Apply(m, moves[0]), moves[1..], move);
    }
  }

  lemma ReachedIsClosed()
    ensures Closed((m: Machine) => Reached(m)) && Reached(START)
  {
    forall m, move {:trigger C.Apply(m, move)} | Reached(m) ensures Reached(C.Apply(m, move)) {
      var moves :| C.Run(START, moves) == m;
      RunExtends(START, moves, move);
    }
    assert C.Run(START, []) == START;
  }

  lemma StartIsInitial()
    ensures C.Initial(START)
  {
  }

  lemma FirstPageIsCommitted(p: Machine -> bool)
    requires Closed(p) && p(START)
    ensures p(Done0())
  {
    PartitionsAreAdded(p);
    FirstFails(p);
    SecondAsks(p);
    SecondStages(p);
    SecondSaves(p);
    SecondWrites(p);
    SecondCommits(p);
  }

  lemma JobIsReopened(p: Machine -> bool)
    requires Closed(p) && p(START)
    ensures p(Reopened())
  {
    FirstPageIsCommitted(p);
    ThirdAsks(p);
    FourthAsks(p);
    FourthFails(p);
    LateErrorReopens(p);
  }

  lemma TwoAreReached(p: Machine -> bool)
    requires Closed(p) && p(START)
    ensures exists m :: p(m) && TwoReceived(m)
  {
    JobIsReopened(p);
    JobMovesOn(p);
    BothStage(p);
  }

  lemma Shown(m: Machine)
    requires Reached(m) && TwoReceived(m)
    ensures exists moves :: TwoReceived(C.Run(START, moves))
  {
  }

  /** From the start, by the crawler's own moves, one of them an abandoning claim: a job with two received pages. */
  lemma StaleErrorStagesTwo()
    ensures C.Initial(START) && exists moves :: TwoReceived(C.Run(START, moves))
    ensures Abandons(Reopened(), ClaimPartition(4, Some(2))) && Reached(Reopened())
  {
    StartIsInitial();
    ClaimAbandons();
    ReachedIsClosed();
    var p := (m: Machine) => Reached(m);
    JobIsReopened(p);
    TwoAreReached(p);
    var m :| p(m) && TwoReceived(m);
    Shown(m);
  }
}
