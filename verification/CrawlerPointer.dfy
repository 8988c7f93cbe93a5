/**
 * The job's pointer to one partition, and what every step keeps across partitions as
 * long as the pointer is taken off finished partitions only.
 */
module CrawlerPointer {
  import opened Options
  import opened Crawler
  import opened CrawlerRuns

  /** Who asks next asks the pointer's partition, and the pointer moves from a finished partition to an unfinished one. */
  predicate OnPointer(s: Sys, step: Step) {
    var job := s.db.job;
    match step
    case Select(e, p) => job.leaseOwner == Some(e) && job.current == Some(p)
    case PointAt(e, p) =>
      job.leaseOwner == Some(e) ==> job.current.None? && p in s.db.partitions && !s.db.partitions[p].exhausted
    case Release => job.current.Some? ==> job.current.value in s.db.partitions && s.db.partitions[job.current.value].exhausted
    case _ => true
  }

  // -------------------------------------------------------------- invariant

  /** Whoever asks or has asked a page asks the pointer's partition at its cursor, or repeats a page. */
  ghost predicate AsksPointer(db: Db, p: PartitionId, asked: Cursor) {
    KeyOf(p, asked) in db.pages || (db.job.current == Some(p) && p in db.partitions && asked == db.partitions[p].cursor)
  }

  ghost predicate WorkerAsks(db: Db, w: Worker) {
    match w
    case Selected(p, asked) => AsksPointer(db, p, asked)
    case Responded(p, asked, _) => AsksPointer(db, p, asked)
    case _ => true
  }

  ghost predicate WorkersAsk(s: Sys) {
    forall o | o in s.workers :: WorkerAsks(s.db, s.workers[o])
  }

  ghost predicate PendingAtPointer(db: Db) {
    forall k | k in db.pages && db.pages[k].state.Received? :: db.job.current == Some(k.partition)
  }

  /** The pointer is on an unfinished partition, and every partition begun and not finished is under it. */
  ghost predicate PointerOk(db: Db) {
    && (db.job.current.Some? ==> db.job.current.value in db.partitions && !db.partitions[db.job.current.value].exhausted)
    && (forall p | p in db.partitions && db.partitions[p].cursor.pagesCompleted > 0 && !db.partitions[p].exhausted ::
          db.job.current == Some(p))
  }

  ghost predicate Held(s: Sys) {
    WorkersAsk(s) && PendingAtPointer(s.db) && PointerOk(s.db) && s.missed == 0
  }

  // -------------------------------------------------------------- the steps

  ghost predicate OthersSame(s: Sys, next: Sys, e: Owner) {
    forall o | o in next.workers && o != e :: o in s.workers && next.workers[o] == s.workers[o]
  }

  lemma QuietStepHolds(s: Sys, next: Sys, e: Owner)
    requires Held(s) && OthersSame(s, next, e) && next.missed == s.missed
    requires next.db.pages == s.db.pages && next.db.partitions == s.db.partitions && next.db.job.current == s.db.job.current
    requires e in next.workers ==> WorkerAsks(next.db, next.workers[e])
    ensures Held(next)
  {
    forall o | o in next.workers ensures WorkerAsks(next.db, next.workers[o]) {
      if o != e { assert WorkerAsks(s.db, s.workers[o]); }
    }
  }

  lemma PointHolds(s: Sys, e: Owner, p: PartitionId)
    requires Held(s) && OnPointer(s, PointAt(e, p))
    ensures Held(Apply(s, PointAt(e, p)))
  {
    var next := PointJob(s, e, p);
    forall o | o in next.workers ensures WorkerAsks(next.db, next.workers[o]) {
      assert WorkerAsks(s.db, s.workers[o]);
    }
  }

  lemma StageHolds(s: Sys, e: Owner, known: set<CreatorId>)
    requires Held(s)
    ensures Held(Apply(s, Stage(e, known)))
  {
    if e in s.workers && s.workers[e].Responded? && Acceptable(s.workers[e].asked, s.workers[e].response) {
      var next, w := StageResponse(s, e, known), s.workers[e];
      assert WorkerAsks(s.db, w);
      forall o | o in next.workers ensures WorkerAsks(next.db, next.workers[o]) {
        if o != e { assert WorkerAsks(s.db, s.workers[o]); }
      }
    }
  }

  lemma PersistHolds(s: Sys, e: Owner)
    requires Held(s)
    ensures Held(Apply(s, Persist(e)))
  {
    var next := PersistCreators(s, e);
    forall o | o in next.workers ensures WorkerAsks(next.db, next.workers[o]) {
      assert WorkerAsks(s.db, s.workers[o]);
    }
  }

  lemma AddHolds(s: Sys, p: PartitionId)
    requires Held(s)
    ensures Held(Apply(s, AddPartition(p)))
  {
    var next := AddRow(s, p);
    forall o | o in next.workers ensures WorkerAsks(next.db, next.workers[o]) {
      assert WorkerAsks(s.db, s.workers[o]);
    }
  }

  /** The page a lease holder is committing is the only one received, and the pointer is on its partition. */
  lemma OnlyPending(s: Sys, e: Owner, k: PageKey)
    requires Inv(s) && Held(s) && s.db.job.leaseOwner == Some(e)
    requires e in s.workers && s.workers[e].Committing? && s.workers[e].key == k
    ensures k in s.db.pages && k.partition in s.db.partitions && s.db.job.current == Some(k.partition)
    ensures k == KeyOf(k.partition, s.db.partitions[k.partition].cursor)
    ensures forall j | j in s.db.pages && s.db.pages[j].state.Received? :: j == k
  {
    assert WorkerOk(s.db, e, s.workers[e]) && PageOk(s.db, k, OrderOf(s, k.partition));
    forall j | j in s.db.pages && s.db.pages[j].state.Received? ensures j == k {
      assert PageOk(s.db, j, OrderOf(s, j.partition));
    }
  }

  lemma LeasedCommitHolds(s: Sys, e: Owner, k: PageKey)
    requires Inv(s) && Held(s) && s.db.job.leaseOwner == Some(e)
    requires e in s.workers && s.workers[e].Committing? && s.workers[e].written && s.workers[e].key == k
    ensures Held(CommitStep(s, e))
  {
    OnlyPending(s, e, k);
    var next := CommitStep(s, e);
    forall o | o in next.workers ensures WorkerAsks(next.db, next.workers[o]) {
      assert WorkerAsks(s.db, s.workers[o]);
    }
  }

  /** A commit without the lease is only the end of its worker, if it is anything. */
  lemma LostCommitHolds(s: Sys, e: Owner)
    requires Held(s) && s.db.job.leaseOwner != Some(e)
    ensures Held(CommitStep(s, e))
  {
    QuietStepHolds(s, CommitStep(s, e), e);
  }

  lemma CommitHolds(s: Sys, e: Owner)
    requires Inv(s) && Held(s)
    ensures Held(Apply(s, Commit(e)))
  {
    if s.db.job.leaseOwner != Some(e) {
      LostCommitHolds(s, e);
    } else if e in s.workers && s.workers[e].Committing? && s.workers[e].written {
      LeasedCommitHolds(s, e, s.workers[e].key);
    }
  }

  lemma ReadHolds(s: Sys, e: Owner, k: PageKey)
    requires Held(s)
    ensures Held(ReadPage(s, e, k))
  {
    QuietStepHolds(s, ReadPage(s, e, k), e);
  }

  lemma ClaimHolds(s: Sys)
    requires Held(s)
    ensures Held(Apply(s, Claim))
  {
    QuietStepHolds(s, ClaimJob(s), s.nextOwner);
  }

  lemma SelectHolds(s: Sys, e: Owner, p: PartitionId)
    requires Held(s) && OnPointer(s, Select(e, p))
    ensures Held(Apply(s, Select(e, p)))
  {
    QuietStepHolds(s, SelectPartition(s, e, p), e);
  }

  lemma RespondHolds(s: Sys, e: Owner, r: Response)
    requires Held(s)
    ensures Held(Apply(s, Respond(e, r)))
  {
    if e in s.workers { assert WorkerAsks(s.db, s.workers[e]); }
    QuietStepHolds(s, SeeResponse(s, e, r), e);
  }

  lemma ReleaseHolds(s: Sys)
    requires Held(s) && OnPointer(s, Release)
    ensures Held(Apply(s, Release))
  {
    QuietStepHolds(s, Apply(s, Release), s.nextOwner);
  }

  lemma SheetHolds(s: Sys, e: Owner)
    requires Held(s)
    ensures Held(Apply(s, WriteSheet(e)))
  {
    QuietStepHolds(s, WritePage(s, e), e);
  }

  lemma ErrHolds(s: Sys, e: Owner)
    requires Held(s)
    ensures Held(Apply(s, Err(e)))
  {
    QuietStepHolds(s, ErrStep(s, e), e);
  }

  lemma HandlingHolds(s: Sys, e: Owner)
    requires Held(s)
    ensures Held(Apply(s, HandleError(e)))
  {
    QuietStepHolds(s, HandleErrorStep(s, e), e);
  }

  lemma CrashHolds(s: Sys, e: Owner)
    requires Held(s)
    ensures Held(Apply(s, Crash(e)))
  {
    QuietStepHolds(s, Gone(s, e), e);
  }

  lemma TakePendingHolds(s: Sys, e: Owner, k: PageKey)
    requires Held(s)
    ensures Held(Apply(s, TakePending(e, k)))
  {
    ReadHolds(s, e, k);
  }

  lemma ReadStagedHolds(s: Sys, e: Owner)
    requires Held(s)
    ensures Held(Apply(s, ReadStaged(e)))
  {
    if e in s.workers && s.workers[e].Staged? { ReadHolds(s, e, s.workers[e].key); }
  }

  lemma StepHolds(s: Sys, step: Step)
    requires Inv(s) && Held(s) && OnPointer(s, step)
    ensures Held(Apply(s, step))
  {
    match step
    case Claim => ClaimHolds(s);
    case TakePending(e, k) => TakePendingHolds(s, e, k);
    case Select(e, p) => SelectHolds(s, e, p);
    case PointAt(e, p) => PointHolds(s, e, p);
    case Release => ReleaseHolds(s);
    case Respond(e, r) => RespondHolds(s, e, r);
    case Stage(e, known) => StageHolds(s, e, known);
    case ReadStaged(e) => ReadStagedHolds(s, e);
    case Persist(e) => PersistHolds(s, e);
    case WriteSheet(e) => SheetHolds(s, e);
    case Commit(e) => CommitHolds(s, e);
    case Err(e) => ErrHolds(s, e);
    case HandleError(e) => HandlingHolds(s, e);
    case Crash(e) => CrashHolds(s, e);
    case AddPartition(p) => AddHolds(s, p);
  }
}
