/** How a crawl ends, pauses, waits and goes on: what commits, operators and error handlers lead to. */
module CrawlerOperations {
  import opened Options
  import C = Crawler
  import opened Crawler
  import opened CrawlerClaims

  /** The owner is about to commit a page of the pointer's partition. */
  predicate CommitsAtPointer(m: Machine, e: Owner) {
    Commits(m, e) && m.sys.db.job.current == Some(m.sys.workers[e].key.partition) && m.sys.workers[e].key.partition in m.status
  }

  predicate NoOtherQueued(m: Machine, p: PartitionId) {
    forall q | q in m.status && q != p :: !m.status[q].Queued?
  }

  /** After a commit: stopped if a pause was asked for, else exhausted if this was the last page and nothing is queued. */
  lemma CommitEndsExactly(m: Machine, e: Owner)
    requires CommitsAtPointer(m, e)
    ensures var (p, page) := (m.sys.workers[e].key.partition, m.sys.db.pages[m.sys.workers[e].key]);
            var next := CrawlerClaims.Apply(m, CommitPageOf(e));
            && next.state == (if m.pauseRequested then Stopped
                              else if !page.hasMore && NoOtherQueued(m, p) then Exhausted else Active)
            && !next.pauseRequested && next.status.Keys == m.status.Keys
            && next.status[p] == (if !page.hasMore then Complete else if m.pauseRequested then Status.Paused else Running)
            && (forall q | q in m.status && q != p :: next.status[q] == m.status[q])
            && next.sys.db.job.leaseOwner.None?
            && next.sys.db.job.current == (if page.hasMore then Some(p) else None)
  {
    var p := m.sys.workers[e].key.partition;
    var next := CrawlerClaims.With(m, Commit(e));
    assert next.status == m.status;
    if !m.sys.db.pages[m.sys.workers[e].key].hasMore {
      var marked := Set(next, p, Complete);
      if NothingQueued(marked) {
        forall q | q in m.status && q != p ensures !m.status[q].Queued? {
          assert q in marked.status && marked.status[q] == m.status[q];
        }
      }
    }
  }

  /** A lease, and then the pointer's partition if its status lets a claim go on with it. */
  function Claiming(m: Machine): Machine {
    var e := m.sys.nextOwner;
    CrawlerClaims.Apply(CrawlerClaims.Apply(m, ClaimLease), ClaimPartition(e, None))
  }

  /** A crawl that stands at a partition it can go on with goes on with it, from its cursor. */
  lemma ClaimGoesOn(m: Machine, p: PartitionId)
    requires (m.state.Active? || m.state.Waiting?) && m.sys.db.job.current == Some(p) && p in m.sys.db.partitions && p in m.status
    requires m.status[p] == Starting || m.status[p] == Running || m.status[p] == WaitingRetry || m.status[p] == Status.Paused
    ensures var (e, t) := (m.sys.nextOwner, Claiming(m));
            && e in t.sys.workers && t.sys.workers[e] == Selected(p, m.sys.db.partitions[p].cursor)
            && t.sys.db.job.leaseOwner == Some(e) && t.sys.db.job.current == Some(p) && t.state.Active?
  {
    var leased := CrawlerClaims.Apply(m, ClaimLease);
    assert leased.sys.workers == m.sys.workers[m.sys.nextOwner := Worker.Claimed];
    assert Holds(leased, m.sys.nextOwner) && Resumes(leased);
  }

  /** A claim that stands at nothing it can go on with: it starts the partition the scheduler chose, or ends the crawl. */
  lemma ClaimStartsOrEnds(m: Machine, e: Owner, choice: Option<PartitionId>)
    requires Holds(m, e) && m.sys.workers[e].Claimed? && Schedules(m, choice)
    requires m.sys.db.job.current.None? && (choice.Some? ==> choice.value in m.sys.db.partitions)
    ensures var t := CrawlerClaims.Apply(m, ClaimPartition(e, choice));
            if choice.Some? then
              && e in t.sys.workers && t.sys.workers[e] == Selected(choice.value, m.sys.db.partitions[choice.value].cursor)
              && t.sys.db.job.current == choice && choice.value in t.status && t.status[choice.value] == Starting && t.state == m.state
              && t.sys.db.job.leaseOwner == Some(e)
            else t.state.Exhausted? && e !in t.sys.workers && t.sys.db.job.leaseOwner.None? && t.status == m.status
  {
    if choice.Some? {
      var released := CrawlerClaims.With(m, Release);
      assert released.sys.db.partitions == m.sys.db.partitions && released.sys.workers == m.sys.workers;
    }
  }

  /** Nobody gets the lease of a job that is stopped, failed or exhausted. */
  lemma StoppedIsNotClaimed(m: Machine)
    requires m.state.Stopped? || m.state.Failed? || m.state.Exhausted?
    ensures CrawlerClaims.Apply(m, ClaimLease) == m
  {
  }

  /** A pause asked for while a worker holds the lease takes effect at its commit, and a resume goes on at the same place. */
  lemma PauseAndResume(m: Machine, e: Owner)
    requires CommitsAtPointer(m, e) && m.sys.db.pages[m.sys.workers[e].key].hasMore
    ensures var p := m.sys.workers[e].key.partition;
            var paused := CrawlerClaims.Apply(CrawlerClaims.Apply(m, OperatorPause(true, Some(p))), CommitPageOf(e));
            var resumed := CrawlerClaims.Apply(paused, OperatorResume(Some(p)));
            && CrawlerClaims.Apply(paused, ClaimLease) == paused && paused.state.Stopped? && p in paused.status && paused.status[p] == Status.Paused
            && resumed.sys.nextOwner in Claiming(resumed).sys.workers
            && Claiming(resumed).sys.workers[resumed.sys.nextOwner] == Selected(p, paused.sys.db.partitions[p].cursor)
  {
    var p := m.sys.workers[e].key.partition;
    var asked := CrawlerClaims.Apply(m, OperatorPause(true, Some(p)));
    CommitEndsExactly(asked, e);
    var paused := CrawlerClaims.Apply(asked, CommitPageOf(e));
    StoppedIsNotClaimed(paused);
    ResumeGoesOn(paused, p);
  }

  /** Without a lease a pause stops the job and its partition at once. */
  lemma PauseStopsIdleJob(m: Machine, p: PartitionId)
    requires p in m.status && (m.status[p].Starting? || m.status[p].Running? || m.status[p].WaitingRetry? || m.status[p].Error?)
    ensures var t := CrawlerClaims.Apply(m, OperatorPause(false, Some(p)));
            t.state.Stopped? && p in t.status && t.status[p] == Status.Paused && CrawlerClaims.Apply(t, ClaimLease) == t
            && (forall q | q in m.status && q != p :: q in t.status && t.status[q] == m.status[q])
  {
  }

  /** A worker between pages obeys a pause at once; its partition waits to be resumed. */
  lemma PauseStopsWorker(m: Machine, e: Owner)
    requires m.pauseRequested && Holds(m, e) && m.sys.workers[e].Selected? && m.sys.workers[e].partition in m.status
    ensures var t := CrawlerClaims.Apply(m, PauseClaimed(e));
            && t.state.Stopped? && !t.pauseRequested && t.sys.db.job.leaseOwner.None? && e !in t.sys.workers
            && t.status[m.sys.workers[e].partition] == Status.Paused && t.sys.db.job.current == m.sys.db.job.current
  {
  }

  /** A temporary error leaves the partition to be retried, and the next claim goes on with it from the same cursor. */
  lemma RetryGoesOn(m: Machine, e: Owner, p: PartitionId)
    requires Holds(m, e) && m.sys.db.job.current == Some(p) && p in m.sys.db.partitions && p in m.status
    ensures var t := CrawlerClaims.Apply(CrawlerClaims.Apply(m, Fail(e)), Handle(e, Retry(false)));
            && t.state.Waiting? && p in t.status && t.status[p] == WaitingRetry && t.sys.nextOwner in Claiming(t).sys.workers
            && Claiming(t).sys.workers[t.sys.nextOwner] == Selected(p, m.sys.db.partitions[p].cursor)
  {
    var failed := CrawlerClaims.Apply(m, Fail(e));
    assert failed.found[e] == Some(p) && failed.sys.workers[e] == Failing && failed.sys.db == m.sys.db;
    var t := CrawlerClaims.Apply(failed, Handle(e, Retry(false)));
    assert t.sys.db.partitions == m.sys.db.partitions;
    ClaimGoesOn(t, p);
  }

  /** What a fatal error leaves: job and partition out, everything else where it was. */
  lemma FatalTakesOut(m: Machine, e: Owner, p: PartitionId)
    requires Holds(m, e) && m.sys.db.job.current == Some(p) && p in m.sys.db.partitions && p in m.status
    ensures var t := CrawlerClaims.Apply(CrawlerClaims.Apply(m, Fail(e)), Handle(e, Fatal));
            && t.state.Failed? && p in t.status && t.status[p] == Status.Error && t.sys.db.partitions == m.sys.db.partitions
            && t.sys.db.job.current == Some(p) && t.sys.db.job.leaseOwner.None?
  {
    var failed := CrawlerClaims.Apply(m, Fail(e));
    assert failed.found[e] == Some(p) && failed.sys.workers[e] == Failing && failed.sys.db == m.sys.db;
  }

  /** An operator's resume puts a failed or stopped job back at its partition. */
  lemma ResumeGoesOn(m: Machine, p: PartitionId)
    requires m.sys.db.job.current == Some(p) && p in m.sys.db.partitions && p in m.status
    requires m.status[p] == Status.Error || m.status[p] == Status.Paused
    ensures var t := CrawlerClaims.Apply(m, OperatorResume(Some(p)));
            && t.sys.nextOwner in Claiming(t).sys.workers
            && Claiming(t).sys.workers[t.sys.nextOwner] == Selected(p, m.sys.db.partitions[p].cursor)
  {
    ClaimGoesOn(CrawlerClaims.Apply(m, OperatorResume(Some(p))), p);
  }

  /** A fatal error takes the job and its partition out until an operator resumes them; then the crawl goes on where it was. */
  lemma FatalWaitsForOperator(m: Machine, e: Owner, p: PartitionId)
    requires Holds(m, e) && m.sys.db.job.current == Some(p) && p in m.sys.db.partitions && p in m.status
    ensures var t := CrawlerClaims.Apply(CrawlerClaims.Apply(m, Fail(e)), Handle(e, Fatal));
            var resumed := CrawlerClaims.Apply(t, OperatorResume(Some(p)));
            && CrawlerClaims.Apply(t, ClaimLease) == t
            && resumed.sys.nextOwner in Claiming(resumed).sys.workers
            && Claiming(resumed).sys.workers[resumed.sys.nextOwner] == Selected(p, m.sys.db.partitions[p].cursor)
  {
    FatalTakesOut(m, e, p);
    var t := CrawlerClaims.Apply(CrawlerClaims.Apply(m, Fail(e)), Handle(e, Fatal));
    StoppedIsNotClaimed(t);
    ResumeGoesOn(t, p);
  }
}
