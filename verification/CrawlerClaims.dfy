/**
 * Partition statuses and the job's state over the crawler's pages: how a claim finds its
 * partition, what error handlers and operators write, and when the job leaves a
 * partition before it is finished.
 */
module CrawlerClaims {
  import opened Options
  import C = Crawler
  import opened Crawler
  import opened CrawlerRuns
  import opened CrawlerPointer

  datatype Status = Queued | Starting | Running | WaitingRetry | Paused | Error | Complete
  datatype JobState = Active | Waiting | Stopped | Failed | Exhausted

  /** `found` is the pointer an error handler found in the job before it writes. */
  datatype Machine = Machine(
    sys: Sys, status: map<PartitionId, Status>, state: JobState, pauseRequested: bool, found: map<Owner, Option<PartitionId>>)

  datatype Handling = Retry(paused: bool) | Sheets(key: PageKey, paused: bool) | Fatal

  datatype Move =
    | ClaimLease
    | TakePendingPage(owner: Owner, key: PageKey)
    | ClaimPartition(owner: Owner, choice: Option<PartitionId>)
    | MarkRequest(owner: Owner)
    | Receive(owner: Owner, response: Response)
    | StagePageOf(owner: Owner, known: set<CreatorId>)
    | ReadStagedPage(owner: Owner)
    | SaveCreators(owner: Owner)
    | SaveSheet(owner: Owner)
    | CommitPageOf(owner: Owner)
    | PauseClaimed(owner: Owner)
    | Fail(owner: Owner)
    | Handle(owner: Owner, how: Handling)
    | Die(owner: Owner)
    | OperatorPause(sawLease: bool, sawCurrent: Option<PartitionId>)
    | OperatorResume(sawCurrent: Option<PartitionId>)
    | NewPartition(partition: PartitionId)

  predicate Resumable(status: Status) {
    status.Starting? || status.Running? || status.WaitingRetry? || status.Paused?
  }

  predicate Claimable(state: JobState) {
    state.Active? || state.Waiting?
  }

  function With(m: Machine, step: Step): Machine {
    m.(sys := C.Apply(m.sys, step))
  }

  function Set(m: Machine, p: PartitionId, status: Status): Machine {
    if p in m.status then m.(status := m.status[p := status]) else m
  }

  predicate Holds(m: Machine, e: Owner) {
    e in m.sys.workers && m.sys.db.job.leaseOwner == Some(e)
  }

  /** The pointer's partition, when a claim may go on with it. */
  predicate Resumes(m: Machine) {
    var current := m.sys.db.job.current;
    current.Some? && current.value in m.status && Resumable(m.status[current.value])
  }

  predicate NothingQueued(m: Machine) {
    forall p | p in m.status :: !m.status[p].Queued?
  }

  /** The scheduler may choose any queued partition, and none exactly when there is none. */
  predicate Schedules(m: Machine, choice: Option<PartitionId>) {
    if choice.Some? then choice.value in m.status && m.status[choice.value].Queued? else NothingQueued(m)
  }

  function Choose(m: Machine, e: Owner, q: PartitionId): Machine {
    With(With(m, PointAt(e, q)), Select(e, q))
  }

  /** An owner's transaction that gives the lease back and ends the run. */
  function Leave(m: Machine, e: Owner): Machine {
    With(With(m, Err(e)), HandleError(e))
  }

  /**
   * Goes on with the pointer's partition if its status allows; otherwise frees the pointer
   * and takes the scheduler's choice, any queued partition, or finds all exhausted.
   */
  function Claim_(m: Machine, e: Owner, choice: Option<PartitionId>): Machine {
    if !Holds(m, e) || !m.sys.workers[e].Claimed? then m
    else if Resumes(m) then With(m, Select(e, m.sys.db.job.current.value))
    else if !Schedules(m, choice) then m
    else if choice.Some? then Set(Choose(With(m, Release), e, choice.value), choice.value, Starting)
    else Leave(With(m, Release), e).(state := Exhausted)
  }

  predicate Commits(m: Machine, e: Owner) {
    && Holds(m, e) && m.sys.workers[e].Committing? && m.sys.workers[e].written
    && m.sys.workers[e].key in m.sys.db.pages && m.sys.workers[e].key.partition in m.sys.db.partitions
  }

  /** A pause asked for during the sheet write takes effect with the commit. */
  function CommitMove(m: Machine, e: Owner): Machine {
    var next := With(m, Commit(e));
    if !Commits(m, e) then next
    else
      var k := m.sys.workers[e].key;
      var hasMore := m.sys.db.pages[k].hasMore;
      var marked := Set(next, k.partition, if !hasMore then Complete else if m.pauseRequested then Paused else Running);
      if m.sys.db.job.current != Some(k.partition) then marked
      else marked.(
        pauseRequested := false,
        state := if m.pauseRequested then Stopped else if hasMore || !NothingQueued(marked) then Active else Exhausted)
  }

  /** The mark a pause leaves on the partition of a worker about to search. */
  function PauseMark(m: Machine, e: Owner): Machine {
    if e in m.sys.workers && m.sys.workers[e].Selected? then Set(m, m.sys.workers[e].partition, Paused) else m
  }

  /** Only the owner's job row changes; the partition is marked whoever holds the lease. */
  function PauseMove(m: Machine, e: Owner): Machine {
    if e !in m.sys.workers || !m.pauseRequested || !(m.sys.workers[e].Claimed? || m.sys.workers[e].Selected?) then m
    else if Holds(m, e) then Leave(PauseMark(m, e), e).(state := Stopped, pauseRequested := false)
    else With(PauseMark(m, e), Crash(e))
  }

  function FailMove(m: Machine, e: Owner): Machine {
    var next := With(m, Err(e));
    if Holds(m, e) then next.(found := m.found[e := m.sys.db.job.current]) else next
  }

  function ReadBy(m: Machine, e: Owner): Option<PartitionId> {
    if e in m.found then m.found[e] else None
  }

  /** The lease is not asked again: job and partition are written as they were read. */
  function HandleMove(m: Machine, e: Owner, how: Handling): Machine {
    if e !in m.sys.workers || !m.sys.workers[e].Failing? then m
    else
      var next := With(m, HandleError(e));
      var read := ReadBy(m, e);
      match how
      case Fatal => (if read.Some? then Set(next, read.value, Error) else next).(state := Failed)
      case Retry(paused) =>
        (if read.Some? then Set(next, read.value, if paused then Paused else WaitingRetry) else next)
        .(state := if paused then Stopped else Waiting, pauseRequested := false)
      case Sheets(k, paused) =>
        if k !in m.sys.db.pages || !m.sys.db.pages[k].state.Received? then m
        else Set(next, if read.Some? then read.value else k.partition, if paused then Paused else WaitingRetry)
        .(state := if paused then Stopped else Waiting, pauseRequested := false)
  }

  function PauseBy(m: Machine, sawLease: bool, sawCurrent: Option<PartitionId>): Machine {
    if sawLease then m.(pauseRequested := true)
    else
      var stopped := m.(state := Stopped, pauseRequested := false);
      if sawCurrent.Some? && sawCurrent.value in m.status
         && (m.status[sawCurrent.value].Starting? || m.status[sawCurrent.value].Running?
             || m.status[sawCurrent.value].WaitingRetry? || m.status[sawCurrent.value].Error?)
      then Set(stopped, sawCurrent.value, Paused) else stopped
  }

  function ResumeBy(m: Machine, sawCurrent: Option<PartitionId>): Machine {
    var active := m.(state := Active, pauseRequested := false);
    if sawCurrent.Some? && sawCurrent.value in m.status && (m.status[sawCurrent.value].Paused? || m.status[sawCurrent.value].Error?)
    then Set(active, sawCurrent.value, Running) else active
  }

  function Added(m: Machine, p: PartitionId): Machine {
    With(m, AddPartition(p)).(status := m.status[p := Queued])
  }

  function Apply(m: Machine, move: Move): Machine {
    match move
    case ClaimLease => if Claimable(m.state) then With(m, Claim).(state := Active) else m
    case TakePendingPage(e, k) => With(m, TakePending(e, k))
    case ClaimPartition(e, choice) => Claim_(m, e, choice)
    case MarkRequest(e) =>
      if e in m.sys.workers && m.sys.workers[e].Selected? then Set(m, m.sys.workers[e].partition, Running) else m
    case Receive(e, r) => With(m, Respond(e, r))
    case StagePageOf(e, known) => With(m, Stage(e, known))
    case ReadStagedPage(e) => With(m, ReadStaged(e))
    case SaveCreators(e) => With(m, Persist(e))
    case SaveSheet(e) => With(m, WriteSheet(e))
    case CommitPageOf(e) => CommitMove(m, e)
    case PauseClaimed(e) => PauseMove(m, e)
    case Fail(e) => FailMove(m, e)
    case Handle(e, how) => HandleMove(m, e, how)
    case Die(e) => With(m, Crash(e))
    case OperatorPause(sawLease, sawCurrent) => PauseBy(m, sawLease, sawCurrent)
    case OperatorResume(sawCurrent) => ResumeBy(m, sawCurrent)
    case NewPartition(p) => if p in m.sys.db.partitions then m else Added(m, p)
  }

  function Run(m: Machine, moves: seq<Move>): Machine
    decreases |moves|
  {
    if moves == [] then m else Run(Apply(m, moves[0]), moves[1..])
  }

  predicate Initial(m: Machine) {
    C.Initial(m.sys) && m.status == map[] && m.found == map[]
  }

  // -------------------------------------------------------------- invariant

  /** Nobody has asked for a page of the partition yet. */
  ghost predicate Untouched(s: Sys, p: PartitionId) {
    && p in s.db.partitions && !s.db.partitions[p].exhausted && s.db.job.current != Some(p)
    && (forall k | k in s.db.pages :: k.partition != p)
    && (forall e | e in s.workers :: !AsksFor(s.workers[e], p))
  }

  predicate AsksFor(w: Worker, p: PartitionId) {
    match w
    case Selected(q, _) => q == p
    case Responded(q, _, _) => q == p
    case _ => false
  }

  ghost predicate QueuedOk(m: Machine) {
    forall p {:trigger Untouched(m.sys, p)} | p in m.status && m.status[p].Queued? :: Untouched(m.sys, p)
  }

  /** The pointer's partition was claimed and is not complete. */
  ghost predicate PointedOk(m: Machine) {
    var current := m.sys.db.job.current;
    current.Some? ==> current.value in m.status && (Resumable(m.status[current.value]) || m.status[current.value].Error?)
  }

  ghost predicate Statuses(m: Machine) {
    && m.status.Keys == m.sys.db.partitions.Keys && QueuedOk(m) && PointedOk(m)
    && (forall e | e in m.found && m.found[e].Some? :: m.found[e].value in m.status && !m.status[m.found[e].value].Queued?)
  }

  ghost predicate Ok(m: Machine) {
    Inv(m.sys) && Held(m.sys) && Statuses(m)
  }

  /** The job stands at a partition that is not finished. */
  predicate Unfinished(m: Machine) {
    var job := m.sys.db.job;
    job.current.Some? && job.current.value in m.sys.db.partitions && !m.sys.db.partitions[job.current.value].exhausted
  }

  /** A claim that finds the pointer on an unfinished partition whose status it cannot resume. */
  predicate Abandons(m: Machine, move: Move) {
    && move.ClaimPartition? && Holds(m, move.owner) && m.sys.workers[move.owner].Claimed? && Schedules(m, move.choice)
    && Unfinished(m) && !Resumes(m)
  }

  // ------------------------------------------------------------- the moves

  /** Crawler steps that neither ask a page nor move the pointer keep what is said of the queue. */
  lemma UntouchedStays(s: Sys, next: Sys, p: PartitionId)
    requires Untouched(s, p) && p in next.db.partitions && next.db.partitions[p] == s.db.partitions[p]
    requires next.db.job.current == s.db.job.current || next.db.job.current.None?
    requires forall k | k in next.db.pages :: k in s.db.pages || k.partition != p
    requires forall e | e in next.workers && AsksFor(next.workers[e], p) :: e in s.workers && AsksFor(s.workers[e], p)
    ensures Untouched(next, p)
  {
  }

  /** Page work of one worker: it asks, stages, saves or reads, and leaves the pointer alone. */
  predicate PageStep(step: Step) {
    || step.Claim? || step.TakePending? || step.Respond? || step.Stage? || step.ReadStaged?
    || step.Persist? || step.WriteSheet? || step.Err? || step.HandleError? || step.Crash?
  }

  lemma LeavingKeepsUntouched(s: Sys, e: Owner, p: PartitionId)
    requires Untouched(s, p)
    ensures Untouched(ErrStep(s, e), p) && Untouched(HandleErrorStep(s, e), p) && Untouched(Gone(s, e), p)
  {
    UntouchedStays(s, ErrStep(s, e), p);
    UntouchedStays(s, HandleErrorStep(s, e), p);
    UntouchedStays(s, Gone(s, e), p);
  }

  lemma ReadingKeepsUntouched(s: Sys, e: Owner, k: PageKey, p: PartitionId)
    requires Untouched(s, p)
    ensures Untouched(ClaimJob(s), p) && Untouched(ReadPage(s, e, k), p) && Untouched(WritePage(s, e), p)
  {
    UntouchedStays(s, ClaimJob(s), p);
    UntouchedStays(s, ReadPage(s, e, k), p);
    UntouchedStays(s, WritePage(s, e), p);
  }

  lemma AskingKeepsUntouched(s: Sys, e: Owner, r: Response, known: set<CreatorId>, p: PartitionId)
    requires Untouched(s, p)
    ensures Untouched(SeeResponse(s, e, r), p) && Untouched(StageResponse(s, e, known), p) && Untouched(PersistCreators(s, e), p)
  {
    UntouchedStays(s, SeeResponse(s, e, r), p);
    UntouchedStays(s, StageResponse(s, e, known), p);
    UntouchedStays(s, PersistCreators(s, e), p);
  }

  lemma PageStepKeepsUntouched(s: Sys, step: Step, p: PartitionId)
    requires PageStep(step) && Untouched(s, p)
    ensures Untouched(C.Apply(s, step), p)
  {
    match step
    case Claim => ReadingKeepsUntouched(s, 0, PageKey(0, FIRST), p);
    case TakePending(e, k) => ReadingKeepsUntouched(s, e, k, p);
    case ReadStaged(e) => if e in s.workers && s.workers[e].Staged? { ReadingKeepsUntouched(s, e, s.workers[e].key, p); }
    case WriteSheet(e) => ReadingKeepsUntouched(s, e, PageKey(0, FIRST), p);
    case Respond(e, r) => AskingKeepsUntouched(s, e, r, {}, p);
    case Stage(e, known) => AskingKeepsUntouched(s, e, Response([], None, false, None), known, p);
    case Persist(e) => AskingKeepsUntouched(s, e, Response([], None, false, None), {}, p);
    case Err(e) => LeavingKeepsUntouched(s, e, p);
    case HandleError(e) => LeavingKeepsUntouched(s, e, p);
    case Crash(e) => LeavingKeepsUntouched(s, e, p);
    case _ =>
  }

  lemma PageStepKeepsRows(s: Sys, step: Step)
    requires PageStep(step)
    ensures C.Apply(s, step).db.partitions == s.db.partitions && C.Apply(s, step).db.job.current == s.db.job.current
  {
  }

  /** Another state of the crawler under the same statuses. */
  lemma SysKeepsStatuses(m: Machine, sys: Sys)
    requires Statuses(m) && sys.db.partitions.Keys == m.sys.db.partitions.Keys
    requires sys.db.job.current == m.sys.db.job.current || sys.db.job.current.None?
    requires forall p {:trigger Untouched(sys, p)} | p in m.status && m.status[p].Queued? :: Untouched(sys, p)
    ensures Statuses(m.(sys := sys))
  {
  }

  lemma PageStepKeepsStatuses(m: Machine, step: Step)
    requires Statuses(m) && PageStep(step)
    ensures Statuses(With(m, step)) && With(m, step).sys.db.job.current == m.sys.db.job.current
  {
    var next := C.Apply(m.sys, step);
    PageStepKeepsRows(m.sys, step);
    forall p {:trigger Untouched(next, p)} | p in m.status && m.status[p].Queued? ensures Untouched(next, p) {
      PageStepKeepsUntouched(m.sys, step, p);
    }
    SysKeepsStatuses(m, next);
  }

  lemma PageStepKeepsOk(m: Machine, step: Step)
    requires Ok(m) && PageStep(step)
    ensures Ok(With(m, step)) && With(m, step).sys.db.job.current == m.sys.db.job.current
  {
    ApplyKeepsInv(m.sys, step);
    StepHolds(m.sys, step);
    PageStepKeepsStatuses(m, step);
  }

  /** A status written over one that is not queued, nor complete under the pointer. */
  lemma SetKeepsStatuses(m: Machine, p: PartitionId, status: Status)
    requires Statuses(m) && (p in m.status ==> !m.status[p].Queued?) && !status.Queued?
    requires status.Complete? ==> m.sys.db.job.current != Some(p)
    ensures Statuses(Set(m, p, status)) && Set(m, p, status).sys == m.sys
  {
    forall q {:trigger Untouched(m.sys, q)} | q in Set(m, p, status).status && Set(m, p, status).status[q].Queued?
      ensures Untouched(m.sys, q)
    {
    }
  }

  lemma AskedIsNotQueued(m: Machine, e: Owner, p: PartitionId)
    requires Statuses(m) && e in m.sys.workers && AsksFor(m.sys.workers[e], p) && p in m.status
    ensures !m.status[p].Queued?
  {
    assert m.status[p].Queued? ==> Untouched(m.sys, p);
  }

  lemma LeavingKeepsOk(m: Machine, e: Owner)
    requires Ok(m)
    ensures Ok(Leave(m, e)) && Leave(m, e).status == m.status && Leave(m, e).sys.db.job.current == m.sys.db.job.current
  {
    PageStepKeepsOk(m, Err(e));
    PageStepKeepsOk(With(m, Err(e)), HandleError(e));
  }

  lemma ResumingKeepsStatuses(m: Machine, e: Owner, p: PartitionId)
    requires Statuses(m) && m.sys.db.job.current == Some(p)
    ensures Statuses(With(m, Select(e, p)))
  {
    var next := SelectPartition(m.sys, e, p);
    forall q {:trigger Untouched(next, q)} | q in m.status && m.status[q].Queued? ensures Untouched(next, q) {
      assert Untouched(m.sys, q);
      UntouchedStays(m.sys, next, q);
    }
    SysKeepsStatuses(m, next);
  }

  lemma ResumingKeepsOk(m: Machine, e: Owner, p: PartitionId)
    requires Ok(m) && Holds(m, e) && m.sys.db.job.current == Some(p)
    ensures Ok(With(m, Select(e, p)))
  {
    ApplyKeepsInv(m.sys, Select(e, p));
    StepHolds(m.sys, Select(e, p));
    ResumingKeepsStatuses(m, e, p);
  }

  function Chosen(s: Sys, e: Owner, q: PartitionId): Sys {
    SelectPartition(PointJob(s, e, q), e, q)
  }

  lemma ChoosingHolds(s: Sys, e: Owner, q: PartitionId)
    requires Inv(s) && Held(s) && e in s.workers && s.db.job.leaseOwner == Some(e) && s.db.job.current.None? && Untouched(s, q)
    ensures Inv(Chosen(s, e, q)) && Held(Chosen(s, e, q))
  {
    ApplyKeepsInv(s, PointAt(e, q));
    StepHolds(s, PointAt(e, q));
    ApplyKeepsInv(PointJob(s, e, q), Select(e, q));
    StepHolds(PointJob(s, e, q), Select(e, q));
  }

  lemma ChoosingKeepsUntouched(s: Sys, e: Owner, q: PartitionId, p: PartitionId)
    requires Untouched(s, p) && p != q
    ensures Untouched(Chosen(s, e, q), p)
  {
  }

  lemma ChoosingKeepsStatuses(m: Machine, e: Owner, q: PartitionId)
    requires Statuses(m) && Holds(m, e) && q in m.status && m.status[q].Queued?
    ensures Choose(m, e, q).sys == Chosen(m.sys, e, q) && Statuses(Set(Choose(m, e, q), q, Starting))
  {
    assert Untouched(m.sys, q);
    var next := Chosen(m.sys, e, q);
    forall p {:trigger Untouched(next, p)} | p in m.status && m.status[p].Queued? && p != q ensures Untouched(next, p) {
      assert Untouched(m.sys, p);
      ChoosingKeepsUntouched(m.sys, e, q, p);
    }
  }

  lemma ChoosingKeepsOk(m: Machine, e: Owner, q: PartitionId)
    requires Ok(m) && Holds(m, e) && m.sys.db.job.current.None? && q in m.status && m.status[q].Queued?
    ensures Ok(Set(Choose(m, e, q), q, Starting))
  {
    ChoosingKeepsStatuses(m, e, q);
    assert Untouched(m.sys, q);
    ChoosingHolds(m.sys, e, q);
  }

  /** Without a partition to free, freeing the pointer does nothing. */
  lemma NothingToFree(m: Machine)
    requires m.sys.db.job.current.None?
    ensures With(m, Release) == m
  {
  }

  lemma ClaimKeepsOk(m: Machine, e: Owner, choice: Option<PartitionId>)
    requires Ok(m) && !Abandons(m, ClaimPartition(e, choice))
    ensures Ok(Claim_(m, e, choice))
  {
    if Holds(m, e) && m.sys.workers[e].Claimed? {
      if Resumes(m) {
        ResumingKeepsOk(m, e, m.sys.db.job.current.value);
      } else if Schedules(m, choice) {
        assert m.sys.db.job.current.None?;
        NothingToFree(m);
        if choice.Some? { ChoosingKeepsOk(m, e, choice.value); } else { LeavingKeepsOk(m, e); }
      }
    }
  }

  /** A commit under the lease is of the pointer's partition. */
  lemma CommitIsPointed(m: Machine, e: Owner)
    requires Ok(m) && Commits(m, e)
    ensures var k := m.sys.workers[e].key;
            m.sys.db.job.current == Some(k.partition) && k.partition in m.status && !m.status[k.partition].Queued?
  {
    var k := m.sys.workers[e].key;
    OnlyPending(m.sys, e, k);
    assert m.status[k.partition].Queued? ==> Untouched(m.sys, k.partition);
  }

  lemma CommitFrees(s: Sys, e: Owner)
    ensures CommitStep(s, e).db.job.current == s.db.job.current || CommitStep(s, e).db.job.current.None?
    ensures CommitStep(s, e).db.partitions.Keys == s.db.partitions.Keys
  {
  }

  lemma CommitStepKeepsStatuses(m: Machine, e: Owner)
    requires Statuses(m)
    ensures Statuses(With(m, Commit(e)))
  {
    var next := CommitStep(m.sys, e);
    CommitFrees(m.sys, e);
    forall p {:trigger Untouched(next, p)} | p in m.status && m.status[p].Queued? ensures Untouched(next, p) {
      CommitKeepsUntouched(m.sys, e, p);
    }
    SysKeepsStatuses(m, next);
  }

  lemma CommitKeepsUntouched(s: Sys, e: Owner, p: PartitionId)
    requires Untouched(s, p)
    ensures Untouched(CommitStep(s, e), p)
  {
    UntouchedStays(s, CommitStep(s, e), p);
  }

  lemma LastCommitFrees(s: Sys, e: Owner, k: PageKey)
    requires e in s.workers && s.workers[e].Committing? && s.workers[e].written && s.workers[e].key == k
    requires s.db.job.leaseOwner == Some(e) && k in s.db.pages && k.partition in s.db.partitions && s.db.job.current == Some(k.partition)
    ensures CommitStep(s, e).db.job.current == if s.db.pages[k].hasMore then Some(k.partition) else None
  {
  }

  lemma CommitKeepsOk(m: Machine, e: Owner)
    requires Ok(m)
    ensures Ok(CommitMove(m, e))
  {
    ApplyKeepsInv(m.sys, Commit(e));
    StepHolds(m.sys, Commit(e));
    CommitStepKeepsStatuses(m, e);
    if Commits(m, e) {
      var k := m.sys.workers[e].key;
      CommitIsPointed(m, e);
      LastCommitFrees(m.sys, e, k);
      SetKeepsStatuses(With(m, Commit(e)), k.partition,
                       if !m.sys.db.pages[k].hasMore then Complete else if m.pauseRequested then Paused else Running);
    }
  }

  lemma PauseMarkKeepsStatuses(m: Machine, e: Owner)
    requires Statuses(m)
    ensures Statuses(PauseMark(m, e)) && PauseMark(m, e).sys == m.sys
  {
    if e in m.sys.workers && m.sys.workers[e].Selected? {
      var p := m.sys.workers[e].partition;
      if p in m.status { AskedIsNotQueued(m, e, p); }
      SetKeepsStatuses(m, p, Paused);
    }
  }

  lemma PausingKeepsOk(m: Machine, e: Owner)
    requires Ok(m)
    ensures Ok(PauseMove(m, e))
  {
    PauseMarkKeepsStatuses(m, e);
    LeavingKeepsOk(PauseMark(m, e), e);
    PageStepKeepsOk(PauseMark(m, e), Crash(e));
  }

  lemma FindingKeepsStatuses(m: Machine, e: Owner, had: Machine)
    requires Statuses(m) && Statuses(had) && m.sys.db.job.current == had.sys.db.job.current
    ensures Statuses(m.(found := m.found[e := had.sys.db.job.current]))
  {
  }

  lemma FailingKeepsOk(m: Machine, e: Owner)
    requires Ok(m)
    ensures Ok(FailMove(m, e))
  {
    PageStepKeepsOk(m, Err(e));
    FindingKeepsStatuses(With(m, Err(e)), e, m);
  }

  lemma HandlingKeepsOk(m: Machine, e: Owner, how: Handling)
    requires Ok(m)
    ensures Ok(HandleMove(m, e, how))
  {
    PageStepKeepsOk(m, HandleError(e));
    var next, read := With(m, HandleError(e)), ReadBy(m, e);
    if e in m.sys.workers && m.sys.workers[e].Failing? {
      match how
      case Fatal => if read.Some? { SetKeepsStatuses(next, read.value, Error); }
      case Retry(paused) => if read.Some? { SetKeepsStatuses(next, read.value, if paused then Paused else WaitingRetry); }
      case Sheets(k, paused) =>
        if k in m.sys.db.pages && m.sys.db.pages[k].state.Received? {
          PagedIsNotQueued(m, k);
          SetKeepsStatuses(next, if read.Some? then read.value else k.partition, if paused then Paused else WaitingRetry);
        }
    }
  }

  lemma PagedIsNotQueued(m: Machine, k: PageKey)
    requires Statuses(m) && k in m.sys.db.pages && k.partition in m.status
    ensures !m.status[k.partition].Queued?
  {
    assert m.status[k.partition].Queued? ==> Untouched(m.sys, k.partition);
  }

  lemma NewIsUntouched(s: Sys, p: PartitionId)
    requires Inv(s) && Held(s) && p !in s.db.partitions
    ensures Untouched(AddRow(s, p), p)
  {
    forall e | e in s.workers ensures !AsksFor(s.workers[e], p) {
      assert WorkerOk(s.db, e, s.workers[e]);
    }
  }

  lemma AddingKeepsStatuses(m: Machine, p: PartitionId)
    requires Statuses(m) && p !in m.sys.db.partitions && Untouched(AddRow(m.sys, p), p)
    ensures Statuses(Added(m, p))
  {
    var next := AddRow(m.sys, p);
    forall q {:trigger Untouched(next, q)} | q in m.status && m.status[q].Queued? ensures Untouched(next, q) {
      assert Untouched(m.sys, q);
      UntouchedStays(m.sys, next, q);
    }
    assert next.db.partitions.Keys == m.sys.db.partitions.Keys + {p};
  }

  lemma AddingKeepsOk(m: Machine, p: PartitionId)
    requires Ok(m) && p !in m.sys.db.partitions
    ensures Ok(Added(m, p))
  {
    ApplyKeepsInv(m.sys, AddPartition(p));
    StepHolds(m.sys, AddPartition(p));
    NewIsUntouched(m.sys, p);
    AddingKeepsStatuses(m, p);
  }

  lemma PausingKeepsStatuses(m: Machine, sawLease: bool, sawCurrent: Option<PartitionId>)
    requires Statuses(m)
    ensures Statuses(PauseBy(m, sawLease, sawCurrent)) && PauseBy(m, sawLease, sawCurrent).sys == m.sys
  {
    var stopped := m.(state := Stopped, pauseRequested := false);
    if sawCurrent.Some? && sawCurrent.value in m.status && !m.status[sawCurrent.value].Queued? {
      SetKeepsStatuses(stopped, sawCurrent.value, Paused);
    }
  }

  lemma ResumeKeepsStatuses(m: Machine, sawCurrent: Option<PartitionId>)
    requires Statuses(m)
    ensures Statuses(ResumeBy(m, sawCurrent)) && ResumeBy(m, sawCurrent).sys == m.sys
  {
    var active := m.(state := Active, pauseRequested := false);
    if sawCurrent.Some? && sawCurrent.value in m.status && !m.status[sawCurrent.value].Queued? {
      SetKeepsStatuses(active, sawCurrent.value, Running);
    }
  }

  lemma MarkKeepsStatuses(m: Machine, e: Owner)
    requires Statuses(m)
    ensures Statuses(Apply(m, MarkRequest(e))) && Apply(m, MarkRequest(e)).sys == m.sys
  {
    if e in m.sys.workers && m.sys.workers[e].Selected? {
      var p := m.sys.workers[e].partition;
      if p in m.status { AskedIsNotQueued(m, e, p); }
      SetKeepsStatuses(m, p, Running);
    }
  }

  /** Moves of one worker that leave lease, pointer and statuses alone. */
  predicate PageMove(move: Move) {
    || move.TakePendingPage? || move.Receive? || move.StagePageOf? || move.ReadStagedPage?
    || move.SaveCreators? || move.SaveSheet? || move.Die?
  }

  lemma PageMoveKeepsOk(m: Machine, move: Move)
    requires Ok(m) && PageMove(move)
    ensures Ok(Apply(m, move))
  {
    match move
    case TakePendingPage(e, k) => PageStepKeepsOk(m, TakePending(e, k));
    case Receive(e, r) => PageStepKeepsOk(m, Respond(e, r));
    case StagePageOf(e, known) => PageStepKeepsOk(m, Stage(e, known));
    case ReadStagedPage(e) => PageStepKeepsOk(m, ReadStaged(e));
    case SaveCreators(e) => PageStepKeepsOk(m, Persist(e));
    case SaveSheet(e) => PageStepKeepsOk(m, WriteSheet(e));
    case Die(e) => PageStepKeepsOk(m, Crash(e));
  }

  lemma LeaseKeepsOk(m: Machine)
    requires Ok(m)
    ensures Ok(Apply(m, ClaimLease))
  {
    PageStepKeepsOk(m, Claim);
  }

  /** Moves that write statuses and the job's state alone. */
  lemma StatusMoveKeepsOk(m: Machine, move: Move)
    requires Ok(m) && (move.MarkRequest? || move.OperatorPause? || move.OperatorResume?)
    ensures Ok(Apply(m, move))
  {
    match move
    case MarkRequest(e) => MarkKeepsStatuses(m, e);
    case OperatorPause(sawLease, sawCurrent) => PausingKeepsStatuses(m, sawLease, sawCurrent);
    case OperatorResume(sawCurrent) => ResumeKeepsStatuses(m, sawCurrent);
  }

  lemma MoveKeepsOk(m: Machine, move: Move)
    requires Ok(m) && !Abandons(m, move)
    ensures Ok(Apply(m, move))
  {
    match move
    case ClaimLease => LeaseKeepsOk(m);
    case ClaimPartition(e, choice) => ClaimKeepsOk(m, e, choice);
    case CommitPageOf(e) => CommitKeepsOk(m, e);
    case PauseClaimed(e) => PausingKeepsOk(m, e);
    case Fail(e) => FailingKeepsOk(m, e);
    case Handle(e, how) => HandlingKeepsOk(m, e, how);
    case NewPartition(p) => if p !in m.sys.db.partitions { AddingKeepsOk(m, p); }
    case MarkRequest(_) => StatusMoveKeepsOk(m, move);
    case OperatorPause(_, _) => StatusMoveKeepsOk(m, move);
    case OperatorResume(_) => StatusMoveKeepsOk(m, move);
    case _ => PageMoveKeepsOk(m, move);
  }

  // ---------------------------------------------------------- when it leaves

  /** Where a claim that can go through leaves the pointer. */
  lemma ClaimPoints(m: Machine, e: Owner, choice: Option<PartitionId>)
    requires Holds(m, e) && m.sys.workers[e].Claimed? && Schedules(m, choice)
    ensures Claim_(m, e, choice).sys.db.job.current == if Resumes(m) then m.sys.db.job.current else choice
  {
  }

  /**
   * In every reachable state: a claim that can go through takes the pointer off the unfinished
   * partition it stands at if and only if that partition's status cannot be resumed.
   */
  lemma ClaimLeavesExactly(m: Machine, e: Owner, choice: Option<PartitionId>)
    requires Ok(m) && Holds(m, e) && m.sys.workers[e].Claimed? && Unfinished(m) && Schedules(m, choice)
    ensures var p := m.sys.db.job.current.value;
            p in m.status && (Claim_(m, e, choice).sys.db.job.current != Some(p) <==> !Resumable(m.status[p]))
  {
    ClaimPoints(m, e, choice);
    PointedIsNotQueued(m);
  }

  lemma PointedIsNotQueued(m: Machine)
    requires Statuses(m) && Unfinished(m)
    ensures m.sys.db.job.current.value in m.status && !m.status[m.sys.db.job.current.value].Queued?
  {
  }

  ghost predicate NeverAbandons(m: Machine, moves: seq<Move>)
    decreases |moves|
  {
    moves == [] || (!Abandons(m, moves[0]) && NeverAbandons(Apply(m, moves[0]), moves[1..]))
  }

  lemma {:induction false} RunKeepsOk(m: Machine, moves: seq<Move>)
    requires Ok(m) && NeverAbandons(m, moves)
    ensures Ok(Run(m, moves))
    decreases |moves|
  {
    if moves != [] {
      MoveKeepsOk(m, moves[0]);
      RunKeepsOk(Apply(m, moves[0]), moves[1..]);
    }
  }

  lemma StartIsOk(m: Machine)
    requires Initial(m)
    ensures Ok(m)
  {
    StartIsInv(m.sys);
  }

  /**
   * As long as no claim finds the job at an unfinished partition it cannot resume, the whole job
   * has at most one received page, its counter is the number of committed pages, and no
   * partition is left half done.
   */
  lemma OnePagePending(m: Machine, moves: seq<Move>, k: PageKey, l: PageKey, p: PartitionId)
    requires Initial(m) && NeverAbandons(m, moves)
    requires var db := Run(m, moves).sys.db; k in db.pages && l in db.pages && p in db.partitions
    ensures var db := Run(m, moves).sys.db;
            && (db.pages[k].state.Received? && db.pages[l].state.Received? ==> k == l)
            && |CommittedPages(db.pages)| == db.job.pagesCompleted
            && (db.partitions[p].cursor.pagesCompleted > 0 ==> db.partitions[p].exhausted || db.job.current == Some(p))
  {
    StartIsOk(m);
    RunKeepsOk(m, moves);
    var t := Run(m, moves).sys;
    assert PageOk(t.db, k, OrderOf(t, k.partition)) && PageOk(t.db, l, OrderOf(t, l.partition));
  }

  // ------------------------------------------------- runs that never abandon

  /** An error is written down under the lease it was found under, and a resume sees the pointer as it is. */
  predicate Tidy(m: Machine, move: Move) {
    match move
    case Handle(e, _) => m.sys.db.job.leaseOwner == Some(e)
    case OperatorResume(sawCurrent) => sawCurrent == m.sys.db.job.current
    case _ => true
  }

  ghost predicate TidyRun(m: Machine, moves: seq<Move>)
    decreases |moves|
  {
    moves == [] || (Tidy(m, moves[0]) && TidyRun(Apply(m, moves[0]), moves[1..]))
  }

  /** Whenever the job may be claimed, or is, it can go on where it stands; a failing owner knows where. */
  ghost predicate Ready(m: Machine) {
    && (Claimable(m.state) || m.sys.db.job.leaseOwner.Some? ==> m.sys.db.job.current.None? || Resumes(m))
    && (forall e | e in m.sys.workers && m.sys.workers[e].Failing? && m.sys.db.job.leaseOwner == Some(e) ::
          ReadBy(m, e) == m.sys.db.job.current)
    && (forall e | e in m.sys.workers :: e < m.sys.nextOwner)
  }

  lemma ReadyMeansNoAbandon(m: Machine, move: Move)
    requires Ready(m)
    ensures !Abandons(m, move)
  {
  }

  /** The pointer stays, the lease stays or is given back, and nobody begins to fail. */
  lemma CalmKeepsReady(m: Machine, sys: Sys)
    requires Ready(m) && sys.db.job.current == m.sys.db.job.current && sys.nextOwner == m.sys.nextOwner
    requires sys.db.job.leaseOwner == m.sys.db.job.leaseOwner || sys.db.job.leaseOwner.None?
    requires forall e | e in sys.workers :: e in m.sys.workers && (sys.workers[e].Failing? ==> m.sys.workers[e].Failing?)
    ensures Ready(m.(sys := sys))
  {
  }

  lemma SetKeepsReady(m: Machine, p: PartitionId, status: Status)
    requires Ready(m) && Resumable(status)
    ensures Ready(Set(m, p, status))
  {
  }

  lemma CalmStepKeepsReady(m: Machine, step: Step)
    requires Ready(m) && PageStep(step) && !step.Claim? && !step.Err?
    ensures Ready(With(m, step))
  {
    var next := C.Apply(m.sys, step);
    PageStepKeepsRows(m.sys, step);
    assert next.nextOwner == m.sys.nextOwner;
    CalmKeepsReady(m, next);
  }

  lemma LeaveIsGone(m: Machine, e: Owner)
    requires Holds(m, e)
    ensures var next := Leave(m, e);
            && next.sys.workers == m.sys.workers - {e} && next.sys.db.job.leaseOwner.None? && next.sys.nextOwner == m.sys.nextOwner
            && next.sys.db.job.current == m.sys.db.job.current && next == m.(sys := next.sys)
  {
  }

  lemma FailKeepsReady(m: Machine, e: Owner)
    requires Ready(m)
    ensures Ready(FailMove(m, e))
  {
  }

  lemma ClaimKeepsReady(m: Machine, e: Owner, choice: Option<PartitionId>)
    requires Ready(m) && Statuses(m)
    ensures Ready(Claim_(m, e, choice))
  {
    if Holds(m, e) && m.sys.workers[e].Claimed? {
      if Resumes(m) {
        CalmKeepsReady(m, SelectPartition(m.sys, e, m.sys.db.job.current.value));
      } else if Schedules(m, choice) {
        NothingToFree(m);
        if choice.Some? { ChoosingKeepsReady(m, e, choice.value); } else { LeaveIsGone(m, e); }
      }
    }
  }

  lemma ChoosingKeepsReady(m: Machine, e: Owner, q: PartitionId)
    requires Ready(m) && Holds(m, e) && m.sys.workers[e].Claimed? && q in m.status
    ensures Ready(Set(Choose(m, e, q), q, Starting))
  {
  }

  lemma LeasedCommitKeepsReady(m: Machine, e: Owner, k: PageKey)
    requires Ready(m) && Commits(m, e) && m.sys.workers[e].key == k && m.sys.db.job.current == Some(k.partition) && k.partition in m.status
    ensures Ready(CommitMove(m, e))
  {
    LastCommitFrees(m.sys, e, k);
    LeasedCommitLeaves(m.sys, e, k);
  }

  lemma CommitKeepsReady(m: Machine, e: Owner)
    requires Ready(m) && Ok(m)
    ensures Ready(CommitMove(m, e))
  {
    if Commits(m, e) {
      CommitIsPointed(m, e);
      LeasedCommitKeepsReady(m, e, m.sys.workers[e].key);
    } else {
      StaleCommitKeepsReady(m, e);
    }
  }

  lemma StaleCommitKeepsReady(m: Machine, e: Owner)
    requires Ready(m) && !Commits(m, e)
    ensures Ready(CommitMove(m, e))
  {
    StaleCommitLeaves(m.sys, e);
    CalmKeepsReady(m, CommitStep(m.sys, e));
  }

  lemma LeasedCommitLeaves(s: Sys, e: Owner, k: PageKey)
    requires e in s.workers && s.workers[e].Committing? && s.workers[e].written && s.workers[e].key == k
    requires s.db.job.leaseOwner == Some(e) && k in s.db.pages && k.partition in s.db.partitions && s.db.job.current == Some(k.partition)
    ensures var next := CommitStep(s, e);
            next.db.job.leaseOwner.None? && next.workers == s.workers - {e} && next.nextOwner == s.nextOwner
  {
  }

  lemma StaleCommitLeaves(s: Sys, e: Owner)
    requires !(e in s.workers && s.db.job.leaseOwner == Some(e) && s.workers[e].Committing? && s.workers[e].written
               && s.workers[e].key in s.db.pages && s.workers[e].key.partition in s.db.partitions)
    ensures var next := CommitStep(s, e);
            next.db.job == s.db.job && next.nextOwner == s.nextOwner
            && forall o | o in next.workers :: o in s.workers && next.workers[o] == s.workers[o]
  {
  }

  lemma PauseMoveKeepsReady(m: Machine, e: Owner)
    requires Ready(m)
    ensures Ready(PauseMove(m, e))
  {
    if e in m.sys.workers && m.pauseRequested && (m.sys.workers[e].Claimed? || m.sys.workers[e].Selected?) {
      if m.sys.workers[e].Selected? { SetKeepsReady(m, m.sys.workers[e].partition, Paused); }
      if Holds(m, e) { LeaveIsGone(PauseMark(m, e), e); } else { CalmStepKeepsReady(PauseMark(m, e), Crash(e)); }
    }
  }

  lemma HandleKeepsReady(m: Machine, e: Owner, how: Handling)
    requires Ready(m) && Statuses(m) && Tidy(m, Handle(e, how))
    ensures Ready(HandleMove(m, e, how))
  {
    if e in m.sys.workers && m.sys.workers[e].Failing? {
      CalmStepKeepsReady(m, HandleError(e));
      assert ReadBy(m, e) == m.sys.db.job.current;
    }
  }

  lemma ResumeKeepsReady(m: Machine, sawCurrent: Option<PartitionId>)
    requires Ready(m) && Statuses(m) && sawCurrent == m.sys.db.job.current
    ensures Ready(ResumeBy(m, sawCurrent))
  {
  }

  lemma AddKeepsReady(m: Machine, p: PartitionId)
    requires Ready(m) && p !in m.sys.db.partitions && p !in m.status
    ensures Ready(Added(m, p))
  {
  }

  lemma LeaseKeepsReady(m: Machine)
    requires Ready(m)
    ensures Ready(Apply(m, ClaimLease))
  {
  }

  lemma OperatorKeepsReady(m: Machine, sawLease: bool, sawCurrent: Option<PartitionId>)
    requires Ready(m)
    ensures Ready(PauseBy(m, sawLease, sawCurrent))
  {
  }

  lemma PageMoveKeepsReady(m: Machine, move: Move)
    requires Ready(m) && PageMove(move)
    ensures Ready(Apply(m, move))
  {
    match move
    case TakePendingPage(e, k) => CalmStepKeepsReady(m, TakePending(e, k));
    case Receive(e, r) => CalmStepKeepsReady(m, Respond(e, r));
    case StagePageOf(e, known) => CalmStepKeepsReady(m, Stage(e, known));
    case ReadStagedPage(e) => CalmStepKeepsReady(m, ReadStaged(e));
    case SaveCreators(e) => CalmStepKeepsReady(m, Persist(e));
    case SaveSheet(e) => CalmStepKeepsReady(m, WriteSheet(e));
    case Die(e) => CalmStepKeepsReady(m, Crash(e));
    case _ =>
  }

  lemma MarkKeepsReady(m: Machine, e: Owner)
    requires Ready(m)
    ensures Ready(Apply(m, MarkRequest(e)))
  {
    if e in m.sys.workers && m.sys.workers[e].Selected? { SetKeepsReady(m, m.sys.workers[e].partition, Running); }
  }

  lemma TidyKeepsReady(m: Machine, move: Move)
    requires Ok(m) && Ready(m) && Tidy(m, move)
    ensures Ready(Apply(m, move))
  {
    match move
    case ClaimLease => LeaseKeepsReady(m);
    case ClaimPartition(e, choice) => ClaimKeepsReady(m, e, choice);
    case MarkRequest(e) => MarkKeepsReady(m, e);
    case CommitPageOf(e) => CommitKeepsReady(m, e);
    case PauseClaimed(e) => PauseMoveKeepsReady(m, e);
    case Fail(e) => FailKeepsReady(m, e);
    case Handle(e, how) => HandleKeepsReady(m, e, how);
    case OperatorPause(sawLease, sawCurrent) => OperatorKeepsReady(m, sawLease, sawCurrent);
    case OperatorResume(sawCurrent) => ResumeKeepsReady(m, sawCurrent);
    case NewPartition(p) => if p !in m.sys.db.partitions { AddKeepsReady(m, p); }
    case _ => PageMoveKeepsReady(m, move);
  }

  /**
   * Nothing is ever abandoned while errors are written down under the lease they were found under
   * and resumes see the pointer as it is: crashes, lost leases, stale pages, pauses and all else
   * notwithstanding.
   */
  lemma {:induction false} TidyRunsNeverAbandon(m: Machine, moves: seq<Move>)
    requires Ok(m) && Ready(m) && TidyRun(m, moves)
    ensures NeverAbandons(m, moves) && Ok(Run(m, moves)) && Ready(Run(m, moves))
    decreases |moves|
  {
    if moves != [] {
      ReadyMeansNoAbandon(m, moves[0]);
      MoveKeepsOk(m, moves[0]);
      TidyKeepsReady(m, moves[0]);
      TidyRunsNeverAbandon(Apply(m, moves[0]), moves[1..]);
    }
  }

  /** From the start, over any tidy run: one staged page for the whole job, and every begun partition finished or under the pointer. */
  lemma TidyRunsStageOne(m: Machine, moves: seq<Move>, k: PageKey, l: PageKey, p: PartitionId)
    requires Initial(m) && TidyRun(m, moves)
    requires var db := Run(m, moves).sys.db; k in db.pages && l in db.pages && p in db.partitions
    ensures var db := Run(m, moves).sys.db;
            && (db.pages[k].state.Received? && db.pages[l].state.Received? ==> k == l)
            && |CommittedPages(db.pages)| == db.job.pagesCompleted
            && (db.partitions[p].cursor.pagesCompleted > 0 ==> db.partitions[p].exhausted || db.job.current == Some(p))
  {
    StartIsOk(m);
    TidyRunsNeverAbandon(m, moves);
    OnePagePending(m, moves, k, l, p);
  }
}
