/**
 * Any number of workers, duplicate and stale job runs, crashes between any two
 * transactions, operators, the expiry sweep, history imports and a provider
 * that may accept a request long after its sender died, freely interleaved.
 *
 * A step that is not enabled leaves the system as it is, so a run is any
 * sequence of steps whatever.
 */
module OutboundProtocol {
  import opened Options
  import opened OutreachDb

  type RunId = nat

  datatype Refusal = RetryLater | GiveUp | CreatorRestricted
  datatype Answer = Accepted | Refused(how: Refusal) | Ambiguous

  /** What a job run still in memory has read or done.  A run that ends or crashes is gone. */
  datatype Execution =
    | Seen(recipient: RecipientId, recover: bool)
    | Holding(recipient: RecipientId, claimedAt: int)
    | Waiting(recipient: RecipientId, claimedAt: int)
    | Answered(recipient: RecipientId, claimedAt: int, answer: Answer)
    | Reconciling(recipient: RecipientId, matched: bool)

  /** A Send Message request at the provider that was not definitely refused. */
  datatype Request = Request(recipient: RecipientId, claimedAt: int, acceptedAt: Option<int>)

  /** `claimedBy` only remembers, for the proofs, which run claimed a delivery last. */
  datatype Sys = Sys(
    db: Db, runs: map<RunId, Execution>, requests: map<RunId, Request>, clock: int,
    claimedBy: map<RecipientId, RunId>)

  datatype JobStep =
    | Begin(run: RunId, recipient: RecipientId)
    | BeginReconcile(run: RunId, recipient: RecipientId, matched: bool)
    | Claim(run: RunId)
    | FailBeforeSend(run: RunId, how: Refusal)
    | Issue(run: RunId)
    | See(run: RunId, answer: Answer)
    | End(run: RunId)
    | Crash(run: RunId)
    | Accept(request: RunId)  // the provider's own step

  datatype CampaignStep =
    | Rediscover(campaign: CampaignId, found: map<CreatorId, bool>)
    | FreezeCampaign(campaign: CampaignId, version: nat)
    | QueueCampaign(campaign: CampaignId, version: nat)
    | CancelCampaign(campaign: CampaignId)
    | SetCampaignState(campaign: CampaignId, state: CampaignState)

  datatype ContactStep =
    | ImportMessage(at: int)
    | SetDoNotContact(value: bool)
    | RebuildContact(rebuilt: Rebuilt, history: History)

  datatype Step =
    | Job(job: JobStep)
    | Campaign(change: CampaignStep)
    | Expire
    | ContactRow(key: ContactKey, update: ContactStep)
    | Tick(ms: nat)

  /** What a ledger rebuild found in the deliveries and the imported history. */
  datatype Rebuilt = Rebuilt(first: Option<int>, last: Option<int>, count: nat, latest: Option<RecipientId>, unknownFact: bool)

  /**
   * `imported` dates the deliveries whose own message was imported: it replaces the date of
   * the delivery row.  `others` are the dates of all other messages and imported facts.
   */
  datatype History = History(imported: map<RecipientId, int>, others: set<int>)

  // -------------------------------------------------------------- job steps

  function Start(s: Sys, e: RunId, r: RecipientId): Sys {
    if e in s.runs || e in s.requests || r !in s.db.deliveries then s
    else match ActionFor(s.db.deliveries[r].state)
      case Dispatch => s.(runs := s.runs[e := Seen(r, false)])
      case RecoverAsUnknown => s.(runs := s.runs[e := Seen(r, true)])
      case Skip => s
  }

  function StartReconcile(s: Sys, e: RunId, r: RecipientId, matched: bool): Sys {
    if e in s.runs || e in s.requests || r !in s.db.deliveries || !s.db.deliveries[r].state.DeliveryUnknown? then s
    else s.(runs := s.runs[e := Reconciling(r, matched)])
  }

  ghost predicate Runs(s: Sys, e: RunId) {
    e in s.runs && Known(s.db, s.runs[e].recipient)
  }

  function Drop(s: Sys, e: RunId): Sys {
    s.(runs := s.runs - {e})
  }

  ghost function ClaimSlot(s: Sys, e: RunId): Sys {
    if Runs(s, e) && s.runs[e].Seen? && !s.runs[e].recover then
      var r := s.runs[e].recipient;
      var (db, claim) := ReserveDispatchSlot(s.db, r, s.clock);
      if claim.Claimed? then s.(db := db, runs := s.runs[e := Holding(r, s.clock)], claimedBy := s.claimedBy[r := e])
      else Drop(s, e).(db := db)
    else s
  }

  function AnswerWith(s: Sys, e: RunId, answer: Answer): Sys
    requires e in s.runs && (s.runs[e].Holding? || s.runs[e].Waiting?)
  {
    s.(runs := s.runs[e := Answered(s.runs[e].recipient, s.runs[e].claimedAt, answer)])
  }

  function SendRequest(s: Sys, e: RunId): Sys {
    if e in s.runs && s.runs[e].Holding? then
      var x := s.runs[e];
      s.(runs := s.runs[e := Waiting(x.recipient, x.claimedAt)],
         requests := s.requests[e := Request(x.recipient, x.claimedAt, None)])
    else s
  }

  /** A definite refusal is honest: the request is not, and never will be, accepted. */
  function SeeAnswer(s: Sys, e: RunId, answer: Answer): Sys {
    if !(e in s.runs && s.runs[e].Waiting? && e in s.requests) then s
    else match answer
      case Accepted => if s.requests[e].acceptedAt.Some? then AnswerWith(s, e, answer) else s
      case Refused(_) =>
        if s.requests[e].acceptedAt.None? then AnswerWith(s, e, answer).(requests := s.requests - {e}) else s
      case Ambiguous => AnswerWith(s, e, answer)
  }

  function ProviderAccepts(s: Sys, e: RunId): Sys {
    if e in s.requests && s.requests[e].acceptedAt.None?
    then s.(requests := s.requests[e := s.requests[e].(acceptedAt := Some(s.clock))]) else s
  }

  /** The last transaction of a run, whatever the tables hold by then. */
  ghost function FinalWrite(db: Db, x: Execution, now: int): Db
    requires Known(db, x.recipient)
  {
    match x
    case Seen(r, recover) => if recover then MarkUnknown(db, r) else db
    case Answered(r, _, Accepted) => MarkSent(db, r, now)
    case Answered(r, _, Ambiguous) => MarkUnknown(db, r)
    case Answered(r, _, Refused(RetryLater)) => MakeRetryable(db, r)
    case Answered(r, _, Refused(GiveUp)) => MarkTerminalFailure(db, r)
    case Answered(r, _, Refused(CreatorRestricted)) => MarkRestricted(db, r)
    case Reconciling(r, matched) => if matched then MarkSent(db, r, now) else MarkUnresolved(db, r)
    case _ => db
  }

  ghost function EndRun(s: Sys, e: RunId): Sys {
    if Runs(s, e) && !s.runs[e].Holding? && !s.runs[e].Waiting?
    then Drop(s, e).(db := FinalWrite(s.db, s.runs[e], s.clock)) else s
  }

  ghost function ApplyJob(s: Sys, step: JobStep): Sys {
    match step
    case Begin(e, r) => Start(s, e, r)
    case BeginReconcile(e, r, matched) => StartReconcile(s, e, r, matched)
    case Claim(e) => ClaimSlot(s, e)
    case FailBeforeSend(e, how) => if e in s.runs && s.runs[e].Holding? then AnswerWith(s, e, Refused(how)) else s
    case Issue(e) => SendRequest(s, e)
    case See(e, answer) => SeeAnswer(s, e, answer)
    case End(e) => EndRun(s, e)
    case Crash(e) => Drop(s, e)
    case Accept(e) => ProviderAccepts(s, e)
  }

  // ------------------------------------------- campaign and contact steps

  ghost predicate AnUnknown(db: Db, k: ContactKey)
    requires ValidDb(db)
  {
    exists q :: q in db.deliveries && KeyOf(db, q) == k && Unknown(db.deliveries[q].state)
  }

  /** The latest SENT delivery of the creator, when the rebuild found one. */
  ghost predicate NamesSent(db: Db, k: ContactKey, latest: Option<RecipientId>)
    requires ValidDb(db)
  {
    latest.Some? && latest.value in db.deliveries && KeyOf(db, latest.value) == k
    && db.deliveries[latest.value].state.Sent?
  }

  ghost function Rebuild(db: Db, k: ContactKey, b: Rebuilt): Db
    requires ValidDb(db)
  {
    var c := ContactAt(db, k);
    var named := NamesSent(db, k, b.latest);
    db.(
      contacts := db.contacts[k := c.(
        firstContactedAt := b.first, lastContactedAt := b.last, contactCount := b.count,
        lastCampaign := if named then Some(b.latest.value.campaign) else c.lastCampaign,
        lastDelivery := if named then b.latest else c.lastDelivery,
        unresolvedDelivery := AnUnknown(db, k) || b.unknownFact)],
      unknownFacts := if b.unknownFact then db.unknownFacts + {k} else db.unknownFacts - {k})
  }

  /** The deliveries to the creator that are SENT. */
  ghost function SentTo(db: Db, k: ContactKey): set<RecipientId>
    requires ValidDb(db)
  {
    set r | r in db.deliveries && KeyOf(db, r) == k && db.deliveries[r].state.Sent?
  }

  function DateOf(db: Db, h: History, r: RecipientId): int
    requires r in db.deliveries
  {
    if r in h.imported then h.imported[r]
    else if db.deliveries[r].sentAt.Some? then db.deliveries[r].sentAt.value
    else if db.deliveries[r].firstDispatchedAt.Some? then db.deliveries[r].firstDispatchedAt.value
    else 0
  }

  ghost function DatesOf(db: Db, k: ContactKey, h: History): set<int>
    requires ValidDb(db)
  {
    (set r | r in SentTo(db, k) :: DateOf(db, h, r)) + h.others
  }

  /** The greatest date after the epoch, if any. */
  ghost predicate IsLatest(dates: set<int>, last: Option<int>) {
    && (last.None? ==> forall d | d in dates :: d <= 0)
    && (last.Some? ==> last.value in dates && last.value > 0 && forall d | d in dates :: d <= last.value)
  }

  /** The provider dates a message when it accepts it. */
  ghost predicate Genuine(requests: map<RunId, Request>, h: History) {
    forall e | e in requests && requests[e].acceptedAt.Some? && requests[e].recipient in h.imported ::
      h.imported[requests[e].recipient] == requests[e].acceptedAt.value
  }

  /** A rebuild writes the latest contact that the tables and the imported messages show; the rest of its record is any. */
  ghost predicate Finds(s: Sys, k: ContactKey, step: ContactStep)
    requires ValidDb(s.db)
  {
    step.RebuildContact? ==> Genuine(s.requests, step.history) && IsLatest(DatesOf(s.db, k, step.history), step.rebuilt.last)
  }

  function Later(x: Option<int>, at: int): Option<int> {
    if x.Some? && x.value > at then x else Some(at)
  }

  function Earlier(x: Option<int>, at: int): Option<int> {
    if x.Some? && x.value < at then x else Some(at)
  }

  function Import(db: Db, k: ContactKey, at: int): Db {
    var c := ContactAt(db, k);
    db.(contacts := db.contacts[k := c.(
      firstContactedAt := Earlier(c.firstContactedAt, at), lastContactedAt := Later(c.lastContactedAt, at),
      contactCount := c.contactCount + 1)])
  }

  function WithDoNotContact(db: Db, k: ContactKey, value: bool): Db {
    db.(contacts := db.contacts[k := ContactAt(db, k).(doNotContact := value)])
  }

  /** Pause, resume, safety pause and completion neither read nor write a never-queued campaign. */
  function SetState(db: Db, c: CampaignId, state: CampaignState): Db {
    if c in db.campaigns && !BeforeQueue(db.campaigns[c].state) && !BeforeQueue(state)
    then db.(campaigns := db.campaigns[c := db.campaigns[c].(state := state)]) else db
  }

  function ApplyCampaign(db: Db, step: CampaignStep, now: int): Db
    requires ValidDb(db) && step.campaign in db.campaigns
  {
    match step
    case Rediscover(c, found) => Preview(db, c, found)
    case FreezeCampaign(c, version) => Freeze(db, c, version, now)
    case QueueCampaign(c, version) => QueueFrozen(db, c, version)
    case CancelCampaign(c) => Cancel(db, c)
    case SetCampaignState(c, state) => SetState(db, c, state)
  }

  ghost function ApplyContact(db: Db, k: ContactKey, step: ContactStep): Db
    requires ValidDb(db)
  {
    match step
    case ImportMessage(at) => Import(db, k, at)
    case SetDoNotContact(value) => WithDoNotContact(db, k, value)
    case RebuildContact(b, _) => Rebuild(db, k, b)
  }

  /** Reservations of queued campaigns never lapse, so time stays before their expiry. */
  function Advance(s: Sys, ms: nat): Sys {
    if s.clock + ms < FAR_FUTURE then s.(clock := s.clock + ms) else s
  }

  ghost function Apply(s: Sys, step: Step): Sys {
    match step
    case Job(job) => ApplyJob(s, job)
    case Campaign(change) =>
      if ValidDb(s.db) && change.campaign in s.db.campaigns then s.(db := ApplyCampaign(s.db, change, s.clock)) else s
    case Expire => if ValidDb(s.db) then s.(db := ExpireFrozen(s.db, s.clock)) else s
    case ContactRow(k, update) => if ValidDb(s.db) && Finds(s, k, update) then s.(db := ApplyContact(s.db, k, update)) else s
    case Tick(ms) => Advance(s, ms)
  }

  ghost function Run(s: Sys, steps: seq<Step>): Sys
    decreases |steps|
  {
    if steps == [] then s else Run(Apply(s, steps[0]), steps[1..])
  }

  /** Campaigns not yet frozen, an idle worker pool, and contacts from before the application. */
  ghost predicate Initial(s: Sys) {
    && ValidDb(s.db)
    && s.runs == map[] && s.requests == map[] && s.claimedBy == map[]
    && s.db.deliveries == map[] && s.db.reservations == map[]
    && (forall c | c in s.db.campaigns :: BeforeQueue(s.db.campaigns[c].state) && !s.db.campaigns[c].state.Frozen?)
    && (forall r | r in s.db.recipients :: s.db.recipients[r].state.Discovered? || s.db.recipients[r].state.Selected?)
    && 0 < s.clock < FAR_FUTURE
  }

  // ------------------------------------------------------------ at most once

  predicate HoldsClaim(x: Execution) {
    x.Holding? || x.Waiting? || x.Answered?
  }

  /** The claim may still have a request at the provider. */
  predicate MayHaveSent(x: Execution) {
    x.Waiting? || (x.Answered? && !x.answer.Refused?)
  }

  ghost predicate KnownRuns(s: Sys) {
    && ValidDb(s.db)
    && (forall e | e in s.runs :: s.runs[e].recipient in s.db.deliveries)
    && (forall e | e in s.requests :: s.requests[e].recipient in s.db.deliveries)
  }

  ghost predicate OneClaim(s: Sys)
    requires KnownRuns(s)
  {
    forall e | e in s.runs && HoldsClaim(s.runs[e]) :: Claims(s, e, s.runs[e].recipient)
  }

  ghost predicate OneRequest(s: Sys)
    requires KnownRuns(s)
  {
    && (forall e | e in s.requests :: Claims(s, e, s.requests[e].recipient))
    && (forall e | e in s.requests && e in s.runs :: MayHaveSent(s.runs[e]) && s.runs[e].recipient == s.requests[e].recipient)
  }

  ghost predicate Claims(s: Sys, e: RunId, r: RecipientId)
    requires r in s.db.deliveries
  {
    r in s.claimedBy && s.claimedBy[r] == e && !Claimable(s.db.deliveries[r].state)
  }

  ghost predicate AtMostOnce(s: Sys) {
    KnownRuns(s) && OneClaim(s) && OneRequest(s)
  }

  /** Nothing becomes claimable, and no delivery disappears. */
  ghost predicate Quiet(db: Db, next: Db) {
    && ValidDb(db) && ValidDb(next) && next.terms == db.terms
    && (forall r | r in db.deliveries :: r in next.deliveries)
    && (forall r | r in db.deliveries && Claimable(next.deliveries[r].state) :: Claimable(db.deliveries[r].state))
  }

  lemma QuietMarkSent(db: Db, r: RecipientId, now: int)
    requires Known(db, r)
    ensures Quiet(db, MarkSent(db, r, now))
  {
  }

  lemma QuietMarkUnknown(db: Db, r: RecipientId)
    requires Known(db, r)
    ensures Quiet(db, MarkUnknown(db, r))
  {
  }

  lemma QuietTerminalFailure(db: Db, r: RecipientId)
    requires Known(db, r)
    ensures Quiet(db, MarkTerminalFailure(db, r))
  {
  }

  lemma QuietRestricted(db: Db, r: RecipientId)
    requires Known(db, r)
    ensures Quiet(db, MarkRestricted(db, r))
  {
  }

  lemma QuietUnresolved(db: Db, r: RecipientId)
    requires Known(db, r)
    ensures Quiet(db, MarkUnresolved(db, r))
  {
  }

  lemma QuietClaim(db: Db, r: RecipientId, now: int)
    requires Known(db, r)
    ensures var (next, claim) := ReserveDispatchSlot(db, r, now);
            Quiet(db, next) && (claim.Claimed? ==> Claimable(db.deliveries[r].state) && next.deliveries[r].state.Dispatching?)
  {
  }

  /** Every final write but the one that asks for a retry. */
  lemma QuietFinalWrite(db: Db, x: Execution, now: int)
    requires Known(db, x.recipient)
    requires !(x.Answered? && x.answer == Refused(RetryLater))
    ensures Quiet(db, FinalWrite(db, x, now))
  {
    var r := x.recipient;
    match x
    case Seen(_, _) => QuietMarkUnknown(db, r);
    case Answered(_, _, Accepted) => QuietMarkSent(db, r, now);
    case Answered(_, _, Ambiguous) => QuietMarkUnknown(db, r);
    case Answered(_, _, Refused(_)) => QuietTerminalFailure(db, r); QuietRestricted(db, r);
    case Reconciling(_, _) => QuietMarkSent(db, r, now); QuietUnresolved(db, r);
    case _ =>
  }

  lemma QuietFreeze(db: Db, c: CampaignId, version: nat, now: int)
    requires ValidDb(db) && c in db.campaigns
    ensures Quiet(db, Freeze(db, c, version, now))
  {
  }

  lemma QuietQueue(db: Db, c: CampaignId, version: nat)
    requires ValidDb(db) && c in db.campaigns
    ensures Quiet(db, QueueFrozen(db, c, version))
  {
  }

  lemma QuietCancel(db: Db, c: CampaignId)
    requires ValidDb(db) && c in db.campaigns
    ensures Quiet(db, Cancel(db, c))
  {
  }

  lemma QuietPreview(db: Db, c: CampaignId, found: map<CreatorId, bool>)
    requires ValidDb(db) && c in db.campaigns
    ensures Quiet(db, Preview(db, c, found))
  {
    var next := Preview(db, c, found);
    assert next.terms == db.terms && next.deliveries == db.deliveries;
    assert forall r | r in db.recipients :: r in next.recipients;
    forall r | r in next.recipients ensures r.campaign in db.terms {
    }
  }

  lemma QuietCampaign(db: Db, step: CampaignStep, now: int)
    requires ValidDb(db) && step.campaign in db.campaigns
    ensures Quiet(db, ApplyCampaign(db, step, now))
  {
    match step
    case Rediscover(c, found) => QuietPreview(db, c, found);
    case FreezeCampaign(c, version) => QuietFreeze(db, c, version, now);
    case QueueCampaign(c, version) => QuietQueue(db, c, version);
    case CancelCampaign(c) => QuietCancel(db, c);
    case SetCampaignState(_, _) =>
  }

  lemma QuietExpire(db: Db, now: int)
    requires ValidDb(db)
    ensures Quiet(db, ExpireFrozen(db, now))
  {
  }

  lemma QuietContact(db: Db, k: ContactKey, step: ContactStep)
    requires ValidDb(db)
    ensures Quiet(db, ApplyContact(db, k, step))
  {
  }

  lemma QuietKeepsAtMostOnce(s: Sys, next: Sys)
    requires AtMostOnce(s) && Quiet(s.db, next.db)
    requires next.requests == s.requests && next.claimedBy == s.claimedBy
    requires forall e | e in next.runs :: e in s.runs && next.runs[e] == s.runs[e]
    ensures AtMostOnce(next)
  {
  }

  lemma BeginKeepsAtMostOnce(s: Sys, e: RunId, x: Execution)
    requires AtMostOnce(s) && !HoldsClaim(x) && x.recipient in s.db.deliveries && e !in s.runs && e !in s.requests
    ensures AtMostOnce(s.(runs := s.runs[e := x]))
  {
  }

  lemma StartKeepsAtMostOnce(s: Sys, e: RunId, r: RecipientId, matched: bool)
    requires AtMostOnce(s)
    ensures AtMostOnce(Start(s, e, r)) && AtMostOnce(StartReconcile(s, e, r, matched))
  {
    if r in s.db.deliveries && e !in s.runs && e !in s.requests {
      BeginKeepsAtMostOnce(s, e, Seen(r, false));
      BeginKeepsAtMostOnce(s, e, Seen(r, true));
      BeginKeepsAtMostOnce(s, e, Reconciling(r, matched));
    }
  }

  lemma AnswerKeepsAtMostOnce(s: Sys, e: RunId, answer: Answer, how: Refusal)
    requires AtMostOnce(s)
    ensures AtMostOnce(SeeAnswer(s, e, answer))
    ensures e in s.runs && s.runs[e].Holding? ==> AtMostOnce(AnswerWith(s, e, Refused(how)))
  {
  }

  lemma SendKeepsAtMostOnce(s: Sys, e: RunId)
    requires AtMostOnce(s)
    ensures AtMostOnce(SendRequest(s, e)) && AtMostOnce(ProviderAccepts(s, e))
  {
  }

  lemma GrantKeepsAtMostOnce(s: Sys, e: RunId, db: Db)
    requires AtMostOnce(s) && Runs(s, e) && s.runs[e].Seen?
    requires Quiet(s.db, db) && Claimable(s.db.deliveries[s.runs[e].recipient].state)
    requires !Claimable(db.deliveries[s.runs[e].recipient].state)
    ensures var r := s.runs[e].recipient;
            AtMostOnce(s.(db := db, runs := s.runs[e := Holding(r, s.clock)], claimedBy := s.claimedBy[r := e]))
  {
  }

  lemma ClaimKeepsAtMostOnce(s: Sys, e: RunId)
    requires AtMostOnce(s)
    ensures AtMostOnce(ClaimSlot(s, e))
  {
    if Runs(s, e) && s.runs[e].Seen? && !s.runs[e].recover {
      var r := s.runs[e].recipient;
      var result := ReserveDispatchSlot(s.db, r, s.clock);
      QuietClaim(s.db, r, s.clock);
      if result.1.Claimed? {
        GrantKeepsAtMostOnce(s, e, result.0);
      } else {
        QuietKeepsAtMostOnce(s, Drop(s, e).(db := result.0));
      }
    }
  }

  lemma RetryKeepsAtMostOnce(s: Sys, e: RunId)
    requires AtMostOnce(s) && Runs(s, e) && s.runs[e].Answered? && s.runs[e].answer == Refused(RetryLater)
    ensures AtMostOnce(Drop(s, e).(db := MakeRetryable(s.db, s.runs[e].recipient)))
  {
  }

  lemma EndKeepsAtMostOnce(s: Sys, e: RunId)
    requires AtMostOnce(s)
    ensures AtMostOnce(EndRun(s, e))
  {
    if Runs(s, e) {
      var x := s.runs[e];
      if x.Answered? && x.answer == Refused(RetryLater) {
        RetryKeepsAtMostOnce(s, e);
      } else {
        QuietFinalWrite(s.db, x, s.clock);
        QuietKeepsAtMostOnce(s, Drop(s, e).(db := FinalWrite(s.db, x, s.clock)));
      }
    }
  }

  lemma JobKeepsAtMostOnce(s: Sys, step: JobStep)
    requires AtMostOnce(s)
    ensures AtMostOnce(ApplyJob(s, step))
  {
    match step
    case Begin(e, r) => StartKeepsAtMostOnce(s, e, r, false);
    case BeginReconcile(e, r, matched) => StartKeepsAtMostOnce(s, e, r, matched);
    case Claim(e) => ClaimKeepsAtMostOnce(s, e);
    case FailBeforeSend(e, how) => AnswerKeepsAtMostOnce(s, e, Ambiguous, how);
    case Issue(e) => SendKeepsAtMostOnce(s, e);
    case See(e, answer) => AnswerKeepsAtMostOnce(s, e, answer, RetryLater);
    case End(e) => EndKeepsAtMostOnce(s, e);
    case Crash(e) => QuietKeepsAtMostOnce(s, Drop(s, e));
    case Accept(e) => SendKeepsAtMostOnce(s, e);
  }

  lemma CampaignKeepsAtMostOnce(s: Sys, change: CampaignStep)
    requires AtMostOnce(s) && change.campaign in s.db.campaigns
    ensures AtMostOnce(s.(db := ApplyCampaign(s.db, change, s.clock)))
  {
    QuietCampaign(s.db, change, s.clock);
    QuietKeepsAtMostOnce(s, s.(db := ApplyCampaign(s.db, change, s.clock)));
  }

  lemma ExpireKeepsAtMostOnce(s: Sys)
    requires AtMostOnce(s)
    ensures AtMostOnce(s.(db := ExpireFrozen(s.db, s.clock)))
  {
    QuietExpire(s.db, s.clock);
    QuietKeepsAtMostOnce(s, s.(db := ExpireFrozen(s.db, s.clock)));
  }

  lemma ContactKeepsAtMostOnce(s: Sys, k: ContactKey, update: ContactStep)
    requires AtMostOnce(s)
    ensures AtMostOnce(s.(db := ApplyContact(s.db, k, update)))
  {
    QuietContact(s.db, k, update);
    QuietKeepsAtMostOnce(s, s.(db := ApplyContact(s.db, k, update)));
  }

  lemma TickKeepsAtMostOnce(s: Sys, ms: nat)
    requires AtMostOnce(s)
    ensures AtMostOnce(Advance(s, ms))
  {
    QuietKeepsAtMostOnce(s, Advance(s, ms));
  }

  lemma StepKeepsAtMostOnce(s: Sys, step: Step)
    requires AtMostOnce(s)
    ensures AtMostOnce(Apply(s, step))
  {
    match step
    case Job(job) => JobKeepsAtMostOnce(s, job);
    case Campaign(change) => if change.campaign in s.db.campaigns { CampaignKeepsAtMostOnce(s, change); }
    case Expire => ExpireKeepsAtMostOnce(s);
    case ContactRow(k, update) => ContactKeepsAtMostOnce(s, k, update);
    case Tick(ms) => TickKeepsAtMostOnce(s, ms);
  }

  lemma {:induction false} RunKeepsAtMostOnce(s: Sys, steps: seq<Step>)
    requires AtMostOnce(s)
    ensures AtMostOnce(Run(s, steps))
    decreases |steps|
  {
    if steps != [] {
      StepKeepsAtMostOnce(s, steps[0]);
      RunKeepsAtMostOnce(Apply(s, steps[0]), steps[1..]);
    }
  }

  /**
   * Whatever crashes, repeats or runs late, the provider accepts at most one
   * request of a delivery, and a delivery that may be claimed has none.
   */
  lemma NeverAcceptedTwice(s: Sys, steps: seq<Step>)
    requires Initial(s)
    ensures var t := Run(s, steps);
            forall e, f | e in t.requests && f in t.requests && t.requests[e].recipient == t.requests[f].recipient :: e == f
    ensures var t := Run(s, steps);
            forall e | e in t.requests :: t.requests[e].recipient in t.db.deliveries
                                          && !Claimable(t.db.deliveries[t.requests[e].recipient].state)
  {
    RunKeepsAtMostOnce(s, steps);
  }
}
