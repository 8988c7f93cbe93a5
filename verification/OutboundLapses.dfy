/**
 * Why the cooldown's two conditions are needed: for each a run from an initial state in
 * which the other is not broken, and which ends with two messages to one creator accepted in
 * the same millisecond, under a cooldown of a day.
 */
module OutboundLapses {
  import opened Options
  import opened OutreachDb
  import opened OutboundProtocol
  import opened OutboundSafety
  import opened OutboundSpacing
  import opened OutboundCooldown
  import opened OutboundScenes

  datatype Lapse = GivesUpLate | MatchesUnsent | NoLapse

  /** The one kind of step a run may take although it is not benign. */
  ghost predicate Lapses(s: Sys, step: Step, lapse: Lapse) {
    match lapse
    case GivesUpLate => EndsReconciling(s, step, false)
    case MatchesUnsent => EndsReconciling(s, step, true)
    case NoLapse => false
  }

  ghost predicate EndsReconciling(s: Sys, step: Step, matched: bool) {
    && step.Job? && step.job.End? && Runs(s, step.job.run)
    && s.runs[step.job.run].Reconciling? && s.runs[step.job.run].matched == matched
  }

  ghost predicate BenignBut(s: Sys, steps: seq<Step>, lapse: Lapse)
    decreases |steps|
  {
    steps == [] || ((Benign(s, steps[0]) || Lapses(s, steps[0], lapse)) && BenignBut(Apply(s, steps[0]), steps[1..], lapse))
  }

  /** Some run with no other lapse leads from `s` to `t`. */
  ghost predicate Leads(s: Sys, t: Sys, lapse: Lapse) {
    exists steps :: BenignBut(s, steps, lapse) && Run(s, steps) == t
  }

  lemma {:induction false} RunExtends(s: Sys, steps: seq<Step>, step: Step, lapse: Lapse)
    requires BenignBut(s, steps, lapse)
    requires Benign(Run(s, steps), step) || Lapses(Run(s, steps), step, lapse)
    ensures BenignBut(s, steps + [step], lapse) && Run(s, steps + [step]) == Apply(Run(s, steps), step)
    decreases |steps|
  {
    if steps == [] {
      assert ([] + [step])[0] == step && ([] + [step])[1..] == [];
      assert Run(Apply(s, step), []) == Apply(s, step);
    } else {
      assert (steps + [step])[0] == steps[0] && (steps + [step])[1..] == steps[1..] + [step];
      RunExtends(Apply(s, steps[0]), steps[1..], step, lapse);
    }
  }

  lemma LeadsOn(s: Sys, t: Sys, step: Step, lapse: Lapse)
    requires Leads(s, t, lapse) && (Benign(t, step) || Lapses(t, step, lapse))
    ensures Leads(s, Apply(t, step), lapse)
  {
    var steps :| BenignBut(s, steps, lapse) && Run(s, steps) == t;
    RunExtends(s, steps, step, lapse);
  }

  // ------------------------------------------------------------- the worlds

  /** A scene with the workers and the provider around it. */
  datatype World = World(
    x: Scene, runs: map<RunId, Execution>, requests: map<RunId, Request>, clock: int,
    claimedBy: map<RecipientId, RunId>)

  function SysOf(w: World): Sys {
    Sys(Show(w.x), w.runs, w.requests, w.clock, w.claimedBy)
  }

  /** One step, benign or the lapse of the run. */
  ghost predicate Goes(w: World, step: Step, next: World, lapse: Lapse) {
    ValidScene(next.x) && Apply(SysOf(w), step) == SysOf(next) && (Benign(SysOf(w), step) || Lapses(SysOf(w), step, lapse))
  }

  /** A set of worlds that no such step leaves. */
  ghost predicate Closed(p: World -> bool, lapse: Lapse) {
    && (forall w :: p(w) ==> ValidScene(w.x))
    && (forall w, step, next {:trigger Goes(w, step, next, lapse)} | p(w) && Goes(w, step, next, lapse) :: p(next))
  }

  lemma Then(p: World -> bool, w: World, step: Step, next: World, lapse: Lapse)
    requires Closed(p, lapse) && p(w) && ValidScene(next.x)
    requires Apply(SysOf(w), step) == SysOf(next) && (Benign(SysOf(w), step) || Lapses(SysOf(w), step, lapse))
    ensures p(next)
  {
    assert Goes(w, step, next, lapse);
  }

  function With(w: World, e: RunId, x: Execution): World {
    w.(runs := w.runs[e := x])
  }

  function Ended(w: World, e: RunId, x: Scene): World {
    w.(x := x, runs := w.runs - {e})
  }

  predicate New(w: World, e: RunId) {
    e !in w.runs && e !in w.requests
  }

  // ------------------------------------------------------- up to the claim

  lemma ThenFreezes(p: World -> bool, w: World, c: CampaignId, lapse: Lapse)
    requires Closed(p, lapse) && p(w) && Previewed(w.x, c) && Free(w.x, w.clock)
    ensures p(w.(x := FrozenScene(w.x, c, w.clock)))
  {
    FreezeShows(w.x, c, w.clock);
    Then(p, w, Campaign(FreezeCampaign(c, 0)), w.(x := FrozenScene(w.x, c, w.clock)), lapse);
  }

  lemma ThenQueues(p: World -> bool, w: World, c: CampaignId, lapse: Lapse)
    requires Closed(p, lapse) && p(w.(x := FrozenScene(w.x, c, w.clock))) && ValidScene(w.x) && Previewed(w.x, c)
    ensures p(w.(x := QueuedScene(w.x, c, w.clock)))
  {
    QueueShows(w.x, c, w.clock);
    Then(p, w.(x := FrozenScene(w.x, c, w.clock)), Campaign(QueueCampaign(c, 1)), w.(x := QueuedScene(w.x, c, w.clock)), lapse);
  }

  /** A job of a delivery already being dispatched recovers it as unknown. */
  lemma ThenBegins(p: World -> bool, w: World, c: CampaignId, e: RunId, lapse: Lapse)
    requires Closed(p, lapse) && p(w) && HasDelivery(w.x, c) && New(w, e)
    requires Claimable(RowOf(w.x, c).state) || RowOf(w.x, c).state.Dispatching?
    ensures p(With(w, e, Seen(R(c), RowOf(w.x, c).state.Dispatching?)))
  {
    KnownShows(w.x, c);
    Then(p, w, Job(Begin(e, R(c))), With(w, e, Seen(R(c), RowOf(w.x, c).state.Dispatching?)), lapse);
  }

  function Held(w: World, c: CampaignId, e: RunId): World
    requires HasDelivery(w.x, c)
  {
    With(w, e, Holding(R(c), w.clock)).(
      x := ClaimedScene(w.x, c, w.clock), claimedBy := w.claimedBy[R(c) := e])
  }

  lemma ThenClaims(p: World -> bool, w: World, c: CampaignId, e: RunId, lapse: Lapse)
    requires Closed(p, lapse) && p(w) && e in w.runs && w.runs[e] == Seen(R(c), false)
    requires HasDelivery(w.x, c) && Claimable(RowOf(w.x, c).state) && Sendable(w.x.sides[c].campaign.state) && Clear(w.x, c, w.clock)
    ensures p(Held(w, c, e))
  {
    ClaimShows(w.x, c, w.clock);
    Then(p, w, Job(Claim(e)), Held(w, c, e), lapse);
  }

  /** A campaign sends its creator up to the claim: freeze, queue, job, claim. */
  function Claiming(w: World, c: CampaignId, e: RunId): World {
    var row := DeliveryRow(Dispatching, Some(w.clock), 1, None);
    w.(x := w.x.(sides := w.x.sides[c := Side(CampaignRow(Running, 2, Some(w.clock + FREEZE_MS)), Processing, Some(row))],
                 reservation := Some(Reservation(R(c), FAR_FUTURE))),
       runs := w.runs[e := Holding(R(c), w.clock)], claimedBy := w.claimedBy[R(c) := e])
  }

  function Begun(w: World, c: CampaignId, e: RunId): World {
    With(w.(x := QueuedScene(w.x, c, w.clock)), e, Seen(R(c), false))
  }

  lemma ClaimingClaims(w: World, c: CampaignId, e: RunId)
    requires Previewed(w.x, c) && Free(w.x, w.clock) && w.clock < FAR_FUTURE
    ensures var b := Begun(w, c, e);
            && HasDelivery(b.x, c) && Claimable(RowOf(b.x, c).state) && Sendable(b.x.sides[c].campaign.state) && Clear(b.x, c, w.clock)
            && Held(b, c, e) == Claiming(w, c, e)
  {
    var b := Begun(w, c, e);
    assert b.runs[e := Holding(R(c), w.clock)] == w.runs[e := Holding(R(c), w.clock)];
    assert ClaimedScene(b.x, c, w.clock).sides == Claiming(w, c, e).x.sides;
  }

  lemma ThenSendsFor(p: World -> bool, w: World, c: CampaignId, e: RunId, lapse: Lapse)
    requires Closed(p, lapse) && p(w) && Previewed(w.x, c) && Free(w.x, w.clock) && New(w, e) && w.clock < FAR_FUTURE
    ensures p(Claiming(w, c, e))
  {
    ThenFreezes(p, w, c, lapse);
    ThenQueues(p, w, c, lapse);
    ThenBegins(p, w.(x := QueuedScene(w.x, c, w.clock)), c, e, lapse);
    ClaimingClaims(w, c, e);
    ThenClaims(p, Begun(w, c, e), c, e, lapse);
  }

  // ---------------------------------------------------------- the provider

  function Issuing(w: World, e: RunId): World
    requires e in w.runs && w.runs[e].Holding?
  {
    var h := w.runs[e];
    With(w, e, Waiting(h.recipient, h.claimedAt)).(requests := w.requests[e := Request(h.recipient, h.claimedAt, None)])
  }

  lemma ThenIssues(p: World -> bool, w: World, e: RunId, lapse: Lapse)
    requires Closed(p, lapse) && p(w) && e in w.runs && w.runs[e].Holding?
    ensures p(Issuing(w, e))
  {
    Then(p, w, Job(Issue(e)), Issuing(w, e), lapse);
  }

  function Accepting(w: World, e: RunId): World
    requires e in w.requests
  {
    w.(requests := w.requests[e := w.requests[e].(acceptedAt := Some(w.clock))])
  }

  lemma ThenAccepts(p: World -> bool, w: World, e: RunId, lapse: Lapse)
    requires Closed(p, lapse) && p(w) && e in w.requests && w.requests[e].acceptedAt.None?
    ensures p(Accepting(w, e))
  {
    Then(p, w, Job(Accept(e)), Accepting(w, e), lapse);
  }

  lemma ThenIsAccepted(p: World -> bool, w: World, e: RunId, lapse: Lapse)
    requires Closed(p, lapse) && p(w) && e in w.runs && w.runs[e].Holding?
    ensures p(Accepting(Issuing(w, e), e))
  {
    ThenIssues(p, w, e, lapse);
    ThenAccepts(p, Issuing(w, e), e, lapse);
  }

  function Answering(w: World, e: RunId, answer: Answer): World
    requires e in w.runs && (w.runs[e].Waiting? || w.runs[e].Holding?)
  {
    With(w, e, Answered(w.runs[e].recipient, w.runs[e].claimedAt, answer))
  }

  lemma ThenSees(p: World -> bool, w: World, e: RunId, answer: Answer, lapse: Lapse)
    requires Closed(p, lapse) && p(w) && e in w.runs && w.runs[e].Waiting? && e in w.requests && !answer.Refused?
    requires answer.Accepted? ==> w.requests[e].acceptedAt.Some?
    ensures p(Answering(w, e, answer))
  {
    Then(p, w, Job(See(e, answer)), Answering(w, e, answer), lapse);
  }

  lemma ThenFails(p: World -> bool, w: World, e: RunId, lapse: Lapse)
    requires Closed(p, lapse) && p(w) && e in w.runs && w.runs[e].Holding?
    ensures p(Answering(w, e, Refused(RetryLater)))
  {
    Then(p, w, Job(FailBeforeSend(e, RetryLater)), Answering(w, e, Refused(RetryLater)), lapse);
  }

  lemma ThenReconciles(p: World -> bool, w: World, c: CampaignId, e: RunId, matched: bool, lapse: Lapse)
    requires Closed(p, lapse) && p(w) && HasDelivery(w.x, c) && RowOf(w.x, c).state.DeliveryUnknown? && New(w, e)
    ensures p(With(w, e, Reconciling(R(c), matched)))
  {
    KnownShows(w.x, c);
    Then(p, w, Job(BeginReconcile(e, R(c), matched)), With(w, e, Reconciling(R(c), matched)), lapse);
  }

  function Later(w: World, ms: nat): World {
    w.(clock := w.clock + ms)
  }

  lemma ThenTicks(p: World -> bool, w: World, ms: nat, lapse: Lapse)
    requires Closed(p, lapse) && p(w) && w.clock + ms < FAR_FUTURE
    ensures p(Later(w, ms))
  {
    Then(p, w, Tick(ms), Later(w, ms), lapse);
  }

  // ------------------------------------------------------ how a run ends

  predicate EndsOn(w: World, c: CampaignId, e: RunId) {
    HasDelivery(w.x, c) && e in w.runs && w.runs[e].recipient == R(c) && !w.runs[e].Holding? && !w.runs[e].Waiting?
  }

  lemma EndApplies(s: Sys, e: RunId, db: Db)
    requires Runs(s, e) && !s.runs[e].Holding? && !s.runs[e].Waiting? && FinalWrite(s.db, s.runs[e], s.clock) == db
    ensures Apply(s, Job(End(e))) == Drop(s, e).(db := db)
  {
  }

  lemma ThenEnds(p: World -> bool, w: World, c: CampaignId, e: RunId, y: Scene, lapse: Lapse)
    requires Closed(p, lapse) && p(w) && EndsOn(w, c, e) && Known(Show(w.x), R(c)) && ValidScene(y)
    requires FinalWrite(Show(w.x), w.runs[e], w.clock) == Show(y)
    requires Benign(SysOf(w), Job(End(e))) || Lapses(SysOf(w), Job(End(e)), lapse)
    ensures p(Ended(w, e, y))
  {
    EndApplies(SysOf(w), e, Show(y));
    Then(p, w, Job(End(e)), Ended(w, e, y), lapse);
  }

  lemma ThenEndsUnknown(p: World -> bool, w: World, c: CampaignId, e: RunId, lapse: Lapse)
    requires Closed(p, lapse) && p(w) && EndsOn(w, c, e)
    requires (w.runs[e].Seen? && w.runs[e].recover) || (w.runs[e].Answered? && w.runs[e].answer.Ambiguous?)
    ensures p(Ended(w, e, Unknowing(w.x, c)))
  {
    UnknownShows(w.x, c);
    ThenEnds(p, w, c, e, Unknowing(w.x, c), lapse);
  }

  lemma ThenEndsRetryable(p: World -> bool, w: World, c: CampaignId, e: RunId, lapse: Lapse)
    requires Closed(p, lapse) && p(w) && EndsOn(w, c, e) && w.runs[e].Answered? && w.runs[e].answer == Refused(RetryLater)
    ensures p(Ended(w, e, Retried(w.x, c)))
  {
    RetryShows(w.x, c);
    ThenEnds(p, w, c, e, Retried(w.x, c), lapse);
  }

  /** The provider accepted the last claim's request for the delivery. */
  predicate WasAccepted(w: World, c: CampaignId) {
    R(c) in w.claimedBy && w.claimedBy[R(c)] in w.requests
    && w.requests[w.claimedBy[R(c)]].recipient == R(c) && w.requests[w.claimedBy[R(c)]].acceptedAt.Some?
  }

  /** An accepted answer, or a match; the match is of an accepted message or the lapse of the run. */
  lemma ThenEndsSent(p: World -> bool, w: World, c: CampaignId, e: RunId, lapse: Lapse)
    requires Closed(p, lapse) && p(w) && EndsOn(w, c, e)
    requires (w.runs[e].Answered? && w.runs[e].answer.Accepted?) || (w.runs[e].Reconciling? && w.runs[e].matched)
    requires w.runs[e].Reconciling? ==> lapse.MatchesUnsent? || WasAccepted(w, c)
    ensures p(Ended(w, e, Sending(w.x, c, w.clock)))
  {
    SentShows(w.x, c, w.clock);
    ThenEnds(p, w, c, e, Sending(w.x, c, w.clock), lapse);
  }

  lemma ThenGivesUp(p: World -> bool, w: World, c: CampaignId, e: RunId)
    requires Closed(p, GivesUpLate) && p(w) && EndsOn(w, c, e) && w.runs[e] == Reconciling(R(c), false)
    ensures p(Ended(w, e, GivenUp(w.x, c)))
  {
    GiveUpShows(w.x, c);
    ThenEnds(p, w, c, e, GivenUp(w.x, c), GivesUpLate);
  }

  // ------------------------------------------------------------ the start

  const PREVIEWED := Side(CampaignRow(PreviewReady, 0, None), Selected, None)

  function Sides(first: Side, second: Side, third: Side): map<CampaignId, Side> {
    map[0 := first, 1 := second, 2 := third]
  }

  lemma OtherSides(a: Side, b: Side, c: Side, d: Side)
    ensures Sides(a, b, c)[0 := d] == Sides(d, b, c) && Sides(a, b, c)[1 := d] == Sides(a, d, c)
  {
  }

  lemma NoneUnknown(x: Scene, first: Side, second: Side)
    requires x.sides == Sides(first, second, PREVIEWED)
    requires second.delivery.Some? ==> !Unknown(second.delivery.value.state)
    ensures !UnknownElse(x, 0)
  {
  }

  /** When the runs start, and a day later. */
  const DAWN: int := 1
  const NEXT_DAY: int := DAWN + DAY_MS

  /** Three previewed campaigns with the same one creator, whom nobody has contacted. */
  function Start(): World {
    World(Scene(Sides(PREVIEWED, PREVIEWED, PREVIEWED), None, NoContact), map[], map[], DAWN, map[])
  }

  lemma StartTables()
    ensures var db := Show(Start().x);
            && db.deliveries == map[] && db.reservations == map[] && db.contacts == map[K := NoContact]
            && (forall c | c in db.campaigns :: db.campaigns[c].state.PreviewReady?)
            && (forall r | r in db.recipients :: db.recipients[r].state.Selected?)
  {
    assert WithRows(Start().x.sides) == {};
  }

  lemma StartIsInitial()
    ensures Initial(SysOf(Start()))
  {
    ShowIsValid(Start().x);
    StartTables();
  }

  // ---------------------------------------- the first campaign's message

  /** A side past its first claim, which was made at `frozen`. */
  function Started(frozen: int, recipient: RecipientState, state: DeliveryState, attempts: nat, sentAt: Option<int>): Side {
    Side(CampaignRow(Running, 2, Some(frozen + FREEZE_MS)), recipient, Some(DeliveryRow(state, Some(frozen), attempts, sentAt)))
  }

  const FIRST_SENT := Started(DAWN, RecipientState.Sent, DeliveryState.Sent, 1, Some(DAWN))
  const TOLD := Contact(Some(DAWN), Some(DAWN), 1, Some(0), Some(R(0)), false, false)

  /** At dawn run 0 has sent the first campaign's message. */
  function FirstWaits(acceptedAt: Option<int>): World {
    World(Scene(Sides(Started(DAWN, Processing, Dispatching, 1, None), PREVIEWED, PREVIEWED), Some(Reservation(R(0), FAR_FUTURE)), NoContact),
          map[0 := Waiting(R(0), DAWN)], map[0 := Request(R(0), DAWN, acceptedAt)], DAWN, map[R(0) := 0])
  }

  lemma FirstIsIssued(p: World -> bool, lapse: Lapse)
    requires Closed(p, lapse) && p(Start())
    ensures p(FirstWaits(None)) && p(FirstWaits(Some(DAWN)))
  {
    var w := Start();
    ThenSendsFor(p, w, 0, 0, lapse);
    ThenIssues(p, Claiming(w, 0, 0), 0, lapse);
    var issued := Issuing(Claiming(w, 0, 0), 0);
    assert issued.x.sides == FirstWaits(None).x.sides && issued.runs == FirstWaits(None).runs;
    ThenAccepts(p, FirstWaits(None), 0, lapse);
    assert Accepting(FirstWaits(None), 0).requests == FirstWaits(Some(DAWN)).requests;
  }

  /** The first campaign's message is recorded as sent at dawn; `acceptedAt` is the provider's view. */
  function FirstRecorded(runs: map<RunId, Execution>, acceptedAt: Option<int>): World {
    World(Scene(Sides(FIRST_SENT, PREVIEWED, PREVIEWED), None, TOLD),
          runs, map[0 := Request(R(0), DAWN, acceptedAt)], DAWN, map[R(0) := 0])
  }

  // ----------------------------------------------------------- it is sent

  lemma FirstSendsRow(x: Scene)
    requires x == FirstWaits(None).x
    ensures Sending(x, 0, DAWN) == FirstRecorded(map[], None).x
  {
    SendingIs(x, 0, DAWN);
    NoneUnknown(x, x.sides[0], PREVIEWED);
    OtherSides(x.sides[0], PREVIEWED, PREVIEWED, FIRST_SENT);
  }

  /** Two messages to one creator accepted at the same time. */
  predicate SentAtOnce(w: World, e: RunId, f: RunId) {
    && e in w.requests && f in w.requests && w.requests[e].acceptedAt.Some? && w.requests[e].acceptedAt == w.requests[f].acceptedAt
    && w.requests[e].recipient.creator == 0 && w.requests[f].recipient.creator == 0
    && w.requests[e].recipient.campaign in w.x.sides && w.requests[f].recipient.campaign in w.x.sides
    && w.requests[e].recipient != w.requests[f].recipient
  }

  // --------------------------------------------------- it is matched, unsent

  /** The first campaign's answer was ambiguous. */
  function FirstUnknown(runs: map<RunId, Execution>, acceptedAt: Option<int>): World {
    World(Scene(Sides(Started(DAWN, RecipientState.DeliveryUnknown, DeliveryState.DeliveryUnknown, 1, None), PREVIEWED, PREVIEWED),
                Some(Reservation(R(0), FAR_FUTURE)), NoContact.(unresolvedDelivery := true, lastDelivery := Some(R(0)))),
          runs, map[0 := Request(R(0), DAWN, acceptedAt)], DAWN, map[R(0) := 0])
  }

  lemma FirstIsUnknown(p: World -> bool, acceptedAt: Option<int>, lapse: Lapse)
    requires Closed(p, lapse) && p(FirstWaits(acceptedAt))
    ensures p(FirstUnknown(map[], acceptedAt))
  {
    var w := FirstWaits(acceptedAt);
    ThenSees(p, w, 0, Ambiguous, lapse);
    var a := Answering(w, 0, Ambiguous);
    ThenEndsUnknown(p, a, 0, 0, lapse);
    FirstUnknows(a, acceptedAt);
  }

  lemma FirstUnknows(a: World, acceptedAt: Option<int>)
    requires a == Answering(FirstWaits(acceptedAt), 0, Ambiguous)
    ensures Ended(a, 0, Unknowing(a.x, 0)) == FirstUnknown(map[], acceptedAt)
  {
    assert Unknowing(a.x, 0).sides == FirstUnknown(map[], acceptedAt).x.sides;
    assert a.runs - {0} == map[];
  }

  /** Run `e` records the match; other runs stay. */
  lemma FirstIsMatched(p: World -> bool, runs: map<RunId, Execution>, e: RunId, acceptedAt: Option<int>, lapse: Lapse)
    requires Closed(p, lapse) && p(FirstUnknown(runs, acceptedAt)) && e in runs && runs[e] == Reconciling(R(0), true)
    requires lapse.MatchesUnsent? || acceptedAt.Some?
    ensures p(FirstRecorded(runs - {e}, acceptedAt))
  {
    var w := FirstUnknown(runs, acceptedAt);
    ThenEndsSent(p, w, 0, e, lapse);
    MatchSends(w.x);
  }

  lemma MatchSends(x: Scene)
    requires x == FirstUnknown(map[], None).x
    ensures Sending(x, 0, DAWN) == FirstRecorded(map[], None).x
  {
    SendingIs(x, 0, DAWN);
    NoneUnknown(x, x.sides[0], PREVIEWED);
    OtherSides(x.sides[0], PREVIEWED, PREVIEWED, FIRST_SENT);
  }

  /** A match of a message not accepted yet: a day later the next campaign sends, and then the first one's request gets through. */
  lemma UnsentMatchBreaks(p: World -> bool)
    requires Closed(p, MatchesUnsent) && p(Start())
    ensures exists w :: p(w) && SentAtOnce(w, 0, 2)
  {
    FirstIsIssued(p, MatchesUnsent);
    FirstIsUnknown(p, None, MatchesUnsent);
    ThenReconciles(p, FirstUnknown(map[], None), 0, 1, true, MatchesUnsent);
    var matching := map[1 := Reconciling(R(0), true)];
    assert With(FirstUnknown(map[], None), 1, Reconciling(R(0), true)) == FirstUnknown(matching, None);
    FirstIsMatched(p, matching, 1, None, MatchesUnsent);
    assert matching - {1} == map[];
    ThenTicks(p, FirstRecorded(map[], None), DAY_MS, MatchesUnsent);
    SecondJoins(p);
  }

  lemma SecondJoins(p: World -> bool)
    requires Closed(p, MatchesUnsent) && p(Later(FirstRecorded(map[], None), DAY_MS))
    ensures exists w :: p(w) && SentAtOnce(w, 0, 2)
  {
    var w := Later(FirstRecorded(map[], None), DAY_MS);
    ThenSendsFor(p, w, 1, 2, MatchesUnsent);
    ThenIsAccepted(p, Claiming(w, 1, 2), 2, MatchesUnsent);
    var a := Accepting(Issuing(Claiming(w, 1, 2), 2), 2);
    ThenAccepts(p, a, 0, MatchesUnsent);
    assert SentAtOnce(Accepting(a, 0), 0, 2);
  }

  // ------------------------------------------- a second gives up too late

  /** A reconciliation that matched the first message long ago, but has not written it down. */
  const STALE_MATCH := Reconciling(R(0), true)

  lemma FirstIsMatchedTwice(p: World -> bool)
    requires Closed(p, GivesUpLate) && p(Start())
    ensures p(FirstRecorded(map[1 := STALE_MATCH], Some(DAWN)))
  {
    FirstIsIssued(p, GivesUpLate);
    FirstIsUnknown(p, Some(DAWN), GivesUpLate);
    var (one, two) := (map[1 := STALE_MATCH], map[1 := STALE_MATCH, 2 := STALE_MATCH]);
    ThenReconciles(p, FirstUnknown(map[], Some(DAWN)), 0, 1, true, GivesUpLate);
    assert With(FirstUnknown(map[], Some(DAWN)), 1, STALE_MATCH) == FirstUnknown(one, Some(DAWN));
    ThenReconciles(p, FirstUnknown(one, Some(DAWN)), 0, 2, true, GivesUpLate);
    assert With(FirstUnknown(one, Some(DAWN)), 2, STALE_MATCH) == FirstUnknown(two, Some(DAWN));
    FirstIsMatched(p, two, 2, Some(DAWN), GivesUpLate);
    assert two - {2} == one;
  }

  /** The second campaign a day later: `second` is its side, `runs` the runs besides the stale match. */
  function Second(second: Side, contact: Contact, runs: map<RunId, Execution>): World {
    World(Scene(Sides(FIRST_SENT, second, PREVIEWED), Some(Reservation(R(1), FAR_FUTURE)), contact),
          runs, map[0 := Request(R(0), DAWN, Some(DAWN))], NEXT_DAY, map[R(0) := 0, R(1) := 3])
  }

  const MARKED := TOLD.(unresolvedDelivery := true, lastDelivery := Some(R(1)))

  const HOLDING := map[1 := STALE_MATCH, 3 := Holding(R(1), NEXT_DAY)]
  const SECOND_HELD := Started(NEXT_DAY, Processing, Dispatching, 1, None)
  const SECOND_UNKNOWN := Started(NEXT_DAY, RecipientState.DeliveryUnknown, DeliveryState.DeliveryUnknown, 1, None)
  const SECOND_RETRIED := Started(NEXT_DAY, RecipientState.Queued, FailedRetryable, 1, None)

  lemma SecondIsHeld(p: World -> bool)
    requires Closed(p, GivesUpLate) && p(FirstRecorded(map[1 := STALE_MATCH], Some(DAWN)))
    ensures p(Second(SECOND_HELD, TOLD, HOLDING))
  {
    ThenTicks(p, FirstRecorded(map[1 := STALE_MATCH], Some(DAWN)), DAY_MS, GivesUpLate);
    var w := Later(FirstRecorded(map[1 := STALE_MATCH], Some(DAWN)), DAY_MS);
    ThenSendsFor(p, w, 1, 3, GivesUpLate);
    SecondHolds(w);
  }

  lemma SecondHolds(w: World)
    requires w == Later(FirstRecorded(map[1 := STALE_MATCH], Some(DAWN)), DAY_MS)
    ensures Claiming(w, 1, 3) == Second(SECOND_HELD, TOLD, HOLDING)
  {
    assert Claiming(w, 1, 3).x.sides == Sides(FIRST_SENT, SECOND_HELD, PREVIEWED);
    assert Claiming(w, 1, 3).runs == HOLDING;
  }

  lemma SecondIsUnknown(p: World -> bool)
    requires Closed(p, GivesUpLate) && p(Second(SECOND_HELD, TOLD, HOLDING))
    ensures p(Second(SECOND_UNKNOWN, MARKED, HOLDING))
  {
    var held := Second(SECOND_HELD, TOLD, HOLDING);
    ThenBegins(p, held, 1, 4, GivesUpLate);
    ThenEndsUnknown(p, With(held, 4, Seen(R(1), true)), 1, 4, GivesUpLate);
    SecondUnknows(held);
  }

  lemma SecondUnknows(held: World)
    requires held == Second(SECOND_HELD, TOLD, HOLDING)
    ensures Ended(With(held, 4, Seen(R(1), true)), 4, Unknowing(held.x, 1)) == Second(SECOND_UNKNOWN, MARKED, HOLDING)
  {
    assert Unknowing(held.x, 1).sides == Sides(FIRST_SENT, SECOND_UNKNOWN, PREVIEWED);
    assert With(held, 4, Seen(R(1), true)).runs - {4} == HOLDING;
  }

  const STALE_DOUBT := Reconciling(R(1), false)

  const STALE := map[1 := STALE_MATCH, 5 := STALE_DOUBT]

  lemma SecondIsRetryable(p: World -> bool)
    requires Closed(p, GivesUpLate) && p(Second(SECOND_UNKNOWN, MARKED, HOLDING))
    ensures p(Second(SECOND_RETRIED, MARKED, STALE))
  {
    var w := Second(SECOND_UNKNOWN, MARKED, HOLDING);
    ThenReconciles(p, w, 1, 5, false, GivesUpLate);
    ThenFails(p, With(w, 5, STALE_DOUBT), 3, GivesUpLate);
    var failed := Answering(With(w, 5, STALE_DOUBT), 3, Refused(RetryLater));
    ThenEndsRetryable(p, failed, 1, 3, GivesUpLate);
    assert Retried(w.x, 1).sides == Sides(FIRST_SENT, SECOND_RETRIED, PREVIEWED);
    assert failed.runs - {3} == STALE;
  }

  /** The stale match is written down at last, which takes the mark from the creator. */
  function Unmarked(second: Side, reservation: Option<Reservation>, runs: map<RunId, Execution>, clock: int, holder: RunId): World {
    World(Scene(Sides(Started(DAWN, RecipientState.Sent, DeliveryState.Sent, 1, Some(NEXT_DAY)), second, PREVIEWED), reservation,
                Contact(Some(DAWN), Some(NEXT_DAY), 2, Some(0), Some(R(0)), false, false)),
          runs, map[0 := Request(R(0), DAWN, Some(DAWN))], clock, map[R(0) := 0, R(1) := holder])
  }

  const RESERVED := Some(Reservation(R(1), FAR_FUTURE))

  lemma TheMarkGoes(x: Scene)
    requires x == Second(SECOND_RETRIED, MARKED, STALE).x
    ensures Sending(x, 0, NEXT_DAY) == Unmarked(SECOND_RETRIED, RESERVED, map[], NEXT_DAY, 3).x
  {
    SendingIs(x, 0, NEXT_DAY);
    NoneUnknown(x, FIRST_SENT, SECOND_RETRIED);
    OtherSides(FIRST_SENT, SECOND_RETRIED, PREVIEWED, Started(DAWN, RecipientState.Sent, DeliveryState.Sent, 1, Some(NEXT_DAY)));
  }

  lemma MarkIsTaken(p: World -> bool)
    requires Closed(p, GivesUpLate) && p(Second(SECOND_RETRIED, MARKED, STALE))
    ensures p(Unmarked(SECOND_RETRIED, RESERVED, map[5 := STALE_DOUBT], NEXT_DAY, 3))
  {
    var w := Second(SECOND_RETRIED, MARKED, STALE);
    ThenEndsSent(p, w, 0, 1, GivesUpLate);
    TheMarkGoes(w.x);
    assert STALE - {1} == map[5 := STALE_DOUBT];
  }

  function HeldAgain(): World {
    Unmarked(Started(NEXT_DAY, Processing, Dispatching, 2, None), RESERVED,
             map[5 := STALE_DOUBT, 6 := Holding(R(1), NEXT_DAY + DAY_MS)], NEXT_DAY + DAY_MS, 6)
  }

  lemma HoldsAgain(begun: World)
    requires begun == With(Later(Unmarked(SECOND_RETRIED, RESERVED, map[5 := STALE_DOUBT], NEXT_DAY, 3), DAY_MS), 6, Seen(R(1), false))
    ensures Held(begun, 1, 6) == HeldAgain()
  {
    assert Held(begun, 1, 6).x.sides == HeldAgain().x.sides;
    assert Held(begun, 1, 6).runs == HeldAgain().runs;
    assert Held(begun, 1, 6).claimedBy == HeldAgain().claimedBy;
  }

  /** A day later the second is claimed again. */
  lemma SecondIsHeldAgain(p: World -> bool)
    requires Closed(p, GivesUpLate) && p(Unmarked(SECOND_RETRIED, RESERVED, map[5 := STALE_DOUBT], NEXT_DAY, 3))
    ensures p(HeldAgain())
  {
    var w := Unmarked(SECOND_RETRIED, RESERVED, map[5 := STALE_DOUBT], NEXT_DAY, 3);
    ThenTicks(p, w, DAY_MS, GivesUpLate);
    ThenBegins(p, Later(w, DAY_MS), 1, 6, GivesUpLate);
    var begun := With(Later(w, DAY_MS), 6, Seen(R(1), false));
    ThenClaims(p, begun, 1, 6, GivesUpLate);
    HoldsAgain(begun);
  }

  /** The stale doubt gives up on it. */
  lemma SecondIsGivenUp(p: World -> bool)
    requires Closed(p, GivesUpLate) && p(HeldAgain())
    ensures p(GivenUpLate())
  {
    ThenGivesUp(p, HeldAgain(), 1, 5);
    DoubtGivesUp();
  }

  lemma DoubtGivesUp()
    ensures Ended(HeldAgain(), 5, GivenUp(HeldAgain().x, 1)) == GivenUpLate()
  {
    assert GivenUp(HeldAgain().x, 1).sides == GivenUpLate().x.sides;
    assert HeldAgain().runs - {5} == GivenUpLate().runs;
  }

  /** The second may still be sent, and nothing keeps other campaigns from its creator. */
  function GivenUpLate(): World {
    Unmarked(Started(NEXT_DAY, RecipientState.DeliveryUnknownUnresolved, DeliveryState.DeliveryUnknownUnresolved, 2, None), None,
             map[6 := Holding(R(1), NEXT_DAY + DAY_MS)], NEXT_DAY + DAY_MS, 6)
  }

  lemma LateIsReached(p: World -> bool)
    requires Closed(p, GivesUpLate) && p(Start())
    ensures p(GivenUpLate())
  {
    FirstIsMatchedTwice(p);
    SecondIsHeld(p);
    SecondIsUnknown(p);
    SecondIsRetryable(p);
    MarkIsTaken(p);
    SecondIsHeldAgain(p);
    SecondIsGivenUp(p);
  }

  /** The third campaign sends, and so does the second's old claim. */
  lemma GivingUpLateBreaks(p: World -> bool)
    requires Closed(p, GivesUpLate) && p(Start())
    ensures exists w :: p(w) && SentAtOnce(w, 6, 7)
  {
    LateIsReached(p);
    var w := GivenUpLate();
    ThenSendsFor(p, w, 2, 7, GivesUpLate);
    ThenIsAccepted(p, Claiming(w, 2, 7), 7, GivesUpLate);
    var a := Accepting(Issuing(Claiming(w, 2, 7), 7), 7);
    ThenIsAccepted(p, a, 6, GivesUpLate);
    assert SentAtOnce(Accepting(Issuing(a, 6), 6), 6, 7);
  }

  // ------------------------------- a claim beside an unknown delivery

  const STALE_RECOVERY := Seen(R(0), true)

  /** The first message is recorded while a second job, which saw it being dispatched, still means to recover it. */
  lemma FirstIsSentBeside(p: World -> bool)
    requires Closed(p, NoLapse) && p(Start())
    ensures p(FirstRecorded(map[1 := STALE_RECOVERY], Some(DAWN)))
  {
    FirstIsIssued(p, NoLapse);
    var w := FirstWaits(Some(DAWN));
    ThenBegins(p, w, 0, 1, NoLapse);
    var begun := With(w, 1, STALE_RECOVERY);
    ThenSees(p, begun, 0, Accepted, NoLapse);
    ThenEndsSent(p, Answering(begun, 0, Accepted), 0, 0, NoLapse);
    FirstSendsBeside(Answering(begun, 0, Accepted));
  }

  lemma FirstSendsBeside(a: World)
    requires a == Answering(With(FirstWaits(Some(DAWN)), 1, STALE_RECOVERY), 0, Accepted)
    ensures Ended(a, 0, Sending(a.x, 0, DAWN)) == FirstRecorded(map[1 := STALE_RECOVERY], Some(DAWN))
  {
    FirstSendsRow(a.x);
    assert a.runs - {0} == map[1 := STALE_RECOVERY];
  }

  /** A day later the second delivery is claimed by run 2, and by then a job means to recover each of the two. */
  function Both(first: Side, second: Side, contact: Contact, runs: map<RunId, Execution>): World {
    World(Scene(Sides(first, second, PREVIEWED), Some(Reservation(R(1), FAR_FUTURE)), contact),
          runs, map[0 := Request(R(0), DAWN, Some(DAWN))], NEXT_DAY, map[R(0) := 0, R(1) := 2])
  }

  const HELD2 := Holding(R(1), NEXT_DAY)
  const RECOVERY2 := Seen(R(1), true)
  const OVERWRITTEN := Started(DAWN, RecipientState.DeliveryUnknown, DeliveryState.DeliveryUnknown, 1, Some(DAWN))
  const NAMES_FIRST := TOLD.(unresolvedDelivery := true)

  lemma SecondHoldsBeside(w: World)
    requires w == Later(FirstRecorded(map[1 := STALE_RECOVERY], Some(DAWN)), DAY_MS)
    ensures Claiming(w, 1, 2) == Both(FIRST_SENT, SECOND_HELD, TOLD, map[1 := STALE_RECOVERY, 2 := HELD2])
  {
    OtherSides(FIRST_SENT, PREVIEWED, PREVIEWED, SECOND_HELD);
    assert Claiming(w, 1, 2).runs == map[1 := STALE_RECOVERY, 2 := HELD2];
  }

  lemma SecondIsSeen(p: World -> bool)
    requires Closed(p, NoLapse) && p(FirstRecorded(map[1 := STALE_RECOVERY], Some(DAWN)))
    ensures p(Both(FIRST_SENT, SECOND_HELD, TOLD, map[1 := STALE_RECOVERY, 2 := HELD2, 3 := RECOVERY2]))
  {
    ThenTicks(p, FirstRecorded(map[1 := STALE_RECOVERY], Some(DAWN)), DAY_MS, NoLapse);
    var w := Later(FirstRecorded(map[1 := STALE_RECOVERY], Some(DAWN)), DAY_MS);
    ThenSendsFor(p, w, 1, 2, NoLapse);
    SecondHoldsBeside(w);
    var held := Both(FIRST_SENT, SECOND_HELD, TOLD, map[1 := STALE_RECOVERY, 2 := HELD2]);
    ThenBegins(p, held, 1, 3, NoLapse);
    assert held.runs[3 := RECOVERY2] == map[1 := STALE_RECOVERY, 2 := HELD2, 3 := RECOVERY2];
  }

  lemma FirstIsOverwritten(x: Scene)
    requires x == Both(FIRST_SENT, SECOND_HELD, TOLD, map[]).x
    ensures Unknowing(x, 0) == Both(OVERWRITTEN, SECOND_HELD, NAMES_FIRST, map[]).x
  {
    OtherSides(FIRST_SENT, SECOND_HELD, PREVIEWED, OVERWRITTEN);
  }

  lemma SecondIsRecovered(x: Scene)
    requires x == Both(OVERWRITTEN, SECOND_HELD, NAMES_FIRST, map[]).x
    ensures Unknowing(x, 1) == Both(OVERWRITTEN, SECOND_UNKNOWN, MARKED, map[]).x
  {
    OtherSides(OVERWRITTEN, SECOND_HELD, PREVIEWED, SECOND_UNKNOWN);
  }

  /** Both are recovered, the second last: the contact row names it. */
  lemma BothAreUnknown(p: World -> bool)
    requires Closed(p, NoLapse) && p(Both(FIRST_SENT, SECOND_HELD, TOLD, map[1 := STALE_RECOVERY, 2 := HELD2, 3 := RECOVERY2]))
    ensures p(Both(OVERWRITTEN, SECOND_UNKNOWN, MARKED, map[2 := HELD2]))
  {
    var runs := map[1 := STALE_RECOVERY, 2 := HELD2, 3 := RECOVERY2];
    var two := map[2 := HELD2, 3 := RECOVERY2];
    assert runs - {1} == two && two - {3} == map[2 := HELD2];
    var w := Both(FIRST_SENT, SECOND_HELD, TOLD, runs);
    ThenEndsUnknown(p, w, 0, 1, NoLapse);
    FirstIsOverwritten(w.x);
    var v := Both(OVERWRITTEN, SECOND_HELD, NAMES_FIRST, two);
    ThenEndsUnknown(p, v, 1, 3, NoLapse);
    SecondIsRecovered(v.x);
  }

  /** The holder of the second fails before sending. */
  lemma SecondMayGo(p: World -> bool)
    requires Closed(p, NoLapse) && p(Both(OVERWRITTEN, SECOND_UNKNOWN, MARKED, map[2 := HELD2]))
    ensures p(Both(OVERWRITTEN, SECOND_RETRIED, MARKED, map[]))
  {
    var w := Both(OVERWRITTEN, SECOND_UNKNOWN, MARKED, map[2 := HELD2]);
    ThenFails(p, w, 2, NoLapse);
    var failed := Answering(w, 2, Refused(RetryLater));
    ThenEndsRetryable(p, failed, 1, 2, NoLapse);
    OtherSides(OVERWRITTEN, SECOND_UNKNOWN, PREVIEWED, SECOND_RETRIED);
    assert failed.runs - {2} == map[];
  }

  lemma BesideIsReached(p: World -> bool)
    requires Closed(p, NoLapse) && p(Start())
    ensures p(Both(OVERWRITTEN, SECOND_RETRIED, MARKED, map[]))
  {
    FirstIsSentBeside(p);
    SecondIsSeen(p);
    BothAreUnknown(p);
    SecondMayGo(p);
  }

  // ---------------------------------------------------------------- results

  ghost predicate Reached(w: World, lapse: Lapse) {
    ValidScene(w.x) && Leads(SysOf(Start()), SysOf(w), lapse)
  }

  lemma StartIsReached(lapse: Lapse)
    ensures Reached(Start(), lapse)
  {
    assert BenignBut(SysOf(Start()), [], lapse) && Run(SysOf(Start()), []) == SysOf(Start());
  }

  lemma GoesOn(w: World, step: Step, next: World, lapse: Lapse)
    requires Reached(w, lapse) && Goes(w, step, next, lapse)
    ensures Reached(next, lapse)
  {
    LeadsOn(SysOf(Start()), SysOf(w), step, lapse);
  }

  lemma ReachedIsClosed(lapse: Lapse)
    ensures Closed((w: World) => Reached(w, lapse), lapse)
  {
    forall w, step, next {:trigger Goes(w, step, next, lapse)} | Reached(w, lapse) && Goes(w, step, next, lapse)
      ensures Reached(next, lapse)
    {
      GoesOn(w, step, next, lapse);
    }
  }

  /** Two requests to one creator accepted in the same millisecond, both under a cooldown of a day. */
  ghost predicate BreaksCooldown(s: Sys) {
    && ValidDb(s.db)
    && exists e, f :: e in s.requests && f in s.requests
         && SameCreator(s.db.terms, s.requests[e].recipient, s.requests[f].recipient)
         && s.requests[e].acceptedAt.Some? && s.requests[e].acceptedAt == s.requests[f].acceptedAt
         && CooldownMs(s.db, s.requests[e].recipient) == DAY_MS && CooldownMs(s.db, s.requests[f].recipient) == DAY_MS
  }

  lemma AtOnceBreaks(w: World, e: RunId, f: RunId)
    requires ValidScene(w.x) && SentAtOnce(w, e, f)
    ensures BreaksCooldown(SysOf(w))
  {
    ShowIsValid(w.x);
    var s := SysOf(w);
    assert SameCreator(s.db.terms, s.requests[e].recipient, s.requests[f].recipient);
  }

  /**
   * Both conditions are needed: for each a run from an initial state whose only steps that
   * are not benign break that one condition breaks the cooldown.
   */
  lemma EachConditionIsNeeded(lapse: Lapse)
    requires !lapse.NoLapse?
    ensures Initial(SysOf(Start()))
    ensures exists steps :: BenignBut(SysOf(Start()), steps, lapse) && BreaksCooldown(Run(SysOf(Start()), steps))
  {
    StartIsInitial();
    ReachedIsClosed(lapse);
    StartIsReached(lapse);
    var p := (w: World) => Reached(w, lapse);
    match lapse {
      case GivesUpLate => GivingUpLateBreaks(p); var w :| p(w) && SentAtOnce(w, 6, 7); AtOnceBreaks(w, 6, 7); Shown(w, lapse);
      case MatchesUnsent => UnsentMatchBreaks(p); var w :| p(w) && SentAtOnce(w, 0, 2); AtOnceBreaks(w, 0, 2); Shown(w, lapse);
    }
  }

  lemma Shown(w: World, lapse: Lapse)
    requires Reached(w, lapse) && BreaksCooldown(SysOf(w))
    ensures exists steps :: BenignBut(SysOf(Start()), steps, lapse) && BreaksCooldown(Run(SysOf(Start()), steps))
  {
  }

  /** A run in which only a late reconciliation is not benign leaves an unresolved delivery on an unmarked creator. */
  lemma QuarantineBreaks()
    ensures Initial(SysOf(Start()))
    ensures exists steps :: BenignBut(SysOf(Start()), steps, GivesUpLate) && !Quarantined(Run(SysOf(Start()), steps).db)
  {
    StartIsInitial();
    ReachedIsClosed(GivesUpLate);
    StartIsReached(GivesUpLate);
    LateIsReached((w: World) => Reached(w, GivesUpLate));
    var db := Show(GivenUpLate().x);
    KnownShows(GivenUpLate().x, 1);
    assert Unknown(db.deliveries[R(1)].state) && !Flagged(db, R(1));
  }

  /** A claim is granted while another delivery to the creator is unknown. */
  ghost predicate ClaimsBeside(s: Sys, unknown: RecipientId, r: RecipientId) {
    && Known(s.db, unknown) && Known(s.db, r) && unknown != r && KeyOf(s.db, unknown) == KeyOf(s.db, r)
    && s.db.deliveries[unknown].state.DeliveryUnknown? && ReserveDispatchSlot(s.db, r, s.clock).1.Claimed?
  }

  lemma BesideClaims(w: World)
    requires w == Both(OVERWRITTEN, SECOND_RETRIED, MARKED, map[])
    ensures ClaimsBeside(SysOf(w), R(0), R(1))
  {
    KnownShows(w.x, 0);
    KnownShows(w.x, 1);
    ShowIsValid(w.x);
    assert HasReservation(Show(w.x), R(1));
    assert ExclusionFor(Show(w.x), R(1), NEXT_DAY).None?;
  }

  /** A wholly benign run from an initial state to a claim beside an unknown delivery to the same creator. */
  lemma UnknownDoesNotBlock()
    ensures Initial(SysOf(Start()))
    ensures exists steps :: BenignRun(SysOf(Start()), steps) && ClaimsBeside(Run(SysOf(Start()), steps), R(0), R(1))
  {
    StartIsInitial();
    ReachedIsClosed(NoLapse);
    StartIsReached(NoLapse);
    BesideIsReached((w: World) => Reached(w, NoLapse));
    var w := Both(OVERWRITTEN, SECOND_RETRIED, MARKED, map[]);
    BesideClaims(w);
    var steps :| BenignBut(SysOf(Start()), steps, NoLapse) && Run(SysOf(Start()), steps) == SysOf(w);
    NoLapseIsBenign(SysOf(Start()), steps);
  }

  /** A run without a lapse is a benign run. */
  lemma {:induction false} NoLapseIsBenign(s: Sys, steps: seq<Step>)
    ensures BenignBut(s, steps, NoLapse) <==> BenignRun(s, steps)
    decreases |steps|
  {
    if steps != [] { NoLapseIsBenign(Apply(s, steps[0]), steps[1..]); }
  }
}
