/**
 * Small worlds for concrete runs: one shop and one creator, any number of campaigns that
 * each selected that creator, and a cooldown of a day.  What the transactions do to such a
 * world is again such a world.
 */
module OutboundScenes {
  import opened Options
  import opened OutreachDb
  import opened OutboundProtocol

  datatype Side = Side(campaign: CampaignRow, recipient: RecipientState, delivery: Option<DeliveryRow>)

  /** The campaigns, each with its recipient and delivery, and the creator's reservation and contact row. */
  datatype Scene = Scene(sides: map<CampaignId, Side>, reservation: Option<Reservation>, contact: Contact)

  const K := ContactKey(0, 0)

  function R(c: CampaignId): RecipientId { RecipientId(c, 0) }

  ghost predicate ValidScene(x: Scene) {
    x.reservation.Some? ==> x.reservation.value.recipient.creator == 0 && x.reservation.value.recipient.campaign in x.sides
  }

  function TermsOf(sides: map<CampaignId, Side>): map<CampaignId, Terms> {
    map c | c in sides :: Terms(0, 1)
  }

  function Campaigns(sides: map<CampaignId, Side>): map<CampaignId, CampaignRow> {
    map c | c in sides :: sides[c].campaign
  }

  function Recipients(sides: map<CampaignId, Side>): set<RecipientId> {
    set c | c in sides :: R(c)
  }

  function Rows(sides: map<CampaignId, Side>): map<RecipientId, RecipientRow> {
    map r | r in Recipients(sides) :: RecipientRow(true, sides[r.campaign].recipient)
  }

  function WithRows(sides: map<CampaignId, Side>): set<RecipientId> {
    set c | c in sides && sides[c].delivery.Some? :: R(c)
  }

  function Deliveries(sides: map<CampaignId, Side>): map<RecipientId, DeliveryRow> {
    map r | r in WithRows(sides) :: sides[r.campaign].delivery.value
  }

  function Reservations(reservation: Option<Reservation>): map<ContactKey, Reservation> {
    if reservation.Some? then map[K := reservation.value] else map[]
  }

  function Show(x: Scene): Db {
    Db(TermsOf(x.sides), Campaigns(x.sides), Rows(x.sides), Deliveries(x.sides), Reservations(x.reservation), map[K := x.contact], {})
  }

  lemma ShowIsValid(x: Scene)
    requires ValidScene(x)
    ensures ValidDb(Show(x)) && ContactAt(Show(x), K) == x.contact
    ensures forall c | c in x.sides :: R(c) in Show(x).recipients && KeyOf(Show(x), R(c)) == K
  {
  }

  // -------------------------------------------------------- row by row

  lemma TermsStay(sides: map<CampaignId, Side>, c: CampaignId, side: Side)
    requires c in sides
    ensures TermsOf(sides[c := side]) == TermsOf(sides) && Campaigns(sides[c := side]) == Campaigns(sides)[c := side.campaign]
  {
  }

  lemma RowsShow(sides: map<CampaignId, Side>, c: CampaignId, side: Side)
    requires c in sides
    ensures R(c) in Rows(sides) && Rows(sides[c := side]) == Rows(sides)[R(c) := RecipientRow(true, side.recipient)]
  {
    assert Recipients(sides[c := side]) == Recipients(sides);
  }

  lemma DeliveriesShow(sides: map<CampaignId, Side>, c: CampaignId, side: Side)
    requires c in sides
    ensures side.delivery.Some? ==> Deliveries(sides[c := side]) == Deliveries(sides)[R(c) := side.delivery.value]
    ensures side.delivery.None? && sides[c].delivery.None? ==> Deliveries(sides[c := side]) == Deliveries(sides)
  {
    assert WithRows(sides[c := side]) == if side.delivery.Some? then WithRows(sides) + {R(c)} else WithRows(sides) - {R(c)};
  }

  lemma SideShows(x: Scene, c: CampaignId, side: Side)
    requires ValidScene(x) && c in x.sides && (side.delivery.None? ==> x.sides[c].delivery.None?)
    ensures var (db, next) := (Show(x), Show(x.(sides := x.sides[c := side])));
            && ValidScene(x.(sides := x.sides[c := side])) && R(c) in db.recipients
            && next == db.(campaigns := db.campaigns[c := side.campaign],
                           recipients := db.recipients[R(c) := RecipientRow(true, side.recipient)],
                           deliveries := if side.delivery.Some? then db.deliveries[R(c) := side.delivery.value] else db.deliveries)
  {
    TermsStay(x.sides, c, side);
    RowsShow(x.sides, c, side);
    DeliveriesShow(x.sides, c, side);
  }

  function WithRow(x: Scene, c: CampaignId, d: DeliveryRow, s: RecipientState): Scene
    requires c in x.sides
  {
    x.(sides := x.sides[c := x.sides[c].(recipient := s, delivery := Some(d))])
  }

  function Released(x: Scene, c: CampaignId): Scene {
    if x.reservation.Some? && x.reservation.value.recipient == R(c) then x.(reservation := None) else x
  }

  lemma RowShows(x: Scene, c: CampaignId, d: DeliveryRow, s: RecipientState)
    requires ValidScene(x) && c in x.sides
    ensures R(c) in Show(x).recipients
    ensures ValidScene(WithRow(x, c, d, s)) && WithDelivery(Show(x), R(c), d, s) == Show(WithRow(x, c, d, s))
  {
    var db, side := Show(x), x.sides[c].(recipient := s, delivery := Some(d));
    SideShows(x, c, side);
    assert db.campaigns[c := side.campaign] == db.campaigns;
    assert db.recipients[R(c)].(state := s) == RecipientRow(true, s);
  }

  lemma ReleaseShows(x: Scene, c: CampaignId)
    requires ValidScene(x)
    ensures ValidScene(Released(x, c)) && Release(Show(x), R(c)) == Show(Released(x, c))
  {
    assert Release(Show(x), R(c)).reservations == Show(Released(x, c)).reservations;
  }

  lemma ContactShows(x: Scene, contact: Contact)
    requires ValidScene(x)
    ensures var y := x.(contact := contact);
            ValidScene(y) && Show(x).(contacts := Show(x).contacts[K := contact]) == Show(y)
  {
    assert map[K := x.contact][K := contact] == map[K := contact];
  }

  // ------------------------------------------------------ the transactions

  predicate HasDelivery(x: Scene, c: CampaignId) {
    c in x.sides && x.sides[c].delivery.Some?
  }

  function RowOf(x: Scene, c: CampaignId): DeliveryRow
    requires HasDelivery(x, c)
  {
    x.sides[c].delivery.value
  }

  lemma KnownShows(x: Scene, c: CampaignId)
    requires ValidScene(x) && HasDelivery(x, c)
    ensures Known(Show(x), R(c)) && Show(x).deliveries[R(c)] == RowOf(x, c) && KeyOf(Show(x), R(c)) == K
  {
    ShowIsValid(x);
  }

  function Unknowing(x: Scene, c: CampaignId): Scene
    requires HasDelivery(x, c)
  {
    WithRow(x, c, RowOf(x, c).(state := DeliveryState.DeliveryUnknown), RecipientState.DeliveryUnknown)
    .(contact := x.contact.(unresolvedDelivery := true, lastDelivery := Some(R(c))))
  }

  lemma UnknownShows(x: Scene, c: CampaignId)
    requires ValidScene(x) && HasDelivery(x, c)
    ensures ValidScene(Unknowing(x, c)) && Known(Show(x), R(c)) && MarkUnknown(Show(x), R(c)) == Show(Unknowing(x, c))
  {
    KnownShows(x, c);
    var d := RowOf(x, c).(state := DeliveryState.DeliveryUnknown);
    RowShows(x, c, d, RecipientState.DeliveryUnknown);
    ContactShows(WithRow(x, c, d, RecipientState.DeliveryUnknown), Unknowing(x, c).contact);
  }

  function Retried(x: Scene, c: CampaignId): Scene
    requires HasDelivery(x, c)
  {
    WithRow(x, c, RowOf(x, c).(state := FailedRetryable), RecipientState.Queued)
  }

  lemma RetryShows(x: Scene, c: CampaignId)
    requires ValidScene(x) && HasDelivery(x, c)
    ensures ValidScene(Retried(x, c)) && Known(Show(x), R(c)) && MakeRetryable(Show(x), R(c)) == Show(Retried(x, c))
  {
    KnownShows(x, c);
    RowShows(x, c, RowOf(x, c).(state := FailedRetryable), RecipientState.Queued);
  }

  function GivenUp(x: Scene, c: CampaignId): Scene
    requires HasDelivery(x, c)
  {
    Released(WithRow(x, c, RowOf(x, c).(state := DeliveryState.DeliveryUnknownUnresolved),
                     RecipientState.DeliveryUnknownUnresolved), c)
  }

  lemma GiveUpShows(x: Scene, c: CampaignId)
    requires ValidScene(x) && HasDelivery(x, c)
    ensures ValidScene(GivenUp(x, c)) && Known(Show(x), R(c)) && MarkUnresolved(Show(x), R(c)) == Show(GivenUp(x, c))
  {
    KnownShows(x, c);
    var d := RowOf(x, c).(state := DeliveryState.DeliveryUnknownUnresolved);
    RowShows(x, c, d, RecipientState.DeliveryUnknownUnresolved);
    ReleaseShows(WithRow(x, c, d, RecipientState.DeliveryUnknownUnresolved), c);
  }

  predicate UnknownElse(x: Scene, c: CampaignId) {
    exists o :: o in x.sides && o != c && x.sides[o].delivery.Some? && Unknown(x.sides[o].delivery.value.state)
  }

  function Told(x: Scene, c: CampaignId, now: int): Contact {
    var had := x.contact;
    had.(firstContactedAt := if had.firstContactedAt.Some? then had.firstContactedAt else Some(now),
         lastContactedAt := Some(now), contactCount := had.contactCount + 1,
         lastCampaign := Some(c), lastDelivery := Some(R(c)), unresolvedDelivery := UnknownElse(x, c))
  }

  function Sending(x: Scene, c: CampaignId, now: int): Scene
    requires HasDelivery(x, c)
  {
    Released(
      WithRow(x, c, RowOf(x, c).(state := DeliveryState.Sent, sentAt := Some(now)), RecipientState.Sent)
      .(contact := Told(x, c, now)), c)
  }

  lemma SendingIs(x: Scene, c: CampaignId, now: int)
    requires HasDelivery(x, c)
    ensures var y := Sending(x, c, now);
            && y.sides == x.sides[c := x.sides[c].(
                 recipient := RecipientState.Sent, delivery := Some(RowOf(x, c).(state := DeliveryState.Sent, sentAt := Some(now))))]
            && y.contact == Told(x, c, now)
            && y.reservation == if x.reservation.Some? && x.reservation.value.recipient == R(c) then None else x.reservation
  {
  }

  lemma BesidesShows(x: Scene, c: CampaignId)
    requires ValidScene(x) && HasDelivery(x, c)
    ensures Known(Show(x), R(c)) && (UnknownBesides(Show(x), R(c)) <==> UnknownElse(x, c))
  {
    KnownShows(x, c);
    if UnknownElse(x, c) {
      var o :| o in x.sides && o != c && x.sides[o].delivery.Some? && Unknown(x.sides[o].delivery.value.state);
      KnownShows(x, o);
      assert R(o) in Show(x).deliveries;
    }
  }

  lemma SentShows(x: Scene, c: CampaignId, now: int)
    requires ValidScene(x) && HasDelivery(x, c)
    ensures ValidScene(Sending(x, c, now)) && Known(Show(x), R(c)) && MarkSent(Show(x), R(c), now) == Show(Sending(x, c, now))
  {
    KnownShows(x, c);
    BesidesShows(x, c);
    var d := RowOf(x, c).(state := DeliveryState.Sent, sentAt := Some(now));
    var row := WithRow(x, c, d, RecipientState.Sent);
    RowShows(x, c, d, RecipientState.Sent);
    ContactShows(row, Told(x, c, now));
    ReleaseShows(row.(contact := Told(x, c, now)), c);
  }

  /** Nothing about the creator keeps a new campaign from messaging it. */
  predicate Free(x: Scene, now: int) {
    && x.reservation.None? && !x.contact.doNotContact && !x.contact.unresolvedDelivery
    && (x.contact.lastContactedAt.Some? ==> x.contact.lastContactedAt.value <= now - DAY_MS)
  }

  predicate Previewed(x: Scene, c: CampaignId) {
    c in x.sides && x.sides[c] == Side(CampaignRow(PreviewReady, 0, None), Selected, None)
  }

  function FrozenScene(x: Scene, c: CampaignId, now: int): Scene {
    x.(sides := x.sides[c := Side(CampaignRow(Frozen, 1, Some(now + FREEZE_MS)), Reserved, None)],
       reservation := Some(Reservation(R(c), now + FREEZE_MS)))
  }

  lemma FreezeChooses(x: Scene, c: CampaignId, now: int)
    requires ValidScene(x) && Previewed(x, c) && Free(x, now)
    ensures var db := Show(x);
            && ValidDb(db) && c in db.campaigns && db.campaigns[c] == x.sides[c].campaign && db.terms[c] == Terms(0, 1)
            && Chosen(db, c) == {R(c)} && Winners(db, c, now) == {R(c)} && KeyOf(db, R(c)) == K
            && WithoutExpired(db, 0, now) == db
  {
    var db := Show(x);
    ShowIsValid(x);
    assert Chosen(db, c) == {R(c)};
    assert ExpiredIn(db, 0, now) == {} && db.reservations - {} == db.reservations;
  }

  lemma FreezeRows(x: Scene, c: CampaignId, now: int)
    requires ValidScene(x) && Previewed(x, c) && R(c) in Show(x).recipients && ValidDb(Show(x)) && KeyOf(Show(x), R(c)) == K
    requires Chosen(Show(x), c) == {R(c)}
    ensures FrozenRows(Show(x), {R(c)}, {R(c)}) == Show(x).recipients[R(c) := RecipientRow(true, Reserved)]
    ensures FrozenReservations(Show(x), {R(c)}, now + FREEZE_MS) == map[K := Reservation(R(c), now + FREEZE_MS)]
  {
  }

  /** A freeze of one chosen recipient that nothing drops. */
  lemma FreezesOne(db: Db, c: CampaignId, r: RecipientId, now: int)
    requires ValidDb(db) && c in db.campaigns && db.campaigns[c] == CampaignRow(PreviewReady, 0, None)
    requires Chosen(db, c) == {r} && Winners(db, c, now) == {r} && WithoutExpired(db, db.terms[c].shop, now) == db
    ensures Freeze(db, c, 0, now) == db.(
              campaigns := db.campaigns[c := CampaignRow(Frozen, 1, Some(now + FREEZE_MS))],
              recipients := FrozenRows(db, {r}, {r}),
              reservations := db.reservations + FrozenReservations(db, {r}, now + FREEZE_MS))
  {
  }

  lemma FreezeShows(x: Scene, c: CampaignId, now: int)
    requires ValidScene(x) && Previewed(x, c) && Free(x, now)
    ensures ValidDb(Show(x)) && c in Show(x).campaigns && ValidScene(FrozenScene(x, c, now))
    ensures Freeze(Show(x), c, 0, now) == Show(FrozenScene(x, c, now))
  {
    var db := Show(x);
    ShowIsValid(x);
    FreezeChooses(x, c, now);
    FreezeRows(x, c, now);
    SideShows(x, c, Side(CampaignRow(Frozen, 1, Some(now + FREEZE_MS)), Reserved, None));
    FreezesOne(db, c, R(c), now);
    assert db.reservations == map[];
  }

  function QueuedScene(x: Scene, c: CampaignId, now: int): Scene {
    x.(sides := x.sides[c := Side(CampaignRow(CampaignState.Queued, 2, Some(now + FREEZE_MS)), RecipientState.Queued, Some(FreshDelivery))],
       reservation := Some(Reservation(R(c), FAR_FUTURE)))
  }

  lemma QueueChooses(x: Scene, c: CampaignId, now: int)
    requires ValidScene(x) && Previewed(x, c)
    ensures var db := Show(FrozenScene(x, c, now));
            && ValidDb(db) && c in db.campaigns && db.campaigns[c] == CampaignRow(Frozen, 1, Some(now + FREEZE_MS))
            && Chosen(db, c) == {R(c)} && ToQueue(db, c) == {R(c)} && R(c) !in db.deliveries
  {
    var y := FrozenScene(x, c, now);
    ShowIsValid(y);
    assert Chosen(Show(y), c) == {R(c)};
  }

  lemma QueueRows(db: Db, r: RecipientId, reservation: Reservation)
    requires r in db.recipients && r !in db.deliveries && db.reservations == map[K := reservation] && reservation.recipient == r
    ensures WithQueued(db.recipients, {r}) == db.recipients[r := db.recipients[r].(state := RecipientState.Queued)]
    ensures WithDeliveries(db.deliveries, {r}) == db.deliveries[r := FreshDelivery]
    ensures Extended(db.reservations, {r}) == map[K := reservation.(expiresAt := FAR_FUTURE)]
  {
  }

  lemma QueueShows(x: Scene, c: CampaignId, now: int)
    requires ValidScene(x) && Previewed(x, c)
    ensures var y := FrozenScene(x, c, now);
            && ValidDb(Show(y)) && c in Show(y).campaigns && ValidScene(QueuedScene(x, c, now))
            && QueueFrozen(Show(y), c, 1) == Show(QueuedScene(x, c, now))
  {
    var y := FrozenScene(x, c, now);
    var side := Side(CampaignRow(CampaignState.Queued, 2, Some(now + FREEZE_MS)), RecipientState.Queued, Some(FreshDelivery));
    ShowIsValid(y);
    QueueChooses(x, c, now);
    QueueRows(Show(y), R(c), Reservation(R(c), now + FREEZE_MS));
    SideShows(y, c, side);
    assert y.sides[c := side] == QueuedScene(x, c, now).sides;
  }

  /** What the claim's safety re-check asks of the creator. */
  predicate Clear(x: Scene, c: CampaignId, now: int) {
    && !x.contact.doNotContact && !x.contact.unresolvedDelivery
    && x.reservation == Some(Reservation(R(c), FAR_FUTURE)) && now < FAR_FUTURE
    && (x.contact.lastContactedAt.Some? ==> x.contact.lastContactedAt.value <= now - DAY_MS)
  }

  function ClaimedScene(x: Scene, c: CampaignId, now: int): Scene
    requires HasDelivery(x, c)
  {
    var d := RowOf(x, c);
    x.(sides := x.sides[c := Side(
      x.sides[c].campaign.(state := Running), Processing,
      Some(d.(state := Dispatching, attemptCount := d.attemptCount + 1,
              firstDispatchedAt := if d.firstDispatchedAt.Some? then d.firstDispatchedAt else Some(now))))])
  }

  lemma ClaimShows(x: Scene, c: CampaignId, now: int)
    requires ValidScene(x) && HasDelivery(x, c) && Claimable(RowOf(x, c).state) && Sendable(x.sides[c].campaign.state)
    requires Clear(x, c, now)
    ensures Known(Show(x), R(c)) && ValidScene(ClaimedScene(x, c, now)) && KeyOf(Show(x), R(c)) == K
    ensures var (db, claim) := ReserveDispatchSlot(Show(x), R(c), now);
            db == Show(ClaimedScene(x, c, now)) && claim.Claimed?
  {
    KnownShows(x, c);
    ShowIsValid(x);
    SideShows(x, c, ClaimedScene(x, c, now).sides[c]);
    assert ExclusionFor(Show(x), R(c), now).None?;
    assert Show(x).recipients[R(c)].(state := Processing) == RecipientRow(true, Processing);
  }
}
