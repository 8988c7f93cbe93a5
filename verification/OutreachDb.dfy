/**
 * The tables of the outbound protocol and, as functions on them, its database
 * transactions.  One function is one transaction: nothing else happens between
 * its reads and its writes.
 *
 * A delivery is unique per campaign recipient and a reservation unique per shop
 * and creator, so those are the keys of the two tables.
 */
module OutreachDb {
  import opened Options

  type ShopId = nat
  type CreatorId = nat
  type CampaignId = nat

  const DAY_MS: int := 86_400_000
  const FREEZE_MS: int := 30 * 60_000
  // 9999-12-31T23:59:59.999Z, the expiry of a queued campaign's reservations.
  const FAR_FUTURE: int := 253_402_300_799_999

  datatype CampaignState =
    | Draft | PreviewReady | Frozen | PreviewExpired
    | Queued | Running | PauseRequested | Paused | SafetyPaused
    | Completed | CompletedWithErrors | Cancelled

  datatype RecipientState =
    | Discovered | Selected | Reserved | Queued | Processing | Sent | Restricted | Failed
    | DeliveryUnknown | DeliveryUnknownUnresolved | Cancelled

  datatype DeliveryState =
    | Pending | Dispatching | Sent | Restricted | FailedRetryable | FailedTerminal
    | DeliveryUnknown | DeliveryUnknownUnresolved | Cancelled

  /** A campaign has one recipient row per creator, so the pair is its identity. */
  datatype RecipientId = RecipientId(campaign: CampaignId, creator: CreatorId)

  /** The campaign columns nothing rewrites. */
  datatype Terms = Terms(shop: ShopId, cooldownDays: nat)

  datatype ContactKey = ContactKey(shop: ShopId, creator: CreatorId)

  datatype CampaignRow = CampaignRow(state: CampaignState, version: nat, freezeExpiresAt: Option<int>)
  datatype RecipientRow = RecipientRow(selected: bool, state: RecipientState)
  datatype DeliveryRow = DeliveryRow(
    state: DeliveryState, firstDispatchedAt: Option<int>, attemptCount: nat, sentAt: Option<int>)
  datatype Reservation = Reservation(recipient: RecipientId, expiresAt: int)
  datatype Contact = Contact(
    firstContactedAt: Option<int>, lastContactedAt: Option<int>, contactCount: nat,
    lastCampaign: Option<CampaignId>, lastDelivery: Option<RecipientId>,
    doNotContact: bool, unresolvedDelivery: bool)

  const NoContact := Contact(None, None, 0, None, None, false, false)
  const FreshDelivery := DeliveryRow(Pending, None, 0, None)

  datatype Db = Db(
    terms: map<CampaignId, Terms>,
    campaigns: map<CampaignId, CampaignRow>,
    recipients: map<RecipientId, RecipientRow>,
    deliveries: map<RecipientId, DeliveryRow>,
    reservations: map<ContactKey, Reservation>,
    contacts: map<ContactKey, Contact>,
    unknownFacts: set<ContactKey>)

  /** Referential integrity. */
  ghost predicate ValidDb(db: Db) {
    && (forall c :: c in db.campaigns <==> c in db.terms)
    && (forall r | r in db.recipients :: r.campaign in db.terms)
    && (forall r | r in db.deliveries :: r in db.recipients)
    && (forall k | k in db.reservations :: db.reservations[k].recipient in db.recipients)
  }

  ghost predicate Known(db: Db, r: RecipientId) {
    ValidDb(db) && r in db.deliveries
  }

  function KeyOf(db: Db, r: RecipientId): ContactKey
    requires r.campaign in db.terms
  {
    ContactKey(db.terms[r.campaign].shop, r.creator)
  }

  function CooldownMs(db: Db, r: RecipientId): int
    requires r.campaign in db.terms
  {
    db.terms[r.campaign].cooldownDays * DAY_MS
  }

  /** The contact row, or what the code assumes when there is none. */
  function ContactAt(db: Db, k: ContactKey): Contact {
    if k in db.contacts then db.contacts[k] else NoContact
  }

  predicate Claimable(state: DeliveryState) {
    state.Pending? || state.FailedRetryable?
  }

  predicate Unknown(state: DeliveryState) {
    state.DeliveryUnknown? || state.DeliveryUnknownUnresolved?
  }

  predicate Sendable(state: CampaignState) {
    state.Queued? || state.Running?
  }

  /** The campaign has never been queued. */
  predicate BeforeQueue(state: CampaignState) {
    state.Draft? || state.PreviewReady? || state.Frozen? || state.PreviewExpired?
  }

  datatype DeliveryAction = Dispatch | RecoverAsUnknown | Skip

  function ActionFor(state: DeliveryState): DeliveryAction {
    match state
    case Dispatching => RecoverAsUnknown
    case Pending => Dispatch
    case FailedRetryable => Dispatch
    case _ => Skip
  }

  function WithDelivery(db: Db, r: RecipientId, d: DeliveryRow, s: RecipientState): Db
    requires r in db.recipients
  {
    db.(deliveries := db.deliveries[r := d], recipients := db.recipients[r := db.recipients[r].(state := s)])
  }

  function Release(db: Db, r: RecipientId): Db {
    db.(reservations := map k | k in db.reservations && db.reservations[k].recipient != r :: db.reservations[k])
  }

  predicate HasReservation(db: Db, r: RecipientId)
    requires r.campaign in db.terms
  {
    var k := KeyOf(db, r);
    k in db.reservations && db.reservations[k].recipient == r
  }

  // ---------------------------------------------------------------- claim

  datatype Exclusion = DoNotContact | UnknownElsewhere | ReservationInvalid | CooldownChanged
  datatype Claim = Claimed(attempt: nat) | NotClaimed | Excluded(reason: Exclusion)

  /** The safety re-check a claim makes, in the order the worker makes it. */
  function ExclusionFor(db: Db, r: RecipientId, now: int): (why: Option<Exclusion>)
    requires Known(db, r)
  {
    var k := KeyOf(db, r);
    var contact := ContactAt(db, k);
    if contact.doNotContact then Some(DoNotContact)
    else if contact.unresolvedDelivery && contact.lastDelivery != Some(r) then Some(UnknownElsewhere)
    else if !HasReservation(db, r) || db.reservations[k].expiresAt <= now then Some(ReservationInvalid)
    else
      var ownConfirmed := contact.lastCampaign == Some(r.campaign) && contact.lastDelivery == Some(r);
      if !ownConfirmed && contact.lastContactedAt.Some? && contact.lastContactedAt.value > now - CooldownMs(db, r)
      then Some(CooldownChanged)
      else None
  }

  function ReserveDispatchSlot(db: Db, r: RecipientId, now: int): (result: (Db, Claim))
    requires Known(db, r)
  {
    var c := r.campaign;
    var d := db.deliveries[r];
    if !Claimable(d.state) || !Sendable(db.campaigns[c].state) then (db, NotClaimed)
    else match ExclusionFor(db, r, now)
      case Some(why) =>
        (Release(WithDelivery(db, r, d.(state := FailedTerminal), RecipientState.Cancelled), r), Excluded(why))
      case None =>
        var first := if d.firstDispatchedAt.Some? then d.firstDispatchedAt else Some(now);
        var next := WithDelivery(db, r,
          d.(state := Dispatching, firstDispatchedAt := first, attemptCount := d.attemptCount + 1), Processing);
        (next.(campaigns := db.campaigns[c := db.campaigns[c].(state := Running)]), Claimed(d.attemptCount + 1))
  }

  // ---------------------------------------------------------------- settle

  /** Some other delivery to the same creator, or an imported fact, is unresolved. */
  ghost predicate UnknownBesides(db: Db, r: RecipientId)
    requires Known(db, r)
  {
    || KeyOf(db, r) in db.unknownFacts
    || exists q :: q in db.deliveries && q != r && KeyOf(db, q) == KeyOf(db, r) && Unknown(db.deliveries[q].state)
  }

  ghost function MarkSent(db: Db, r: RecipientId, now: int): Db
    requires Known(db, r)
  {
    var k := KeyOf(db, r);
    var old_ := ContactAt(db, k);
    var row := old_.(
      firstContactedAt := if old_.firstContactedAt.Some? then old_.firstContactedAt else Some(now),
      lastContactedAt := Some(now), contactCount := old_.contactCount + 1,
      lastCampaign := Some(r.campaign), lastDelivery := Some(r),
      unresolvedDelivery := UnknownBesides(db, r));
    var sent := WithDelivery(db, r, db.deliveries[r].(state := DeliveryState.Sent, sentAt := Some(now)), RecipientState.Sent);
    Release(sent.(contacts := db.contacts[k := row]), r)
  }

  /** Both the ambiguous answer and the recovery of an interrupted dispatch end here. */
  function MarkUnknown(db: Db, r: RecipientId): Db
    requires Known(db, r)
  {
    var k := KeyOf(db, r);
    WithDelivery(db, r, db.deliveries[r].(state := DeliveryState.DeliveryUnknown), RecipientState.DeliveryUnknown)
    .(contacts := db.contacts[k := ContactAt(db, k).(unresolvedDelivery := true, lastDelivery := Some(r))])
  }

  function MakeRetryable(db: Db, r: RecipientId): Db
    requires Known(db, r)
  {
    WithDelivery(db, r, db.deliveries[r].(state := FailedRetryable), RecipientState.Queued)
  }

  function MarkTerminalFailure(db: Db, r: RecipientId): Db
    requires Known(db, r)
  {
    Release(WithDelivery(db, r, db.deliveries[r].(state := FailedTerminal), Failed), r)
  }

  function MarkRestricted(db: Db, r: RecipientId): Db
    requires Known(db, r)
  {
    Release(WithDelivery(db, r, db.deliveries[r].(state := DeliveryState.Restricted), RecipientState.Restricted), r)
  }

  /** The last reconciliation attempt gives up; the contact row is not read. */
  function MarkUnresolved(db: Db, r: RecipientId): Db
    requires Known(db, r)
  {
    Release(
      WithDelivery(db, r, db.deliveries[r].(state := DeliveryState.DeliveryUnknownUnresolved),
                   RecipientState.DeliveryUnknownUnresolved), r)
  }

  // ---------------------------------------------------------------- campaign

  /** A freeze drops a selected recipient on the contact row, or on a reservation not yet expired. */
  predicate FreezeDrops(db: Db, r: RecipientId, now: int)
    requires ValidDb(db) && r in db.recipients
  {
    var k := KeyOf(db, r);
    var contact := ContactAt(db, k);
    || contact.doNotContact
    || contact.unresolvedDelivery
    || (contact.lastContactedAt.Some? && contact.lastContactedAt.value > now - CooldownMs(db, r))
    || (k in db.reservations && db.reservations[k].expiresAt > now)
  }

  function ExpiredIn(db: Db, shop: ShopId, now: int): set<ContactKey> {
    set k | k in db.reservations && k.shop == shop && db.reservations[k].expiresAt <= now
  }

  function WithoutExpired(db: Db, shop: ShopId, now: int): Db {
    db.(reservations := db.reservations - ExpiredIn(db, shop, now))
  }

  function Chosen(db: Db, c: CampaignId): set<RecipientId>
    requires ValidDb(db)
  {
    set r | r in db.recipients && r.campaign == c && db.recipients[r].selected
  }

  function Winners(db: Db, c: CampaignId, now: int): (winners: set<RecipientId>)
    requires ValidDb(db)
    ensures forall r | r in winners :: r in db.recipients && r.campaign == c && !FreezeDrops(db, r, now)
  {
    set r | r in Chosen(db, c) && !FreezeDrops(db, r, now)
  }

  /** The rows once the recipients in `done` went through the freeze. */
  function FrozenRows(db: Db, done: set<RecipientId>, winners: set<RecipientId>): map<RecipientId, RecipientRow> {
    map r | r in db.recipients ::
      if r !in done then db.recipients[r] else if r in winners then RecipientRow(true, Reserved) else RecipientRow(false, Discovered)
  }

  function FrozenReservations(db: Db, winners: set<RecipientId>, expiresAt: int): map<ContactKey, Reservation>
    requires forall r | r in winners :: r.campaign in db.terms
    requires forall r, q | r in winners && q in winners :: r.campaign == q.campaign
  {
    map r | r in winners :: KeyOf(db, r) := Reservation(r, expiresAt)
  }

  /** Reserves whom the contact rows and other reservations allow, and drops the rest. */
  function FreezeAll(db: Db, c: CampaignId, now: int): Db
    requires ValidDb(db)
  {
    var winners := Winners(db, c, now);
    db.(recipients := FrozenRows(db, Chosen(db, c), winners),
        reservations := db.reservations + FrozenReservations(db, winners, now + FREEZE_MS))
  }

  /** The campaign is frozen with whom is left, or its preview expires when nobody is. */
  function FreezeSelected(db: Db, c: CampaignId, now: int): Db
    requires ValidDb(db) && c in db.campaigns
  {
    var version := db.campaigns[c].version + 1;
    FreezeAll(db, c, now).(
      campaigns := db.campaigns[c := if Winners(db, c, now) == {} then CampaignRow(PreviewExpired, version, None)
                                     else CampaignRow(Frozen, version, Some(now + FREEZE_MS))])
  }

  function Freeze(db: Db, c: CampaignId, version: nat, now: int): Db
    requires ValidDb(db) && c in db.campaigns
  {
    var row := db.campaigns[c];
    if !row.state.PreviewReady? || row.version != version || Chosen(db, c) == {} then db
    else FreezeSelected(WithoutExpired(db, db.terms[c].shop, now), c, now)
  }

  function ToQueue(db: Db, c: CampaignId): set<RecipientId>
    requires ValidDb(db)
  {
    set r | r in Chosen(db, c) && db.recipients[r].state.Reserved?
  }

  function WithDeliveries(deliveries: map<RecipientId, DeliveryRow>, queued: set<RecipientId>): map<RecipientId, DeliveryRow> {
    deliveries + map r | r in queued && r !in deliveries :: FreshDelivery
  }

  function WithQueued(rows: map<RecipientId, RecipientRow>, queued: set<RecipientId>): map<RecipientId, RecipientRow> {
    map r | r in rows :: if r in queued then rows[r].(state := RecipientState.Queued) else rows[r]
  }

  function Extended(reservations: map<ContactKey, Reservation>, chosen: set<RecipientId>): map<ContactKey, Reservation> {
    map k | k in reservations ::
      if reservations[k].recipient in chosen then reservations[k].(expiresAt := FAR_FUTURE) else reservations[k]
  }

  function QueueFrozen(db: Db, c: CampaignId, version: nat): Db
    requires ValidDb(db) && c in db.campaigns
  {
    var row := db.campaigns[c];
    if !row.state.Frozen? || row.version != version || ToQueue(db, c) == {} then db
    else
      var queued := ToQueue(db, c);
      var chosen := Chosen(db, c);
      db.(
        campaigns := db.campaigns[c := row.(state := CampaignState.Queued, version := row.version + 1)],
        reservations := Extended(db.reservations, chosen),
        deliveries := WithDeliveries(db.deliveries, queued),
        recipients := WithQueued(db.recipients, queued))
  }

  predicate FreezeLapsed(row: CampaignRow, now: int) {
    row.state.Frozen? && row.freezeExpiresAt.Some? && row.freezeExpiresAt.value <= now
  }

  function Lapsed(db: Db, now: int): set<CampaignId> {
    set c | c in db.campaigns && FreezeLapsed(db.campaigns[c], now)
  }

  function ExpiredCampaigns(campaigns: map<CampaignId, CampaignRow>, lapsed: set<CampaignId>): map<CampaignId, CampaignRow> {
    map c | c in campaigns ::
      if c in lapsed then campaigns[c].(state := PreviewExpired, version := campaigns[c].version + 1) else campaigns[c]
  }

  function WithoutCampaigns(reservations: map<ContactKey, Reservation>, lapsed: set<CampaignId>): map<ContactKey, Reservation> {
    map k | k in reservations && reservations[k].recipient.campaign !in lapsed :: reservations[k]
  }

  function Unreserved(rows: map<RecipientId, RecipientRow>, lapsed: set<CampaignId>): map<RecipientId, RecipientRow> {
    map r | r in rows :: if r.campaign in lapsed && rows[r].state.Reserved? then rows[r].(state := Selected) else rows[r]
  }

  /** Every frozen campaign past its expiry returns its creators. */
  function ExpireFrozen(db: Db, now: int): Db
    requires ValidDb(db)
  {
    var lapsed := Lapsed(db, now);
    db.(campaigns := ExpiredCampaigns(db.campaigns, lapsed),
        reservations := WithoutCampaigns(db.reservations, lapsed),
        recipients := Unreserved(db.recipients, lapsed))
  }

  function Unsent(db: Db, c: CampaignId): set<RecipientId>
    requires ValidDb(db)
  {
    set r | r in db.recipients && r.campaign == c
         && (db.recipients[r].state.Reserved? || db.recipients[r].state.Queued?)
  }

  function CancelledDeliveries(deliveries: map<RecipientId, DeliveryRow>, ids: set<RecipientId>): map<RecipientId, DeliveryRow> {
    map r | r in deliveries ::
      if r in ids && Claimable(deliveries[r].state) then deliveries[r].(state := DeliveryState.Cancelled) else deliveries[r]
  }

  function CancelledRecipients(rows: map<RecipientId, RecipientRow>, ids: set<RecipientId>): map<RecipientId, RecipientRow> {
    map r | r in rows :: if r in ids then rows[r].(state := RecipientState.Cancelled) else rows[r]
  }

  function ReservationsOfOthers(reservations: map<ContactKey, Reservation>, ids: set<RecipientId>): map<ContactKey, Reservation> {
    map k | k in reservations && reservations[k].recipient !in ids :: reservations[k]
  }

  function Cancel(db: Db, c: CampaignId): Db
    requires ValidDb(db) && c in db.campaigns
  {
    var unsent := Unsent(db, c);
    db.(
      campaigns := db.campaigns[c := db.campaigns[c].(state := CampaignState.Cancelled, version := db.campaigns[c].version + 1)],
      deliveries := CancelledDeliveries(db.deliveries, unsent),
      recipients := CancelledRecipients(db.recipients, unsent),
      reservations := ReservationsOfOthers(db.reservations, unsent))
  }

  /** The rows of a redrawn campaign; the other campaigns' rows stay. */
  function Redrawn(db: Db, c: CampaignId, found: map<CreatorId, bool>): (rows: map<RecipientId, RecipientRow>)
    ensures forall r :: r in rows <==> r in db.recipients || (r.campaign == c && r.creator in found)
    ensures forall r | r in rows && r.campaign != c :: rows[r] == db.recipients[r]
    ensures forall r | r in rows && r.campaign == c :: rows[r].state.Discovered? || rows[r].state.Selected?
  {
    map r | r in db.recipients.Keys + (set x | x in found :: RecipientId(c, x)) ::
      if r.campaign != c then db.recipients[r]
      else if r.creator in found then RecipientRow(found[r.creator], if found[r.creator] then Selected else Discovered)
      else RecipientRow(false, Discovered)
  }

  /**
   * A rediscovery redraws the recipients of a campaign that was never queued, and so
   * has no delivery; `found` maps the creators it keeps to whether they are selected.
   */
  function Preview(db: Db, c: CampaignId, found: map<CreatorId, bool>): Db
    requires ValidDb(db) && c in db.campaigns
  {
    var row := db.campaigns[c];
    if !row.state.Draft? && !row.state.PreviewReady? && !row.state.PreviewExpired? then db
    else
      db.(
        campaigns := db.campaigns[c := CampaignRow(PreviewReady, row.version + 2, row.freezeExpiresAt)],
        recipients := Redrawn(db, c, found),
        reservations := map k | k in db.reservations && db.reservations[k].recipient.campaign != c :: db.reservations[k])
  }
}
