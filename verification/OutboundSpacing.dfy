/**
 * Cooldown: two messages to one creator accepted for different deliveries are
 * at least the later claim's cooldown apart.
 */
module OutboundSpacing {
  import opened Options
  import opened OutreachDb
  import opened OutboundProtocol
  import opened OutboundSafety

  // ---------------------------------------------------------------- tables

  /** A reservation is of its own creator's selected recipient, and permanent once there is a delivery. */
  ghost predicate ReservationOk(db: Db, k: ContactKey)
    requires ValidDb(db)
  {
    k in db.reservations ==>
      var r := db.reservations[k].recipient;
      && KeyOf(db, r) == k && db.recipients[r].selected
      && (r in db.deliveries ==> db.reservations[k].expiresAt == FAR_FUTURE)
      && (db.campaigns[r.campaign].state.Frozen? || !BeforeQueue(db.campaigns[r.campaign].state))
  }

  /** Deliveries exist only after queueing; a QUEUED recipient's delivery is claimable. */
  ghost predicate RowOk(db: Db, r: RecipientId)
    requires ValidDb(db)
  {
    && (r in db.deliveries ==> !BeforeQueue(db.campaigns[r.campaign].state) && !db.recipients[r].state.Reserved?)
    && (r in db.recipients && db.recipients[r].state.Queued? ==> r in db.deliveries && Claimable(db.deliveries[r].state))
  }

  ghost predicate TablesOk(db: Db) {
    && ValidDb(db)
    && (forall k {:trigger ReservationOk(db, k)} :: ReservationOk(db, k))
    && (forall r {:trigger RowOk(db, r)} :: RowOk(db, r))
  }

  lemma MarkSentKeepsTables(db: Db, r: RecipientId, now: int)
    requires TablesOk(db) && Known(db, r)
    ensures TablesOk(MarkSent(db, r, now))
  {
    var next := MarkSent(db, r, now);
    forall k ensures ReservationOk(next, k) {
      assert ReservationOk(db, k);
      if k in next.reservations { assert RowOk(db, next.reservations[k].recipient); }
    }
    forall q ensures RowOk(next, q) {
      assert RowOk(db, q);
    }
  }

  lemma MarkUnknownKeepsTables(db: Db, r: RecipientId)
    requires TablesOk(db) && Known(db, r)
    ensures TablesOk(MarkUnknown(db, r))
  {
    var next := MarkUnknown(db, r);
    forall k ensures ReservationOk(next, k) {
      assert ReservationOk(db, k);
      if k in next.reservations { assert RowOk(db, next.reservations[k].recipient); }
    }
    forall q ensures RowOk(next, q) {
      assert RowOk(db, q);
    }
  }

  lemma RetryKeepsTables(db: Db, r: RecipientId)
    requires TablesOk(db) && Known(db, r)
    ensures TablesOk(MakeRetryable(db, r))
  {
    var next := MakeRetryable(db, r);
    forall k ensures ReservationOk(next, k) {
      assert ReservationOk(db, k);
      if k in next.reservations { assert RowOk(db, next.reservations[k].recipient); }
    }
    forall q ensures RowOk(next, q) {
      assert RowOk(db, q);
    }
  }

  lemma TerminalKeepsTables(db: Db, r: RecipientId)
    requires TablesOk(db) && Known(db, r)
    ensures TablesOk(MarkTerminalFailure(db, r))
  {
    var next := MarkTerminalFailure(db, r);
    forall k ensures ReservationOk(next, k) {
      assert ReservationOk(db, k);
      if k in next.reservations { assert RowOk(db, next.reservations[k].recipient); }
    }
    forall q ensures RowOk(next, q) {
      assert RowOk(db, q);
    }
  }

  lemma RestrictedKeepsTables(db: Db, r: RecipientId)
    requires TablesOk(db) && Known(db, r)
    ensures TablesOk(MarkRestricted(db, r))
  {
    var next := MarkRestricted(db, r);
    forall k ensures ReservationOk(next, k) {
      assert ReservationOk(db, k);
      if k in next.reservations { assert RowOk(db, next.reservations[k].recipient); }
    }
    forall q ensures RowOk(next, q) {
      assert RowOk(db, q);
    }
  }

  lemma UnresolvedKeepsTables(db: Db, r: RecipientId)
    requires TablesOk(db) && Known(db, r)
    ensures TablesOk(MarkUnresolved(db, r))
  {
    var next := MarkUnresolved(db, r);
    forall k ensures ReservationOk(next, k) {
      assert ReservationOk(db, k);
      if k in next.reservations { assert RowOk(db, next.reservations[k].recipient); }
    }
    forall q ensures RowOk(next, q) {
      assert RowOk(db, q);
    }
  }

  lemma ClaimKeepsTables(db: Db, r: RecipientId, now: int)
    requires TablesOk(db) && Known(db, r)
    ensures TablesOk(ReserveDispatchSlot(db, r, now).0)
  {
    var next := ReserveDispatchSlot(db, r, now).0;
    forall k ensures ReservationOk(next, k) {
      assert ReservationOk(db, k);
      if k in next.reservations { assert RowOk(db, next.reservations[k].recipient); }
    }
    forall q ensures RowOk(next, q) {
      assert RowOk(db, q);
    }
  }

  lemma FreezeKeepsReservation(db: Db, c: CampaignId, version: nat, now: int, k: ContactKey)
    requires TablesOk(db) && c in db.campaigns && now < FAR_FUTURE && ValidDb(Freeze(db, c, version, now))
    ensures ReservationOk(Freeze(db, c, version, now), k)
  {
    assert ReservationOk(db, k);
    var next := Freeze(db, c, version, now);
    if k in next.reservations { assert RowOk(db, next.reservations[k].recipient); }
  }

  lemma FreezeKeepsRow(db: Db, c: CampaignId, version: nat, now: int, r: RecipientId)
    requires TablesOk(db) && c in db.campaigns && now < FAR_FUTURE && ValidDb(Freeze(db, c, version, now))
    ensures RowOk(Freeze(db, c, version, now), r)
  {
    assert RowOk(db, r);
  }

  lemma FreezeKeepsTables(db: Db, c: CampaignId, version: nat, now: int)
    requires TablesOk(db) && c in db.campaigns && now < FAR_FUTURE
    ensures TablesOk(Freeze(db, c, version, now))
  {
    QuietFreeze(db, c, version, now);
    forall k ensures ReservationOk(Freeze(db, c, version, now), k) {
      FreezeKeepsReservation(db, c, version, now, k);
    }
    forall r ensures RowOk(Freeze(db, c, version, now), r) {
      FreezeKeepsRow(db, c, version, now, r);
    }
  }

  lemma QueueKeepsTables(db: Db, c: CampaignId, version: nat)
    requires TablesOk(db) && c in db.campaigns
    ensures TablesOk(QueueFrozen(db, c, version))
  {
    var next := QueueFrozen(db, c, version);
    forall k ensures ReservationOk(next, k) {
      assert ReservationOk(db, k);
      if k in next.reservations { assert RowOk(db, next.reservations[k].recipient); }
    }
    forall r ensures RowOk(next, r) {
      assert RowOk(db, r);
    }
  }

  lemma CancelKeepsTables(db: Db, c: CampaignId)
    requires TablesOk(db) && c in db.campaigns
    ensures TablesOk(Cancel(db, c))
  {
    var next := Cancel(db, c);
    forall k ensures ReservationOk(next, k) {
      assert ReservationOk(db, k);
      if k in next.reservations { assert RowOk(db, next.reservations[k].recipient); }
    }
    forall r ensures RowOk(next, r) {
      assert RowOk(db, r);
    }
  }

  lemma PreviewKeepsReservation(db: Db, c: CampaignId, found: map<CreatorId, bool>, k: ContactKey)
    requires TablesOk(db) && c in db.campaigns && ValidDb(Preview(db, c, found))
    ensures ReservationOk(Preview(db, c, found), k)
  {
    assert ReservationOk(db, k);
    var next := Preview(db, c, found);
    if k in next.reservations { assert RowOk(db, next.reservations[k].recipient); }
  }

  lemma PreviewKeepsRow(db: Db, c: CampaignId, found: map<CreatorId, bool>, r: RecipientId)
    requires TablesOk(db) && c in db.campaigns && ValidDb(Preview(db, c, found))
    ensures RowOk(Preview(db, c, found), r)
  {
    assert RowOk(db, r);
  }

  lemma PreviewKeepsTables(db: Db, c: CampaignId, found: map<CreatorId, bool>)
    requires TablesOk(db) && c in db.campaigns
    ensures TablesOk(Preview(db, c, found))
  {
    QuietPreview(db, c, found);
    forall k ensures ReservationOk(Preview(db, c, found), k) {
      PreviewKeepsReservation(db, c, found, k);
    }
    forall r ensures RowOk(Preview(db, c, found), r) {
      PreviewKeepsRow(db, c, found, r);
    }
  }

  lemma ExpireKeepsTables(db: Db, now: int)
    requires TablesOk(db)
    ensures TablesOk(ExpireFrozen(db, now))
  {
    var next := ExpireFrozen(db, now);
    forall k ensures ReservationOk(next, k) {
      assert ReservationOk(db, k);
      if k in next.reservations { assert RowOk(db, next.reservations[k].recipient); }
    }
    forall r ensures RowOk(next, r) {
      assert RowOk(db, r);
    }
  }

  // ------------------------------------------------- where a delivery stands

  /**
   * Live: claimed, and its request not sent, in flight, or refused without the
   * holder knowing.  Delivered: the provider accepted it.
   */
  datatype Standing = Idle | Live(claimedAt: int) | Delivered(claimedAt: int, acceptedAt: int)

  function StandingOf(s: Sys, r: RecipientId): Standing {
    if r !in s.claimedBy then Idle
    else
      var e := s.claimedBy[r];
      if e in s.requests && s.requests[e].recipient == r then
        var q := s.requests[e];
        if q.acceptedAt.Some? then Delivered(q.claimedAt, q.acceptedAt.value) else Live(q.claimedAt)
      else if e in s.runs && s.runs[e].Holding? && s.runs[e].recipient == r then Live(s.runs[e].claimedAt)
      else Idle
  }

  /** The standings of all deliveries; one that does not exist is idle. */
  type Standings = map<RecipientId, Standing>

  function StandingsOf(s: Sys): Standings {
    map r | r in s.db.deliveries :: StandingOf(s, r)
  }

  function At(st: Standings, r: RecipientId): Standing {
    if r in st then st[r] else Idle
  }

  /** The contact row already shows a contact at or after `at`. */
  predicate Recorded(db: Db, k: ContactKey, at: int) {
    var last := ContactAt(db, k).lastContactedAt;
    last.Some? && last.value >= at
  }

  /** The creator may get, or got, a message the contact row does not show yet. */
  predicate Open(db: Db, st: Standings, r: RecipientId)
    requires r.campaign in db.terms
  {
    match At(st, r)
    case Idle => false
    case Live(_) => true
    case Delivered(_, at) => !Recorded(db, KeyOf(db, r), at)
  }

  /** No other campaign can reserve the creator: the delivery has the reservation, or it is unknown and the creator is marked. */
  ghost predicate Guarded(db: Db, r: RecipientId)
    requires Known(db, r)
  {
    HasReservation(db, r) || (Unknown(db.deliveries[r].state) && Flagged(db, r))
  }

  ghost predicate OpenOnesGuarded(db: Db, st: Standings)
    requires ValidDb(db)
  {
    forall r | r in db.deliveries && Open(db, st, r) :: Guarded(db, r)
  }

  /** The row of a delivery that stands: being dispatched under its reservation, unknown, or SENT and dated no earlier. */
  predicate Settled(db: Db, st: Standings, r: RecipientId)
    requires r in db.deliveries && r.campaign in db.terms
  {
    var d := db.deliveries[r];
    match At(st, r)
    case Idle => true
    case Live(_) => Unknown(d.state) || (d.state.Dispatching? && HasReservation(db, r))
    case Delivered(_, at) =>
      || Unknown(d.state) || (d.state.Dispatching? && HasReservation(db, r))
      || (d.state.Sent? && !HasReservation(db, r) && d.sentAt.Some? && at <= d.sentAt.value)
  }

  ghost predicate AllSettled(db: Db, st: Standings)
    requires ValidDb(db)
  {
    forall r {:trigger Settled(db, st, r)} | r in db.deliveries :: Settled(db, st, r)
  }

  predicate SameCreator(terms: map<CampaignId, Terms>, r: RecipientId, q: RecipientId) {
    && r.campaign in terms && q.campaign in terms && r != q
    && terms[r.campaign].shop == terms[q.campaign].shop && r.creator == q.creator
  }

  /** The second was claimed a cooldown or more after the first was accepted. */
  predicate Apart(terms: map<CampaignId, Terms>, st: Standings, earlier: RecipientId, later: RecipientId)
    requires later.campaign in terms && At(st, earlier).Delivered? && !At(st, later).Idle?
  {
    At(st, earlier).acceptedAt + terms[later.campaign].cooldownDays * DAY_MS <= At(st, later).claimedAt
  }

  /** One delivery to a creator is in flight at a time, claimed a cooldown after each that was accepted. */
  ghost predicate LiveAhead(terms: map<CampaignId, Terms>, st: Standings) {
    forall r, q | SameCreator(terms, r, q) && At(st, r).Live? ::
      !At(st, q).Live? && (At(st, q).Delivered? ==> Apart(terms, st, q, r))
  }

  ghost predicate Spaced(terms: map<CampaignId, Terms>, st: Standings) {
    forall r, q | SameCreator(terms, r, q) && At(st, r).Delivered? && At(st, q).Delivered? ::
      Apart(terms, st, r, q) || Apart(terms, st, q, r)
  }

  ghost predicate TimesOk(st: Standings, clock: int) {
    0 < clock < FAR_FUTURE && forall r | r in st ::
      match st[r]
      case Idle => true
      case Live(at) => at <= clock
      case Delivered(at, accepted) => at <= accepted <= clock && 0 < accepted
  }

  /** No other delivery to the creator is in flight, and every accepted one is a cooldown ago. */
  ghost predicate Clears(terms: map<CampaignId, Terms>, st: Standings, r: RecipientId, clock: int)
    requires r.campaign in terms
  {
    forall q | SameCreator(terms, r, q) ::
      !At(st, q).Live? && (At(st, q).Delivered? ==> At(st, q).acceptedAt + terms[r.campaign].cooldownDays * DAY_MS <= clock)
  }

  /** Whoever has a reservation may send as far as the past is concerned. */
  ghost predicate HoldersClear(db: Db, st: Standings, clock: int)
    requires ValidDb(db)
  {
    forall k | k in db.reservations :: Clears(db.terms, st, db.reservations[k].recipient, clock)
  }

  ghost predicate AnswersBacked(s: Sys) {
    forall e | e in s.runs && s.runs[e].Answered? && s.runs[e].answer.Accepted? ::
      e in s.requests && s.requests[e].acceptedAt.Some?
  }

  ghost predicate Gaps(db: Db, st: Standings, clock: int)
    requires ValidDb(db)
  {
    && OpenOnesGuarded(db, st) && AllSettled(db, st) && HoldersClear(db, st, clock)
    && LiveAhead(db.terms, st) && Spaced(db.terms, st) && TimesOk(st, clock)
  }

  ghost predicate Safe(s: Sys) {
    AtMostOnce(s) && TablesOk(s.db) && AnswersBacked(s) && Gaps(s.db, StandingsOf(s), s.clock)
  }

  // --------------------------------------------- what a database change keeps

  /** Every open delivery but `but` stays guarded, and no recorded contact is forgotten. */
  ghost predicate Shelters(db: Db, next: Db, but: set<RecipientId>, now: int) {
    && ValidDb(db) && ValidDb(next) && next.terms == db.terms
    && (forall r | r in db.deliveries :: r in next.deliveries)
    && (forall r | r in db.deliveries && r !in but && Guarded(db, r) :: Guarded(next, r))
    && (forall k, at {:trigger Recorded(next, k, at)} | at <= now && Recorded(db, k, at) :: Recorded(next, k, at))
  }

  lemma MarkUnknownShelters(db: Db, r: RecipientId, now: int)
    requires TablesOk(db) && Known(db, r)
    ensures Shelters(db, MarkUnknown(db, r), {}, now)
  {
    QuietMarkUnknown(db, r);
  }

  lemma MarkSentShelters(db: Db, r: RecipientId, now: int)
    requires TablesOk(db) && Known(db, r)
    ensures Shelters(db, MarkSent(db, r, now), {r}, now)
    ensures forall at | at <= now :: Recorded(MarkSent(db, r, now), KeyOf(db, r), at)
  {
    QuietMarkSent(db, r, now);
  }

  lemma FailureShelters(db: Db, r: RecipientId, now: int)
    requires TablesOk(db) && Known(db, r)
    ensures Shelters(db, MarkTerminalFailure(db, r), {r}, now)
  {
    QuietTerminalFailure(db, r);
  }

  lemma RetryShelters(db: Db, r: RecipientId, now: int)
    requires TablesOk(db) && Known(db, r)
    ensures Shelters(db, MakeRetryable(db, r), {r}, now)
  {
  }

  lemma RestrictedShelters(db: Db, r: RecipientId, now: int)
    requires TablesOk(db) && Known(db, r)
    ensures Shelters(db, MarkRestricted(db, r), {r}, now)
  {
    QuietRestricted(db, r);
  }

  lemma UnresolvedShelters(db: Db, r: RecipientId, now: int)
    requires TablesOk(db) && Known(db, r) && Flagged(db, r)
    ensures Shelters(db, MarkUnresolved(db, r), {}, now)
  {
    QuietUnresolved(db, r);
  }

  lemma UnresolvedSheltersOthers(db: Db, r: RecipientId, now: int)
    requires TablesOk(db) && Known(db, r)
    ensures Shelters(db, MarkUnresolved(db, r), {r}, now)
  {
    QuietUnresolved(db, r);
  }

  /** Giving up takes the reservation away, and only the flag on the creator then guards the delivery. */
  lemma GivingUpUnguardsExactly(db: Db, r: RecipientId)
    requires TablesOk(db) && Known(db, r) && Guarded(db, r)
    ensures Known(MarkUnresolved(db, r), r)
    ensures Guarded(MarkUnresolved(db, r), r) <==> Flagged(db, r)
  {
    QuietUnresolved(db, r);
  }

  lemma ClaimKeepsGuard(db: Db, r: RecipientId, now: int, q: RecipientId)
    requires TablesOk(db) && Known(db, r) && q in db.deliveries && Guarded(db, q) && q !in {r}
    requires Quiet(db, ReserveDispatchSlot(db, r, now).0)
    ensures Guarded(ReserveDispatchSlot(db, r, now).0, q)
  {
  }

  lemma ClaimShelters(db: Db, r: RecipientId, now: int)
    requires TablesOk(db) && Known(db, r)
    ensures Shelters(db, ReserveDispatchSlot(db, r, now).0, {r}, now)
  {
    QuietClaim(db, r, now);
    forall q | q in db.deliveries && Guarded(db, q) && q !in {r} ensures Guarded(ReserveDispatchSlot(db, r, now).0, q) {
      ClaimKeepsGuard(db, r, now, q);
    }
  }

  lemma FreezeKeepsGuard(db: Db, c: CampaignId, version: nat, now: int, r: RecipientId)
    requires TablesOk(db) && c in db.campaigns && now < FAR_FUTURE && r in db.deliveries && Guarded(db, r)
    requires Quiet(db, Freeze(db, c, version, now))
    ensures Guarded(Freeze(db, c, version, now), r)
  {
    assert ReservationOk(db, KeyOf(db, r)) && RowOk(db, r);
  }

  lemma FreezeShelters(db: Db, c: CampaignId, version: nat, now: int)
    requires TablesOk(db) && c in db.campaigns && now < FAR_FUTURE
    ensures Shelters(db, Freeze(db, c, version, now), {}, now)
  {
    QuietFreeze(db, c, version, now);
    forall r | r in db.deliveries && Guarded(db, r) ensures Guarded(Freeze(db, c, version, now), r) {
      FreezeKeepsGuard(db, c, version, now, r);
    }
  }

  lemma QueueKeepsGuard(db: Db, c: CampaignId, version: nat, r: RecipientId)
    requires TablesOk(db) && c in db.campaigns && r in db.deliveries && Guarded(db, r)
    requires Quiet(db, QueueFrozen(db, c, version))
    ensures Guarded(QueueFrozen(db, c, version), r)
  {
    assert ReservationOk(db, KeyOf(db, r)) && RowOk(db, r);
  }

  lemma QueueShelters(db: Db, c: CampaignId, version: nat, now: int)
    requires TablesOk(db) && c in db.campaigns
    ensures Shelters(db, QueueFrozen(db, c, version), {}, now)
  {
    QuietQueue(db, c, version);
    forall r | r in db.deliveries && Guarded(db, r) ensures Guarded(QueueFrozen(db, c, version), r) {
      QueueKeepsGuard(db, c, version, r);
    }
  }

  ghost function ClaimableIn(db: Db): set<RecipientId> {
    set r | r in db.deliveries && Claimable(db.deliveries[r].state)
  }

  lemma CancelKeepsGuard(db: Db, c: CampaignId, r: RecipientId)
    requires TablesOk(db) && c in db.campaigns && r in db.deliveries && Guarded(db, r) && r !in ClaimableIn(db)
    requires Quiet(db, Cancel(db, c))
    ensures Guarded(Cancel(db, c), r)
  {
    assert ReservationOk(db, KeyOf(db, r)) && RowOk(db, r);
  }

  /** A cancelled recipient's delivery is not open: it was claimable or does not exist. */
  lemma CancelShelters(db: Db, c: CampaignId, now: int)
    requires TablesOk(db) && c in db.campaigns
    ensures Shelters(db, Cancel(db, c), ClaimableIn(db), now)
  {
    QuietCancel(db, c);
    forall r | r in db.deliveries && Guarded(db, r) && r !in ClaimableIn(db) ensures Guarded(Cancel(db, c), r) {
      CancelKeepsGuard(db, c, r);
    }
  }

  lemma PreviewKeepsGuard(db: Db, c: CampaignId, found: map<CreatorId, bool>, r: RecipientId)
    requires TablesOk(db) && c in db.campaigns && r in db.deliveries && Guarded(db, r)
    requires Quiet(db, Preview(db, c, found))
    ensures Guarded(Preview(db, c, found), r)
  {
    assert ReservationOk(db, KeyOf(db, r)) && RowOk(db, r);
  }

  lemma PreviewShelters(db: Db, c: CampaignId, found: map<CreatorId, bool>, now: int)
    requires TablesOk(db) && c in db.campaigns
    ensures Shelters(db, Preview(db, c, found), {}, now)
  {
    QuietPreview(db, c, found);
    forall r | r in db.deliveries && Guarded(db, r) ensures Guarded(Preview(db, c, found), r) {
      PreviewKeepsGuard(db, c, found, r);
    }
  }

  lemma ExpireKeepsGuard(db: Db, now: int, r: RecipientId)
    requires TablesOk(db) && r in db.deliveries && Guarded(db, r)
    requires Quiet(db, ExpireFrozen(db, now))
    ensures Guarded(ExpireFrozen(db, now), r)
  {
    assert ReservationOk(db, KeyOf(db, r)) && RowOk(db, r);
  }

  lemma ExpireShelters(db: Db, now: int)
    requires TablesOk(db)
    ensures Shelters(db, ExpireFrozen(db, now), {}, now)
  {
    QuietExpire(db, now);
    forall r | r in db.deliveries && Guarded(db, r) ensures Guarded(ExpireFrozen(db, now), r) {
      ExpireKeepsGuard(db, now, r);
    }
  }

  // ----------------------------------------------------- what a step keeps

  ghost predicate SameStandings(st: Standings, next: Standings) {
    && (forall r | r in st :: r in next && next[r] == st[r])
    && (forall r | r in next && r !in st :: next[r].Idle?)
  }

  lemma SameHoldersStandTheSame(s: Sys, next: Sys)
    requires KnownRuns(s) && next.requests == s.requests && next.claimedBy == s.claimedBy
    requires forall e | e in next.runs && next.runs[e].Holding? :: e in s.runs && s.runs[e] == next.runs[e]
    requires forall e | e in s.runs && s.runs[e].Holding? :: e in next.runs && s.runs[e] == next.runs[e]
    requires forall r | r in s.db.deliveries :: r in next.db.deliveries
    ensures SameStandings(StandingsOf(s), StandingsOf(next))
  {
  }

  lemma SameStandingsKeepGaps(terms: map<CampaignId, Terms>, st: Standings, next: Standings, clock: int)
    requires SameStandings(st, next) && LiveAhead(terms, st) && Spaced(terms, st) && TimesOk(st, clock)
    ensures LiveAhead(terms, next) && Spaced(terms, next) && TimesOk(next, clock)
  {
    assert forall r :: At(next, r) == At(st, r);
  }

  lemma SheltersKeepsGuards(db: Db, next: Db, st: Standings, nextSt: Standings, but: set<RecipientId>, clock: int)
    requires ValidDb(db) && OpenOnesGuarded(db, st) && SameStandings(st, nextSt)
    requires Shelters(db, next, but, clock) && TimesOk(st, clock)
    requires forall r | r in st :: r in db.deliveries
    requires forall r | r in but && r in db.deliveries :: !Open(next, nextSt, r)
    ensures OpenOnesGuarded(next, nextSt)
  {
    assert forall r :: At(nextSt, r) == At(st, r);
    assert forall r | r in next.deliveries && Open(next, nextSt, r) :: r in st && Open(db, st, r);
  }

  lemma SettledStay(db: Db, st: Standings, nextSt: Standings)
    requires ValidDb(db) && AllSettled(db, st) && SameStandings(st, nextSt)
    ensures AllSettled(db, nextSt)
  {
    forall r | r in db.deliveries ensures Settled(db, nextSt, r) {
      assert Settled(db, st, r) && At(nextSt, r) == At(st, r);
    }
  }

  lemma ClearStay(db: Db, st: Standings, nextSt: Standings, clock: int)
    requires ValidDb(db) && HoldersClear(db, st, clock) && SameStandings(st, nextSt)
    ensures HoldersClear(db, nextSt, clock)
  {
    assert forall r :: At(nextSt, r) == At(st, r);
  }

  /** A change of the tables that shelters every open delivery keeps the gaps. */
  lemma DbChangeKeepsGaps(db: Db, next: Db, st: Standings, nextSt: Standings, but: set<RecipientId>, clock: int)
    requires ValidDb(db) && Gaps(db, st, clock) && SameStandings(st, nextSt)
    requires Shelters(db, next, but, clock) && (forall r | r in st :: r in db.deliveries)
    requires forall r | r in but && r in db.deliveries :: !Open(next, st, r)
    requires AllSettled(next, st) && HoldersClear(next, st, clock)
    ensures Gaps(next, nextSt, clock)
  {
    assert forall r :: At(nextSt, r) == At(st, r);
    SheltersKeepsGuards(db, next, st, nextSt, but, clock);
    SettledStay(next, st, nextSt);
    ClearStay(next, st, nextSt, clock);
    SameStandingsKeepGaps(db.terms, st, nextSt, clock);
  }

  /** One delivery moves, and what the others stand for is as it was. */
  lemma MovedStand(st: Standings, r: RecipientId, to: Standing)
    ensures At(st[r := to], r) == to && forall q | q != r :: At(st[r := to], q) == At(st, q)
  {
  }

  /** A claim that ends without an acceptance. */
  lemma ReleaseKeepsGaps(db: Db, st: Standings, r: RecipientId, clock: int)
    requires ValidDb(db) && r in st && st[r].Live? && Gaps(db, st, clock)
    ensures Gaps(db, st[r := Idle], clock)
  {
    var next := st[r := Idle];
    MovedStand(st, r, Idle);
    assert forall q | q in db.deliveries && Open(db, next, q) :: Open(db, st, q);
    forall q | q in db.deliveries ensures Settled(db, next, q) {
      assert Settled(db, st, q);
    }
  }

  lemma AcceptKeepsSpacing(terms: map<CampaignId, Terms>, st: Standings, r: RecipientId, clock: int)
    requires r in st && st[r].Live? && LiveAhead(terms, st) && Spaced(terms, st) && TimesOk(st, clock)
    ensures var next := st[r := Delivered(st[r].claimedAt, clock)];
            LiveAhead(terms, next) && Spaced(terms, next) && TimesOk(next, clock)
  {
    MovedStand(st, r, Delivered(st[r].claimedAt, clock));
    assert forall q :: SameCreator(terms, q, r) <==> SameCreator(terms, r, q);
  }

  lemma AcceptKeepsGuards(db: Db, st: Standings, r: RecipientId, to: Standing)
    requires ValidDb(db) && r in st && st[r].Live? && OpenOnesGuarded(db, st) && AllSettled(db, st) && to.Delivered?
    ensures OpenOnesGuarded(db, st[r := to]) && AllSettled(db, st[r := to])
  {
    var next := st[r := to];
    MovedStand(st, r, to);
    forall q | q in db.deliveries && Open(db, next, q) ensures Open(db, st, q) {
    }
    forall q | q in db.deliveries ensures Settled(db, next, q) {
      assert Settled(db, st, q);
    }
  }

  /** What is accepted was in flight, so no other delivery to its creator has the reservation. */
  lemma AcceptKeepsClear(db: Db, st: Standings, r: RecipientId, to: Standing, clock: int)
    requires ValidDb(db) && r in st && st[r].Live? && HoldersClear(db, st, clock)
    ensures HoldersClear(db, st[r := to], clock)
  {
    MovedStand(st, r, to);
  }

  /** The provider accepts the one live request of the creator. */
  lemma AcceptKeepsGaps(db: Db, st: Standings, r: RecipientId, clock: int)
    requires ValidDb(db) && r in st && st[r].Live? && Gaps(db, st, clock)
    ensures Gaps(db, st[r := Delivered(st[r].claimedAt, clock)], clock)
  {
    AcceptKeepsSpacing(db.terms, st, r, clock);
    AcceptKeepsGuards(db, st, r, Delivered(st[r].claimedAt, clock));
    AcceptKeepsClear(db, st, r, Delivered(st[r].claimedAt, clock), clock);
  }

  // ----------------------------------------------- rows and reservations

  /** Rows and reservations of all deliveries but `but` stay as they are. */
  ghost predicate Leaves(db: Db, next: Db, but: set<RecipientId>) {
    && ValidDb(db) && ValidDb(next) && next.terms == db.terms
    && (forall r | r in db.deliveries :: r in next.deliveries)
    && (forall r {:trigger Stays(db, next, r)} | r in db.deliveries && r !in but :: Stays(db, next, r))
  }

  ghost predicate Stays(db: Db, next: Db, r: RecipientId)
    requires Known(db, r) && Known(next, r)
  {
    next.deliveries[r] == db.deliveries[r] && (HasReservation(next, r) <==> HasReservation(db, r))
  }

  lemma LeavesKeepsSettled(db: Db, next: Db, st: Standings, but: set<RecipientId>)
    requires ValidDb(db) && AllSettled(db, st) && Leaves(db, next, but) && (forall r | r in st :: r in db.deliveries)
    requires forall r | r in but && r in next.deliveries :: Settled(next, st, r)
    ensures AllSettled(next, st)
  {
    forall r | r in next.deliveries ensures Settled(next, st, r) {
      if r in db.deliveries && r !in but { assert Settled(db, st, r) && Stays(db, next, r); }
    }
  }

  /** No creator is reserved for anybody new. */
  ghost predicate ReservesNobody(db: Db, next: Db) {
    && next.terms == db.terms
    && forall k | k in next.reservations :: k in db.reservations && next.reservations[k].recipient == db.reservations[k].recipient
  }

  lemma NobodyNewIsClear(db: Db, next: Db, st: Standings, clock: int)
    requires ValidDb(db) && ValidDb(next) && ReservesNobody(db, next) && HoldersClear(db, st, clock)
    ensures HoldersClear(next, st, clock)
  {
  }

  lemma SentLeaves(db: Db, r: RecipientId, now: int)
    requires Known(db, r)
    ensures Leaves(db, MarkSent(db, r, now), {r}) && ReservesNobody(db, MarkSent(db, r, now))
  {
  }

  lemma UnknownLeaves(db: Db, r: RecipientId)
    requires Known(db, r)
    ensures Leaves(db, MarkUnknown(db, r), {r}) && ReservesNobody(db, MarkUnknown(db, r))
  {
  }

  lemma RetryLeaves(db: Db, r: RecipientId)
    requires Known(db, r)
    ensures Leaves(db, MakeRetryable(db, r), {r}) && ReservesNobody(db, MakeRetryable(db, r))
  {
  }

  lemma FailureLeaves(db: Db, r: RecipientId)
    requires Known(db, r)
    ensures Leaves(db, MarkTerminalFailure(db, r), {r}) && ReservesNobody(db, MarkTerminalFailure(db, r))
  {
  }

  lemma RestrictionLeaves(db: Db, r: RecipientId)
    requires Known(db, r)
    ensures Leaves(db, MarkRestricted(db, r), {r}) && ReservesNobody(db, MarkRestricted(db, r))
  {
  }

  lemma GivingUpLeaves(db: Db, r: RecipientId)
    requires Known(db, r)
    ensures Leaves(db, MarkUnresolved(db, r), {r}) && ReservesNobody(db, MarkUnresolved(db, r))
  {
  }

  lemma ClaimLeaves(db: Db, r: RecipientId, now: int)
    requires Known(db, r)
    ensures Leaves(db, ReserveDispatchSlot(db, r, now).0, {r}) && ReservesNobody(db, ReserveDispatchSlot(db, r, now).0)
  {
  }

  lemma QueueLeaves(db: Db, c: CampaignId, version: nat)
    requires TablesOk(db) && c in db.campaigns
    ensures Leaves(db, QueueFrozen(db, c, version), {}) && ReservesNobody(db, QueueFrozen(db, c, version))
  {
    QuietQueue(db, c, version);
  }

  lemma CancelLeaves(db: Db, c: CampaignId)
    requires TablesOk(db) && c in db.campaigns
    ensures Leaves(db, Cancel(db, c), ClaimableIn(db)) && ReservesNobody(db, Cancel(db, c))
  {
    var next := Cancel(db, c);
    QuietCancel(db, c);
    forall r | r in db.deliveries && r !in ClaimableIn(db) ensures Stays(db, next, r) {
      assert RowOk(db, r);
    }
  }

  lemma PreviewLeaves(db: Db, c: CampaignId, found: map<CreatorId, bool>)
    requires TablesOk(db) && c in db.campaigns
    ensures Leaves(db, Preview(db, c, found), {}) && ReservesNobody(db, Preview(db, c, found))
  {
    var next := Preview(db, c, found);
    QuietPreview(db, c, found);
    forall r | r in db.deliveries ensures Stays(db, next, r) {
      assert RowOk(db, r);
    }
  }

  lemma ExpireLeaves(db: Db, now: int)
    requires TablesOk(db)
    ensures Leaves(db, ExpireFrozen(db, now), {}) && ReservesNobody(db, ExpireFrozen(db, now))
  {
    var next := ExpireFrozen(db, now);
    QuietExpire(db, now);
    forall r | r in db.deliveries ensures Stays(db, next, r) {
      assert RowOk(db, r);
    }
  }

  lemma FreezeLeavesOne(db: Db, c: CampaignId, version: nat, now: int, r: RecipientId)
    requires TablesOk(db) && c in db.campaigns && now < FAR_FUTURE && r in db.deliveries && Known(Freeze(db, c, version, now), r)
    ensures Stays(db, Freeze(db, c, version, now), r)
  {
    assert ReservationOk(db, KeyOf(db, r)) && RowOk(db, r);
  }

  lemma FreezeLeaves(db: Db, c: CampaignId, version: nat, now: int)
    requires TablesOk(db) && c in db.campaigns && now < FAR_FUTURE
    ensures Leaves(db, Freeze(db, c, version, now), {})
  {
    QuietFreeze(db, c, version, now);
    forall r | r in db.deliveries ensures Stays(db, Freeze(db, c, version, now), r) {
      FreezeLeavesOne(db, c, version, now, r);
    }
  }

  // ------------------------------------------------------------ the freeze

  /** Whom a freeze reserves: nothing is in flight to the creator, and every accepted message is a cooldown ago. */
  lemma WinnerIsClear(db: Db, st: Standings, r: RecipientId, now: int)
    requires TablesOk(db) && r in db.recipients && !FreezeDrops(db, r, now)
    requires OpenOnesGuarded(db, st) && TimesOk(st, now) && (forall q | q in st :: q in db.deliveries)
    ensures Clears(db.terms, st, r, now)
  {
    forall q | SameCreator(db.terms, r, q)
      ensures !At(st, q).Live? && (At(st, q).Delivered? ==> At(st, q).acceptedAt + CooldownMs(db, r) <= now)
    {
      assert KeyOf(db, q) == KeyOf(db, r) && ReservationOk(db, KeyOf(db, r));
      if !At(st, q).Idle? { assert q in db.deliveries && !Guarded(db, q); }
    }
  }

  lemma ExpiredGuards(db: Db, st: Standings, shop: ShopId, now: int)
    requires TablesOk(db) && OpenOnesGuarded(db, st) && now < FAR_FUTURE
    ensures TablesOk(WithoutExpired(db, shop, now)) && OpenOnesGuarded(WithoutExpired(db, shop, now), st)
  {
    var next := WithoutExpired(db, shop, now);
    forall k ensures ReservationOk(next, k) {
      assert ReservationOk(db, k);
    }
    forall r ensures RowOk(next, r) {
      assert RowOk(db, r);
    }
    forall r | r in next.deliveries && Open(next, st, r) ensures Guarded(next, r) {
      assert Open(db, st, r) && ReservationOk(db, KeyOf(db, r));
    }
  }

  /** Whom the freeze reserves are the winners in the tables without expired reservations. */
  lemma FreezeReserves(db: Db, c: CampaignId, version: nat, now: int, k: ContactKey)
    requires ValidDb(db) && c in db.campaigns && k in Freeze(db, c, version, now).reservations
    ensures var h := Freeze(db, c, version, now).reservations[k].recipient;
            var clean := WithoutExpired(db, db.terms[c].shop, now);
            || (k in db.reservations && db.reservations[k].recipient == h)
            || (ValidDb(clean) && h in Winners(clean, c, now))
  {
  }

  lemma FreezeKeepsClear(db: Db, st: Standings, c: CampaignId, version: nat, now: int)
    requires TablesOk(db) && c in db.campaigns && Gaps(db, st, now) && (forall q | q in st :: q in db.deliveries)
    requires ValidDb(Freeze(db, c, version, now))
    ensures HoldersClear(Freeze(db, c, version, now), st, now)
  {
    var next, clean := Freeze(db, c, version, now), WithoutExpired(db, db.terms[c].shop, now);
    ExpiredGuards(db, st, db.terms[c].shop, now);
    forall k | k in next.reservations ensures Clears(next.terms, st, next.reservations[k].recipient, now) {
      FreezeReserves(db, c, version, now, k);
      if !(k in db.reservations && db.reservations[k].recipient == next.reservations[k].recipient) {
        WinnerIsClear(clean, st, next.reservations[k].recipient, now);
      }
    }
  }

  // ------------------------------------------------------------- the claim

  /** Nothing claimable is open. */
  lemma ClaimableIsIdle(s: Sys, r: RecipientId)
    requires AtMostOnce(s) && r in s.db.deliveries && Claimable(s.db.deliveries[r].state)
    ensures StandingOf(s, r) == Idle
  {
  }

  /** A granted claim finds no other delivery to the creator in flight, and waits out its cooldown. */
  lemma GrantExcludes(db: Db, st: Standings, r: RecipientId, q: RecipientId, now: int)
    requires Known(db, r) && ReserveDispatchSlot(db, r, now).1.Claimed? && Gaps(db, st, now)
    requires SameCreator(db.terms, r, q)
    ensures !At(st, q).Live?
    ensures At(st, q).Delivered? ==> At(st, q).acceptedAt + CooldownMs(db, r) <= now
  {
    assert HasReservation(db, r);
    assert Clears(db.terms, st, db.reservations[KeyOf(db, r)].recipient, now);
  }

  /** What a granted claim does to the tables the guards and the standings read. */
  ghost predicate Grants(db: Db, next: Db, r: RecipientId) {
    && ValidDb(db) && ValidDb(next) && r in db.deliveries && HasReservation(db, r)
    && next.terms == db.terms && next.contacts == db.contacts && next.reservations == db.reservations
    && next.deliveries.Keys == db.deliveries.Keys && next.deliveries[r].state.Dispatching?
    && (forall q | q in db.deliveries && q != r :: next.deliveries[q] == db.deliveries[q])
  }

  lemma GrantedTables(db: Db, r: RecipientId, now: int)
    requires Known(db, r) && ReserveDispatchSlot(db, r, now).1.Claimed?
    ensures Grants(db, ReserveDispatchSlot(db, r, now).0, r)
  {
  }

  lemma GrantKeepsGuards(db: Db, next: Db, st: Standings, r: RecipientId, now: int)
    requires Grants(db, next, r) && OpenOnesGuarded(db, st) && AllSettled(db, st)
    ensures OpenOnesGuarded(next, st[r := Live(now)]) && AllSettled(next, st[r := Live(now)])
  {
    var nextSt := st[r := Live(now)];
    MovedStand(st, r, Live(now));
    forall q | q in next.deliveries && Open(next, nextSt, q) ensures Guarded(next, q) {
      if q != r { assert Open(db, st, q); }
    }
    forall q | q in next.deliveries ensures Settled(next, nextSt, q) {
      assert Settled(db, st, q);
    }
  }

  lemma GrantKeepsSpacing(terms: map<CampaignId, Terms>, st: Standings, r: RecipientId, now: int)
    requires At(st, r).Idle? && r.campaign in terms && LiveAhead(terms, st) && Spaced(terms, st) && TimesOk(st, now)
    requires Clears(terms, st, r, now)
    ensures LiveAhead(terms, st[r := Live(now)]) && Spaced(terms, st[r := Live(now)]) && TimesOk(st[r := Live(now)], now)
  {
    MovedStand(st, r, Live(now));
    assert forall q :: SameCreator(terms, q, r) <==> SameCreator(terms, r, q);
  }

  /** A creator has one reservation, so no other holder sees the new claim. */
  lemma GrantKeepsClear(db: Db, next: Db, st: Standings, r: RecipientId, now: int)
    requires TablesOk(db) && Grants(db, next, r) && HoldersClear(db, st, now)
    ensures HoldersClear(next, st[r := Live(now)], now)
  {
    MovedStand(st, r, Live(now));
    forall k | k in next.reservations ensures Clears(next.terms, st[r := Live(now)], next.reservations[k].recipient, now) {
      assert ReservationOk(db, k) && Clears(db.terms, st, db.reservations[k].recipient, now);
    }
  }

  lemma GrantKeepsGaps(db: Db, next: Db, st: Standings, r: RecipientId, now: int)
    requires TablesOk(db) && Grants(db, next, r) && At(st, r).Idle? && Gaps(db, st, now)
    ensures Gaps(next, st[r := Live(now)], now)
  {
    assert Clears(db.terms, st, db.reservations[KeyOf(db, r)].recipient, now);
    GrantKeepsGuards(db, next, st, r, now);
    GrantKeepsSpacing(db.terms, st, r, now);
    GrantKeepsClear(db, next, st, r, now);
  }
}
