/**
 * The transactions as the workers and services run them: row by row, in loops,
 * on tables updated in place.  Each is proved to be the one change of the whole
 * tables that the protocol's proofs reason about.
 */
module OutreachStore {
  import opened Options
  import Db = OutreachDb
  import opened OutreachDb
  import opened OutboundProtocol
  import opened OutboundSafety
  import opened OutboundSpacing
  import opened OutreachEffects
  import opened OutboundClaims

  class Store {
    const terms: map<CampaignId, Terms>
    var campaigns: map<CampaignId, CampaignRow>
    var recipients: map<RecipientId, RecipientRow>
    var deliveries: map<RecipientId, DeliveryRow>
    var reservations: map<ContactKey, Reservation>
    var contacts: map<ContactKey, Contact>
    var unknownFacts: set<ContactKey>

    ghost function View(): OutreachDb.Db
      reads this
    {
      OutreachDb.Db(terms, campaigns, recipients, deliveries, reservations, contacts, unknownFacts)
    }

    function Key(r: RecipientId): ContactKey
      requires r.campaign in terms
    {
      ContactKey(terms[r.campaign].shop, r.creator)
    }

    method ReleaseReservation(r: RecipientId)
      modifies `reservations
      ensures View() == Release(old(View()), r)
    {
      reservations := map k | k in reservations && reservations[k].recipient != r :: reservations[k];
    }

    method SetDelivery(r: RecipientId, d: DeliveryRow, s: RecipientState)
      requires r in recipients
      modifies `deliveries, `recipients
      ensures View() == WithDelivery(old(View()), r, d, s)
    {
      deliveries := deliveries[r := d];
      recipients := recipients[r := recipients[r].(state := s)];
    }

    method ReserveDispatchSlot(r: RecipientId, now: int) returns (claim: Claim)
      requires Known(View(), r)
      modifies this
      ensures View() == Db.ReserveDispatchSlot(old(View()), r, now).0
      ensures claim == Db.ReserveDispatchSlot(old(View()), r, now).1
      ensures claim.Claimed? <==> MayBeClaimed(old(View()), r, now)
      ensures claim.NotClaimed? <==> !WaitsInCampaign(old(View()), r)
      ensures claim.Claimed? ==> Dispatches(old(View()), View(), r, now)
      ensures claim.NotClaimed? ==> View() == old(View())
      ensures claim.Excluded? ==> TurnsDown(old(View()), View(), r)
    {
      ClaimGrantedExactly(View(), r, now);
      ClaimEffects(View(), r, now);
      var d, c := deliveries[r], r.campaign;
      if !Claimable(d.state) { return NotClaimed; }
      if !Sendable(campaigns[c].state) { return NotClaimed; }
      var k := Key(r);
      var contact := if k in contacts then contacts[k] else NoContact;
      var reason: Option<Exclusion> := None;
      if contact.doNotContact {
        reason := Some(DoNotContact);
      } else if contact.unresolvedDelivery && contact.lastDelivery != Some(r) {
        reason := Some(UnknownElsewhere);
      } else if k !in reservations || reservations[k].recipient != r || reservations[k].expiresAt <= now {
        reason := Some(ReservationInvalid);
      } else {
        var ownConfirmed := contact.lastCampaign == Some(c) && contact.lastDelivery == Some(r);
        var cutoff := now - terms[c].cooldownDays * DAY_MS;
        if !ownConfirmed && contact.lastContactedAt.Some? && contact.lastContactedAt.value > cutoff {
          reason := Some(CooldownChanged);
        }
      }
      if reason.Some? {
        SetDelivery(r, d.(state := FailedTerminal), RecipientState.Cancelled);
        ReleaseReservation(r);
        return Excluded(reason.value);
      }
      campaigns := campaigns[c := campaigns[c].(state := Running)];
      var first := if d.firstDispatchedAt.Some? then d.firstDispatchedAt else Some(now);
      SetDelivery(r, d.(state := Dispatching, firstDispatchedAt := first, attemptCount := d.attemptCount + 1), Processing);
      claim := Claimed(d.attemptCount + 1);
    }

    /** Counts the other deliveries of unknown outcome to the creator. */
    method OtherUnknown(r: RecipientId) returns (found: bool)
      requires Known(View(), r)
      ensures found <==> exists q :: q in deliveries && q != r && KeyOf(View(), q) == KeyOf(View(), r) && Unknown(deliveries[q].state)
    {
      found := false;
      var rest := deliveries.Keys - {r};
      while rest != {}
        invariant rest <= deliveries.Keys - {r}
        invariant found <==> exists q :: q in deliveries && q != r && q !in rest
                                         && KeyOf(View(), q) == KeyOf(View(), r) && Unknown(deliveries[q].state)
      {
        var q :| q in rest;
        if Key(q) == Key(r) && Unknown(deliveries[q].state) { found := true; }
        rest := rest - {q};
      }
    }

    method MarkSent(r: RecipientId, now: int)
      requires Known(View(), r)
      modifies this
      ensures View() == Db.MarkSent(old(View()), r, now)
      ensures RecordsSent(old(View()), View(), r, now)
    {
      SentIsRecorded(View(), r, now);
      var k := Key(r);
      var otherUnknown := OtherUnknown(r);
      var previous := if k in contacts then contacts[k] else NoContact;
      SetDelivery(r, deliveries[r].(state := DeliveryState.Sent, sentAt := Some(now)), RecipientState.Sent);
      contacts := contacts[k := previous.(
        firstContactedAt := if previous.firstContactedAt.Some? then previous.firstContactedAt else Some(now),
        lastContactedAt := Some(now), contactCount := previous.contactCount + 1,
        lastCampaign := Some(r.campaign), lastDelivery := Some(r),
        unresolvedDelivery := otherUnknown || k in unknownFacts)];
      ReleaseReservation(r);
    }

    method MarkDeliveryUnknown(r: RecipientId)
      requires Known(View(), r)
      modifies this
      ensures View() == MarkUnknown(old(View()), r)
      ensures Quarantines(old(View()), View(), r)
    {
      UnknownQuarantines(View(), r);
      var k := Key(r);
      SetDelivery(r, deliveries[r].(state := DeliveryState.DeliveryUnknown), RecipientState.DeliveryUnknown);
      var contact := if k in contacts then contacts[k] else NoContact;
      contacts := contacts[k := contact.(unresolvedDelivery := true, lastDelivery := Some(r))];
    }

    method MakeDeliveryRetryable(r: RecipientId)
      requires Known(View(), r)
      modifies `deliveries, `recipients
      ensures View() == MakeRetryable(old(View()), r)
      ensures MayTryAgain(old(View()), View(), r)
    {
      RetryMayTryAgain(View(), r);
      SetDelivery(r, deliveries[r].(state := FailedRetryable), RecipientState.Queued);
    }

    method MarkTerminalFailure(r: RecipientId)
      requires Known(View(), r)
      modifies this
      ensures View() == Db.MarkTerminalFailure(old(View()), r)
      ensures Closes(old(View()), View(), r) && deliveries[r].state.FailedTerminal? && recipients[r].state.Failed?
      ensures Quarantined(old(View())) ==> Quarantined(View())
    {
      FailureCloses(View(), r);
      SetDelivery(r, deliveries[r].(state := FailedTerminal), Failed);
      ReleaseReservation(r);
    }

    method MarkRestricted(r: RecipientId)
      requires Known(View(), r)
      modifies this
      ensures View() == Db.MarkRestricted(old(View()), r)
      ensures Closes(old(View()), View(), r) && deliveries[r].state.Restricted? && recipients[r].state.Restricted?
      ensures Quarantined(old(View())) ==> Quarantined(View())
    {
      RestrictionCloses(View(), r);
      SetDelivery(r, deliveries[r].(state := DeliveryState.Restricted), RecipientState.Restricted);
      ReleaseReservation(r);
    }

    method GiveUpReconciliation(r: RecipientId)
      requires Known(View(), r)
      modifies this
      ensures View() == MarkUnresolved(old(View()), r)
      ensures Closes(old(View()), View(), r) && deliveries[r].state.DeliveryUnknownUnresolved? && recipients[r].state.DeliveryUnknownUnresolved?
      ensures Quarantined(old(View())) ==> (Quarantined(View()) <==> Flagged(old(View()), r))
    {
      GivingUpCloses(View(), r);
      SetDelivery(r, deliveries[r].(state := DeliveryState.DeliveryUnknownUnresolved), RecipientState.DeliveryUnknownUnresolved);
      ReleaseReservation(r);
    }

    // ------------------------------------------------------------ campaigns

    /** Whether the contact row, read at `now`, drops a recipient from its campaign. */
    predicate DroppedByContact(r: RecipientId, now: int)
      requires r.campaign in terms
      reads `contacts
    {
      var k := Key(r);
      var contact := if k in contacts then contacts[k] else NoContact;
      || contact.doNotContact || contact.unresolvedDelivery
      || (contact.lastContactedAt.Some? && contact.lastContactedAt.value > now - terms[r.campaign].cooldownDays * DAY_MS)
    }

    /** Contact rows and active reservations are read for all selected recipients before the first one is frozen. */
    method FindDropped(c: CampaignId, chosen: set<RecipientId>, now: int) returns (dropped: set<RecipientId>)
      requires ValidDb(View()) && chosen == Chosen(View(), c)
      ensures chosen - dropped == Winners(View(), c, now)
    {
      var reserved := set r | r in chosen && Key(r) in reservations && reservations[Key(r)].expiresAt > now;
      dropped := set r | r in chosen && (DroppedByContact(r, now) || r in reserved);
    }

    method FreezeRecipient(r: RecipientId, keep: bool, expiresAt: int)
      requires r.campaign in terms && r in recipients
      modifies `recipients, `reservations
      ensures recipients == old(recipients)[r := FrozenRow(keep)]
      ensures reservations == if keep then old(reservations)[Key(r) := Reservation(r, expiresAt)] else old(reservations)
    {
      recipients := recipients[r := FrozenRow(keep)];
      if keep { reservations := reservations[Key(r) := Reservation(r, expiresAt)]; }
    }

    method FreezeEach(c: CampaignId, chosen: set<RecipientId>, dropped: set<RecipientId>, now: int) returns (finalSelected: nat)
      requires c in terms && (forall r | r in chosen :: r in recipients && r.campaign == c)
      modifies `recipients, `reservations
      ensures recipients == FrozenRows(old(View()), chosen, chosen - dropped)
      ensures reservations == old(reservations) + FrozenReservations(old(View()), chosen - dropped, now + FREEZE_MS)
      ensures finalSelected == |chosen - dropped|
    {
      ghost var base := View();
      FreezesNone(base, chosen, dropped, now + FREEZE_MS);
      finalSelected := 0;
      var rest := chosen;
      while rest != {}
        invariant rest <= chosen
        invariant FrozenUpTo(base, recipients, reservations, chosen, rest, dropped, now + FREEZE_MS, finalSelected)
      {
        var r :| r in rest;
        FreezesOneMore(base, recipients, reservations, chosen, rest, dropped, r, now + FREEZE_MS, finalSelected);
        FreezeRecipient(r, r !in dropped, now + FREEZE_MS);
        if r !in dropped { finalSelected := finalSelected + 1; }
        rest := rest - {r};
      }
      FreezesAll(base, recipients, reservations, chosen, dropped, now + FREEZE_MS, finalSelected);
    }

    method FreezeAll(c: CampaignId, chosen: set<RecipientId>, now: int) returns (finalSelected: nat)
      requires ValidDb(View()) && c in campaigns && chosen == Chosen(View(), c)
      modifies `recipients, `reservations
      ensures View() == Db.FreezeAll(old(View()), c, now)
      ensures finalSelected == |Winners(old(View()), c, now)|
    {
      var dropped := FindDropped(c, chosen, now);
      finalSelected := FreezeEach(c, chosen, dropped, now);
    }

    method DeleteExpired(shop: ShopId, now: int)
      modifies `reservations
      ensures View() == WithoutExpired(old(View()), shop, now)
    {
      reservations := reservations - set k | k in reservations && k.shop == shop && reservations[k].expiresAt <= now;
    }

    method CloseFreeze(c: CampaignId, empty: bool, expiresAt: int)
      requires c in campaigns
      modifies `campaigns
      ensures campaigns == old(campaigns)[c := if empty then CampaignRow(PreviewExpired, old(campaigns)[c].version + 1, None)
                                               else CampaignRow(Frozen, old(campaigns)[c].version + 1, Some(expiresAt))]
    {
      var version := campaigns[c].version + 1;
      if empty {
        campaigns := campaigns[c := CampaignRow(PreviewExpired, version, None)];
      } else {
        campaigns := campaigns[c := CampaignRow(Frozen, version, Some(expiresAt))];
      }
    }

    method FreezeSelected(c: CampaignId, chosen: set<RecipientId>, now: int)
      requires ValidDb(View()) && c in campaigns && chosen == Chosen(View(), c)
      modifies this
      ensures View() == Db.FreezeSelected(old(View()), c, now)
    {
      var finalSelected := FreezeAll(c, chosen, now);
      CloseFreeze(c, finalSelected == 0, now + FREEZE_MS);
    }

    method Freeze(c: CampaignId, version: nat, now: int)
      requires ValidDb(View()) && c in campaigns
      modifies this
      ensures View() == Db.Freeze(old(View()), c, version, now)
    {
      var row := campaigns[c];
      var chosen := set r | r in recipients && r.campaign == c && recipients[r].selected;
      assert chosen == Chosen(View(), c);
      if !row.state.PreviewReady? || row.version != version || chosen == {} { return; }
      DeleteExpired(terms[c].shop, now);
      assert Chosen(View(), c) == chosen;
      FreezeSelected(c, chosen, now);
    }

    /** A recipient queued before keeps its delivery. */
    method QueueEach(queued: set<RecipientId>)
      requires forall r | r in queued :: r in recipients
      modifies `deliveries, `recipients
      ensures deliveries == WithDeliveries(old(deliveries), queued)
      ensures recipients == WithQueued(old(recipients), queued)
    {
      ghost var hadDeliveries, hadRows, done := deliveries, recipients, {};
      QueuesNone(deliveries, recipients);
      var rest := queued;
      while rest != {}
        invariant rest <= queued && done == queued - rest
        invariant deliveries == WithDeliveries(hadDeliveries, done) && recipients == WithQueued(hadRows, done)
      {
        var r :| r in rest;
        QueuesOne(hadDeliveries, hadRows, done, r);
        if r !in deliveries { deliveries := deliveries[r := FreshDelivery]; }
        recipients := recipients[r := recipients[r].(state := RecipientState.Queued)];
        rest, done := rest - {r}, done + {r};
      }
      assert done == queued;
    }

    method ExtendReservations(chosen: set<RecipientId>)
      modifies `reservations
      ensures reservations == Extended(old(reservations), chosen)
    {
      reservations := map k | k in reservations ::
        if reservations[k].recipient in chosen then reservations[k].(expiresAt := FAR_FUTURE) else reservations[k];
    }

    method QueueFrozen(c: CampaignId, version: nat)
      requires ValidDb(View()) && c in campaigns
      modifies this
      ensures View() == Db.QueueFrozen(old(View()), c, version)
    {
      var row := campaigns[c];
      var chosen := set r | r in recipients && r.campaign == c && recipients[r].selected;
      var queued := set r | r in chosen && recipients[r].state.Reserved?;
      assert chosen == Chosen(View(), c) && queued == ToQueue(View(), c);
      if !row.state.Frozen? || row.version != version || queued == {} { return; }
      campaigns := campaigns[c := row.(state := CampaignState.Queued, version := row.version + 1)];
      ExtendReservations(chosen);
      QueueEach(queued);
    }

    /** One frozen campaign past its expiry gives its creators back. */
    method ExpireCampaign(c: CampaignId)
      requires c in campaigns
      modifies `campaigns, `reservations, `recipients
      ensures campaigns == ExpiredCampaigns(old(campaigns), {c})
      ensures reservations == WithoutCampaigns(old(reservations), {c})
      ensures recipients == Unreserved(old(recipients), {c})
    {
      campaigns := campaigns[c := campaigns[c].(state := PreviewExpired, version := campaigns[c].version + 1)];
      reservations := map k | k in reservations && reservations[k].recipient.campaign != c :: reservations[k];
      recipients := map r | r in recipients ::
        if r.campaign == c && recipients[r].state.Reserved? then recipients[r].(state := Selected) else recipients[r];
    }

    method ExpireFrozenCampaigns(now: int)
      requires ValidDb(View())
      modifies this
      ensures View() == ExpireFrozen(old(View()), now)
    {
      var lapsed := set c | c in campaigns && FreezeLapsed(campaigns[c], now);
      ghost var had, done := View(), {};
      ExpiresNone(campaigns, reservations, recipients);
      var rest := lapsed;
      while rest != {}
        invariant rest <= lapsed && done == lapsed - rest && campaigns.Keys == had.campaigns.Keys
        invariant unchanged(`deliveries, `contacts, `unknownFacts)
        invariant campaigns == ExpiredCampaigns(had.campaigns, done)
        invariant reservations == WithoutCampaigns(had.reservations, done)
        invariant recipients == Unreserved(had.recipients, done)
      {
        var c :| c in rest;
        ExpiresOne(had.campaigns, had.reservations, had.recipients, done, c);
        ExpireCampaign(c);
        rest, done := rest - {c}, done + {c};
      }
      assert done == lapsed;
    }

    /**
     * The operator's request: lapsed campaigns expire first, and one whose freeze is
     * stale or over is refused before the queueing transaction starts.
     */
    method RequestQueue(c: CampaignId, version: nat, now: int) returns (tried: bool)
      requires ValidDb(View()) && c in campaigns
      modifies this
      ensures ValidDb(ExpireFrozen(old(View()), now)) && c in ExpireFrozen(old(View()), now).campaigns
      ensures View() == if tried then Db.QueueFrozen(ExpireFrozen(old(View()), now), c, version) else ExpireFrozen(old(View()), now)
      ensures tried ==> old(campaigns)[c].freezeExpiresAt.Some? && old(campaigns)[c].freezeExpiresAt.value > now
      ensures !tried ==> forall r | r in deliveries :: r in old(deliveries) && deliveries[r] == old(deliveries)[r]
    {
      QuietExpire(View(), now);
      ExpireFrozenCampaigns(now);
      var row := campaigns[c];
      if !row.state.Frozen? || row.version != version || row.freezeExpiresAt.None? || row.freezeExpiresAt.value <= now {
        return false;
      }
      QueueFrozen(c, version);
      return true;
    }

    /** Recipients not claimed yet are cancelled together with their deliveries and reservations. */
    method CancelRecipients(ids: set<RecipientId>)
      modifies `deliveries, `recipients, `reservations
      ensures deliveries == CancelledDeliveries(old(deliveries), ids)
      ensures recipients == CancelledRecipients(old(recipients), ids)
      ensures reservations == ReservationsOfOthers(old(reservations), ids)
    {
      deliveries := map r | r in deliveries ::
        if r in ids && Claimable(deliveries[r].state) then deliveries[r].(state := DeliveryState.Cancelled) else deliveries[r];
      recipients := map r | r in recipients ::
        if r in ids then recipients[r].(state := RecipientState.Cancelled) else recipients[r];
      reservations := map k | k in reservations && reservations[k].recipient !in ids :: reservations[k];
    }

    method Cancel(c: CampaignId)
      requires ValidDb(View()) && c in campaigns
      modifies this
      ensures View() == Db.Cancel(old(View()), c)
      ensures CancelsWaiting(old(View()), View(), c)
      ensures TablesOk(old(View())) ==> SparesClaimed(old(View()), View(), c) && TablesOk(View())
    {
      ghost var before := View();
      var unsent := set r | r in recipients && r.campaign == c && (recipients[r].state.Reserved? || recipients[r].state.Queued?);
      assert unsent == Unsent(View(), c);
      CancelRecipients(unsent);
      campaigns := campaigns[c := campaigns[c].(state := CampaignState.Cancelled, version := campaigns[c].version + 1)];
      assert View() == Db.Cancel(before, c);
      CancelSpares(before, c);
    }
  }

  function FrozenRow(kept: bool): RecipientRow {
    if kept then RecipientRow(true, Reserved) else RecipientRow(false, Discovered)
  }

  lemma OneLess<T>(all: set<T>, rest: set<T>, dropped: set<T>, x: T)
    requires x in rest && rest <= all
    ensures all - (rest - {x}) == all - rest + {x}
    ensures all - (rest - {x}) - dropped == if x in dropped then all - rest - dropped else all - rest - dropped + {x}
  {
  }

  /** The rows, the reservations and the count once all of `chosen` but `rest` went through the freeze. */
  ghost predicate FrozenUpTo(db: OutreachDb.Db, rows: map<RecipientId, RecipientRow>, reservations: map<ContactKey, Reservation>,
                             chosen: set<RecipientId>, rest: set<RecipientId>, dropped: set<RecipientId>, expiresAt: int, count: nat)
    requires forall r | r in chosen :: r.campaign in db.terms
    requires forall r, q | r in chosen && q in chosen :: r.campaign == q.campaign
  {
    && rows == FrozenRows(db, chosen - rest, chosen - dropped)
    && reservations == db.reservations + FrozenReservations(db, chosen - rest - dropped, expiresAt)
    && count == |chosen - rest - dropped|
  }

  lemma FreezesNone(db: OutreachDb.Db, chosen: set<RecipientId>, dropped: set<RecipientId>, expiresAt: int)
    requires forall r | r in chosen :: r.campaign in db.terms
    requires forall r, q | r in chosen && q in chosen :: r.campaign == q.campaign
    ensures FrozenUpTo(db, db.recipients, db.reservations, chosen, chosen, dropped, expiresAt, 0)
  {
    assert chosen - chosen == {} && chosen - chosen - dropped == {};
    assert FrozenRows(db, {}, chosen - dropped) == db.recipients;
    assert db.reservations + FrozenReservations(db, {}, expiresAt) == db.reservations;
  }

  lemma FreezesAll(db: OutreachDb.Db, rows: map<RecipientId, RecipientRow>, reservations: map<ContactKey, Reservation>,
                   chosen: set<RecipientId>, dropped: set<RecipientId>, expiresAt: int, count: nat)
    requires forall r | r in chosen :: r.campaign in db.terms
    requires forall r, q | r in chosen && q in chosen :: r.campaign == q.campaign
    requires FrozenUpTo(db, rows, reservations, chosen, {}, dropped, expiresAt, count)
    ensures rows == FrozenRows(db, chosen, chosen - dropped) && count == |chosen - dropped|
    ensures reservations == db.reservations + FrozenReservations(db, chosen - dropped, expiresAt)
  {
    assert chosen - {} == chosen;
  }

  lemma FreezesOneMore(db: OutreachDb.Db, rows: map<RecipientId, RecipientRow>, reservations: map<ContactKey, Reservation>,
                       chosen: set<RecipientId>, rest: set<RecipientId>, dropped: set<RecipientId>, r: RecipientId, expiresAt: int, count: nat)
    requires r in rest && rest <= chosen && r in db.recipients && (forall q | q in chosen :: q.campaign in db.terms)
    requires forall p, q | p in chosen && q in chosen :: p.campaign == q.campaign
    requires FrozenUpTo(db, rows, reservations, chosen, rest, dropped, expiresAt, count)
    ensures FrozenUpTo(db, rows[r := FrozenRow(r !in dropped)],
                       if r in dropped then reservations else reservations[KeyOf(db, r) := Reservation(r, expiresAt)],
                       chosen, rest - {r}, dropped, expiresAt, if r in dropped then count else count + 1)
  {
    OneLess(chosen, rest, dropped, r);
    FreezesOne(db, chosen - rest, chosen - rest - dropped, chosen - dropped, r, expiresAt);
  }

  lemma FreezesOne(db: OutreachDb.Db, done: set<RecipientId>, kept: set<RecipientId>, winners: set<RecipientId>,
                   r: RecipientId, expiresAt: int)
    requires r in db.recipients && r.campaign in db.terms && (forall q | q in kept :: q.campaign == r.campaign)
    ensures FrozenRows(db, done + {r}, winners) == FrozenRows(db, done, winners)[r := FrozenRow(r in winners)]
    ensures db.reservations + FrozenReservations(db, kept + {r}, expiresAt)
            == (db.reservations + FrozenReservations(db, kept, expiresAt))[KeyOf(db, r) := Reservation(r, expiresAt)]
  {
  }

  lemma QueuesNone(deliveries: map<RecipientId, DeliveryRow>, rows: map<RecipientId, RecipientRow>)
    ensures WithDeliveries(deliveries, {}) == deliveries && WithQueued(rows, {}) == rows
  {
  }

  lemma QueuesOne(deliveries: map<RecipientId, DeliveryRow>, rows: map<RecipientId, RecipientRow>, done: set<RecipientId>, r: RecipientId)
    requires r in rows
    ensures var before := WithDeliveries(deliveries, done);
            WithDeliveries(deliveries, done + {r}) == if r in before then before else before[r := FreshDelivery]
    ensures var before := WithQueued(rows, done);
            WithQueued(rows, done + {r}) == before[r := before[r].(state := RecipientState.Queued)]
  {
  }

  lemma ExpiresNone(campaigns: map<CampaignId, CampaignRow>, reservations: map<ContactKey, Reservation>,
                    rows: map<RecipientId, RecipientRow>)
    ensures ExpiredCampaigns(campaigns, {}) == campaigns && WithoutCampaigns(reservations, {}) == reservations
    ensures Unreserved(rows, {}) == rows
  {
  }

  lemma ExpiresOne(campaigns: map<CampaignId, CampaignRow>, reservations: map<ContactKey, Reservation>,
                   rows: map<RecipientId, RecipientRow>, done: set<CampaignId>, c: CampaignId)
    requires c !in done
    ensures ExpiredCampaigns(ExpiredCampaigns(campaigns, done), {c}) == ExpiredCampaigns(campaigns, done + {c})
    ensures WithoutCampaigns(WithoutCampaigns(reservations, done), {c}) == WithoutCampaigns(reservations, done + {c})
    ensures Unreserved(Unreserved(rows, done), {c}) == Unreserved(rows, done + {c})
  {
  }
}
