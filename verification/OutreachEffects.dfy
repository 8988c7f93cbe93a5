/**
 * What the settling transactions mean to everyone else: which rows they touch,
 * whom they let go and whom they keep from being messaged.
 */
module OutreachEffects {
  import opened Options
  import opened OutreachDb
  import opened OutboundProtocol
  import opened OutboundSafety
  import opened OutboundSpacing

  /** Of deliveries and recipients only those of `r` changed, and of them only the states. */
  ghost predicate OnlyStatesOf(db: Db, next: Db, r: RecipientId) {
    && next.terms == db.terms && next.campaigns == db.campaigns && next.unknownFacts == db.unknownFacts
    && next.deliveries.Keys == db.deliveries.Keys && next.recipients.Keys == db.recipients.Keys
    && r in db.deliveries && r in db.recipients
    && next.deliveries[r] == db.deliveries[r].(state := next.deliveries[r].state)
    && next.recipients[r] == db.recipients[r].(state := next.recipients[r].state)
    && (forall q | q in db.deliveries && q != r :: next.deliveries[q] == db.deliveries[q])
    && (forall q | q in db.recipients && q != r :: next.recipients[q] == db.recipients[q])
  }

  /** The creator is free of `r`'s reservation, and of no other. */
  ghost predicate LetsGo(db: Db, next: Db, r: RecipientId) {
    && (forall k | k in next.reservations :: k in db.reservations && next.reservations[k] == db.reservations[k])
    && (forall k | k in db.reservations :: k in next.reservations <==> db.reservations[k].recipient != r)
  }

  /** No claim of any delivery to the creator but `r` itself is granted, whenever it is made. */
  ghost predicate BlocksOthers(db: Db, r: RecipientId)
    requires Known(db, r)
  {
    forall q, now | q in db.deliveries && q != r && KeyOf(db, q) == KeyOf(db, r) :: !ReserveDispatchSlot(db, q, now).1.Claimed?
  }

  /** An ambiguous answer keeps the reservation, counts as no contact, and blocks the creator's other deliveries. */
  ghost predicate Quarantines(db: Db, next: Db, r: RecipientId)
    requires Known(db, r)
  {
    && OnlyStatesOf(db, next, r) && next.reservations == db.reservations
    && Known(next, r) && next.deliveries[r].state.DeliveryUnknown? && next.recipients[r].state.DeliveryUnknown? && Flagged(next, r) && BlocksOthers(next, r)
    && (forall k | k != KeyOf(db, r) :: ContactAt(next, k) == ContactAt(db, k))
    && ContactAt(next, KeyOf(db, r)) == ContactAt(db, KeyOf(db, r)).(unresolvedDelivery := true, lastDelivery := Some(r))
    && (Quarantined(db) ==> Quarantined(next))
  }

  lemma UnknownQuarantines(db: Db, r: RecipientId)
    requires Known(db, r)
    ensures Quarantines(db, MarkUnknown(db, r), r)
  {
    var next := MarkUnknown(db, r);
    QuietMarkUnknown(db, r);
    if Quarantined(db) { MarkUnknownKeepsQuarantine(db, r); }
    forall q, now | q in next.deliveries && q != r && KeyOf(next, q) == KeyOf(next, r)
      ensures !ReserveDispatchSlot(next, q, now).1.Claimed?
    {
      assert ContactAt(next, KeyOf(next, q)).lastDelivery == Some(r);
    }
  }

  /** A delivery to be retried can be claimed again, under the very checks that let it through before. */
  ghost predicate MayTryAgain(db: Db, next: Db, r: RecipientId)
    requires Known(db, r)
  {
    && OnlyStatesOf(db, next, r) && next.reservations == db.reservations && next.contacts == db.contacts
    && Known(next, r) && Claimable(next.deliveries[r].state) && next.recipients[r].state.Queued?
    && (forall now :: ExclusionFor(next, r, now) == ExclusionFor(db, r, now))
    && (forall now | Sendable(next.campaigns[r.campaign].state) && ExclusionFor(db, r, now).None? ::
          ReserveDispatchSlot(next, r, now).1 == Claimed(db.deliveries[r].attemptCount + 1))
    && (Quarantined(db) ==> Quarantined(next))
  }

  lemma RetrySameChecks(db: Db, r: RecipientId, now: int)
    requires Known(db, r)
    ensures Known(MakeRetryable(db, r), r) && ExclusionFor(MakeRetryable(db, r), r, now) == ExclusionFor(db, r, now)
  {
  }

  lemma RetryMayTryAgain(db: Db, r: RecipientId)
    requires Known(db, r)
    ensures MayTryAgain(db, MakeRetryable(db, r), r)
  {
    forall now: int ensures Known(MakeRetryable(db, r), r) && ExclusionFor(MakeRetryable(db, r), r, now) == ExclusionFor(db, r, now) {
      RetrySameChecks(db, r, now);
    }
    if Quarantined(db) { RetryKeepsQuarantine(db, r); }
  }

  /** A delivery over for good: never claimed again, no contact recorded, its creator free for other campaigns. */
  ghost predicate Closes(db: Db, next: Db, r: RecipientId)
    requires Known(db, r)
  {
    && OnlyStatesOf(db, next, r) && LetsGo(db, next, r) && next.contacts == db.contacts
    && Known(next, r) && !HasReservation(next, r) && Quiet(db, next)
    && (forall now :: ReserveDispatchSlot(next, r, now) == (next, NotClaimed))
  }

  lemma FailureCloses(db: Db, r: RecipientId)
    requires Known(db, r)
    ensures Closes(db, MarkTerminalFailure(db, r), r) && MarkTerminalFailure(db, r).deliveries[r].state.FailedTerminal?
    ensures MarkTerminalFailure(db, r).recipients[r].state.Failed?
    ensures Quarantined(db) ==> Quarantined(MarkTerminalFailure(db, r))
  {
    QuietTerminalFailure(db, r);
    if Quarantined(db) { TerminalFailureKeepsQuarantine(db, r); }
  }

  lemma RestrictionCloses(db: Db, r: RecipientId)
    requires Known(db, r)
    ensures Closes(db, MarkRestricted(db, r), r) && MarkRestricted(db, r).deliveries[r].state.Restricted?
    ensures MarkRestricted(db, r).recipients[r].state.Restricted?
    ensures Quarantined(db) ==> Quarantined(MarkRestricted(db, r))
  {
    QuietRestricted(db, r);
    if Quarantined(db) { RestrictedKeepsQuarantine(db, r); }
  }

  /** Giving up closes the delivery as unknown; the mark on its creator is left as it happens to be. */
  lemma GivingUpCloses(db: Db, r: RecipientId)
    requires Known(db, r)
    ensures Closes(db, MarkUnresolved(db, r), r) && MarkUnresolved(db, r).deliveries[r].state.DeliveryUnknownUnresolved?
    ensures MarkUnresolved(db, r).recipients[r].state.DeliveryUnknownUnresolved?
    ensures Quarantined(db) ==> (Quarantined(MarkUnresolved(db, r)) <==> Flagged(db, r))
  {
    QuietUnresolved(db, r);
    if Quarantined(db) { GivingUpKeepsQuarantine(db, r); }
  }

  /** The acceptance is written down everywhere: on delivery, recipient and contact row, and the creator is let go. */
  ghost predicate RecordsSent(db: Db, next: Db, r: RecipientId, now: int)
    requires Known(db, r)
  {
    var (k, had, has) := (KeyOf(db, r), ContactAt(db, KeyOf(db, r)), ContactAt(next, KeyOf(db, r)));
    && Known(next, r) && next == db.(deliveries := next.deliveries, recipients := next.recipients,
                                     contacts := next.contacts, reservations := next.reservations)
    && next.deliveries == db.deliveries[r := db.deliveries[r].(state := DeliveryState.Sent, sentAt := Some(now))]
    && next.recipients == db.recipients[r := db.recipients[r].(state := RecipientState.Sent)]
    && LetsGo(db, next, r) && (forall l | l != k :: ContactAt(next, l) == ContactAt(db, l))
    && has.lastContactedAt == Some(now) && has.contactCount == had.contactCount + 1
    && has.firstContactedAt == (if had.firstContactedAt.None? then Some(now) else had.firstContactedAt)
    && has.lastCampaign == Some(r.campaign) && has.lastDelivery == Some(r) && has.doNotContact == had.doNotContact
    && (has.unresolvedDelivery <==> UnknownBesides(db, r))
  }

  lemma SentIsRecorded(db: Db, r: RecipientId, now: int)
    requires Known(db, r)
    ensures RecordsSent(db, MarkSent(db, r, now), r, now)
  {
    QuietMarkSent(db, r, now);
  }

  /** A recipient that has not been claimed: frozen, or waiting in the queue. */
  predicate Waits(row: RecipientRow) {
    row.state.Reserved? || row.state.Queued?
  }

  /** What a cancel leaves of the campaign's own rows, and that it leaves all others. */
  ghost predicate CancelsWaiting(db: Db, next: Db, c: CampaignId) {
    && c in db.campaigns && c in next.campaigns && next.campaigns == db.campaigns[c := next.campaigns[c]]
    && next.campaigns[c] == db.campaigns[c].(state := CampaignState.Cancelled, version := db.campaigns[c].version + 1)
    && next.terms == db.terms && next.contacts == db.contacts && next.unknownFacts == db.unknownFacts
    && next.recipients.Keys == db.recipients.Keys && next.deliveries.Keys == db.deliveries.Keys
    && (forall r | r in db.recipients && r.campaign == c ::
          if Waits(db.recipients[r]) then next.recipients[r].state.Cancelled? else next.recipients[r] == db.recipients[r])
    && (forall r | r in db.recipients && r.campaign != c :: next.recipients[r] == db.recipients[r])
    && (forall r | r in db.deliveries && r.campaign != c :: next.deliveries[r] == db.deliveries[r])
    && (forall r | r in db.deliveries && r in db.recipients && r.campaign == c && Waits(db.recipients[r]) && Claimable(db.deliveries[r].state) ::
          next.deliveries[r] == db.deliveries[r].(state := DeliveryState.Cancelled))
  }

  /** A message that may be on its way keeps its row and its reservation; nothing else of the campaign is sent. */
  ghost predicate SparesClaimed(db: Db, next: Db, c: CampaignId) {
    && ValidDb(db) && ValidDb(next) && next.terms == db.terms && (forall r | r in db.deliveries :: r in next.deliveries)
    && (forall r | r in db.deliveries && !Claimable(db.deliveries[r].state) ::
          next.deliveries[r] == db.deliveries[r] && (HasReservation(db, r) ==> HasReservation(next, r)))
    && (forall r, now | r in next.deliveries && r.campaign == c :: ReserveDispatchSlot(next, r, now).1 == NotClaimed)
  }

  lemma CancelSpares(db: Db, c: CampaignId)
    requires ValidDb(db) && c in db.campaigns
    ensures CancelsWaiting(db, Cancel(db, c), c)
    ensures TablesOk(db) ==> SparesClaimed(db, Cancel(db, c), c) && TablesOk(Cancel(db, c))
  {
    if TablesOk(db) {
      var next := Cancel(db, c);
      CancelKeepsTables(db, c);
      forall r | r in db.deliveries && !Claimable(db.deliveries[r].state)
        ensures next.deliveries[r] == db.deliveries[r] && (HasReservation(db, r) ==> HasReservation(next, r))
      {
        assert RowOk(db, r);
      }
    }
  }
}
