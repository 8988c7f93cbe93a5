/**
 * What the interleaved system keeps: a creator with an unknown outcome is
 * quarantined, and accepted messages to one creator respect the cooldown.
 */
module OutboundSafety {
  import opened Options
  import opened OutreachDb
  import opened OutboundProtocol

  // ------------------------------------------------------------ quarantine

  ghost predicate Flagged(db: Db, r: RecipientId)
    requires ValidDb(db) && r.campaign in db.terms
  {
    ContactAt(db, KeyOf(db, r)).unresolvedDelivery
  }

  ghost predicate Quarantined(db: Db) {
    ValidDb(db) && forall r | r in db.deliveries && Unknown(db.deliveries[r].state) :: Flagged(db, r)
  }

  /** A reconciliation that read DELIVERY_UNKNOWN earlier gives up now, on a creator no longer flagged. */
  ghost predicate GivesUpUnflagged(s: Sys, step: Step) {
    && step.Job? && step.job.End? && Runs(s, step.job.run)
    && var x := s.runs[step.job.run];
       x.Reconciling? && !x.matched && !Flagged(s.db, x.recipient)
  }

  lemma MarkSentKeepsQuarantine(db: Db, r: RecipientId, now: int)
    requires Quarantined(db) && Known(db, r)
    ensures Quarantined(MarkSent(db, r, now))
  {
  }

  lemma MarkUnknownKeepsQuarantine(db: Db, r: RecipientId)
    requires Quarantined(db) && Known(db, r)
    ensures Quarantined(MarkUnknown(db, r))
  {
  }

  lemma RetryKeepsQuarantine(db: Db, r: RecipientId)
    requires Quarantined(db) && Known(db, r)
    ensures Quarantined(MakeRetryable(db, r))
  {
  }

  lemma TerminalFailureKeepsQuarantine(db: Db, r: RecipientId)
    requires Quarantined(db) && Known(db, r)
    ensures Quarantined(MarkTerminalFailure(db, r))
  {
  }

  lemma RestrictedKeepsQuarantine(db: Db, r: RecipientId)
    requires Quarantined(db) && Known(db, r)
    ensures Quarantined(MarkRestricted(db, r))
  {
  }

  lemma GivingUpKeepsQuarantine(db: Db, r: RecipientId)
    requires Quarantined(db) && Known(db, r)
    ensures Quarantined(MarkUnresolved(db, r)) <==> Flagged(db, r)
  {
    var next := MarkUnresolved(db, r);
    assert Unknown(next.deliveries[r].state) && Flagged(next, r) == Flagged(db, r);
  }

  lemma ClaimKeepsQuarantine(db: Db, r: RecipientId, now: int)
    requires Quarantined(db) && Known(db, r)
    ensures Quarantined(ReserveDispatchSlot(db, r, now).0)
  {
  }

  lemma FreezeKeepsQuarantine(db: Db, c: CampaignId, version: nat, now: int)
    requires Quarantined(db) && c in db.campaigns
    ensures Quarantined(Freeze(db, c, version, now))
  {
  }

  lemma QueueKeepsQuarantine(db: Db, c: CampaignId, version: nat)
    requires Quarantined(db) && c in db.campaigns
    ensures Quarantined(QueueFrozen(db, c, version))
  {
  }

  lemma CancelKeepsQuarantine(db: Db, c: CampaignId)
    requires Quarantined(db) && c in db.campaigns
    ensures Quarantined(Cancel(db, c))
  {
  }

  lemma RebuildKeepsQuarantine(db: Db, k: ContactKey, b: Rebuilt)
    requires Quarantined(db)
    ensures Quarantined(Rebuild(db, k, b))
  {
  }

  lemma CampaignKeepsQuarantine(db: Db, step: CampaignStep, now: int)
    requires Quarantined(db) && step.campaign in db.campaigns
    ensures Quarantined(ApplyCampaign(db, step, now))
  {
    match step
    case FreezeCampaign(c, version) => FreezeKeepsQuarantine(db, c, version, now);
    case QueueCampaign(c, version) => QueueKeepsQuarantine(db, c, version);
    case CancelCampaign(c) => CancelKeepsQuarantine(db, c);
    case Rediscover(c, found) => QuietPreview(db, c, found);
    case SetCampaignState(_, _) =>
  }

  lemma ContactKeepsQuarantine(db: Db, k: ContactKey, step: ContactStep)
    requires Quarantined(db)
    ensures Quarantined(ApplyContact(db, k, step))
  {
    match step
    case RebuildContact(b, _) => RebuildKeepsQuarantine(db, k, b);
    case _ =>
  }

  lemma EndKeepsQuarantine(s: Sys, e: RunId)
    requires Quarantined(s.db)
    ensures Quarantined(EndRun(s, e).db) <==> !GivesUpUnflagged(s, Job(End(e)))
  {
    if Runs(s, e) {
      var r := s.runs[e].recipient;
      match s.runs[e]
      case Seen(_, _) => MarkUnknownKeepsQuarantine(s.db, r);
      case Answered(_, _, Accepted) => MarkSentKeepsQuarantine(s.db, r, s.clock);
      case Answered(_, _, Ambiguous) => MarkUnknownKeepsQuarantine(s.db, r);
      case Answered(_, _, Refused(_)) => 
        RetryKeepsQuarantine(s.db, r); TerminalFailureKeepsQuarantine(s.db, r); RestrictedKeepsQuarantine(s.db, r);
      case Reconciling(_, _) => MarkSentKeepsQuarantine(s.db, r, s.clock); GivingUpKeepsQuarantine(s.db, r);
      case _ =>
    }
  }

  lemma JobKeepsQuarantine(s: Sys, step: JobStep)
    requires Quarantined(s.db)
    ensures Quarantined(ApplyJob(s, step).db) <==> !GivesUpUnflagged(s, Job(step))
  {
    match step
    case End(e) => EndKeepsQuarantine(s, e);
    case Claim(e) => if Runs(s, e) { ClaimKeepsQuarantine(s.db, s.runs[e].recipient, s.clock); }
    case _ =>
  }

  lemma ExpireKeepsQuarantine(db: Db, now: int)
    requires Quarantined(db)
    ensures Quarantined(ExpireFrozen(db, now))
  {
  }

  /**
   * Exactly one kind of step can leave an unknown delivery on an unflagged
   * creator: a late reconciliation giving up after someone else resolved the contact.
   */
  lemma QuarantineExactly(s: Sys, step: Step)
    requires Quarantined(s.db)
    ensures Quarantined(Apply(s, step).db) <==> !GivesUpUnflagged(s, step)
  {
    match step
    case Job(job) => JobKeepsQuarantine(s, job);
    case Expire => ExpireKeepsQuarantine(s.db, s.clock);
    case Campaign(change) =>
      if change.campaign in s.db.campaigns { CampaignKeepsQuarantine(s.db, change, s.clock); }
    case ContactRow(k, update) => ContactKeepsQuarantine(s.db, k, update);
    case _ =>
  }

  /**
   * While one delivery to a creator is unknown, a freeze reserves nobody for that
   * creator, and a claim is granted only to the delivery the contact row names.
   */
  lemma UnknownBlocksOthers(db: Db, unknown: RecipientId, r: RecipientId, c: CampaignId, version: nat, now: int)
    requires Quarantined(db) && Known(db, unknown) && Unknown(db.deliveries[unknown].state)
    requires r.campaign in db.terms && KeyOf(db, r) == KeyOf(db, unknown) && c in db.campaigns
    ensures HasReservation(Freeze(db, c, version, now), r) ==> HasReservation(db, r)
    ensures r in db.deliveries && ReserveDispatchSlot(db, r, now).1.Claimed? ==>
              ContactAt(db, KeyOf(db, r)).lastDelivery == Some(r) && r != unknown
  {
  }

  /** The re-checks of a claim besides that of an unknown outcome. */
  predicate OtherwiseClear(db: Db, r: RecipientId, now: int)
    requires Known(db, r)
  {
    var k := KeyOf(db, r);
    var contact := ContactAt(db, k);
    && !contact.doNotContact && HasReservation(db, r) && db.reservations[k].expiresAt > now
    && (|| (contact.lastCampaign == Some(r.campaign) && contact.lastDelivery == Some(r))
        || contact.lastContactedAt.None? || contact.lastContactedAt.value <= now - CooldownMs(db, r))
  }

  /**
   * Exactly when a claim of another delivery is granted while one to the creator is unknown: when
   * the contact row names that other delivery, and the remaining re-checks pass.
   */
  lemma UnknownAdmitsExactly(db: Db, unknown: RecipientId, r: RecipientId, now: int)
    requires Quarantined(db) && Known(db, unknown) && Unknown(db.deliveries[unknown].state)
    requires Known(db, r) && KeyOf(db, r) == KeyOf(db, unknown)
    requires Claimable(db.deliveries[r].state) && Sendable(db.campaigns[r.campaign].state)
    ensures ReserveDispatchSlot(db, r, now).1.Claimed? <==>
              ContactAt(db, KeyOf(db, r)).lastDelivery == Some(r) && OtherwiseClear(db, r, now)
  {
    assert Flagged(db, unknown);
  }
}
