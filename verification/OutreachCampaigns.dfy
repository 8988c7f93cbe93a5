/**
 * A campaign from its preview to its deliveries: what a freeze, a queueing, a rediscovery and the expiry sweep do to
 * each row, and that whoever is frozen and queued can be claimed.
 */
module OutreachCampaigns {
  import opened Options
  import opened OutreachDb
  import opened OutboundProtocol
  import opened OutboundSafety
  import opened OutboundSpacing
  import opened OutboundClaims

  /** An operator acting on another version of the campaign, or in another state, changes nothing. */
  lemma StaleIsRefused(db: Db, c: CampaignId, version: nat, now: int)
    requires ValidDb(db) && c in db.campaigns
    ensures db.campaigns[c].version != version || db.campaigns[c].state != PreviewReady ==> Freeze(db, c, version, now) == db
    ensures db.campaigns[c].version != version || db.campaigns[c].state != Frozen ==> QueueFrozen(db, c, version) == db
  {
  }

  // -------------------------------------------------------------- the freeze

  /** Nothing about the creator forbids the campaign, now: neither its contact row nor somebody's reservation. */
  predicate FreeFor(db: Db, r: RecipientId, now: int)
    requires ValidDb(db) && r in db.recipients
  {
    var k := ContactKey(db.terms[r.campaign].shop, r.creator);
    && (k in db.contacts ==>
          (&& !db.contacts[k].doNotContact && !db.contacts[k].unresolvedDelivery
           && (db.contacts[k].lastContactedAt.Some? ==>
                 db.contacts[k].lastContactedAt.value + db.terms[r.campaign].cooldownDays * 86_400_000 <= now)))
    && (k in db.reservations ==> db.reservations[k].expiresAt <= now)
  }

  /** A selected recipient of the campaign. */
  predicate IsChosen(db: Db, c: CampaignId, r: RecipientId) {
    r in db.recipients && r.campaign == c && db.recipients[r].selected
  }

  ghost predicate Freezes(db: Db, c: CampaignId, version: nat)
    requires ValidDb(db) && c in db.campaigns
  {
    db.campaigns[c].state == PreviewReady && db.campaigns[c].version == version && exists r :: IsChosen(db, c, r)
  }

  lemma FreezesWhenAsked(db: Db, c: CampaignId, version: nat, now: int)
    requires ValidDb(db) && c in db.campaigns && Freezes(db, c, version)
    ensures Freeze(db, c, version, now) == FreezeSelected(WithoutExpired(db, db.terms[c].shop, now), c, now)
  {
    var r :| IsChosen(db, c, r);
    assert r in Chosen(db, c);
  }

  lemma KeptExactly(db: Db, c: CampaignId, r: RecipientId, now: int)
    requires ValidDb(db) && c in db.campaigns && IsChosen(db, c, r)
    ensures var clean := WithoutExpired(db, db.terms[c].shop, now);
            ValidDb(clean) && (r in Winners(clean, c, now) <==> FreeFor(db, r, now))
  {
    var clean := WithoutExpired(db, db.terms[c].shop, now);
    var k := ContactKey(db.terms[r.campaign].shop, r.creator);
    assert k in clean.reservations <==> k in db.reservations && db.reservations[k].expiresAt > now;
  }

  /** A selected recipient is reserved for half an hour if the creator is free for the campaign, and unselected if not. */
  lemma FreezeKeepsExactly(db: Db, c: CampaignId, version: nat, r: RecipientId, now: int)
    requires ValidDb(db) && c in db.campaigns && Freezes(db, c, version) && IsChosen(db, c, r)
    ensures var next := Freeze(db, c, version, now);
            && r in next.recipients
            && if FreeFor(db, r, now) then
                 && next.recipients[r] == RecipientRow(true, Reserved)
                 && var k := ContactKey(db.terms[c].shop, r.creator);
                    k in next.reservations && next.reservations[k] == Reservation(r, now + 1_800_000)
               else next.recipients[r] == RecipientRow(false, Discovered)
  {
    FreezesWhenAsked(db, c, version, now);
    KeptExactly(db, c, r, now);
    var clean := WithoutExpired(db, db.terms[c].shop, now);
    assert r in Chosen(clean, c);
    if FreeFor(db, r, now) { assert KeyOf(clean, r) in FrozenReservations(clean, Winners(clean, c, now), now + FREEZE_MS); }
  }

  /** No other row of anybody changes, and no active reservation goes. */
  lemma FreezeSparesOthers(db: Db, c: CampaignId, version: nat, r: RecipientId, k: ContactKey, now: int)
    requires ValidDb(db) && c in db.campaigns && r in db.recipients && !IsChosen(db, c, r)
    requires k in db.reservations && db.reservations[k].expiresAt > now
    ensures var next := Freeze(db, c, version, now);
            && r in next.recipients && next.recipients[r] == db.recipients[r] && next.deliveries == db.deliveries && next.contacts == db.contacts
            && (forall d | d in db.campaigns && d != c :: d in next.campaigns && next.campaigns[d] == db.campaigns[d])
            && k in next.reservations && (next.reservations[k] == db.reservations[k] || next.reservations[k].recipient.campaign == c)
  {
  }

  /** The campaign is frozen if anybody is left, and goes back to its preview if nobody is; its version counts up. */
  lemma CampaignFreezesExactly(db: Db, c: CampaignId, version: nat, now: int)
    requires ValidDb(db) && c in db.campaigns && Freezes(db, c, version)
    ensures var next := Freeze(db, c, version, now);
            && c in next.campaigns && next.campaigns[c].version == version + 1
            && (next.campaigns[c].state.Frozen? <==> exists r :: IsChosen(db, c, r) && FreeFor(db, r, now))
            && (if next.campaigns[c].state.Frozen? then next.campaigns[c].freezeExpiresAt == Some(now + 1_800_000)
                else next.campaigns[c].state.PreviewExpired?)
  {
    FreezesWhenAsked(db, c, version, now);
    var clean := WithoutExpired(db, db.terms[c].shop, now);
    forall r | IsChosen(db, c, r) ensures r in Winners(clean, c, now) <==> FreeFor(db, r, now) {
      KeptExactly(db, c, r, now);
    }
    if Winners(clean, c, now) != {} {
      var r :| r in Winners(clean, c, now);
      assert IsChosen(db, c, r);
    }
  }

  // ------------------------------------------------------------ the queueing

  predicate WaitsForQueue(db: Db, c: CampaignId, r: RecipientId) {
    IsChosen(db, c, r) && db.recipients[r].state.Reserved?
  }

  /** Exactly the reserved recipients get a delivery and wait in the queue, with reservations that do not run out. */
  lemma QueueTakesExactly(db: Db, c: CampaignId, version: nat, r: RecipientId)
    requires ValidDb(db) && c in db.campaigns && db.campaigns[c].state.Frozen? && db.campaigns[c].version == version && r in db.recipients
    requires exists q :: WaitsForQueue(db, c, q)
    ensures var next := QueueFrozen(db, c, version);
            && next.campaigns == db.campaigns[c := db.campaigns[c].(state := CampaignState.Queued, version := version + 1)]
            && r in next.recipients
            && if WaitsForQueue(db, c, r) then
                 && next.recipients[r] == db.recipients[r].(state := RecipientState.Queued) && r in next.deliveries
                 && next.deliveries[r] == (if r in db.deliveries then db.deliveries[r] else DeliveryRow(Pending, None, 0, None))
               else next.recipients[r] == db.recipients[r] && (r in next.deliveries <==> r in db.deliveries)
                    && (r in db.deliveries ==> next.deliveries[r] == db.deliveries[r])
  {
    var q :| WaitsForQueue(db, c, q);
    assert q in ToQueue(db, c);
  }

  lemma QueueKeepsReservations(db: Db, c: CampaignId, version: nat, k: ContactKey)
    requires ValidDb(db) && c in db.campaigns && db.campaigns[c].state.Frozen? && db.campaigns[c].version == version
    requires k in db.reservations && exists q :: WaitsForQueue(db, c, q)
    ensures var next := QueueFrozen(db, c, version);
            && k in next.reservations && next.reservations[k].recipient == db.reservations[k].recipient
            && next.reservations[k].expiresAt ==
                 if IsChosen(db, c, db.reservations[k].recipient) then 253_402_300_799_999 else db.reservations[k].expiresAt
  {
    var q :| WaitsForQueue(db, c, q);
    assert q in ToQueue(db, c);
  }

  // --------------------------------------------------- from freeze to claim

  /** The contact row lets the delivery go at that time. */
  predicate RowLetsGo(db: Db, r: RecipientId, now: int)
    requires Known(db, r)
  {
    !MustNotContact(db, r) && !MarkedByAnother(db, r) && !ContactedLately(db, r, now)
  }

  /** A queued recipient with its reservation waits for nothing but its contact row. */
  lemma QueuedIsClaimable(db: Db, c: CampaignId, version: nat, r: RecipientId, now: int)
    requires ValidDb(db) && c in db.campaigns && db.campaigns[c].state.Frozen? && db.campaigns[c].version == version
    requires WaitsForQueue(db, c, r) && r !in db.deliveries && now < FAR_FUTURE
    requires var k := ContactKey(db.terms[c].shop, r.creator); k in db.reservations && db.reservations[k].recipient == r
    ensures var next := QueueFrozen(db, c, version);
            Known(next, r) && (MayBeClaimed(next, r, now) <==> RowLetsGo(next, r, now)) && next.contacts == db.contacts
  {
    QuietQueue(db, c, version);
    QueueTakesExactly(db, c, version, r);
    QueueKeepsReservations(db, c, version, ContactKey(db.terms[c].shop, r.creator));
  }

  lemma FrozenWaits(db: Db, c: CampaignId, version: nat, r: RecipientId, now: int)
    requires ValidDb(db) && c in db.campaigns && Freezes(db, c, version) && IsChosen(db, c, r) && FreeFor(db, r, now)
    ensures var next := Freeze(db, c, version, now);
            && ValidDb(next) && c in next.campaigns && next.campaigns[c].state.Frozen? && next.campaigns[c].version == version + 1
            && WaitsForQueue(next, c, r) && next.terms == db.terms
            && var k := ContactKey(db.terms[c].shop, r.creator); k in next.reservations && next.reservations[k].recipient == r
  {
    QuietFreeze(db, c, version, now);
    FreezeKeepsExactly(db, c, version, r, now);
    CampaignFreezesExactly(db, c, version, now);
  }

  /**
   * Frozen and queued, a new delivery can be claimed whenever its contact row lets it go: nothing else is asked of it.
   */
  lemma FrozenIsClaimable(db: Db, c: CampaignId, version: nat, r: RecipientId, frozenAt: int, now: int)
    requires ValidDb(db) && c in db.campaigns && Freezes(db, c, version) && IsChosen(db, c, r) && FreeFor(db, r, frozenAt)
    requires r !in db.deliveries && now < FAR_FUTURE
    ensures ValidDb(Freeze(db, c, version, frozenAt)) && c in Freeze(db, c, version, frozenAt).campaigns
    ensures var next := QueueFrozen(Freeze(db, c, version, frozenAt), c, version + 1);
            Known(next, r) && (MayBeClaimed(next, r, now) <==> RowLetsGo(next, r, now)) && next.contacts == db.contacts
  {
    FrozenWaits(db, c, version, r, frozenAt);
    FreezeKeepsRows(db, c, version, frozenAt);
    QueuedIsClaimable(Freeze(db, c, version, frozenAt), c, version + 1, r, now);
  }

  lemma FreezeKeepsRows(db: Db, c: CampaignId, version: nat, now: int)
    requires ValidDb(db) && c in db.campaigns
    ensures Freeze(db, c, version, now).deliveries == db.deliveries && Freeze(db, c, version, now).contacts == db.contacts
    ensures Freeze(db, c, version, now).terms == db.terms
  {
  }

  // ----------------------------------------------------- rediscovery, expiry

  /** A rediscovery selects whom it found worth selecting, drops everybody it did not find, and gives up old reservations. */
  lemma RedrawsExactly(db: Db, c: CampaignId, found: map<CreatorId, bool>, creator: CreatorId)
    requires ValidDb(db) && c in db.campaigns
    requires db.campaigns[c].state.Draft? || db.campaigns[c].state.PreviewReady? || db.campaigns[c].state.PreviewExpired?
    ensures var (next, r) := (Preview(db, c, found), RecipientId(c, creator));
            && next.campaigns[c].state.PreviewReady? && next.campaigns[c].version > db.campaigns[c].version
            && (IsChosen(next, c, r) <==> creator in found && found[creator])
            && (r in next.recipients <==> creator in found || r in db.recipients)
            && (IsChosen(next, c, r) ==> next.recipients[r].state.Selected?)
            && (forall k | k in next.reservations :: next.reservations[k].recipient.campaign != c)
  {
  }

  /** A frozen campaign that was not queued within its half hour gives every creator back, and nothing else changes. */
  lemma ExpiryReturnsExactly(db: Db, r: RecipientId, k: ContactKey, now: int)
    requires ValidDb(db) && r in db.recipients
    ensures var next := ExpireFrozen(db, now);
            var row := db.campaigns[r.campaign];
            var over := row.state.Frozen? && row.freezeExpiresAt.Some? && row.freezeExpiresAt.value <= now;
            && r in next.recipients && r.campaign in next.campaigns && next.deliveries == db.deliveries && next.contacts == db.contacts
            && (if over then next.campaigns[r.campaign] == row.(state := PreviewExpired, version := row.version + 1)
                else next.campaigns[r.campaign] == row && next.recipients[r] == db.recipients[r])
            && (over ==> next.recipients[r] == if db.recipients[r].state.Reserved? then db.recipients[r].(state := Selected) else db.recipients[r])
            && (k in db.reservations && db.reservations[k].recipient == r ==> (k in next.reservations <==> !over))
  {
  }
}
