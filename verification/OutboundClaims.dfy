/**
 * When a claim is granted, row by row, why one is turned down, and what no run of workers
 * and operators can do to a creator who must not be contacted.
 */
module OutboundClaims {
  import opened Options
  import opened OutreachDb
  import opened OutboundProtocol
  import opened OutboundSafety
  import opened OutboundSpacing
  import opened OutreachEffects

  // ------------------------------------------------------------- the rows

  /** The delivery waits to be sent and its campaign is sending. */
  predicate WaitsInCampaign(db: Db, r: RecipientId)
    requires Known(db, r)
  {
    var (d, c) := (db.deliveries[r].state, db.campaigns[r.campaign].state);
    (d.Pending? || d.FailedRetryable?) && (c.Queued? || c.Running?)
  }

  predicate MarkedByAnother(db: Db, r: RecipientId)
    requires Known(db, r)
  {
    var k := ContactKey(db.terms[r.campaign].shop, r.creator);
    k in db.contacts && db.contacts[k].unresolvedDelivery && db.contacts[k].lastDelivery != Some(r)
  }

  predicate MustNotContact(db: Db, r: RecipientId)
    requires Known(db, r)
  {
    var k := ContactKey(db.terms[r.campaign].shop, r.creator);
    k in db.contacts && db.contacts[k].doNotContact
  }

  predicate HoldsReservation(db: Db, r: RecipientId, now: int)
    requires Known(db, r)
  {
    var k := ContactKey(db.terms[r.campaign].shop, r.creator);
    k in db.reservations && db.reservations[k].recipient == r && db.reservations[k].expiresAt > now
  }

  /** The row shows a contact within the campaign's cooldown that is not this delivery's own. */
  predicate ContactedLately(db: Db, r: RecipientId, now: int)
    requires Known(db, r)
  {
    var k := ContactKey(db.terms[r.campaign].shop, r.creator);
    && k in db.contacts && db.contacts[k].lastContactedAt.Some?
    && db.contacts[k].lastContactedAt.value + db.terms[r.campaign].cooldownDays * 86_400_000 > now
    && !(db.contacts[k].lastCampaign == Some(r.campaign) && db.contacts[k].lastDelivery == Some(r))
  }

  predicate MayBeClaimed(db: Db, r: RecipientId, now: int)
    requires Known(db, r)
  {
    && WaitsInCampaign(db, r) && !MustNotContact(db, r) && !MarkedByAnother(db, r)
    && HoldsReservation(db, r, now) && !ContactedLately(db, r, now)
  }

  // ------------------------------------------------------------- one claim

  /** For every delivery, whatever the rows hold. */
  lemma ClaimGrantedExactly(db: Db, r: RecipientId, now: int)
    requires Known(db, r)
    ensures ReserveDispatchSlot(db, r, now).1.Claimed? <==> MayBeClaimed(db, r, now)
    ensures ReserveDispatchSlot(db, r, now).1.NotClaimed? <==> !WaitsInCampaign(db, r)
  {
  }

  /** The first of the four reasons, in this order, is the one written down. */
  lemma ExcludedExactly(db: Db, r: RecipientId, now: int)
    requires Known(db, r) && WaitsInCampaign(db, r)
    ensures var claim := ReserveDispatchSlot(db, r, now).1;
            && (claim == Excluded(DoNotContact) <==> MustNotContact(db, r))
            && (claim == Excluded(UnknownElsewhere) <==> !MustNotContact(db, r) && MarkedByAnother(db, r))
            && (claim == Excluded(ReservationInvalid) <==>
                  !MustNotContact(db, r) && !MarkedByAnother(db, r) && !HoldsReservation(db, r, now))
            && (claim == Excluded(CooldownChanged) <==>
                  !MustNotContact(db, r) && !MarkedByAnother(db, r) && HoldsReservation(db, r, now) && ContactedLately(db, r, now))
  {
    ClaimGrantedExactly(db, r, now);
  }

  /** A granted claim counts one attempt, remembers the first one, and touches nobody else. */
  ghost predicate Dispatches(db: Db, next: Db, r: RecipientId, now: int) {
    && Known(db, r) && Known(next, r)
    && next == db.(campaigns := next.campaigns, recipients := next.recipients, deliveries := next.deliveries)
    && next.campaigns == db.campaigns[r.campaign := db.campaigns[r.campaign].(state := Running)]
    && next.recipients == db.recipients[r := db.recipients[r].(state := Processing)]
    && next.deliveries == db.deliveries[r := next.deliveries[r]]
    && next.deliveries[r].state.Dispatching? && next.deliveries[r].attemptCount == db.deliveries[r].attemptCount + 1
    && next.deliveries[r].sentAt == db.deliveries[r].sentAt
    && next.deliveries[r].firstDispatchedAt == (if db.deliveries[r].firstDispatchedAt.None? then Some(now) else db.deliveries[r].firstDispatchedAt)
  }

  /** A claim turned down closes the delivery for good and lets the creator go. */
  ghost predicate TurnsDown(db: Db, next: Db, r: RecipientId) {
    && Known(db, r) && Closes(db, next, r)
    && next.deliveries[r].state.FailedTerminal? && next.recipients[r].state.Cancelled?
  }

  lemma GrantDispatches(db: Db, r: RecipientId, now: int)
    requires Known(db, r) && ReserveDispatchSlot(db, r, now).1.Claimed?
    ensures Dispatches(db, ReserveDispatchSlot(db, r, now).0, r, now)
  {
    var next := ReserveDispatchSlot(db, r, now).0;
    QuietClaim(db, r, now);
    assert next.deliveries == db.deliveries[r := next.deliveries[r]];
  }

  lemma RefusalTurnsDown(db: Db, r: RecipientId, now: int)
    requires Known(db, r) && ReserveDispatchSlot(db, r, now).1.Excluded?
    ensures TurnsDown(db, ReserveDispatchSlot(db, r, now).0, r)
  {
    QuietClaim(db, r, now);
  }

  lemma ClaimEffects(db: Db, r: RecipientId, now: int)
    requires Known(db, r)
    ensures var (next, claim) := ReserveDispatchSlot(db, r, now);
            && (claim.Claimed? ==> claim.attempt == db.deliveries[r].attemptCount + 1 && Dispatches(db, next, r, now))
            && (claim.NotClaimed? ==> next == db)
            && (claim.Excluded? ==> TurnsDown(db, next, r))
  {
    if ReserveDispatchSlot(db, r, now).1.Claimed? { GrantDispatches(db, r, now); }
    if ReserveDispatchSlot(db, r, now).1.Excluded? { RefusalTurnsDown(db, r, now); }
  }

  // -------------------------------------------------------------- whole runs

  /** The step is a claim that is granted, of a delivery to the creator. */
  ghost predicate GrantsTo(s: Sys, step: Step, k: ContactKey) {
    && step.Job? && step.job.Claim? && Runs(s, step.job.run)
    && var x := s.runs[step.job.run];
       x.Seen? && !x.recover && KeyOf(s.db, x.recipient) == k && ReserveDispatchSlot(s.db, x.recipient, s.clock).1.Claimed?
  }

  ghost predicate NeverGrants(s: Sys, steps: seq<Step>, k: ContactKey)
    decreases |steps|
  {
    steps == [] || (!GrantsTo(s, steps[0], k) && NeverGrants(Apply(s, steps[0]), steps[1..], k))
  }

  /** An operator takes the creator off the list. */
  predicate Lifts(step: Step, k: ContactKey) {
    step == ContactRow(k, SetDoNotContact(false))
  }

  ghost predicate Forbidden(s: Sys, k: ContactKey) {
    ContactAt(s.db, k).doNotContact
  }

  lemma FinalWriteKeepsForbidden(db: Db, x: Execution, now: int, k: ContactKey)
    requires Known(db, x.recipient) && ContactAt(db, k).doNotContact
    ensures ContactAt(FinalWrite(db, x, now), k).doNotContact
  {
  }

  lemma CampaignKeepsContacts(db: Db, step: CampaignStep, now: int)
    requires ValidDb(db) && step.campaign in db.campaigns
    ensures ApplyCampaign(db, step, now).contacts == db.contacts
  {
  }

  lemma ForbiddenIsRefused(s: Sys, step: Step, k: ContactKey)
    requires Forbidden(s, k)
    ensures !GrantsTo(s, step, k)
  {
    if step.Job? && step.job.Claim? && Runs(s, step.job.run) {
      ClaimGrantedExactly(s.db, s.runs[step.job.run].recipient, s.clock);
    }
  }

  lemma ClaimKeepsContacts(db: Db, r: RecipientId, now: int)
    requires Known(db, r)
    ensures ReserveDispatchSlot(db, r, now).0.contacts == db.contacts
  {
  }

  lemma JobKeepsForbidden(s: Sys, job: JobStep, k: ContactKey)
    requires Forbidden(s, k)
    ensures ContactAt(ApplyJob(s, job).db, k).doNotContact
  {
    match job
    case Claim(e) => if Runs(s, e) { ClaimKeepsContacts(s.db, s.runs[e].recipient, s.clock); }
    case End(e) => if Runs(s, e) { FinalWriteKeepsForbidden(s.db, s.runs[e], s.clock, k); }
    case _ =>
  }

  lemma ContactKeepsForbidden(db: Db, l: ContactKey, update: ContactStep, k: ContactKey)
    requires ValidDb(db) && ContactAt(db, k).doNotContact && !Lifts(ContactRow(l, update), k)
    ensures ContactAt(ApplyContact(db, l, update), k).doNotContact
  {
  }

  lemma StepKeepsForbidden(s: Sys, step: Step, k: ContactKey)
    requires Forbidden(s, k) && !Lifts(step, k)
    ensures Forbidden(Apply(s, step), k)
  {
    match step
    case Job(job) => JobKeepsForbidden(s, job, k);
    case Campaign(change) =>
      if ValidDb(s.db) && change.campaign in s.db.campaigns { CampaignKeepsContacts(s.db, change, s.clock); }
    case ContactRow(l, update) => if ValidDb(s.db) { ContactKeepsForbidden(s.db, l, update, k); }
    case _ =>
  }

  /**
   * From the moment a creator is marked do-not-contact no claim of any delivery to it is granted, by whatever
   * workers, campaigns, imports and rebuilds, until an operator takes the mark back.
   */
  lemma {:induction false} DoNotContactHolds(s: Sys, steps: seq<Step>, k: ContactKey)
    requires Forbidden(s, k) && forall i | 0 <= i < |steps| :: !Lifts(steps[i], k)
    ensures NeverGrants(s, steps, k)
    decreases |steps|
  {
    if steps != [] {
      ForbiddenIsRefused(s, steps[0], k);
      StepKeepsForbidden(s, steps[0], k);
      DoNotContactHolds(Apply(s, steps[0]), steps[1..], k);
    }
  }

  /** Every grant of the run meets the contact row as it is then. */
  ghost predicate GrantsMeetRow(s: Sys, steps: seq<Step>)
    decreases |steps|
  {
    steps == [] ||
    (var step := steps[0];
     && (step.Job? && step.job.Claim? && Runs(s, step.job.run) && GrantsTo(s, step, KeyOf(s.db, s.runs[step.job.run].recipient)) ==>
           var r := s.runs[step.job.run].recipient;
           !MustNotContact(s.db, r) && !MarkedByAnother(s.db, r) && !ContactedLately(s.db, r, s.clock))
     && GrantsMeetRow(Apply(s, step), steps[1..]))
  }

  /** Over any run: no claim is granted while the row forbids it or shows another contact within the cooldown. */
  lemma {:induction false} EveryGrantMeetsRow(s: Sys, steps: seq<Step>)
    ensures GrantsMeetRow(s, steps)
    decreases |steps|
  {
    if steps != [] {
      var step := steps[0];
      if step.Job? && step.job.Claim? && Runs(s, step.job.run) {
        ClaimGrantedExactly(s.db, s.runs[step.job.run].recipient, s.clock);
      }
      EveryGrantMeetsRow(Apply(s, step), steps[1..]);
    }
  }
}
