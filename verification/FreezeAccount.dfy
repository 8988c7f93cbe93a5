/**
 * The account a freeze gives of the recipients it drops, against the preview's account
 * it starts from.
 */
module FreezeAccount {
  import opened Options
  import opened FiniteSets
  import opened OutreachDb
  import P = Preview

  datatype Reason = NeverContact | UnknownOutcome | WithinCooldown | ContactedByApp | ReservedElsewhere

  /** Why the freeze loop drops a selected recipient, in the order it asks. */
  function ReasonFor(db: Db, r: RecipientId, now: int): Option<Reason>
    requires ValidDb(db) && r in db.recipients
  {
    var k := KeyOf(db, r);
    var contact := ContactAt(db, k);
    if contact.doNotContact then Some(NeverContact)
    else if contact.unresolvedDelivery then Some(UnknownOutcome)
    else if contact.lastContactedAt.Some? && contact.lastContactedAt.value > now - CooldownMs(db, r)
    then Some(if contact.lastCampaign.Some? then ContactedByApp else WithinCooldown)
    else if k in db.reservations && db.reservations[k].expiresAt > now then Some(ReservedElsewhere)
    else None
  }

  function DroppedFor(db: Db, among: set<RecipientId>, why: Reason, now: int): set<RecipientId>
    requires ValidDb(db) && forall r | r in among :: r in db.recipients
  {
    set r | r in among && ReasonFor(db, r, now) == Some(why)
  }

  function KeptOf(db: Db, among: set<RecipientId>, now: int): set<RecipientId>
    requires ValidDb(db) && forall r | r in among :: r in db.recipients
  {
    set r | r in among && ReasonFor(db, r, now).None?
  }

  /** The reasons are exactly the freeze's own rule for whom it drops. */
  lemma KeptAreWinners(db: Db, c: CampaignId, now: int)
    requires ValidDb(db)
    ensures KeptOf(db, Chosen(db, c), now) == Winners(db, c, now)
  {
  }

  /** Of several reasons the first counts: the creator's wish, then a doubt, then a contact, then somebody's reservation. */
  lemma FirstReasonCounts(db: Db, r: RecipientId, now: int)
    requires ValidDb(db) && r in db.recipients
    ensures var (why, k) := (ReasonFor(db, r, now), ContactKey(db.terms[r.campaign].shop, r.creator));
            var never := k in db.contacts && db.contacts[k].doNotContact;
            var doubt := k in db.contacts && db.contacts[k].unresolvedDelivery;
            var lately := k in db.contacts && db.contacts[k].lastContactedAt.Some?
                          && db.contacts[k].lastContactedAt.value + db.terms[r.campaign].cooldownDays * 86_400_000 > now;
            && (why == Some(NeverContact) <==> never)
            && (why == Some(UnknownOutcome) <==> !never && doubt)
            && (why == Some(ContactedByApp) <==> !never && !doubt && lately && db.contacts[k].lastCampaign.Some?)
            && (why == Some(WithinCooldown) <==> !never && !doubt && lately && db.contacts[k].lastCampaign.None?)
            && (why == Some(ReservedElsewhere) <==> !never && !doubt && !lately && k in db.reservations && db.reservations[k].expiresAt > now)
  {
  }

  // ----------------------------------------------------------------- counting

  /** A reason not met yet has no entry. */
  function CountFor(counts: map<Reason, nat>, why: Reason): nat {
    if why in counts then counts[why] else 0
  }

  lemma OneMoreDropped(db: Db, done: set<RecipientId>, r: RecipientId, why: Reason, now: int)
    requires ValidDb(db) && r in db.recipients && r !in done && forall q | q in done :: q in db.recipients
    ensures |DroppedFor(db, done + {r}, why, now)|
            == |DroppedFor(db, done, why, now)| + (if ReasonFor(db, r, now) == Some(why) then 1 else 0)
  {
    var had, has := DroppedFor(db, done, why, now), DroppedFor(db, done + {r}, why, now);
    assert has == if ReasonFor(db, r, now) == Some(why) then had + {r} else had;
  }

  lemma OneMoreKept(db: Db, done: set<RecipientId>, r: RecipientId, now: int)
    requires ValidDb(db) && r in db.recipients && r !in done && forall q | q in done :: q in db.recipients
    ensures |KeptOf(db, done + {r}, now)| == |KeptOf(db, done, now)| + (if ReasonFor(db, r, now).None? then 1 else 0)
  {
    var kept, keeps := KeptOf(db, done, now), KeptOf(db, done + {r}, now);
    assert keeps == if ReasonFor(db, r, now).None? then kept + {r} else kept;
  }

  /** The loop over the selected recipients. */
  method CountExclusions(db: Db, c: CampaignId, now: int) returns (counts: map<Reason, nat>, finalSelected: nat)
    requires ValidDb(db)
    ensures forall why :: CountFor(counts, why) == |DroppedFor(db, Chosen(db, c), why, now)|
    ensures finalSelected == |Winners(db, c, now)|
  {
    counts, finalSelected := map[], 0;
    var rest, done := Chosen(db, c), {};
    while rest != {}
      invariant rest <= Chosen(db, c) && done == Chosen(db, c) - rest
      invariant forall why :: CountFor(counts, why) == |DroppedFor(db, done, why, now)|
      invariant finalSelected == |KeptOf(db, done, now)|
    {
      var r :| r in rest;
      forall why: Reason ensures |DroppedFor(db, done + {r}, why, now)|
            == |DroppedFor(db, done, why, now)| + (if ReasonFor(db, r, now) == Some(why) then 1 else 0) {
        OneMoreDropped(db, done, r, why, now);
      }
      OneMoreKept(db, done, r, now);
      var reason := ReasonFor(db, r, now);
      if reason.Some? {
        counts := counts[reason.value := CountFor(counts, reason.value) + 1];
      } else {
        finalSelected := finalSelected + 1;
      }
      rest, done := rest - {r}, done + {r};
    }
    assert done == Chosen(db, c);
    KeptAreWinners(db, c, now);
  }

  /** Every selected recipient is kept or dropped for one reason. */
  lemma {:induction false} SelectedAddUp(db: Db, among: set<RecipientId>, now: int)
    requires ValidDb(db) && forall r | r in among :: r in db.recipients
    ensures |among| == |KeptOf(db, among, now)| + |DroppedFor(db, among, NeverContact, now)|
                       + |DroppedFor(db, among, UnknownOutcome, now)| + |DroppedFor(db, among, WithinCooldown, now)|
                       + |DroppedFor(db, among, ContactedByApp, now)| + |DroppedFor(db, among, ReservedElsewhere, now)|
    decreases among
  {
    if among != {} {
      var r :| r in among;
      var rest := among - {r};
      assert rest + {r} == among;
      SelectedAddUp(db, rest, now);
      OneMoreKept(db, rest, r, now);
      OneMoreDropped(db, rest, r, NeverContact, now);
      OneMoreDropped(db, rest, r, UnknownOutcome, now);
      OneMoreDropped(db, rest, r, WithinCooldown, now);
      OneMoreDropped(db, rest, r, ContactedByApp, now);
      OneMoreDropped(db, rest, r, ReservedElsewhere, now);
    }
  }

  // ------------------------------------------------------------- the account

  function OrZero(n: int): nat {
    if n < 0 then 0 else n
  }

  function Total(counts: map<Reason, nat>): nat {
    CountFor(counts, NeverContact) + CountFor(counts, UnknownOutcome) + CountFor(counts, WithinCooldown)
    + CountFor(counts, ContactedByApp) + CountFor(counts, ReservedElsewhere)
  }

  /** What the freeze writes: all exclusions leave `eligible`, and four of the five reasons are added. */
  function FinalSummary(s: P.Summary, counts: map<Reason, nat>, finalSelected: nat, target: nat): P.Summary {
    s.(selected := finalSelected, eligible := OrZero(s.eligible - Total(counts)), shortfall := OrZero(target - finalSelected),
       doNotContact := s.doNotContact + CountFor(counts, NeverContact),
       unknownDelivery := s.unknownDelivery + CountFor(counts, UnknownOutcome),
       cooldown := s.cooldown + CountFor(counts, WithinCooldown),
       activeReservation := s.activeReservation + CountFor(counts, ReservedElsewhere))
  }

  /** The application contacted the creator within the cooldown, and nothing graver keeps it from being messaged. */
  predicate ContactedWithin(db: Db, r: RecipientId, now: int)
    requires ValidDb(db) && r in db.recipients
  {
    var contact := ContactAt(db, KeyOf(db, r));
    && contact.lastCampaign.Some? && contact.lastContactedAt.Some? && contact.lastContactedAt.value > now - CooldownMs(db, r)
    && !contact.doNotContact && !contact.unresolvedDelivery
  }

  /** A preview's account of a campaign: it adds up, and its selection is the campaign's selected recipients. */
  ghost predicate Accounts(db: Db, c: CampaignId, s: P.Summary)
    requires ValidDb(db)
  {
    P.Balanced(s) && s.selected == |Chosen(db, c)| && s.selected <= s.eligible
  }

  /**
   * The account still adds up after a freeze exactly when the contact row of no selected
   * recipient shows a contact by the application within the cooldown, and nothing graver.
   */
  method FreezeSummary(db: Db, c: CampaignId, now: int, s: P.Summary) returns (next: P.Summary)
    requires ValidDb(db) && Accounts(db, c, s)
    ensures P.Balanced(next) <==> forall r | r in Chosen(db, c) :: !ContactedWithin(db, r, now)
    ensures next.selected == |Winners(db, c, now)| && next.selected + next.shortfall == s.requested
    ensures next.eligible == s.eligible - (|Chosen(db, c)| - |Winners(db, c, now)|)
    ensures next.doNotContact == s.doNotContact + |DroppedFor(db, Chosen(db, c), NeverContact, now)|
    ensures next.unknownDelivery == s.unknownDelivery + |DroppedFor(db, Chosen(db, c), UnknownOutcome, now)|
    ensures next.cooldown == s.cooldown + |DroppedFor(db, Chosen(db, c), WithinCooldown, now)|
    ensures next.activeReservation == s.activeReservation + |DroppedFor(db, Chosen(db, c), ReservedElsewhere, now)|
  {
    var counts, finalSelected := CountExclusions(db, c, now);
    SelectedAddUp(db, Chosen(db, c), now);
    KeptAreWinners(db, c, now);
    ByAppExactly(db, c, now);
    next := FinalSummary(s, counts, finalSelected, s.requested);
  }

  lemma ByAppExactly(db: Db, c: CampaignId, now: int)
    requires ValidDb(db)
    ensures |DroppedFor(db, Chosen(db, c), ContactedByApp, now)| == 0 <==> forall r | r in Chosen(db, c) :: !ContactedWithin(db, r, now)
  {
    var dropped := DroppedFor(db, Chosen(db, c), ContactedByApp, now);
    forall r | r in Chosen(db, c) ensures r in dropped <==> ContactedWithin(db, r, now) {
    }
    if dropped != {} {
      var r :| r in dropped;
      SubsetSize({r}, dropped);
    }
  }

  // ------------------------------------------------------------ a lost one

  const R := RecipientId(0, 0)

  /** One selected creator, messaged by another campaign of the application at time 0, a cooldown of a day. */
  function MessagedMeanwhile(): Db {
    Db(map[0 := Terms(0, 1)], map[0 := CampaignRow(PreviewReady, 1, None)], map[R := RecipientRow(true, Selected)],
       map[], map[], map[ContactKey(0, 0) := Contact(Some(0), Some(0), 1, Some(1), None, false, false)], {})
  }

  function OneSelected(): P.Summary {
    P.Summary(1, 1, 0, 0, 0, 0, 0, 0, 1, 1, 0)
  }

  /** The one creator fetched is neither eligible nor skipped for any reason once the freeze dropped it. */
  lemma OneIsLost(counts: map<Reason, nat>)
    requires var db := MessagedMeanwhile();
             ValidDb(db) && forall why :: CountFor(counts, why) == |DroppedFor(db, Chosen(db, 0), why, 0)|
    ensures Accounts(MessagedMeanwhile(), 0, OneSelected()) && Winners(MessagedMeanwhile(), 0, 0) == {}
    ensures FinalSummary(OneSelected(), counts, 0, 1) == P.Summary(1, 1, 0, 0, 0, 0, 0, 0, 0, 0, 1)
    ensures !P.Balanced(FinalSummary(OneSelected(), counts, 0, 1))
  {
    var db := MessagedMeanwhile();
    assert Chosen(db, 0) == {R} && ReasonFor(db, R, 0) == Some(ContactedByApp);
    assert DroppedFor(db, {R}, ContactedByApp, 0) == {R};
    forall why: Reason | why != ContactedByApp ensures DroppedFor(db, {R}, why, 0) == {} {
    }
  }
}
