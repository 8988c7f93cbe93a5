/**
 * A ledger rebuild computed from what the tables and the imported messages hold: it may take
 * an accepted message off the contact row, and keeps the cooldown all the same.
 */
module OutboundRebuild {
  import opened Options
  import opened OutreachDb
  import opened OutboundProtocol
  import opened OutboundSafety
  import opened OutboundSpacing

  // ---------------------------------------------- contact rows only change

  lemma ContactKeepsTables(db: Db, k: ContactKey, step: ContactStep)
    requires TablesOk(db)
    ensures TablesOk(ApplyContact(db, k, step))
  {
    var next := ApplyContact(db, k, step);
    forall l ensures ReservationOk(next, l) {
      assert ReservationOk(db, l);
    }
    forall r ensures RowOk(next, r) {
      assert RowOk(db, r);
    }
  }

  lemma ContactLeaves(db: Db, k: ContactKey, step: ContactStep)
    requires ValidDb(db)
    ensures Leaves(db, ApplyContact(db, k, step), {}) && ReservesNobody(db, ApplyContact(db, k, step))
  {
  }

  lemma ContactsMoveNothing(s: Sys, next: Sys)
    requires next == s.(db := next.db) && next.db.deliveries == s.db.deliveries && AnswersBacked(s)
    ensures StandingsOf(next) == StandingsOf(s) && AnswersBacked(next)
  {
  }

  // ------------------------------------------------------ what a rebuild finds

  /** No SENT delivery to the creator was accepted after the date. */
  ghost predicate CoversSent(s: Sys, k: ContactKey, last: Option<int>)
    requires ValidDb(s.db)
  {
    forall r | r in SentTo(s.db, k) && StandingOf(s, r).Delivered? :: last.Some? && StandingOf(s, r).acceptedAt <= last.value
  }

  lemma SentIsCovered(s: Sys, k: ContactKey, h: History, last: Option<int>, r: RecipientId)
    requires Safe(s) && Genuine(s.requests, h) && IsLatest(DatesOf(s.db, k, h), last)
    requires r in SentTo(s.db, k) && StandingOf(s, r).Delivered?
    ensures last.Some? && StandingOf(s, r).acceptedAt <= last.value
  {
    assert Settled(s.db, StandingsOf(s), r);
    assert DateOf(s.db, h, r) in DatesOf(s.db, k, h);
  }

  /** Whatever was imported: the latest date a rebuild finds is no earlier than the acceptance of any SENT delivery. */
  lemma ComputedRebuildCovers(s: Sys, k: ContactKey, h: History, last: Option<int>)
    requires Safe(s) && Genuine(s.requests, h) && IsLatest(DatesOf(s.db, k, h), last)
    ensures CoversSent(s, k, last)
  {
    forall r | r in SentTo(s.db, k) && StandingOf(s, r).Delivered?
      ensures last.Some? && StandingOf(s, r).acceptedAt <= last.value
    {
      SentIsCovered(s, k, h, last, r);
    }
  }

  // ----------------------------------------------------- what a rebuild keeps

  /** What is in flight, or accepted and not SENT, is guarded by its own row: the rebuild counts the unknown ones. */
  lemma RebuildGuards(s: Sys, k: ContactKey, b: Rebuilt, r: RecipientId)
    requires Safe(s) && CoversSent(s, k, b.last) && Known(Rebuild(s.db, k, b), r) && Known(s.db, r)
    requires Open(Rebuild(s.db, k, b), StandingsOf(s), r)
    ensures Guarded(Rebuild(s.db, k, b), r)
  {
    assert Settled(s.db, StandingsOf(s), r);
    if KeyOf(s.db, r) == k {
      if Unknown(s.db.deliveries[r].state) { assert AnUnknown(s.db, k); }
    } else {
      assert Open(s.db, StandingsOf(s), r);
    }
  }

  lemma RebuildKeepsGaps(s: Sys, k: ContactKey, b: Rebuilt)
    requires Safe(s) && CoversSent(s, k, b.last)
    ensures ValidDb(Rebuild(s.db, k, b)) && Gaps(Rebuild(s.db, k, b), StandingsOf(s), s.clock)
  {
    var next, st := Rebuild(s.db, k, b), StandingsOf(s);
    ContactLeaves(s.db, k, RebuildContact(b, History(map[], {})));
    LeavesKeepsSettled(s.db, next, st, {});
    NobodyNewIsClear(s.db, next, st, s.clock);
    forall r | r in next.deliveries && Open(next, st, r) ensures Guarded(next, r) {
      RebuildGuards(s, k, b, r);
    }
  }

  lemma RebuildKeepsSafe(s: Sys, k: ContactKey, b: Rebuilt)
    requires Safe(s) && CoversSent(s, k, b.last)
    ensures Safe(s.(db := Rebuild(s.db, k, b)))
  {
    var step, next := RebuildContact(b, History(map[], {})), s.(db := Rebuild(s.db, k, b));
    ContactKeepsAtMostOnce(s, k, step);
    ContactKeepsTables(s.db, k, step);
    RebuildKeepsGaps(s, k, b);
    ContactsMoveNothing(s, next);
  }

  lemma UncoveredIsUnsafe(s: Sys, k: ContactKey, b: Rebuilt, r: RecipientId)
    requires Safe(s) && r in SentTo(s.db, k) && StandingOf(s, r).Delivered?
    requires !(b.last.Some? && StandingOf(s, r).acceptedAt <= b.last.value)
    ensures !Safe(s.(db := Rebuild(s.db, k, b)))
  {
    var next := s.(db := Rebuild(s.db, k, b));
    ContactsMoveNothing(s, next);
    assert Settled(s.db, StandingsOf(s), r);
    assert ValidDb(next.db) && Open(next.db, StandingsOf(next), r) && !Guarded(next.db, r);
  }

  /** For every safe state and any record: writing it keeps the invariant if and only if its latest date covers the SENT deliveries. */
  lemma RebuildKeepsSafeExactly(s: Sys, k: ContactKey, b: Rebuilt)
    requires Safe(s)
    ensures Safe(s.(db := Rebuild(s.db, k, b))) <==> CoversSent(s, k, b.last)
  {
    if CoversSent(s, k, b.last) {
      RebuildKeepsSafe(s, k, b);
    } else {
      var r :| r in SentTo(s.db, k) && StandingOf(s, r).Delivered? && !(b.last.Some? && StandingOf(s, r).acceptedAt <= b.last.value);
      UncoveredIsUnsafe(s, k, b, r);
    }
  }

  // -------------------------------------------------- what a rebuild forgets

  /** A message the contact row shows is also covered by the latest date the rebuild found. */
  predicate Covers(db: Db, k: ContactKey, standing: Standing, last: Option<int>) {
    standing.Delivered? && Recorded(db, k, standing.acceptedAt) ==> last.Some? && last.value >= standing.acceptedAt
  }

  /** A delivery that was accepted and shown, but whose SENT a stale run has overwritten. */
  ghost predicate Overwritten(s: Sys, k: ContactKey, r: RecipientId) {
    && Known(s.db, r) && KeyOf(s.db, r) == k && !s.db.deliveries[r].state.Sent?
    && StandingOf(s, r).Delivered? && Recorded(s.db, k, StandingOf(s, r).acceptedAt)
  }

  /**
   * In every safe state: after a computed rebuild the contact row shows all accepted messages it showed
   * before if and only if each whose SENT was overwritten is covered by the date of some other contact.
   */
  lemma ComputedRebuildForgetsExactly(s: Sys, k: ContactKey, h: History, b: Rebuilt)
    requires Safe(s) && Genuine(s.requests, h) && IsLatest(DatesOf(s.db, k, h), b.last)
    ensures (forall r | r in s.db.deliveries && KeyOf(s.db, r) == k :: Covers(s.db, k, StandingOf(s, r), b.last)) <==>
              forall r | Overwritten(s, k, r) :: exists d :: d in DatesOf(s.db, k, h) && d >= StandingOf(s, r).acceptedAt
  {
    ComputedRebuildCovers(s, k, h, b.last);
    forall r | Overwritten(s, k, r)
      ensures Covers(s.db, k, StandingOf(s, r), b.last) <==> exists d :: d in DatesOf(s.db, k, h) && d >= StandingOf(s, r).acceptedAt
    {
      assert At(StandingsOf(s), r).acceptedAt > 0;
    }
  }
}
