/** What the protocol gets done: a message goes out, a dead dispatch is recovered, a doubt is settled, a refusal is retried. */
module OutboundProgress {
  import opened Options
  import opened OutreachDb
  import opened OutboundProtocol
  import opened OutboundSafety
  import opened OutboundSpacing
  import opened OutreachEffects
  import opened OutboundClaims

  /** A job run that nobody has started yet. */
  predicate Fresh(s: Sys, e: RunId) {
    e !in s.runs && e !in s.requests
  }

  lemma RunOne(s: Sys, a: Step)
    ensures Run(s, [a]) == Apply(s, a)
  {
    assert [a][1..] == [];
  }

  lemma RunTwo(s: Sys, a: Step, b: Step)
    ensures Run(s, [a, b]) == Apply(Apply(s, a), b)
  {
    assert [a, b][1..] == [b];
    RunOne(Apply(s, a), b);
  }

  // ------------------------------------------------------------ single steps

  lemma Begins(s: Sys, e: RunId, r: RecipientId)
    requires r in s.db.deliveries && Fresh(s, e)
    ensures s.db.deliveries[r].state.Dispatching? ==> Apply(s, Job(Begin(e, r))) == s.(runs := s.runs[e := Seen(r, true)])
    ensures s.db.deliveries[r].state.Pending? || s.db.deliveries[r].state.FailedRetryable? ==>
              Apply(s, Job(Begin(e, r))) == s.(runs := s.runs[e := Seen(r, false)])
  {
  }

  lemma Claims(s: Sys, e: RunId, r: RecipientId)
    requires Known(s.db, r) && e in s.runs && s.runs[e] == Seen(r, false) && ReserveDispatchSlot(s.db, r, s.clock).1.Claimed?
    ensures Apply(s, Job(Claim(e))) ==
              s.(db := ReserveDispatchSlot(s.db, r, s.clock).0, runs := s.runs[e := Holding(r, s.clock)], claimedBy := s.claimedBy[r := e])
  {
  }

  lemma Ends(s: Sys, e: RunId, r: RecipientId)
    requires Known(s.db, r) && e in s.runs && s.runs[e].recipient == r && !s.runs[e].Holding? && !s.runs[e].Waiting?
    ensures Apply(s, Job(End(e))) == s.(runs := s.runs - {e}, db := FinalWrite(s.db, s.runs[e], s.clock))
  {
  }

  lemma Sends(s: Sys, e: RunId, r: RecipientId, at: int)
    requires e in s.runs && s.runs[e] == Holding(r, at) && e !in s.requests
    ensures Apply(Apply(Apply(s, Job(Issue(e))), Job(Accept(e))), Job(See(e, Accepted))) ==
              s.(runs := s.runs[e := Answered(r, at, Accepted)], requests := s.requests[e := Request(r, at, Some(s.clock))])
  {
    var issued := s.(runs := s.runs[e := Waiting(r, at)], requests := s.requests[e := Request(r, at, None)]);
    assert Apply(s, Job(Issue(e))) == issued;
    var accepted := issued.(requests := s.requests[e := Request(r, at, Some(s.clock))]);
    assert issued.requests[e := Request(r, at, Some(s.clock))] == accepted.requests;
    assert Apply(issued, Job(Accept(e))) == accepted;
    assert accepted.runs[e := Answered(r, at, Accepted)] == s.runs[e := Answered(r, at, Accepted)];
  }

  // --------------------------------------------------------- what they do

  /** The delivery is dispatched under a claim whose worker is gone: the next job run marks it unknown. */
  lemma DeadDispatchIsRecovered(s: Sys, e: RunId, r: RecipientId)
    requires Known(s.db, r) && s.db.deliveries[r].state.Dispatching? && Fresh(s, e)
    ensures Run(s, [Job(Begin(e, r)), Job(End(e))]).db == MarkUnknown(s.db, r)
  {
    RunTwo(s, Job(Begin(e, r)), Job(End(e)));
    Begins(s, e, r);
    Ends(s.(runs := s.runs[e := Seen(r, true)]), e, r);
  }

  /** Whatever may be claimed is, by the next job run: a new delivery as well as one that failed before. */
  lemma WaitingIsTakenUp(s: Sys, e: RunId, r: RecipientId)
    requires Known(s.db, r) && MayBeClaimed(s.db, r, s.clock) && Fresh(s, e)
    ensures Run(s, [Job(Begin(e, r)), Job(Claim(e))]) ==
              s.(db := ReserveDispatchSlot(s.db, r, s.clock).0, runs := s.runs[e := Holding(r, s.clock)], claimedBy := s.claimedBy[r := e])
    ensures ReserveDispatchSlot(s.db, r, s.clock).1.Claimed?
  {
    RunTwo(s, Job(Begin(e, r)), Job(Claim(e)));
    ClaimGrantedExactly(s.db, r, s.clock);
    Begins(s, e, r);
    var seen := s.(runs := s.runs[e := Seen(r, false)]);
    Claims(seen, e, r);
    assert seen.runs[e := Holding(r, s.clock)] == s.runs[e := Holding(r, s.clock)];
  }

  /** The provider has accepted the delivery's message, and delivery and contact row say so. */
  ghost predicate IsSent(s: Sys, e: RunId, r: RecipientId, at: int) {
    && Known(s.db, r) && s.db.deliveries[r].state.Sent? && s.db.deliveries[r].sentAt == Some(at)
    && ContactAt(s.db, KeyOf(s.db, r)).lastContactedAt == Some(at) && ContactAt(s.db, KeyOf(s.db, r)).lastDelivery == Some(r)
    && e in s.requests && s.requests[e] == Request(r, at, Some(at))
  }

  function Sending(e: RunId, r: RecipientId): seq<Step> {
    [Job(Begin(e, r)), Job(Claim(e))] + [Job(Issue(e))] + [Job(Accept(e))] + [Job(See(e, Accepted))] + [Job(End(e))]
  }

  lemma SendingRuns(s: Sys, e: RunId, r: RecipientId)
    ensures Run(s, Sending(e, r)) ==
      Apply(Apply(Apply(Apply(Run(s, [Job(Begin(e, r)), Job(Claim(e))]), Job(Issue(e))), Job(Accept(e))), Job(See(e, Accepted))), Job(End(e)))
  {
    var steps := [Job(Begin(e, r)), Job(Claim(e))];
    RunOn(s, steps, Job(Issue(e)));
    RunOn(s, steps + [Job(Issue(e))], Job(Accept(e)));
    RunOn(s, steps + [Job(Issue(e))] + [Job(Accept(e))], Job(See(e, Accepted)));
    RunOn(s, steps + [Job(Issue(e))] + [Job(Accept(e))] + [Job(See(e, Accepted))], Job(End(e)));
  }

  lemma AnsweredIsSent(s: Sys, e: RunId, r: RecipientId)
    requires Known(s.db, r) && e in s.runs && s.runs[e] == Answered(r, s.clock, Accepted)
    requires e in s.requests && s.requests[e] == Request(r, s.clock, Some(s.clock))
    ensures IsSent(Apply(s, Job(End(e))), e, r, s.clock)
  {
    Ends(s, e, r);
    SentIsRecorded(s.db, r, s.clock);
  }

  /** A message that may go out does when nothing goes wrong, and is written down. */
  lemma MessageGoesOut(s: Sys, e: RunId, r: RecipientId)
    requires Known(s.db, r) && MayBeClaimed(s.db, r, s.clock) && Fresh(s, e)
    ensures IsSent(Run(s, Sending(e, r)), e, r, s.clock)
  {
    WaitingIsTakenUp(s, e, r);
    QuietClaim(s.db, r, s.clock);
    var held := Run(s, [Job(Begin(e, r)), Job(Claim(e))]);
    SendingRuns(s, e, r);
    Sends(held, e, r, s.clock);
    AnsweredIsSent(Apply(Apply(Apply(held, Job(Issue(e))), Job(Accept(e))), Job(See(e, Accepted))), e, r);
  }

  lemma {:induction false} RunOn(s: Sys, steps: seq<Step>, step: Step)
    ensures Run(s, steps + [step]) == Apply(Run(s, steps), step)
    decreases |steps|
  {
    if steps == [] {
      assert [] + [step] == [step];
      RunOne(s, step);
    } else {
      assert (steps + [step])[0] == steps[0] && (steps + [step])[1..] == steps[1..] + [step];
      RunOn(Apply(s, steps[0]), steps[1..], step);
    }
  }

  /** A reconciliation of an unknown delivery ends it: as sent on a match, as unresolved without one. */
  lemma DoubtIsSettled(s: Sys, e: RunId, r: RecipientId, matched: bool)
    requires Known(s.db, r) && s.db.deliveries[r].state.DeliveryUnknown? && Fresh(s, e)
    ensures Run(s, [Job(BeginReconcile(e, r, matched)), Job(End(e))]).db
            == if matched then MarkSent(s.db, r, s.clock) else MarkUnresolved(s.db, r)
  {
    RunTwo(s, Job(BeginReconcile(e, r, matched)), Job(End(e)));
    var begun := s.(runs := s.runs[e := Reconciling(r, matched)]);
    assert Apply(s, Job(BeginReconcile(e, r, matched))) == begun;
    Ends(begun, e, r);
  }

  /** How each definite refusal is written down: tried again, over for good, or a creator who cannot be messaged. */
  lemma RefusalIsSettled(s: Sys, e: RunId, r: RecipientId, at: int, how: Refusal)
    requires Known(s.db, r) && e in s.runs && s.runs[e] == Answered(r, at, Refused(how))
    ensures Apply(s, Job(End(e))).db ==
              match how
              case RetryLater => MakeRetryable(s.db, r)
              case GiveUp => MarkTerminalFailure(s.db, r)
              case CreatorRestricted => MarkRestricted(s.db, r)
  {
    Ends(s, e, r);
  }

  /** An imported message counts, and widens what the row shows of first and last contact; nothing else changes. */
  lemma ImportWrites(db: Db, k: ContactKey, at: int)
    ensures var (had, next) := (ContactAt(db, k), Import(db, k, at));
            && next == db.(contacts := db.contacts[k := had.(firstContactedAt := ContactAt(next, k).firstContactedAt,
                                                             lastContactedAt := ContactAt(next, k).lastContactedAt, contactCount := had.contactCount + 1)])
            && ContactAt(next, k).firstContactedAt.Some? && ContactAt(next, k).firstContactedAt.value <= at
            && ContactAt(next, k).lastContactedAt.Some? && at <= ContactAt(next, k).lastContactedAt.value
            && (had.firstContactedAt.Some? ==> ContactAt(next, k).firstContactedAt.value <= had.firstContactedAt.value)
            && (had.lastContactedAt.Some? ==> had.lastContactedAt.value <= ContactAt(next, k).lastContactedAt.value)
  {
  }

  /** A rebuild writes what it found, keeps do-not-contact, and marks the creator exactly while something is unknown. */
  lemma RebuildWrites(db: Db, k: ContactKey, b: Rebuilt)
    requires ValidDb(db)
    ensures var (had, has) := (ContactAt(db, k), ContactAt(Rebuild(db, k, b), k));
            && has.firstContactedAt == b.first && has.lastContactedAt == b.last && has.contactCount == b.count
            && has.doNotContact == had.doNotContact && (has.unresolvedDelivery <==> b.unknownFact || AnUnknown(db, k))
            && (NamesSent(db, k, b.latest) ==> has.lastDelivery == b.latest && has.lastCampaign == Some(b.latest.value.campaign))
            && (!NamesSent(db, k, b.latest) ==> has.lastDelivery == had.lastDelivery && has.lastCampaign == had.lastCampaign)
  {
  }
}
