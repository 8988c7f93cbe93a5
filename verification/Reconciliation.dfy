/** The match of an unknown delivery against the messages of its conversation. */
module Reconciliation {
  import opened Options

  type MessageId = nat
  type Hash = nat

  datatype Message = Message(id: MessageId, conversation: nat, outbound: bool, hash: Hash, at: int)
  datatype Query = Query(conversation: nat, hash: Hash, dispatchedAt: int, linked: set<MessageId>)
  datatype Verdict = Matched(id: MessageId) | NoMatch | Several

  const BEFORE_MS: int := 30_000
  const AFTER_MS: int := 2 * 60 * 60 * 1000

  predicate Fits(q: Query, m: Message) {
    && m.conversation == q.conversation && m.outbound && m.hash == q.hash
    && q.dispatchedAt - BEFORE_MS <= m.at <= q.dispatchedAt + AFTER_MS && m.id !in q.linked
  }

  /**
   * Our own message, with the text we sent, in the conversation we sent it to, from half a minute before the dispatch to
   * two hours after it, and not the message of another delivery.
   */
  predicate IsOurs(q: Query, m: Message) {
    && m.outbound && m.hash == q.hash && m.conversation == q.conversation && m.id !in q.linked
    && -30_000 <= m.at - q.dispatchedAt && m.at - q.dispatchedAt <= 7_200_000
  }

  lemma FitsExactly(q: Query, m: Message)
    ensures Fits(q, m) <==> IsOurs(q, m)
  {
  }

  /** A delivery counts as sent only if exactly one message fits; none or several leave it unresolved. */
  method Reconcile(q: Query, messages: seq<Message>) returns (verdict: Verdict)
    ensures verdict.NoMatch? <==> forall i | 0 <= i < |messages| :: !Fits(q, messages[i])
    ensures verdict.Matched? <==> exists i :: 0 <= i < |messages| && Fits(q, messages[i])
                                              && forall j | 0 <= j < |messages| && Fits(q, messages[j]) :: j == i
    ensures verdict.Matched? ==> forall i | 0 <= i < |messages| && Fits(q, messages[i]) :: verdict.id == messages[i].id
    ensures verdict.Matched? ==> exists i :: 0 <= i < |messages| && messages[i].id == verdict.id && IsOurs(q, messages[i])
    ensures verdict.NoMatch? <==> forall i | 0 <= i < |messages| :: !IsOurs(q, messages[i])
  {
    forall i | 0 <= i < |messages| ensures Fits(q, messages[i]) <==> IsOurs(q, messages[i]) {
      FitsExactly(q, messages[i]);
    }
    verdict := NoMatch;
    ghost var first := 0;
    for n := 0 to |messages|
      invariant verdict.NoMatch? ==> forall i | 0 <= i < n :: !Fits(q, messages[i])
      invariant !verdict.NoMatch? ==> 0 <= first < n && Fits(q, messages[first])
      invariant verdict.Matched? ==> verdict.id == messages[first].id && forall i | 0 <= i < n && Fits(q, messages[i]) :: i == first
      invariant verdict.Several? ==> exists i :: 0 <= i < n && i != first && Fits(q, messages[i])
    {
      if Fits(q, messages[n]) {
        if verdict.NoMatch? {
          verdict := Matched(messages[n].id);
          first := n;
        } else {
          verdict := Several;
        }
      }
    }
  }
}
