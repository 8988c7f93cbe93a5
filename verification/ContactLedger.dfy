/**
 * The contact row of one creator, kept up message by message during an import
 * and rebuilt from the stored messages afterwards.
 *
 * Times are milliseconds; a creator known only from provider messages has no
 * deliveries and no imported facts.
 */
module ContactLedger {
  import opened Options

  type MessageId = nat
  datatype Message = Message(id: MessageId, outbound: bool, at: int)
  datatype Row = Row(first: Option<int>, last: Option<int>, count: nat, coverageStart: Option<int>, replied: bool)

  const NoRow := Row(None, None, 0, None, false)

  // --------------------------------------------------------------- the import

  function Earlier(had: Option<int>, at: int): Option<int> {
    if had.Some? && had.value < at then had else Some(at)
  }

  function Later(had: Option<int>, at: int): Option<int> {
    if had.Some? && had.value > at then had else Some(at)
  }

  function Import(row: Row, stored: map<MessageId, Message>, m: Message): (Row, map<MessageId, Message>) {
    var known := m.id in stored;
    (if m.outbound
     then Row(Earlier(row.first, m.at), Later(row.last, m.at), if known then row.count else row.count + 1,
              Earlier(row.coverageStart, m.at), row.replied)
     else row.(replied := true),
     if known then stored else stored[m.id := m])
  }

  function ImportAll(ms: seq<Message>): (Row, map<MessageId, Message>) {
    if ms == [] then (NoRow, map[])
    else
      var (row, stored) := ImportAll(ms[..|ms| - 1]);
      Import(row, stored, ms[|ms| - 1])
  }

  /** The import loop: one message at a time against the stored row. */
  method ImportMessages(ms: seq<Message>) returns (row: Row, stored: map<MessageId, Message>)
    ensures (row, stored) == ImportAll(ms)
  {
    row, stored := NoRow, map[];
    for i := 0 to |ms|
      invariant (row, stored) == ImportAll(ms[..i])
    {
      var m := ms[i];
      assert ms[..i + 1][..i] == ms[..i];
      var wasImported := m.id !in stored;
      if m.outbound {
        row := row.(first := if row.first.Some? && row.first.value < m.at then row.first else Some(m.at),
                    last := if row.last.Some? && row.last.value > m.at then row.last else Some(m.at),
                    coverageStart := if row.coverageStart.Some? && row.coverageStart.value < m.at then row.coverageStart else Some(m.at));
        if wasImported { row := row.(count := row.count + 1); }
      } else {
        row := row.(replied := true);
      }
      if wasImported { stored := stored[m.id := m]; }
    }
    assert ms[..|ms|] == ms;
  }

  // -------------------------------------------------------------- the rebuild

  function Times(stored: map<MessageId, Message>): set<int> {
    set id | id in stored && stored[id].outbound :: stored[id].at
  }

  function Positive(times: set<int>): set<int> {
    set t | t in times && t > 0
  }

  ghost predicate Least(x: Option<int>, times: set<int>) {
    if x.None? then times == {} else x.value in times && forall t | t in times :: x.value <= t
  }

  ghost predicate Greatest(x: Option<int>, times: set<int>) {
    if x.None? then times == {} else x.value in times && forall t | t in times :: t <= x.value
  }

  lemma LeastOfMore(x: Option<int>, times: set<int>, at: int)
    requires Least(x, times)
    ensures Least(Earlier(x, at), times + {at})
  {
  }

  lemma GreatestOfMore(x: Option<int>, times: set<int>, at: int)
    requires Greatest(x, times)
    ensures Greatest(Later(x, at), times + {at})
  {
  }

  function OutboundIds(stored: map<MessageId, Message>): set<MessageId> {
    set id | id in stored && stored[id].outbound
  }

  predicate HasInbound(stored: map<MessageId, Message>) {
    exists id :: id in stored && !stored[id].outbound
  }

  /** Dates at or before the epoch do not count as dates, but their messages count. */
  ghost predicate RebuiltFrom(had: Row, stored: map<MessageId, Message>, row: Row) {
    && Least(row.first, Positive(Times(stored))) && Greatest(row.last, Positive(Times(stored)))
    && row.count == |OutboundIds(stored)|
    && (if Times(stored) == {} then row.coverageStart == had.coverageStart else Least(row.coverageStart, Times(stored)))
    && row.replied == (had.replied || HasInbound(stored))
  }

  datatype Scan = Scan(first: Option<int>, last: Option<int>, coverage: Option<int>, contacts: set<MessageId>, inbound: bool)

  function ScanOne(scan: Scan, m: Message): Scan {
    if !m.outbound then scan.(inbound := true)
    else
      var counted := scan.(contacts := scan.contacts + {m.id}, coverage := Earlier(scan.coverage, m.at));
      if m.at > 0 then counted.(first := Earlier(scan.first, m.at), last := Later(scan.last, m.at)) else counted
  }

  ghost predicate Scanned(scan: Scan, seen: map<MessageId, Message>) {
    && Least(scan.first, Positive(Times(seen))) && Greatest(scan.last, Positive(Times(seen)))
    && Least(scan.coverage, Times(seen)) && scan.contacts == OutboundIds(seen) && scan.inbound == HasInbound(seen)
  }

  lemma ScansOne(scan: Scan, seen: map<MessageId, Message>, m: Message)
    requires Scanned(scan, seen) && m.id !in seen
    ensures Scanned(ScanOne(scan, m), seen[m.id := m])
  {
    SeesOne(seen, m.id, m);
    LeastOfMore(scan.coverage, Times(seen), m.at);
    LeastOfMore(scan.first, Positive(Times(seen)), m.at);
    GreatestOfMore(scan.last, Positive(Times(seen)), m.at);
  }

  /** Collects the contacts by message, then takes the ends of the positive dates. */
  method Rebuild(had: Row, stored: map<MessageId, Message>) returns (row: Row)
    requires forall id | id in stored :: stored[id].id == id
    ensures RebuiltFrom(had, stored, row)
  {
    var scan, rest := Scan(None, None, None, {}, false), stored.Keys;
    ghost var seen: map<MessageId, Message> := map[];
    while rest != {}
      invariant rest <= stored.Keys && seen == (map id | id in stored && id !in rest :: stored[id]) && Scanned(scan, seen)
    {
      var id :| id in rest;
      ScansOne(scan, seen, stored[id]);
      scan := ScanOne(scan, stored[id]);
      rest, seen := rest - {id}, seen[id := stored[id]];
    }
    assert seen == stored;
    row := Row(scan.first, scan.last, |scan.contacts|, if scan.coverage.Some? then scan.coverage else had.coverageStart,
               scan.inbound || had.replied);
  }

  lemma SeesOne(stored: map<MessageId, Message>, id: MessageId, m: Message)
    requires id !in stored
    ensures var more := stored[id := m];
            && Times(more) == (if m.outbound then Times(stored) + {m.at} else Times(stored))
            && Positive(Times(more)) == (if m.outbound && m.at > 0 then Positive(Times(stored)) + {m.at} else Positive(Times(stored)))
            && OutboundIds(more) == (if m.outbound then OutboundIds(stored) + {id} else OutboundIds(stored))
            && (HasInbound(more) <==> !m.outbound || HasInbound(stored))
  {
    var more := stored[id := m];
    forall t | t in Times(stored) ensures t in Times(more) {
      var i :| i in stored && stored[i].outbound && stored[i].at == t;
      assert more[i] == stored[i];
    }
    if m.outbound { assert more[id].at in Times(more); }
    if HasInbound(stored) {
      var i :| i in stored && !stored[i].outbound;
      assert i in more && !more[i].outbound;
    }
    if !m.outbound { assert id in more && !more[id].outbound; }
  }

  // ------------------------------------------------------------- they agree

  /** One provider message always reads the same. */
  ghost predicate Consistent(ms: seq<Message>) {
    forall m, n | m in ms && n in ms && m.id == n.id :: m == n
  }

  ghost predicate Exactly(ms: seq<Message>, stored: map<MessageId, Message>) {
    && (forall m | m in ms :: m.id in stored && stored[m.id] == m)
    && (forall id | id in stored :: stored[id] in ms && stored[id].id == id)
  }

  ghost predicate IsLedger(row: Row, stored: map<MessageId, Message>) {
    && Least(row.first, Times(stored)) && Greatest(row.last, Times(stored)) && Least(row.coverageStart, Times(stored))
    && row.count == |OutboundIds(stored)| && row.replied == HasInbound(stored)
  }

  lemma {:induction false} ImportStores(ms: seq<Message>)
    requires Consistent(ms)
    ensures Exactly(ms, ImportAll(ms).1)
  {
    if ms != [] {
      var front, m := ms[..|ms| - 1], ms[|ms| - 1];
      assert ms == front + [m];
      ImportStores(front);
      if m.id in ImportAll(front).1 {
        assert ImportAll(front).1[m.id] == m;
      }
    }
  }

  lemma ImportStep(row: Row, stored: map<MessageId, Message>, m: Message)
    requires IsLedger(row, stored) && (m.id in stored ==> stored[m.id] == m)
    ensures IsLedger(Import(row, stored, m).0, Import(row, stored, m).1)
  {
    LeastOfMore(row.first, Times(stored), m.at);
    LeastOfMore(row.coverageStart, Times(stored), m.at);
    GreatestOfMore(row.last, Times(stored), m.at);
    if m.id in stored {
      if m.outbound {
        assert stored[m.id].at in Times(stored);
        assert Times(stored) + {m.at} == Times(stored);
      }
    } else {
      SeesOne(stored, m.id, m);
    }
  }

  /** What the import keeps up is the least, the greatest and the number of the distinct messages. */
  lemma {:induction false} ImportIsLedger(ms: seq<Message>)
    requires Consistent(ms)
    ensures IsLedger(ImportAll(ms).0, ImportAll(ms).1)
  {
    if ms != [] {
      var front, m := ms[..|ms| - 1], ms[|ms| - 1];
      assert forall x | x in front :: x in ms;
      ImportIsLedger(front);
      ImportStores(front);
      var stored := ImportAll(front).1;
      if m.id in stored { assert stored[m.id] in ms; }
      ImportStep(ImportAll(front).0, stored, m);
    }
  }

  lemma LeastIsUnique(x: Option<int>, y: Option<int>, times: set<int>)
    requires Least(x, times) && Least(y, times)
    ensures x == y
  {
    if x.Some? && y.Some? { assert x.value == y.value; }
  }

  lemma GreatestIsUnique(x: Option<int>, y: Option<int>, times: set<int>)
    requires Greatest(x, times) && Greatest(y, times)
    ensures x == y
  {
    if x.Some? && y.Some? { assert x.value == y.value; }
  }

  /**
   * The import in any order and with any repetition, against a rebuild: count,
   * coverage and reply status always agree; the first contact agrees exactly when
   * no message is from the epoch or before, the last exactly when not all are.
   */
  lemma RebuildAgrees(ms: seq<Message>, row: Row)
    requires Consistent(ms) && RebuiltFrom(ImportAll(ms).0, ImportAll(ms).1, row)
    ensures var had := ImportAll(ms).0;
            && row.count == had.count && row.coverageStart == had.coverageStart && row.replied == had.replied
            && (row.first == had.first <==> forall m | m in ms && m.outbound :: m.at > 0)
            && (row.last == had.last <==> (forall m | m in ms :: !m.outbound) || exists m :: m in ms && m.outbound && m.at > 0)
  {
    var (had, stored) := ImportAll(ms);
    ImportIsLedger(ms);
    ImportStores(ms);
    if Times(stored) != {} { LeastIsUnique(row.coverageStart, had.coverageStart, Times(stored)); }
    FirstAgrees(ms, stored, row.first, had.first);
    LastAgrees(ms, stored, row.last, had.last);
  }

  lemma SameTimes(ms: seq<Message>, stored: map<MessageId, Message>)
    requires Exactly(ms, stored)
    ensures forall m | m in ms && m.outbound :: m.at in Times(stored)
    ensures forall t | t in Times(stored) :: exists m :: m in ms && m.outbound && m.at == t
  {
    forall m | m in ms && m.outbound ensures m.at in Times(stored) {
      assert stored[m.id].at in Times(stored);
    }
    forall t | t in Times(stored) ensures exists m :: m in ms && m.outbound && m.at == t {
      var id :| id in stored && stored[id].outbound && stored[id].at == t;
      assert stored[id] in ms;
    }
  }

  lemma FirstAgrees(ms: seq<Message>, stored: map<MessageId, Message>, rebuilt: Option<int>, kept: Option<int>)
    requires Exactly(ms, stored) && Least(rebuilt, Positive(Times(stored))) && Least(kept, Times(stored))
    ensures rebuilt == kept <==> forall m | m in ms && m.outbound :: m.at > 0
  {
    SameTimes(ms, stored);
    if forall m | m in ms && m.outbound :: m.at > 0 {
      assert Positive(Times(stored)) == Times(stored);
      LeastIsUnique(rebuilt, kept, Times(stored));
    } else {
      var m :| m in ms && m.outbound && m.at <= 0;
      assert m.at in Times(stored) && kept.value <= m.at;
    }
  }

  lemma LastAgrees(ms: seq<Message>, stored: map<MessageId, Message>, rebuilt: Option<int>, kept: Option<int>)
    requires Exactly(ms, stored) && Greatest(rebuilt, Positive(Times(stored))) && Greatest(kept, Times(stored))
    ensures rebuilt == kept <==> (forall m | m in ms :: !m.outbound) || exists m :: m in ms && m.outbound && m.at > 0
  {
    SameTimes(ms, stored);
    if exists m :: m in ms && m.outbound && m.at > 0 {
      var m :| m in ms && m.outbound && m.at > 0;
      assert m.at in Times(stored) && kept.value in Positive(Times(stored));
      GreatestIsUnique(rebuilt, kept, Positive(Times(stored)));
    } else {
      assert Positive(Times(stored)) == {};
      if kept.Some? { assert kept.value in Times(stored); }
      if exists m :: m in ms && m.outbound {
        var m :| m in ms && m.outbound;
        assert m.at in Times(stored);
      }
    }
  }

  /** Two imports of the same messages, whatever the order and the repetitions, leave the same row. */
  lemma OrderDoesNotMatter(ms: seq<Message>, ns: seq<Message>)
    requires Consistent(ms) && forall m :: m in ms <==> m in ns
    ensures ImportAll(ms).0 == ImportAll(ns).0
  {
    ImportIsLedger(ms);
    ImportIsLedger(ns);
    ImportStores(ms);
    ImportStores(ns);
    var (row, stored) := ImportAll(ms);
    var (other, again) := ImportAll(ns);
    assert stored == again;
    LeastIsUnique(row.first, other.first, Times(stored));
    GreatestIsUnique(row.last, other.last, Times(stored));
    LeastIsUnique(row.coverageStart, other.coverageStart, Times(stored));
  }
}
