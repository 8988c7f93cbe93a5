/**
 * Token rotation by compare-and-set: any number of refreshers, markers of expired
 * leases and reauthorizations on one connection row.
 */
module TokenRefresh {
  import opened Options

  type RefresherId = nat
  type TokenPair = nat

  datatype RefreshState = Idle | InProgress | Failed | OutcomeUncertain
  datatype Lease = Lease(id: RefresherId, expiresAt: int)

  datatype Row = Row(version: nat, state: RefreshState, lease: Option<Lease>, tokens: Option<TokenPair>, refreshExpiresAt: int)

  const LEASE_MS: int := 120_000

  // ----------------------------------------------------- compare-and-set writes

  predicate HoldsLease(row: Row, lease: Option<RefresherId>, version: nat) {
    && row.state.InProgress? && row.version == version
    && (if row.lease.None? then lease.None? else lease == Some(row.lease.value.id))
  }

  /** The claim refuses only a refresh in progress. */
  function Claim(row: Row, id: RefresherId, version: nat, now: int): Row {
    if row.state.InProgress? || row.version != version then row
    else row.(state := InProgress, lease := Some(Lease(id, now + LEASE_MS)))
  }

  function Persist(row: Row, id: RefresherId, version: nat, renewed: TokenPair, expiresAt: int): Row {
    if !HoldsLease(row, Some(id), version) then row
    else Row(version + 1, Idle, None, Some(renewed), expiresAt)
  }

  function MarkUncertain(row: Row, lease: Option<RefresherId>, version: nat): Row {
    if !HoldsLease(row, lease, version) then row
    else row.(state := OutcomeUncertain, lease := None, tokens := None)
  }

  function MarkFailed(row: Row, id: RefresherId, version: nat): Row {
    if !HoldsLease(row, Some(id), version) then row else row.(state := Failed, lease := None)
  }

  /** A refresh that cannot start compares everything it read. */
  function FailToStart(row: Row, read: Row): Row {
    if row.version != read.version || row.state != read.state || row.tokens != read.tokens then row
    else row.(state := Failed)
  }

  function Reauthorize(row: Row, renewed: TokenPair, expiresAt: int): Row {
    Row(row.version + 1, Idle, None, Some(renewed), expiresAt)
  }

  // --------------------------------------------------------------- refreshers

  datatype Outcome = Rotated(tokens: TokenPair, expiresAt: int) | Ambiguous | Refused

  datatype Refresher =
    | Starting(read: Row)
    | Marking(read: Row)
    | Stopping(read: Row)
    | Asking(version: nat)
    | Answered(version: nat, outcome: Outcome)
    | Unpersisted(version: nat)

  /** `generations` remembers the token pair of every version; the row's is the last. */
  datatype Sys = Sys(row: Row, refreshers: map<RefresherId, Refresher>, nextId: RefresherId, generations: seq<TokenPair>)

  datatype Step =
    | Begin(automatic: bool, now: int)
    | TryClaim(id: RefresherId, now: int)
    | Answer(id: RefresherId, outcome: Outcome)
    | Settle(id: RefresherId)
    | PersistFails(id: RefresherId)
    | Crash(id: RefresherId)
    | Reauthorization(tokens: TokenPair, expiresAt: int)

  function With(s: Sys, e: RefresherId, r: Refresher): Sys {
    s.(refreshers := s.refreshers[e := r])
  }

  function Gone(s: Sys, e: RefresherId, row: Row): Sys {
    s.(refreshers := s.refreshers - {e}, row := row)
  }

  function BeginStep(s: Sys, automatic: bool, now: int): Sys {
    var row := s.row;
    var next := s.(nextId := s.nextId + 1);
    match row.state
    case OutcomeUncertain => s
    case InProgress =>
      if row.lease.Some? && row.lease.value.expiresAt <= now then With(next, s.nextId, Marking(row)) else s
    case _ =>
      if automatic && row.state.Failed? then s
      else if row.tokens.None? || row.refreshExpiresAt <= now then With(next, s.nextId, Stopping(row))
      else With(next, s.nextId, Starting(row))
  }

  function ClaimStep(s: Sys, e: RefresherId, now: int): Sys {
    if e in s.refreshers && s.refreshers[e].Starting? then
      var version := s.refreshers[e].read.version;
      var row := Claim(s.row, e, version, now);
      if row == s.row then Gone(s, e, s.row) else With(s, e, Asking(version)).(row := row)
    else s
  }

  function AnswerStep(s: Sys, e: RefresherId, outcome: Outcome): Sys {
    if e in s.refreshers && s.refreshers[e].Asking? then With(s, e, Answered(s.refreshers[e].version, outcome)) else s
  }

  /** The last write of a refresher; a rotation that cannot be persisted is first tried again as uncertain. */
  function SettleStep(s: Sys, e: RefresherId): Sys {
    if e !in s.refreshers then s
    else match s.refreshers[e]
      case Marking(read) => Gone(s, e, MarkUncertain(s.row, if read.lease.Some? then Some(read.lease.value.id) else None, read.version))
      case Stopping(read) => Gone(s, e, FailToStart(s.row, read))
      case Answered(v, Rotated(t, at)) =>
        if HoldsLease(s.row, Some(e), v) then Gone(s, e, Persist(s.row, e, v, t, at)).(generations := s.generations + [t])
        else With(s, e, Unpersisted(v))
      case Answered(v, Ambiguous) => Gone(s, e, MarkUncertain(s.row, Some(e), v))
      case Answered(v, Refused) => Gone(s, e, MarkFailed(s.row, e, v))
      case Unpersisted(v) => Gone(s, e, MarkUncertain(s.row, Some(e), v))
      case _ => s
  }

  /** The database does not confirm the rotation, whoever holds the lease. */
  function PersistFailsStep(s: Sys, e: RefresherId): Sys {
    if e in s.refreshers && s.refreshers[e].Answered? && s.refreshers[e].outcome.Rotated?
    then With(s, e, Unpersisted(s.refreshers[e].version)) else s
  }

  function Apply(s: Sys, step: Step): Sys {
    match step
    case Begin(automatic, now) => BeginStep(s, automatic, now)
    case TryClaim(e, now) => ClaimStep(s, e, now)
    case Answer(e, outcome) => AnswerStep(s, e, outcome)
    case Settle(e) => SettleStep(s, e)
    case PersistFails(e) => PersistFailsStep(s, e)
    case Crash(e) => Gone(s, e, s.row)
    case Reauthorization(t, at) => s.(row := Reauthorize(s.row, t, at), generations := s.generations + [t])
  }

  function Run(s: Sys, steps: seq<Step>): Sys
    decreases |steps|
  {
    if steps == [] then s else Run(Apply(s, steps[0]), steps[1..])
  }

  predicate Initial(s: Sys) {
    && s.refreshers == map[] && s.row.version == 0 && s.row.state.Idle? && s.row.lease.None?
    && s.row.tokens.Some? && s.generations == [s.row.tokens.value]
  }

  // ------------------------------------------------------------- invariant

  function VersionOf(r: Refresher): nat {
    match r
    case Starting(read) => read.version
    case Marking(read) => read.version
    case Stopping(read) => read.version
    case Asking(v) => v
    case Answered(v, _) => v
    case Unpersisted(v) => v
  }

  ghost predicate RefresherOk(s: Sys, e: RefresherId) {
    e in s.refreshers ==>
      var r := s.refreshers[e];
      && e < s.nextId && VersionOf(r) <= s.row.version
      && (r.Starting? || r.Stopping? ==> r.read.state.Idle? || r.read.state.Failed?)
  }

  ghost predicate Inv(s: Sys) {
    && |s.generations| == s.row.version + 1
    && (s.row.tokens.Some? ==> s.row.tokens.value == s.generations[s.row.version])
    && (s.row.state.OutcomeUncertain? ==> s.row.tokens.None?)
    && (s.row.state.InProgress? <==> s.row.lease.Some?)
    && (s.row.lease.Some? ==> s.row.lease.value.id < s.nextId)
    && forall e {:trigger RefresherOk(s, e)} :: RefresherOk(s, e)
  }

  /** One step: versions count new pairs one by one, and nothing else brings tokens back. */
  ghost predicate Rotates(s: Sys, next: Sys) {
    || (next.row.version == s.row.version && next.generations == s.generations
        && (next.row.tokens == s.row.tokens || next.row.tokens.None?))
    || (next.row.version == s.row.version + 1 && next.row.tokens.Some? && next.generations == s.generations + [next.row.tokens.value])
  }

  lemma StepRotates(s: Sys, step: Step)
    requires Inv(s)
    ensures Rotates(s, Apply(s, step))
  {
    match step
    case Settle(e) => if e in s.refreshers { assert RefresherOk(s, e); }
    case _ =>
  }

  lemma StepKeepsInv(s: Sys, step: Step)
    requires Inv(s)
    ensures Inv(Apply(s, step))
  {
    StepRotates(s, step);
    var next := Apply(s, step);
    forall e ensures RefresherOk(next, e) {
      assert RefresherOk(s, e);
    }
    match step
    case TryClaim(e, _) => assert RefresherOk(s, e);
    case Settle(e) => assert RefresherOk(s, e);
    case PersistFails(e) => assert RefresherOk(s, e);
    case _ =>
  }

  lemma {:induction false} RunKeepsInv(s: Sys, steps: seq<Step>)
    requires Inv(s)
    ensures var t := Run(s, steps);
            Inv(t) && s.row.version <= t.row.version && s.generations <= t.generations
    decreases |steps|
  {
    if steps != [] {
      StepKeepsInv(s, steps[0]);
      StepRotates(s, steps[0]);
      RunKeepsInv(Apply(s, steps[0]), steps[1..]);
    }
  }

  // --------------------------------------------------------------- results

  /**
   * Over any run the version never falls and every version has one token pair: whenever
   * two states of a run with the same version both have tokens, they have the same.
   */
  lemma VersionMeansTokens(s: Sys, first: seq<Step>, then_: seq<Step>)
    requires Initial(s)
    ensures var t := Run(s, first);
            var u := Run(t, then_);
            && t.row.version <= u.row.version
            && (t.row.version == u.row.version && t.row.tokens.Some? && u.row.tokens.Some? ==> t.row.tokens == u.row.tokens)
            && t.generations <= u.generations
  {
    assert forall e :: RefresherOk(s, e);
    RunKeepsInv(s, first);
    RunKeepsInv(Run(s, first), then_);
  }

  /** A refresher or marker that read an older version changes nothing any more. */
  lemma OldVersionIsPowerless(s: Sys, step: Step)
    requires Inv(s) && (step.TryClaim? || step.Settle?) && step.id in s.refreshers
    requires VersionOf(s.refreshers[step.id]) < s.row.version
    ensures Apply(s, step).row == s.row
  {
  }

  /** The lease admits one writer: whoever persists or gives up holds it at the row's own version. */
  lemma OnlyTheHolderSettles(s: Sys, e: RefresherId)
    requires Inv(s) && e in s.refreshers && SettleStep(s, e).row != s.row
    ensures match s.refreshers[e]
            case Stopping(read) => s.row.version == read.version && s.row.tokens == read.tokens
            case Marking(read) => s.row.version == read.version && s.row.lease.Some? && read.lease.Some?
                                  && s.row.lease.value.id == read.lease.value.id
            case r => s.row.state.InProgress? && s.row.version == VersionOf(r) && s.row.lease.Some? && s.row.lease.value.id == e
  {
    assert RefresherOk(s, e);
  }

  /** At most one of the refreshers that claimed at a version persists: afterwards the others' writes do nothing. */
  lemma OnePersistPerVersion(s: Sys, e: RefresherId, steps: seq<Step>, f: RefresherId)
    requires Inv(s) && e in s.refreshers && SettleStep(s, e).row.version == s.row.version + 1
    requires var t := Run(SettleStep(s, e), steps); f in t.refreshers && VersionOf(t.refreshers[f]) == s.row.version
    ensures var t := Run(SettleStep(s, e), steps);
            SettleStep(t, f).row == t.row && ClaimStep(t, f, 0).row == t.row
  {
    StepKeepsInv(s, Settle(e));
    RunKeepsInv(SettleStep(s, e), steps);
    var t := Run(SettleStep(s, e), steps);
    OldVersionIsPowerless(t, Settle(f));
    OldVersionIsPowerless(t, TryClaim(f, 0));
  }

  /**
   * An uncertain outcome is left exactly by a reauthorization, or by the claim of a
   * refresher that read the row before the outcome became uncertain.
   */
  lemma UncertainIsLeftExactly(s: Sys, step: Step)
    requires Inv(s) && s.row.state.OutcomeUncertain?
    ensures !Apply(s, step).row.state.OutcomeUncertain? <==>
              || step.Reauthorization?
              || (step.TryClaim? && step.id in s.refreshers && s.refreshers[step.id].Starting?
                  && s.refreshers[step.id].read.version == s.row.version)
  {
    match step
    case Settle(e) => if e in s.refreshers { assert RefresherOk(s, e); }
    case _ =>
  }

  lemma RunFrom(s: Sys, steps: seq<Step>, i: nat)
    requires i < |steps|
    ensures Run(s, steps[i..]) == Run(Apply(s, steps[i]), steps[i + 1..])
  {
    assert steps[i..][1..] == steps[i + 1..];
  }

  /** Two refreshers read the row; the first one's answer is ambiguous and its tokens are erased. */
  function FirstIsUncertain(n: RefresherId): seq<Step> {
    [Begin(true, 0), Begin(true, 0), TryClaim(n, 0), Answer(n, Ambiguous), Settle(n)]
  }

  /** A run from the start: the second refresher's claim then takes the connection out of OUTCOME_UNCERTAIN. */
  lemma StaleClaimLeavesUncertain(s: Sys)
    requires Initial(s) && s.row.refreshExpiresAt > 0
    ensures var t := Run(s, FirstIsUncertain(s.nextId));
            && t.row.state.OutcomeUncertain? && t.row.tokens.None?
            && Apply(t, TryClaim(s.nextId + 1, 0)).row.state.InProgress?
            && Apply(t, TryClaim(s.nextId + 1, 0)).row.tokens.None?
  {
    var (n, steps) := (s.nextId, FirstIsUncertain(s.nextId));
    var a := Apply(s, steps[0]);
    var b := Apply(a, steps[1]);
    var c := Apply(b, steps[2]);
    var d := Apply(c, steps[3]);
    var e := Apply(d, steps[4]);
    assert steps[0..] == steps && steps[5..] == [];
    RunFrom(s, steps, 0);
    RunFrom(a, steps, 1);
    RunFrom(b, steps, 2);
    RunFrom(c, steps, 3);
    RunFrom(d, steps, 4);
    assert b.refreshers == map[n := Starting(s.row), n + 1 := Starting(s.row)] && b.row == s.row;
    assert c.row.state.InProgress? && c.refreshers[n] == Asking(0) && c.refreshers[n + 1] == Starting(s.row);
  }

  /** The connection row and its compare-and-set updates; each reports whether it took effect. */
  class Connection {
    var version: nat
    var state: RefreshState
    var lease: Option<Lease>
    var tokens: Option<TokenPair>
    var refreshExpiresAt: int

    ghost function View(): Row
      reads this
    {
      Row(version, state, lease, tokens, refreshExpiresAt)
    }

    predicate Matches(id: RefresherId, v: nat)
      reads this
    {
      lease.Some? && lease.value.id == id && state.InProgress? && version == v
    }

    method ClaimRefresh(id: RefresherId, v: nat, now: int) returns (claimed: bool)
      modifies this
      ensures claimed == (!old(state).InProgress? && old(version) == v)
      ensures View() == Claim(old(View()), id, v, now)
    {
      claimed := !state.InProgress? && version == v;
      if claimed { state, lease := InProgress, Some(Lease(id, now + LEASE_MS)); }
    }

    method PersistTokens(id: RefresherId, v: nat, refreshed: TokenPair, expiresAt: int) returns (persisted: bool)
      modifies this
      ensures persisted == HoldsLease(old(View()), Some(id), v)
      ensures View() == Persist(old(View()), id, v, refreshed, expiresAt)
    {
      persisted := Matches(id, v);
      if persisted {
        tokens, refreshExpiresAt := Some(refreshed), expiresAt;
        state, lease, version := Idle, None, version + 1;
      }
    }

    method MarkRefreshUncertain(id: Option<RefresherId>, v: nat) returns (marked: bool)
      modifies this
      ensures marked == HoldsLease(old(View()), id, v)
      ensures View() == MarkUncertain(old(View()), id, v)
    {
      var same := if lease.None? then id.None? else id == Some(lease.value.id);
      marked := state.InProgress? && same && version == v;
      if marked { state, lease, tokens := OutcomeUncertain, None, None; }
    }

    method MarkRefreshFailed(id: RefresherId, v: nat) returns (failed: bool)
      modifies this
      ensures failed == HoldsLease(old(View()), Some(id), v)
      ensures View() == MarkFailed(old(View()), id, v)
    {
      failed := Matches(id, v);
      if failed { state, lease := Failed, None; }
    }
  }
}
