/**
 * The provider governor of one limiter: permits with a lease, additive increase and
 * multiplicative decrease of concurrency, cooldowns and the spacing of sends.
 */
module Governor {
  import opened Options
  import opened FiniteSets

  type PermitId = nat

  datatype State = Healthy | Throttled | Transient | Recovering | QuotaBlocked

  datatype Config = Config(send: bool, initialConcurrency: nat, maxConcurrency: nat, permitLeaseMs: int, sendIntervalMs: int)

  datatype Limiter = Limiter(
    state: State, effective: int, healthyCount: nat, throttles: nat, failures: nat,
    nextPermittedAt: Option<int>, lastRequestAt: Option<int>)

  /** `grants` remembers when permits were granted. */
  datatype Gov = Gov(limiter: Limiter, permits: map<PermitId, int>, nextPermit: PermitId, grants: seq<int>)

  predicate ValidConfig(cfg: Config) {
    1 <= cfg.initialConcurrency <= cfg.maxConcurrency
  }

  function MaxOf(cfg: Config): nat {
    if cfg.send then 1 else cfg.maxConcurrency
  }

  function InitialOf(cfg: Config): nat {
    if cfg.send then 1 else cfg.initialConcurrency
  }

  function IntervalOf(cfg: Config): int {
    if cfg.sendIntervalMs > 1_000 then cfg.sendIntervalMs else 1_000
  }

  function Start(cfg: Config): Gov {
    Gov(Limiter(Healthy, InitialOf(cfg), 0, 0, 0, None, None), map[], 0, [])
  }

  // --------------------------------------------------------- pure arithmetic

  const RETRY_AFTER_CAP: int := 24 * 60 * 60_000
  const JITTER_MAX: int := 500

  function Power2(n: nat): nat {
    if n == 0 then 1 else 2 * Power2(n - 1)
  }

  function Min(a: int, b: int): int { if a < b then a else b }
  function Max(a: int, b: int): int { if a > b then a else b }

  /** `jitter` is what the random draw came to: 0 to 500 ms. */
  function Backoff(consecutive: nat, retryAfter: Option<int>, base: nat, cap: int, jitter: int): int {
    var exponent: nat := if consecutive == 0 then 0 else Min(20, consecutive - 1);
    var local := Min(cap, base * Power2(exponent) + jitter);
    Max(local, if retryAfter.Some? && retryAfter.value >= 0 then Min(retryAfter.value, RETRY_AFTER_CAP) else 0)
  }

  function Decreased(current: int): int {
    Max(1, Max(1, current) / 2)
  }

  function Increased(current: int, max: int, healthyCount: nat): (int, nat) {
    var safe := Max(1, Min(current, max));
    if safe < max && healthyCount + 1 >= safe then (safe + 1, 0) else (safe, healthyCount + 1)
  }

  // ------------------------------------------------------------- transactions

  function Unexpired(permits: map<PermitId, int>, now: int): map<PermitId, int> {
    map p | p in permits && permits[p] > now :: permits[p]
  }

  /** Clears a past cooldown of a limiter that was not healthy. */
  function Recovered(l: Limiter, now: int): Limiter {
    if !l.state.Healthy? && l.nextPermittedAt.Some? && l.nextPermittedAt.value <= now
    then l.(state := Recovering, nextPermittedAt := None) else l
  }

  function Clamped(l: Limiter, max: int): Limiter {
    if l.effective > max then l.(effective := max, healthyCount := 0) else l
  }

  predicate CoolingDown(l: Limiter, now: int) {
    l.nextPermittedAt.Some? && l.nextPermittedAt.value > now
  }

  predicate TooSoon(cfg: Config, l: Limiter, now: int) {
    cfg.send && l.lastRequestAt.Some? && l.lastRequestAt.value + IntervalOf(cfg) > now
  }

  function Acquire(cfg: Config, g: Gov, now: int): Gov {
    var l := Clamped(g.limiter, MaxOf(cfg));
    var swept := g.(limiter := l, permits := Unexpired(g.permits, now));
    if l.state.QuotaBlocked? || CoolingDown(l, now) then swept
    else
      var r := Recovered(l, now);
      var ready := swept.(limiter := r);
      if TooSoon(cfg, r, now) || |swept.permits| >= r.effective then ready
      else Gov(r.(lastRequestAt := Some(now)), swept.permits[g.nextPermit := now + cfg.permitLeaseMs],
               g.nextPermit + 1, g.grants + [now])
  }

  function SettleHealthy(cfg: Config, g: Gov, p: PermitId): Gov {
    var (effective, count) := Increased(g.limiter.effective, MaxOf(cfg), g.limiter.healthyCount);
    g.(permits := g.permits - {p},
       limiter := g.limiter.(
         state := if effective >= MaxOf(cfg) || g.limiter.state.Healthy? then Healthy else Recovering,
         effective := effective, healthyCount := count, throttles := 0, failures := 0, nextPermittedAt := None))
  }

  function Latest(had: Option<int>, at: int): Option<int> {
    if had.Some? && had.value > at then had else Some(at)
  }

  function SettleThrottle(g: Gov, p: PermitId, now: int, retryAfter: Option<int>, jitter: int): Gov {
    var delay := Backoff(g.limiter.throttles + 1, retryAfter, 1_000, 60_000, jitter);
    g.(permits := g.permits - {p},
       limiter := g.limiter.(
         state := Throttled, effective := Decreased(g.limiter.effective), healthyCount := 0,
         throttles := g.limiter.throttles + 1, failures := 0, nextPermittedAt := Latest(g.limiter.nextPermittedAt, now + delay)))
  }

  function SettleTransient(g: Gov, p: PermitId, now: int, jitter: int): Gov {
    var delay := Backoff(g.limiter.failures + 1, None, 1_000, 30_000, jitter);
    g.(permits := g.permits - {p},
       limiter := g.limiter.(
         state := Transient, failures := g.limiter.failures + 1, nextPermittedAt := Latest(g.limiter.nextPermittedAt, now + delay)))
  }

  function SettleQuota(g: Gov, p: PermitId): Gov {
    g.(permits := g.permits - {p}, limiter := g.limiter.(state := QuotaBlocked, healthyCount := 0, nextPermittedAt := None))
  }

  function Release(g: Gov, p: PermitId): Gov {
    g.(permits := g.permits - {p})
  }

  /** The operator's resume after a quota block. */
  function Resume(g: Gov): Gov {
    if !g.limiter.state.QuotaBlocked? then g
    else g.(limiter := g.limiter.(
      state := Recovering, effective := 1, healthyCount := 0, throttles := 0, failures := 0, nextPermittedAt := None))
  }

  datatype Step =
    | DoAcquire(now: int)
    | DoHealthy(permit: PermitId)
    | DoThrottle(permit: PermitId, now: int, retryAfter: Option<int>, jitter: int)
    | DoTransient(permit: PermitId, now: int, jitter: int)
    | DoQuota(permit: PermitId)
    | DoRelease(permit: PermitId)
    | DoResume

  function Apply(cfg: Config, g: Gov, step: Step): Gov {
    match step
    case DoAcquire(now) => Acquire(cfg, g, now)
    case DoHealthy(p) => SettleHealthy(cfg, g, p)
    case DoThrottle(p, now, retryAfter, jitter) => SettleThrottle(g, p, now, retryAfter, jitter)
    case DoTransient(p, now, jitter) => SettleTransient(g, p, now, jitter)
    case DoQuota(p) => SettleQuota(g, p)
    case DoRelease(p) => Release(g, p)
    case DoResume => Resume(g)
  }

  function Run(cfg: Config, g: Gov, steps: seq<Step>): Gov
    decreases |steps|
  {
    if steps == [] then g else Run(cfg, Apply(cfg, g, steps[0]), steps[1..])
  }

  // ------------------------------------------------------------------ spacing

  ghost predicate Spaced(cfg: Config, g: Gov) {
    && (g.limiter.lastRequestAt == if g.grants == [] then None else Some(g.grants[|g.grants| - 1]))
    && (cfg.send ==> forall i {:trigger g.grants[i]} | 0 < i < |g.grants| :: g.grants[i - 1] + IntervalOf(cfg) <= g.grants[i])
  }

  ghost predicate InBounds(cfg: Config, g: Gov) {
    && 1 <= g.limiter.effective <= MaxOf(cfg) && |g.permits| <= MaxOf(cfg)
    && forall p | p in g.permits :: p < g.nextPermit
  }

  lemma FewerKeys(all: map<PermitId, int>, some: map<PermitId, int>)
    requires some.Keys <= all.Keys
    ensures |some| <= |all|
  {
    SubsetSize(some.Keys, all.Keys);
    assert |some| == |some.Keys| && |all| == |all.Keys|;
  }

  lemma OneMoreKey(permits: map<PermitId, int>, p: PermitId, at: int)
    requires p !in permits
    ensures |permits[p := at]| == |permits| + 1
  {
    assert permits[p := at].Keys == permits.Keys + {p};
    assert |permits[p := at]| == |permits[p := at].Keys| && |permits| == |permits.Keys|;
  }

  /** A grant needs a free place below the effective concurrency. */
  lemma AcquireGrants(cfg: Config, g: Gov, now: int)
    ensures var next := Acquire(cfg, g, now);
            var swept := Unexpired(g.permits, now);
            && next.limiter.effective == Clamped(g.limiter, MaxOf(cfg)).effective
            && ((next.permits == swept && next.nextPermit == g.nextPermit)
                || (next.permits == swept[g.nextPermit := now + cfg.permitLeaseMs] && next.nextPermit == g.nextPermit + 1
                    && |swept| < next.limiter.effective))
  {
  }

  lemma AcquireKeepsBounds(cfg: Config, g: Gov, now: int)
    requires ValidConfig(cfg) && InBounds(cfg, g)
    ensures InBounds(cfg, Acquire(cfg, g, now))
  {
    var swept := Unexpired(g.permits, now);
    AcquireGrants(cfg, g, now);
    FewerKeys(g.permits, swept);
    assert g.nextPermit !in swept;
    OneMoreKey(swept, g.nextPermit, now + cfg.permitLeaseMs);
  }

  lemma SettlingKeepsBounds(cfg: Config, g: Gov, next: Gov, p: PermitId)
    requires InBounds(cfg, g) && next.permits == g.permits - {p} && next.nextPermit == g.nextPermit
    requires 1 <= next.limiter.effective <= MaxOf(cfg)
    ensures InBounds(cfg, next)
  {
    FewerKeys(g.permits, next.permits);
  }

  lemma StepKeepsBounds(cfg: Config, g: Gov, step: Step)
    requires ValidConfig(cfg) && InBounds(cfg, g)
    ensures InBounds(cfg, Apply(cfg, g, step))
  {
    match step
    case DoAcquire(now) => AcquireKeepsBounds(cfg, g, now);
    case DoHealthy(p) => SettlingKeepsBounds(cfg, g, SettleHealthy(cfg, g, p), p);
    case DoThrottle(p, now, retryAfter, jitter) => SettlingKeepsBounds(cfg, g, SettleThrottle(g, p, now, retryAfter, jitter), p);
    case DoTransient(p, now, jitter) => SettlingKeepsBounds(cfg, g, SettleTransient(g, p, now, jitter), p);
    case DoQuota(p) => SettlingKeepsBounds(cfg, g, SettleQuota(g, p), p);
    case DoRelease(p) => SettlingKeepsBounds(cfg, g, Release(g, p), p);
    case DoResume =>
  }

  lemma AcquireKeepsSpacing(cfg: Config, g: Gov, now: int)
    requires Spaced(cfg, g)
    ensures Spaced(cfg, Acquire(cfg, g, now))
  {
    var next := Acquire(cfg, g, now);
    assert next.grants == g.grants || (next.grants == g.grants + [now] && !TooSoon(cfg, g.limiter, now));
  }

  lemma StepKeepsSpacing(cfg: Config, g: Gov, step: Step)
    requires Spaced(cfg, g)
    ensures Spaced(cfg, Apply(cfg, g, step))
  {
    if step.DoAcquire? {
      AcquireKeepsSpacing(cfg, g, step.now);
    } else {
      assert Apply(cfg, g, step).grants == g.grants && Apply(cfg, g, step).limiter.lastRequestAt == g.limiter.lastRequestAt;
    }
  }

  /** Concurrency and stored permits stay within the technical limit; sends stay spaced whatever clocks say. */
  lemma {:induction false} RunKeepsLimits(cfg: Config, g: Gov, steps: seq<Step>)
    requires ValidConfig(cfg) && InBounds(cfg, g) && Spaced(cfg, g)
    ensures InBounds(cfg, Run(cfg, g, steps)) && Spaced(cfg, Run(cfg, g, steps))
    decreases |steps|
  {
    if steps != [] {
      StepKeepsBounds(cfg, g, steps[0]);
      StepKeepsSpacing(cfg, g, steps[0]);
      RunKeepsLimits(cfg, Apply(cfg, g, steps[0]), steps[1..]);
    }
  }

  function CountIn(times: seq<int>, from: int, to: int): nat {
    if times == [] then 0
    else CountIn(times[..|times| - 1], from, to) + if from <= times[|times| - 1] <= to then 1 else 0
  }

  ghost predicate Apart(times: seq<int>, interval: int) {
    forall i {:trigger times[i]} | 0 < i < |times| :: times[i - 1] + interval <= times[i]
  }

  lemma {:induction false} CountBound(times: seq<int>, from: int, to: int)
    requires Apart(times, 1_000)
    ensures var n := CountIn(times, from, to);
            n > 0 ==> from <= to && 1_000 * (n - 1) <= to - from && 1_000 * (n - 1) <= times[|times| - 1] - from
  {
    if times != [] {
      var n := |times| - 1;
      CountBound(times[..n], from, to);
      if n > 0 { assert times[n - 1] + 1_000 <= times[n] && times[..n][n - 1] == times[n - 1]; }
    }
  }

  lemma SendsAreApart(cfg: Config, g: Gov)
    requires Spaced(cfg, g) && cfg.send
    ensures Apart(g.grants, 1_000)
  {
    forall i {:trigger g.grants[i]} | 0 < i < |g.grants| ensures g.grants[i - 1] + 1_000 <= g.grants[i] {
    }
  }

  lemma WindowBound(n: nat, w: nat)
    requires n > 0 ==> 1_000 * (n - 1) <= w
    ensures n <= w / 1_000 + 1
  {
  }

  lemma StartIsInLimits(cfg: Config)
    requires ValidConfig(cfg)
    ensures InBounds(cfg, Start(cfg)) && Spaced(cfg, Start(cfg))
  {
  }

  /** Sends are a second apart, so a closed window of W ms holds at most floor(W / 1000) + 1 of them. */
  lemma WindowHoldsFewSends(cfg: Config, steps: seq<Step>, from: int, w: nat)
    requires ValidConfig(cfg) && cfg.send
    ensures var grants := Run(cfg, Start(cfg), steps).grants;
            Apart(grants, 1_000) && CountIn(grants, from, from + w) <= w / 1_000 + 1
  {
    StartIsInLimits(cfg);
    RunKeepsLimits(cfg, Start(cfg), steps);
    var g := Run(cfg, Start(cfg), steps);
    SendsAreApart(cfg, g);
    CountBound(g.grants, from, from + w);
    WindowBound(CountIn(g.grants, from, from + w), w);
  }

  // -------------------------------------------------------------- regaining

  /** The sum of the levels from `from` up to, not including, `to`. */
  function Levels(from: nat, to: nat): nat
    decreases if from < to then to - from else 0
  {
    if from >= to then 0 else from + Levels(from + 1, to)
  }

  function Ramp(state: (int, nat), max: int, times: nat): (int, nat) {
    if times == 0 then state else Increased(Ramp(state, max, times - 1).0, max, Ramp(state, max, times - 1).1)
  }

  lemma {:induction false} RampWithin(c: int, max: int, k: nat)
    requires 1 <= c < max && k <= c
    ensures Ramp((c, 0), max, k) == if k < c then (c, k) else (c + 1, 0)
  {
    if k > 0 { RampWithin(c, max, k - 1); }
  }

  lemma {:induction false} RampInTwo(state: (int, nat), max: int, a: nat, b: nat)
    ensures Ramp(state, max, a + b) == Ramp(Ramp(state, max, a), max, b)
  {
    if b > 0 { RampInTwo(state, max, a, b - 1); }
  }

  /** From level `low` it takes exactly the sum of the levels below `high` to reach `high`, and no fewer. */
  lemma {:induction false} RegainsAfter(low: nat, high: nat, max: int, k: nat)
    requires 1 <= low <= high <= max && k <= Levels(low, high)
    ensures Ramp((low, 0), max, k).0 <= high
    ensures Ramp((low, 0), max, k).0 == high <==> k == Levels(low, high)
    decreases high - low
  {
    if low < high {
      if k <= low {
        RampWithin(low, max, k);
        LevelsGrow(low + 1, high);
      } else {
        RampInTwo((low, 0), max, low, k - low);
        RampWithin(low, max, low);
        RegainsAfter(low + 1, high, max, k - low);
      }
    }
  }

  lemma {:induction false} LevelsGrow(from: nat, to: nat)
    requires 1 <= from
    ensures Levels(from, to) > 0 <==> from < to
  {
  }

  /** After a throttle from `c`, regaining `c` takes the levels from max(1, c / 2) to c - 1. */
  lemma RegainAfterThrottle(c: nat, max: int, k: nat)
    requires 1 <= c <= max && k <= Levels(Decreased(c), c)
    ensures Ramp((Decreased(c), 0), max, k).0 == c <==> k == Levels(Decreased(c), c)
  {
    RegainsAfter(Decreased(c), c, max, k);
  }

  lemma {:induction false} LevelsEnd(from: nat, n: nat)
    ensures Levels(from, from + n + 1) == Levels(from, from + n) + from + n
    decreases n
  {
    if n > 0 { LevelsEnd(from + 1, n - 1); }
  }

  lemma {:induction false} LevelsFrom1(m: nat)
    requires m >= 1
    ensures 2 * Levels(1, m) == m * (m - 1)
  {
    if m > 1 {
      LevelsFrom1(m - 1);
      LevelsEnd(1, m - 2);
    }
  }

  /** From 1 to `m` it takes m (m - 1) / 2 healthy settlements, and no fewer. */
  lemma RegainFrom1(m: nat, max: int, k: nat)
    requires 1 <= m <= max && 2 * k <= m * (m - 1)
    ensures Ramp((1, 0), max, k).0 == m <==> 2 * k == m * (m - 1)
  {
    LevelsFrom1(m);
    RegainsAfter(1, m, max, k);
  }

  function HealthySteps(permits: seq<PermitId>): seq<Step> {
    seq(|permits|, i requires 0 <= i < |permits| => DoHealthy(permits[i]))
  }

  /** The ramp is what a limiter does when permits are settled as healthy one after another. */
  lemma {:induction false} SettlementsRamp(cfg: Config, g: Gov, permits: seq<PermitId>)
    ensures var l := Run(cfg, g, HealthySteps(permits)).limiter;
            (l.effective, l.healthyCount) == Ramp((g.limiter.effective, g.limiter.healthyCount), MaxOf(cfg), |permits|)
    decreases |permits|
  {
    if permits != [] {
      var state := (g.limiter.effective, g.limiter.healthyCount);
      var steps := HealthySteps(permits);
      assert steps[0] == DoHealthy(permits[0]) && steps[1..] == HealthySteps(permits[1..]);
      RampInTwo(state, MaxOf(cfg), 1, |permits| - 1);
      assert Ramp(state, MaxOf(cfg), 1) == Increased(state.0, MaxOf(cfg), state.1) by {
        assert Ramp(state, MaxOf(cfg), 0) == state;
      }
      SettlementsRamp(cfg, SettleHealthy(cfg, g, permits[0]), permits[1..]);
    }
  }

  /**
   * On the limiter itself: after a throttle at concurrency `c`, healthy settlements regain `c` exactly
   * when they are as many as the levels from max(1, c / 2) to c - 1 come to, whichever permits they are of.
   */
  lemma SettlementsRegain(cfg: Config, g: Gov, p: PermitId, now: int, retryAfter: Option<int>, jitter: int,
                          c: nat, permits: seq<PermitId>)
    requires g.limiter.effective == c && 1 <= c <= MaxOf(cfg) && |permits| <= Levels(Decreased(c), c)
    ensures Run(cfg, SettleThrottle(g, p, now, retryAfter, jitter), HealthySteps(permits)).limiter.effective == c
            <==> |permits| == Levels(Decreased(c), c)
  {
    SettlementsRamp(cfg, SettleThrottle(g, p, now, retryAfter, jitter), permits);
    RegainAfterThrottle(c, MaxOf(cfg), |permits|);
  }

  // ---------------------------------------------------------------- back-off

  lemma {:induction false} Power2Grows(n: nat)
    ensures Power2(n) >= 1 && (n >= 6 ==> Power2(n) >= 64)
  {
    if n > 0 {
      Power2Grows(n - 1);
      if n == 6 { assert Power2(6) == 64; }
    }
  }

  /** One failure more never shortens the delay, whatever the two draws. */
  lemma BackoffGrows(n: nat, retryAfter: Option<int>, cap: int, j: int, k: int)
    requires 0 <= j <= JITTER_MAX && 0 <= k <= JITTER_MAX && 0 <= cap <= 60_000 && n >= 1
    ensures Backoff(n, retryAfter, 1_000, cap, j) <= Backoff(n + 1, retryAfter, 1_000, cap, k)
  {
    Power2Grows(if n <= 20 then n - 1 else 20);
    if n <= 20 { assert Power2(n) == 2 * Power2(n - 1); }
  }

  lemma ThrottleHoldsBack(g: Gov, p: PermitId, now: int, retryAfter: Option<int>, jitter: int)
    ensures var (before, after) := (g.limiter, SettleThrottle(g, p, now, retryAfter, jitter).limiter);
            && (before.effective >= 1 ==>
                  1 <= after.effective <= before.effective && (after.effective == 1 || after.effective == before.effective / 2))
            && after.nextPermittedAt.Some?
            && (before.nextPermittedAt.Some? ==> after.nextPermittedAt.value >= before.nextPermittedAt.value)
            && (retryAfter.Some? && 0 <= retryAfter.value <= RETRY_AFTER_CAP ==> after.nextPermittedAt.value >= now + retryAfter.value)
  {
  }

  // ------------------------------------------------------------------- quota

  /** Every permit is settled once, while its lease still holds; no operator resumes. */
  ghost predicate SettlesHeldPermits(cfg: Config, g: Gov, steps: seq<Step>)
    decreases |steps|
  {
    steps == [] ||
    (var step := steps[0];
     && !step.DoResume?
     && (step.DoAcquire? || step.permit in g.permits)
     && SettlesHeldPermits(cfg, Apply(cfg, g, step), steps[1..]))
  }

  lemma {:induction false} BlockedStaysBlocked(cfg: Config, g: Gov, steps: seq<Step>)
    requires g.limiter.state.QuotaBlocked? && g.permits == map[] && SettlesHeldPermits(cfg, g, steps)
    ensures var t := Run(cfg, g, steps); t.limiter.state.QuotaBlocked? && t.grants == g.grants
    decreases |steps|
  {
    if steps != [] {
      assert steps[0].DoAcquire?;
      assert Unexpired(g.permits, steps[0].now) == map[];
      BlockedStaysBlocked(cfg, Apply(cfg, g, steps[0]), steps[1..]);
    }
  }

  /** Whatever permits are settled in time and whoever asks, nothing more is granted until an operator resumes. */
  ghost predicate Holds(cfg: Config, g: Gov) {
    forall steps | SettlesHeldPermits(cfg, g, steps) :: Run(cfg, g, steps).grants == g.grants
  }

  /** For any limiter and any run: a quota block holds exactly when no other permit is out. */
  lemma QuotaBlockHoldsExactly(cfg: Config, before: seq<Step>, p: PermitId)
    requires ValidConfig(cfg) && p in Run(cfg, Start(cfg), before).permits
    ensures var g := Run(cfg, Start(cfg), before); Holds(cfg, SettleQuota(g, p)) <==> g.permits.Keys == {p}
  {
    StartIsInLimits(cfg);
    RunKeepsLimits(cfg, Start(cfg), before);
    var g := Run(cfg, Start(cfg), before);
    var blocked := SettleQuota(g, p);
    if g.permits.Keys == {p} {
      assert blocked.permits == map[];
      forall steps | SettlesHeldPermits(cfg, blocked, steps) ensures Run(cfg, blocked, steps).grants == g.grants {
        BlockedStaysBlocked(cfg, blocked, steps);
      }
    } else {
      var q :| q in g.permits && q != p;
      assert blocked.grants == g.grants;
      SuccessLiftsBlock(cfg, blocked, q);
    }
  }

  /** On the one-permit send limiter a quota block admits nothing more until the operator resumes. */
  lemma QuotaBlockIsSticky(cfg: Config, before: seq<Step>, p: PermitId)
    requires ValidConfig(cfg) && cfg.send && p in Run(cfg, Start(cfg), before).permits
    ensures Holds(cfg, SettleQuota(Run(cfg, Start(cfg), before), p))
  {
    StartIsInLimits(cfg);
    RunKeepsLimits(cfg, Start(cfg), before);
    OnlyPermit(Run(cfg, Start(cfg), before).permits, p);
    QuotaBlockHoldsExactly(cfg, before, p);
  }

  /** A time by which every lease is over. */
  lemma {:induction false} SomeEnd(permits: map<PermitId, int>, at: int) returns (end: int)
    ensures end >= at && forall p | p in permits :: permits[p] <= end
    decreases |permits|
  {
    end := at;
    if p :| p in permits {
      OneMoreKey(permits - {p}, p, permits[p]);
      assert (permits - {p})[p := permits[p]] == permits;
      end := SomeEnd(permits - {p}, if at > permits[p] then at else permits[p]);
    }
  }

  lemma RunSplits(cfg: Config, g: Gov, step: Step, rest: seq<Step>)
    ensures Run(cfg, g, [step] + rest) == Run(cfg, Apply(cfg, g, step), rest)
    ensures !step.DoResume? && (step.DoAcquire? || step.permit in g.permits) && SettlesHeldPermits(cfg, Apply(cfg, g, step), rest)
            ==> SettlesHeldPermits(cfg, g, [step] + rest)
  {
    assert ([step] + rest)[1..] == rest;
  }

  /** A permit settled as healthy opens the limiter, and the next request is granted once the leases are over. */
  lemma SuccessLiftsBlock(cfg: Config, g: Gov, q: PermitId)
    requires ValidConfig(cfg) && q in g.permits && g.limiter.effective >= 1
    ensures !Holds(cfg, g)
  {
    var open := SettleHealthy(cfg, g, q);
    var last := open.limiter.lastRequestAt;
    var late := SomeEnd(open.permits, if last.Some? then last.value + IntervalOf(cfg) else 0);
    assert Unexpired(open.permits, late) == map[];
    assert Acquire(cfg, open, late).grants == g.grants + [late];
    RunSplits(cfg, open, DoAcquire(late), []);
    RunSplits(cfg, g, DoHealthy(q), [DoAcquire(late)]);
    var steps := [DoHealthy(q)] + [DoAcquire(late)];
    assert SettlesHeldPermits(cfg, g, steps) && Run(cfg, g, steps).grants != g.grants;
  }

  lemma OnlyPermit(permits: map<PermitId, int>, p: PermitId)
    requires |permits| <= 1 && p in permits
    ensures permits - {p} == map[]
  {
    assert |permits.Keys| == |permits|;
    assert permits.Keys == {p} + (permits.Keys - {p}) && |permits.Keys - {p}| == |permits.Keys| - 1;
    assert permits.Keys - {p} == {};
  }
}
