/** When the governor grants a permit, and how long a throttle or a transient failure holds requests back. */
module GovernorAdmission {
  import opened Options
  import opened Governor

  /** Read off the rows: no block, no cooldown, the interval is over, and a place is free below the clamped concurrency. */
  predicate Admits(cfg: Config, g: Gov, now: int) {
    && g.limiter.state != QuotaBlocked
    && (g.limiter.nextPermittedAt.Some? ==> g.limiter.nextPermittedAt.value <= now)
    && (cfg.send && g.limiter.lastRequestAt.Some? ==>
          g.limiter.lastRequestAt.value + 1_000 <= now && g.limiter.lastRequestAt.value + cfg.sendIntervalMs <= now)
    && |Unexpired(g.permits, now)| < g.limiter.effective
    && |Unexpired(g.permits, now)| < (if cfg.send then 1 else cfg.maxConcurrency)
  }

  /** A grant is a new permit of one lease, at this time. */
  predicate Grants(cfg: Config, g: Gov, next: Gov, now: int) {
    && next.grants == g.grants + [now] && next.limiter.lastRequestAt == Some(now) && next.nextPermit == g.nextPermit + 1
    && next.permits == Unexpired(g.permits, now)[g.nextPermit := now + cfg.permitLeaseMs]
  }

  /** A refusal takes nothing but what has expired. */
  predicate Refuses(g: Gov, next: Gov, now: int) {
    && next.grants == g.grants && next.limiter.lastRequestAt == g.limiter.lastRequestAt && next.nextPermit == g.nextPermit
    && next.permits == Unexpired(g.permits, now)
  }

  /** For every limiter, clock and configuration. */
  lemma AcquireGrantsExactly(cfg: Config, g: Gov, now: int)
    ensures if Admits(cfg, g, now) then Grants(cfg, g, Acquire(cfg, g, now), now) else Refuses(g, Acquire(cfg, g, now), now)
  {
  }

  /** What a request leaves of the limiter, granted or not: a past cooldown is over, a lowered limit holds, the rest stays. */
  lemma AcquireKeepsTheRest(cfg: Config, g: Gov, now: int)
    ensures var (l, m, max) := (g.limiter, Acquire(cfg, g, now).limiter, if cfg.send then 1 else cfg.maxConcurrency);
            && m.effective == Min(l.effective, max) && m.healthyCount == (if l.effective > max then 0 else l.healthyCount)
            && m.throttles == l.throttles && m.failures == l.failures
            && (if !l.state.Healthy? && !l.state.QuotaBlocked? && l.nextPermittedAt.Some? && l.nextPermittedAt.value <= now
                then m.state.Recovering? && m.nextPermittedAt.None? else m.state == l.state && m.nextPermittedAt == l.nextPermittedAt)
  {
  }

  // ------------------------------------------------------- holding back

  /** Neither a healthy settlement nor a quota block nor a resume: nothing that ends a cooldown before its time. */
  predicate Waits(step: Step) {
    !step.DoHealthy? && !step.DoQuota? && !step.DoResume?
  }

  predicate HeldUntil(g: Gov, end: int) {
    g.limiter.nextPermittedAt.Some? && end <= g.limiter.nextPermittedAt.value
  }

  lemma StepHolds(cfg: Config, g: Gov, step: Step, end: int)
    requires HeldUntil(g, end) && Waits(step) && (step.DoAcquire? ==> step.now < end)
    ensures HeldUntil(Apply(cfg, g, step), end) && Apply(cfg, g, step).grants == g.grants
  {
  }

  /** While nothing ends the cooldown no request before its end is granted, however many are made and settled. */
  lemma {:induction false} CooldownHolds(cfg: Config, g: Gov, steps: seq<Step>, end: int)
    requires HeldUntil(g, end) && forall i | 0 <= i < |steps| :: Waits(steps[i]) && (steps[i].DoAcquire? ==> steps[i].now < end)
    ensures HeldUntil(Run(cfg, g, steps), end) && Run(cfg, g, steps).grants == g.grants
    decreases |steps|
  {
    if steps != [] {
      StepHolds(cfg, g, steps[0], end);
      CooldownHolds(cfg, Apply(cfg, g, steps[0]), steps[1..], end);
    }
  }

  /** Twice as long for each failure after the first, twenty times at most, and never more than the cap. */
  function Doubled(failures: nat, cap: int): int {
    Min(cap, 1_000 * Power2(Min(20, failures)))
  }

  lemma BackoffAtLeast(before: nat, retryAfter: Option<int>, cap: int, jitter: int)
    requires 0 <= jitter <= JITTER_MAX && 0 <= cap
    ensures var delay := Backoff(before + 1, retryAfter, 1_000, cap, jitter);
            && delay >= Doubled(before, cap)
            && (retryAfter.Some? ==> delay >= Min(retryAfter.value, 86_400_000))
            && (delay <= cap || (retryAfter.Some? && delay == Min(retryAfter.value, 86_400_000)))
            && (delay <= Doubled(before, cap) + JITTER_MAX || (retryAfter.Some? && delay == Min(retryAfter.value, 86_400_000)))
  {
    assert before + 1 - 1 == before;
  }

  /**
   * After a throttle at `t` nothing is granted at a clock before `t` plus the provider's retry time, a day at most, and
   * before `t` plus the doubled delay, until a healthy or quota settlement or a resume.
   */
  lemma ThrottleHolds(cfg: Config, g: Gov, p: PermitId, t: int, retryAfter: Option<int>, jitter: int, steps: seq<Step>, end: int)
    requires 0 <= jitter <= JITTER_MAX
    requires end <= t + Doubled(g.limiter.throttles, 60_000) || (retryAfter.Some? && end <= t + Min(retryAfter.value, 86_400_000))
    requires forall i | 0 <= i < |steps| :: Waits(steps[i]) && (steps[i].DoAcquire? ==> steps[i].now < end)
    ensures Run(cfg, SettleThrottle(g, p, t, retryAfter, jitter), steps).grants == g.grants
  {
    BackoffAtLeast(g.limiter.throttles, retryAfter, 60_000, jitter);
    CooldownHolds(cfg, SettleThrottle(g, p, t, retryAfter, jitter), steps, end);
  }

  /** The same after a transient failure, with a cap of half a minute. */
  lemma TransientHolds(cfg: Config, g: Gov, p: PermitId, t: int, jitter: int, steps: seq<Step>, end: int)
    requires 0 <= jitter <= JITTER_MAX && end <= t + Doubled(g.limiter.failures, 30_000)
    requires forall i | 0 <= i < |steps| :: Waits(steps[i]) && (steps[i].DoAcquire? ==> steps[i].now < end)
    ensures Run(cfg, SettleTransient(g, p, t, jitter), steps).grants == g.grants
  {
    BackoffAtLeast(g.limiter.failures, None, 30_000, jitter);
    CooldownHolds(cfg, SettleTransient(g, p, t, jitter), steps, end);
  }

  /** A cooldown already running is not cut short by either. */
  lemma SettlingNeverShortens(g: Gov, p: PermitId, now: int, retryAfter: Option<int>, jitter: int, end: int)
    requires HeldUntil(g, end)
    ensures HeldUntil(SettleThrottle(g, p, now, retryAfter, jitter), end) && HeldUntil(SettleTransient(g, p, now, jitter), end)
  {
  }

  // -------------------------------------------------------- coming back

  /** After an operator's resume the limiter starts over: one permit at a time, no cooldown, as if nothing had failed. */
  lemma ResumeStartsOver(cfg: Config, g: Gov, now: int)
    requires g.limiter.state.QuotaBlocked? && ValidConfig(cfg)
    ensures var r := Resume(g);
            && r.permits == g.permits && r.grants == g.grants && r.limiter.effective == 1 && r.limiter.healthyCount == 0
            && (Admits(cfg, r, now) <==>
                  (cfg.send && g.limiter.lastRequestAt.Some? ==>
                     g.limiter.lastRequestAt.value + 1_000 <= now && g.limiter.lastRequestAt.value + cfg.sendIntervalMs <= now)
                  && Unexpired(g.permits, now) == map[])
            && r.limiter.throttles == 0 && r.limiter.failures == 0 && r.limiter.state.Recovering?
  {
  }

  /** Without a quota block a resume is no operation. */
  lemma ResumeNeedsBlock(g: Gov)
    requires !g.limiter.state.QuotaBlocked?
    ensures Resume(g) == g
  {
  }

  /** A throttled limiter is recovering until it is back at its full concurrency, and healthy from then on. */
  lemma {:induction false} HealthyExactlyWhenFull(cfg: Config, g: Gov, permits: seq<PermitId>)
    requires ValidConfig(cfg) && !g.limiter.state.Healthy? && 1 <= g.limiter.effective < MaxOf(cfg) && permits != []
    ensures var l := Run(cfg, g, HealthySteps(permits)).limiter;
            if l.effective >= MaxOf(cfg) then l.state.Healthy? else l.state.Recovering?
    decreases |permits|
  {
    var next := SettleHealthy(cfg, g, permits[0]);
    var steps := HealthySteps(permits);
    assert steps[0] == DoHealthy(permits[0]) && steps[1..] == HealthySteps(permits[1..]);
    if |permits| == 1 {
      assert HealthySteps(permits[1..]) == [];
    } else if next.limiter.effective < MaxOf(cfg) {
      HealthyExactlyWhenFull(cfg, next, permits[1..]);
    } else {
      FullStaysHealthy(cfg, next, permits[1..]);
    }
  }

  lemma {:induction false} FullStaysHealthy(cfg: Config, g: Gov, permits: seq<PermitId>)
    requires ValidConfig(cfg) && g.limiter.state.Healthy? && g.limiter.effective == MaxOf(cfg)
    ensures var l := Run(cfg, g, HealthySteps(permits)).limiter; l.state.Healthy? && l.effective == MaxOf(cfg)
    decreases |permits|
  {
    if permits != [] {
      var steps := HealthySteps(permits);
      assert steps[0] == DoHealthy(permits[0]) && steps[1..] == HealthySteps(permits[1..]);
      FullStaysHealthy(cfg, SettleHealthy(cfg, g, permits[0]), permits[1..]);
    }
  }

  // ------------------------------------------------- one after another

  function Throttles(steps: seq<Step>): nat {
    if steps == [] then 0 else (if steps[0].DoThrottle? then 1 else 0) + Throttles(steps[1..])
  }

  lemma {:induction false} ThrottlesAddUp(cfg: Config, g: Gov, steps: seq<Step>)
    requires forall i | 0 <= i < |steps| :: Waits(steps[i])
    ensures Run(cfg, g, steps).limiter.throttles == g.limiter.throttles + Throttles(steps)
    decreases |steps|
  {
    if steps != [] { ThrottlesAddUp(cfg, Apply(cfg, g, steps[0]), steps[1..]); }
  }

  /** After n throttles with no success between them the next one holds for 2^n seconds, a minute at most. */
  lemma EachThrottleDoubles(cfg: Config, g: Gov, steps: seq<Step>, p: PermitId, t: int, retryAfter: Option<int>, jitter: int)
    requires 0 <= jitter <= JITTER_MAX && g.limiter.throttles == 0 && forall i | 0 <= i < |steps| :: Waits(steps[i])
    ensures HeldUntil(SettleThrottle(Run(cfg, g, steps), p, t, retryAfter, jitter),
                      t + Min(60_000, 1_000 * Power2(Min(20, Throttles(steps)))))
  {
    ThrottlesAddUp(cfg, g, steps);
    BackoffAtLeast(Throttles(steps), retryAfter, 60_000, jitter);
  }

  lemma {:induction false} FailuresAddUp(cfg: Config, g: Gov, failures: seq<Step>)
    requires forall i | 0 <= i < |failures| :: failures[i].DoTransient?
    ensures Run(cfg, g, failures).limiter.failures == g.limiter.failures + |failures|
    decreases |failures|
  {
    if failures != [] { FailuresAddUp(cfg, Apply(cfg, g, failures[0]), failures[1..]); }
  }

  /** The same of transient failures in a row, half a minute at most. */
  lemma EachFailureDoubles(cfg: Config, g: Gov, failures: seq<Step>, p: PermitId, t: int, jitter: int)
    requires 0 <= jitter <= JITTER_MAX && g.limiter.failures == 0 && forall i | 0 <= i < |failures| :: failures[i].DoTransient?
    ensures HeldUntil(SettleTransient(Run(cfg, g, failures), p, t, jitter), t + Min(30_000, 1_000 * Power2(Min(20, |failures|))))
  {
    FailuresAddUp(cfg, g, failures);
    BackoffAtLeast(|failures|, None, 30_000, jitter);
  }

  /** One success forgets all that: whatever came before, the next throttle or failure holds for a second and a half at most. */
  lemma SuccessForgets(cfg: Config, g: Gov, p: PermitId, q: PermitId, t: int, jitter: int)
    requires 0 <= jitter <= JITTER_MAX
    ensures var h := SettleHealthy(cfg, g, p);
            && t + 1_000 <= SettleThrottle(h, q, t, None, jitter).limiter.nextPermittedAt.value <= t + 1_500
            && t + 1_000 <= SettleTransient(h, q, t, jitter).limiter.nextPermittedAt.value <= t + 1_500
  {
    assert Power2(0) == 1;
  }
}
