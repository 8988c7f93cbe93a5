/** The governor's transactions on its limiter and permit rows, updated in place. */
module GovernorTables {
  import opened Options
  import G = Governor
  import opened Governor
  import opened GovernorAdmission

  class Tables {
    const cfg: Config
    var state: State
    var effective: int
    var healthyCount: nat
    var throttles: nat
    var failures: nat
    var nextPermittedAt: Option<int>
    var lastRequestAt: Option<int>
    var permits: map<PermitId, int>
    var nextPermit: PermitId
    ghost var grants: seq<int>

    ghost function View(): Gov
      reads this
    {
      Gov(Limiter(state, effective, healthyCount, throttles, failures, nextPermittedAt, lastRequestAt), permits, nextPermit, grants)
    }

    constructor (cfg: Config)
      ensures this.cfg == cfg && View() == Start(cfg)
    {
      this.cfg := cfg;
      state, effective, healthyCount, throttles, failures := Healthy, if cfg.send then 1 else cfg.initialConcurrency, 0, 0, 0;
      nextPermittedAt, lastRequestAt := None, None;
      permits, nextPermit, grants := map[], 0, [];
    }

    /** A lowered limit and past leases take effect before anything is decided. */
    method Sweep(now: int)
      modifies `effective, `healthyCount, `permits
      ensures View() == old(View()).(limiter := Clamped(old(View()).limiter, MaxOf(cfg)), permits := Unexpired(old(permits), now))
    {
      var technicalMax := if cfg.send then 1 else cfg.maxConcurrency;
      if effective > technicalMax { effective, healthyCount := technicalMax, 0; }
      permits := map p | p in permits && permits[p] > now :: permits[p];
    }

    method Acquire(now: int) returns (permit: Option<PermitId>)
      modifies this
      ensures View() == G.Acquire(cfg, old(View()), now)
      ensures nextPermit == old(nextPermit) + (if permit.Some? then 1 else 0)
      ensures permit.Some? ==> permit.value == old(nextPermit)
      ensures permit.Some? <==> Admits(cfg, old(View()), now)
      ensures if permit.Some? then Grants(cfg, old(View()), View(), now) else Refuses(old(View()), View(), now)
    {
      AcquireGrantsExactly(cfg, View(), now);
      Sweep(now);
      if state.QuotaBlocked? { return None; }
      if nextPermittedAt.Some? && nextPermittedAt.value > now { return None; }
      if !state.Healthy? && nextPermittedAt.Some? { state, nextPermittedAt := Recovering, None; }
      if cfg.send && lastRequestAt.Some? {
        var interval := if cfg.sendIntervalMs > 1_000 then cfg.sendIntervalMs else 1_000;
        if lastRequestAt.value + interval > now { return None; }
      }
      if |permits| >= effective { return None; }
      permit := Some(nextPermit);
      permits, nextPermit := permits[nextPermit := now + cfg.permitLeaseMs], nextPermit + 1;
      lastRequestAt, grants := Some(now), grants + [now];
    }

    /** One place fewer is taken, a level is never lost, and whatever held requests back is over. */
    method SettleHealthy(p: PermitId)
      modifies this
      ensures View() == G.SettleHealthy(cfg, old(View()), p)
      ensures permits.Keys == old(permits).Keys - {p} && (forall q | q in permits :: permits[q] == old(permits)[q])
      ensures !state.QuotaBlocked? && !state.Throttled? && !state.Transient? && (forall now :: !CoolingDown(View().limiter, now))
      ensures ValidConfig(cfg) && 1 <= old(effective) <= MaxOf(cfg) ==> old(effective) <= effective <= MaxOf(cfg) && effective <= old(effective) + 1
      ensures grants == old(grants) && lastRequestAt == old(lastRequestAt) && throttles == 0 && failures == 0
      ensures state.Healthy? <==> old(state).Healthy? || effective >= MaxOf(cfg)
    {
      var technicalMax := if cfg.send then 1 else cfg.maxConcurrency;
      var ramp := Increased(effective, technicalMax, healthyCount);
      permits := permits - {p};
      if ramp.0 >= technicalMax || state.Healthy? { state := Healthy; } else { state := Recovering; }
      effective, healthyCount := ramp.0, ramp.1;
      throttles, failures, nextPermittedAt := 0, 0, None;
    }

    /** Concurrency is halved, and requests are held back at least as long as they were. */
    method SettleThrottle(p: PermitId, now: int, retryAfter: Option<int>, jitter: int)
      modifies this
      ensures View() == G.SettleThrottle(old(View()), p, now, retryAfter, jitter)
      ensures permits.Keys == old(permits).Keys - {p} && (forall q | q in permits :: permits[q] == old(permits)[q])
      ensures old(effective) >= 1 ==> 1 <= effective <= old(effective) && (effective == 1 || effective == old(effective) / 2)
      ensures nextPermittedAt.Some? && (old(nextPermittedAt).Some? ==> nextPermittedAt.value >= old(nextPermittedAt).value)
      ensures retryAfter.Some? && 0 <= retryAfter.value <= RETRY_AFTER_CAP ==> nextPermittedAt.value >= now + retryAfter.value
      ensures grants == old(grants) && lastRequestAt == old(lastRequestAt)
    {
      ThrottleHoldsBack(View(), p, now, retryAfter, jitter);
      var consecutive := throttles + 1;
      var candidate := now + Backoff(consecutive, retryAfter, 1_000, 60_000, jitter);
      if nextPermittedAt.None? || nextPermittedAt.value <= candidate { nextPermittedAt := Some(candidate); }
      state, effective, healthyCount, throttles, failures := Throttled, Decreased(effective), 0, consecutive, 0;
      permits := permits - {p};
    }

    /** Requests are held back at least as long as they were, and concurrency stays. */
    method SettleTransient(p: PermitId, now: int, jitter: int)
      modifies this
      ensures View() == G.SettleTransient(old(View()), p, now, jitter)
      ensures permits.Keys == old(permits).Keys - {p} && (forall q | q in permits :: permits[q] == old(permits)[q])
      ensures effective == old(effective) && healthyCount == old(healthyCount) && throttles == old(throttles)
      ensures nextPermittedAt.Some? && (old(nextPermittedAt).Some? ==> nextPermittedAt.value >= old(nextPermittedAt).value)
      ensures grants == old(grants) && lastRequestAt == old(lastRequestAt)
    {
      failures := failures + 1;
      var candidate := now + Backoff(failures, None, 1_000, 30_000, jitter);
      if nextPermittedAt.None? || nextPermittedAt.value <= candidate { nextPermittedAt := Some(candidate); }
      state := Transient;
      permits := permits - {p};
    }

    /** Nobody is granted a permit while the block stands, and no clock ends it. */
    method SettleQuota(p: PermitId)
      modifies this
      ensures View() == G.SettleQuota(old(View()), p)
      ensures permits.Keys == old(permits).Keys - {p} && (forall q | q in permits :: permits[q] == old(permits)[q])
      ensures forall now :: G.Acquire(cfg, View(), now).grants == old(grants) && G.Acquire(cfg, View(), now).limiter.state.QuotaBlocked?
      ensures effective == old(effective) && throttles == old(throttles) && failures == old(failures) && lastRequestAt == old(lastRequestAt)
      ensures state.QuotaBlocked? && nextPermittedAt.None? && healthyCount == 0
    {
      permits := permits - {p};
      state, healthyCount, nextPermittedAt := QuotaBlocked, 0, None;
    }
  }
}
