/**
 * Account health scoring (auth/store.go): the values recomputeSchedulerLocked and
 * fastSchedulerSnapshot derive from an account's recorded signals.
 */
module Scoring {
  import opened Basics
  import opened Plans
  import opened SuccessWindow

  datatype Tier = Healthy | Warm | Risky | Banned | Unset

  datatype Status = Ready | Cooldown | Error

  /** What the event recorders write and the scheduler only reads. */
  datatype Signals = Signals(
    planType: string,
    status: Status,
    cooldownUntil: Time,
    accessToken: string,
    upstreamType: string,
    baseURL: string,
    apiKey: string,
    usage7d: real,
    usage7dValid: bool,
    reset7dAt: Time,
    usage5h: real,
    usage5hValid: bool,
    reset5hAt: Time,
    autoPause5h: real,
    autoPause7d: real,
    autoPause5hDisabled: bool,
    autoPause7dDisabled: bool,
    latencyEWMA: real,
    successStreak: int,
    failureStreak: int,
    lastSuccessAt: Time,
    lastFailureAt: Time,
    lastUnauthorizedAt: Time,
    lastRateLimitedAt: Time,
    lastTimeoutAt: Time,
    lastServerErrorAt: Time,
    window: Window,
    disabled: bool,
    dispatchPaused: bool,
    scoreBiasOverride: Option<int>,
    baseConcurrencyOverride: Option<int>,
    creditEnabled: bool,
    creditSkipUsageWindow: bool,
    skipWarmTier: bool,
    subscriptionExpiresAt: Time,
    allowedApiKeys: set<int>
  )

  /** What recomputeSchedulerLocked writes. */
  datatype SchedState = SchedState(
    tier: Tier,
    schedulerScore: real,
    dispatchScore: real,
    scoreBias: int,
    baseConcurrency: int,
    limit: int
  )

  datatype AccountView = AccountView(signals: Signals, sched: SchedState, totalRequests: int)

  datatype Breakdown = Breakdown(
    unauthorized: real,
    rateLimit: real,
    timeout: real,
    server: real,
    failure: real,
    success: real,
    proven: real,
    usage7d: real,
    latency: real,
    successRate: real
  )

  // ----- credentials and availability -----

  predicate IsOpenAIResponsesAPI(s: Signals) {
    && Lower(Trim(s.upstreamType)) == "openai_responses"
    && Trim(s.baseURL) != ""
    && Trim(s.apiKey) != ""
  }

  predicate HasDispatchCredential(s: Signals) {
    IsOpenAIResponsesAPI(s) || Trim(s.accessToken) != ""
  }

  function HealthTier(a: AccountView): Tier {
    if a.sched.tier != Unset then a.sched.tier
    else if HasDispatchCredential(a.signals) then Healthy
    else Warm
  }

  predicate Premium5hRateLimited(s: Signals, now: Time) {
    && IsPremium5hPlan(s.planType)
    && s.usage5hValid && s.usage5h >= 100.0
    && s.reset5hAt != ZERO_TIME
    && s.reset5hAt > now
  }

  /** usagePercentForScheduling */
  function SchedulingUsage(s: Signals): real {
    if s.usage7dValid then s.usage7d else 0.0
  }

  predicate SkipsUsageWindow(s: Signals) {
    s.creditEnabled && s.creditSkipUsageWindow
  }

  predicate UsageExhausted(s: Signals) {
    !SkipsUsageWindow(s) && s.usage7dValid && IsFreePlan(s.planType) && s.usage7d >= 100.0
  }

  predicate QuotaPausedByWindow(usage: real, valid: bool, resetAt: Time, threshold: real, disabled: bool, now: Time) {
    if disabled || threshold <= 0.0 || !valid then false
    else if resetAt != ZERO_TIME && now >= resetAt then false
    else usage / 100.0 >= threshold
  }

  predicate QuotaAutoPaused(s: Signals, now: Time) {
    || QuotaPausedByWindow(s.usage5h, s.usage5hValid, s.reset5hAt, s.autoPause5h, s.autoPause5hDisabled, now)
    || QuotaPausedByWindow(s.usage7d, s.usage7dValid, s.reset7dAt, s.autoPause7d, s.autoPause7dDisabled, now)
  }

  predicate Cooling(s: Signals, now: Time) {
    s.status == Cooldown && now < s.cooldownUntil
  }

  /** Account.IsAvailable, the slow path's test. */
  predicate IsAvailable(a: AccountView, now: Time) {
    var s := a.signals;
    if s.disabled then false
    else if s.dispatchPaused then false
    else if s.status == Error then false
    else if HealthTier(a) == Banned then false
    else if UsageExhausted(s) then false
    else if Cooling(s, now) then false
    else if Premium5hRateLimited(s, now) then false
    else if QuotaAutoPaused(s, now) then false
    else HasDispatchCredential(s)
  }

  // ----- score -----

  /** base * max(0, 1 - elapsed/window) */
  function LinearDecay(base: real, elapsed: int, window: int): real {
    if elapsed >= window || window <= 0 then 0.0
    else base * (1.0 - elapsed as real / window as real)
  }

  /** The decay of an event at `at`; an event that never happened weighs nothing. */
  function EventPenalty(base: real, at: Time, now: Time, window: nat): real {
    if at == ZERO_TIME then 0.0 else LinearDecay(base, now - at, window)
  }

  function SuccessRatePenalty(w: Window): real {
    if w.count < 5 then 0.0
    else if SuccessRate(w) < 0.5 then 15.0
    else if SuccessRate(w) < 0.75 then 8.0
    else 0.0
  }

  predicate CountsFreeUsage(s: Signals) {
    !SkipsUsageWindow(s) && s.usage7dValid && IsFreePlan(s.planType)
  }

  function UsagePenalty7d(s: Signals): real {
    if !CountsFreeUsage(s) then 0.0
    else if s.usage7d >= 100.0 then 40.0
    else if s.usage7d >= 95.0 then 30.0
    else if s.usage7d >= 85.0 then 18.0
    else if s.usage7d >= 70.0 then 8.0
    else 0.0
  }

  function LatencyPenalty(latencyEWMA: real): real {
    if latencyEWMA >= 20000.0 then 15.0
    else if latencyEWMA >= 10000.0 then 8.0
    else if latencyEWMA >= 5000.0 then 4.0
    else 0.0
  }

  function BreakdownOf(a: AccountView, now: Time): Breakdown {
    var s := a.signals;
    var limited := Premium5hRateLimited(s, now);
    Breakdown(
      unauthorized := EventPenalty(50.0, s.lastUnauthorizedAt, now, 24 * HOUR),
      rateLimit := EventPenalty(22.0, s.lastRateLimitedAt, now, HOUR),
      timeout := EventPenalty(18.0, s.lastTimeoutAt, now, 15 * MINUTE),
      server := EventPenalty(12.0, s.lastServerErrorAt, now, 15 * MINUTE),
      failure := ClampInt(s.failureStreak * 6, 0, 24) as real,
      success := if limited then 0.0 else ClampInt(s.successStreak * 2, 0, 12) as real,
      proven := if !limited && a.totalRequests > 10 then 20.0 else 0.0,
      usage7d := UsagePenalty7d(s),
      latency := LatencyPenalty(s.latencyEWMA),
      successRate := SuccessRatePenalty(s.window)
    )
  }

  function Score(a: AccountView, now: Time): real {
    var b := BreakdownOf(a, now);
    100.0 - b.unauthorized - b.rateLimit - b.timeout - b.server - b.failure
    - b.usage7d - b.latency - b.successRate + b.success + b.proven
  }

  // ----- dispatch bonuses -----

  predicate DispatchBonusEligible(a: AccountView, now: Time, tier: Tier) {
    var s := a.signals;
    && (tier == Healthy || tier == Warm)
    && s.status != Error
    && !Cooling(s, now)
    && HealthTier(a) != Banned
    && !UsageExhausted(s)
    && !QuotaAutoPaused(s, now)
    && HasDispatchCredential(s)
  }

  function DefaultScoreBias(plan: string): int {
    if NormalizePlanType(plan) in {"pro", "plus", "team"} then 50 else 0
  }

  function EffectiveScoreBias(a: AccountView, now: Time, tier: Tier): int {
    if !DispatchBonusEligible(a, now, tier) then 0
    else match a.signals.scoreBiasOverride
      case Some(bias) => bias
      case None => DefaultScoreBias(a.signals.planType)
  }

  /** The share of the window already gone: 0 a full window before the reset, 1 at the reset. */
  function TimeFactor(remaining: int, window: nat): real
    requires window > 0
  {
    1.0 - remaining as real / window as real
  }

  function QuotaFactor(quotaRemaining: real, full: real): real
    requires full > 0.0
  {
    var q := quotaRemaining / full;
    if q > 1.0 then 1.0 else if q < 0.0 then 0.0 else q
  }

  predicate UrgencyBlocked(a: AccountView, now: Time) {
    var s := a.signals;
    s.accessToken == "" || s.status == Error || a.sched.tier == Banned || s.dispatchPaused || Cooling(s, now)
  }

  predicate Urgency5hOpen(a: AccountView, now: Time) {
    var s := a.signals;
    && IsPremium5hPlan(s.planType) && s.usage5hValid && s.reset5hAt != ZERO_TIME
    && s.usage5h < 100.0 && !Premium5hRateLimited(s, now)
    && !UrgencyBlocked(a, now) && !UsageExhausted(s)
    && 0 < s.reset5hAt - now <= 4 * HOUR
    && 100.0 - s.usage5h > 5.0
  }

  function Weighted(base: real, timeFactor: real, quotaFactor: real): real {
    base * timeFactor * quotaFactor
  }

  /** 25 points, more the closer the reset and the more quota it would throw away. */
  function Bonus5h(remaining: int, quota: real): real {
    Weighted(25.0, TimeFactor(remaining, 4 * HOUR), QuotaFactor(quota, 50.0))
  }

  function Urgency5h(a: AccountView, now: Time): real {
    if Urgency5hOpen(a, now) then Bonus5h(a.signals.reset5hAt - now, 100.0 - a.signals.usage5h) else 0.0
  }

  predicate Urgency7dOpen(a: AccountView, now: Time) {
    var s := a.signals;
    && IsPlusOrHigherPlan(s.planType) && s.usage7dValid && s.reset7dAt != ZERO_TIME
    && s.usage7d < 100.0 && !UrgencyBlocked(a, now)
    && 0 < s.reset7dAt - now <= 72 * HOUR
    && 100.0 - s.usage7d > 5.0
  }

  function Bonus7d(remaining: int, quota: real): real {
    Weighted(80.0, TimeFactor(remaining, 72 * HOUR), 0.6 + 0.4 * QuotaFactor(quota, 70.0))
  }

  function Urgency7d(a: AccountView, now: Time): real {
    if Urgency7dOpen(a, now) then Bonus7d(a.signals.reset7dAt - now, 100.0 - a.signals.usage7d) else 0.0
  }

  function ExpiryUrgency(s: Signals, now: Time): real {
    var plan := Lower(Trim(s.planType));
    var remaining := s.subscriptionExpiresAt - now;
    if s.subscriptionExpiresAt == ZERO_TIME then 0.0
    else if plan in {"", "free", "api"} then 0.0
    else if remaining <= 0 then 0.0
    else if remaining <= 3 * DAY then 60.0
    else if remaining <= 7 * DAY then 25.0
    else 0.0
  }

  /** The three bonuses recomputeSchedulerLocked adds, all or none of them. */
  function UrgencyBonus(a: AccountView, now: Time, tier: Tier): real {
    if DispatchBonusEligible(a, now, tier)
    then Urgency5h(a, now) + Urgency7d(a, now) + ExpiryUrgency(a.signals, now)
    else 0.0
  }

  function EffectiveBaseConcurrency(s: Signals, storeBase: int): int {
    if s.baseConcurrencyOverride.Some? && s.baseConcurrencyOverride.value > 0 then s.baseConcurrencyOverride.value
    else if storeBase <= 0 then 1
    else storeBase
  }

  function ConcurrencyLimitForTier(baseLimit: int, tier: Tier): int {
    var b := if baseLimit <= 0 then 1 else baseLimit;
    match tier
    case Healthy => b
    case Warm => if b / 2 < 1 then 1 else b / 2
    case Risky => 1
    case Banned => 0
    case Unset => if b >= 2 then 2 else 1
  }

  // ----- the rule for the tier, stated outright -----

  predicate RiskyByRule(a: AccountView, now: Time) {
    || Premium5hRateLimited(a.signals, now)
    || (CountsFreeUsage(a.signals) && a.signals.usage7d >= 95.0)
    || Score(a, now) < 60.0
  }

  predicate WarmByRule(a: AccountView, now: Time) {
    var s := a.signals;
    || Score(a, now) < 85.0
    || s.lastFailureAt > s.lastSuccessAt
    || (s.lastUnauthorizedAt != ZERO_TIME && now - s.lastUnauthorizedAt < 24 * HOUR)
    || (CountsFreeUsage(s) && s.usage7d >= 85.0)
  }

  function TierByRule(a: AccountView, now: Time): Tier {
    if a.sched.tier == Banned then Banned
    else if RiskyByRule(a, now) then Risky
    else if WarmByRule(a, now) && !a.signals.skipWarmTier then Warm
    else Healthy
  }

  function Recomputed(a: AccountView, baseLimit: int, now: Time): SchedState {
    var tier := TierByRule(a, now);
    var score := Score(a, now);
    var bias := EffectiveScoreBias(a, now, tier);
    var conc := EffectiveBaseConcurrency(a.signals, baseLimit);
    SchedState(
      tier := tier,
      schedulerScore := score,
      dispatchScore := score + bias as real + UrgencyBonus(a, now, tier),
      scoreBias := bias,
      baseConcurrency := conc,
      limit := ConcurrencyLimitForTier(conc, tier)
    )
  }

  // ----- the fast scheduler's snapshot -----

  /** fastSchedulerSnapshot recomputes first when a usage window may have moved. */
  predicate SnapshotRecomputes(s: Signals) {
    || (IsPremium5hPlan(s.planType) && s.usage5hValid)
    || (IsPlusOrHigherPlan(s.planType) && s.usage7dValid)
  }

  function AfterSnapshot(a: AccountView, baseLimit: int, now: Time): AccountView {
    if SnapshotRecomputes(a.signals) then a.(sched := Recomputed(a, baseLimit, now)) else a
  }

  datatype Snap = Snap(tier: Tier, score: real, limit: int, proven: bool, available: bool)

  function ReadScore(a: AccountView, now: Time): real {
    var s := a.sched;
    var tier := HealthTier(a);
    var score := if s.dispatchScore == 0.0 && s.schedulerScore != 0.0 then s.schedulerScore else s.dispatchScore;
    if score == 0.0 && tier != Banned && HasDispatchCredential(a.signals) && a.signals.status != Error
    then 100.0 + EffectiveScoreBias(a, now, tier) as real
    else score
  }

  function ReadLimit(a: AccountView, baseLimit: int): int {
    if a.sched.limit > 0 then a.sched.limit
    else
      var conc := if a.sched.baseConcurrency <= 0 then EffectiveBaseConcurrency(a.signals, baseLimit)
                  else a.sched.baseConcurrency;
      ConcurrencyLimitForTier(conc, HealthTier(a))
  }

  predicate ReadAvailable(a: AccountView, now: Time) {
    var s := a.signals;
    && s.status != Error
    && HealthTier(a) != Banned
    && HasDispatchCredential(s)
    && !s.dispatchPaused
    && !Cooling(s, now)
    && !Premium5hRateLimited(s, now)
    && !QuotaAutoPaused(s, now)
    && !UsageExhausted(s)
  }

  function ReadSnap(a: AccountView, baseLimit: int, now: Time): Snap {
    Snap(HealthTier(a), ReadScore(a, now), ReadLimit(a, baseLimit), a.totalRequests > 10, ReadAvailable(a, now))
  }

  function SnapshotOf(a: AccountView, baseLimit: int, now: Time): Snap {
    ReadSnap(AfterSnapshot(a, baseLimit, now), baseLimit, now)
  }
}
