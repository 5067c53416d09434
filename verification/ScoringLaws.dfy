/**
 * What the scores promise: bounds, monotonicity, idempotent recomputation, the limits of the
 * tiers, and the agreement of the fast scheduler's snapshot with the slow path.
 */
module ScoringLaws {
  import opened Basics
  import opened SuccessWindow
  import opened Scoring

  // ----- decay -----

  /** No penalty clock has been set ahead of now. */
  predicate NoFutureEvents(s: Signals, now: Time) {
    s.lastUnauthorizedAt <= now && s.lastRateLimitedAt <= now && s.lastTimeoutAt <= now && s.lastServerErrorAt <= now
  }

  lemma RatioBounds(part: int, whole: int)
    requires 0 <= part <= whole && 0 < whole
    ensures 0.0 <= part as real / whole as real <= 1.0
    ensures part < whole ==> part as real / whole as real < 1.0
  {
    var q := part as real / whole as real;
    assert q * whole as real == part as real;
  }

  lemma RatioMonotone(a: int, b: int, whole: int)
    requires a <= b && 0 < whole
    ensures a as real / whole as real <= b as real / whole as real
  {
    var p, q := a as real / whole as real, b as real / whole as real;
    assert p * whole as real == a as real;
    assert q * whole as real == b as real;
  }

  lemma ScaleMonotone(base: real, x: real, y: real)
    requires base >= 0.0 && x <= y
    ensures base * x <= base * y
  {
  }

  lemma ScaleStrict(base: real, x: real, y: real)
    requires base > 0.0 && x < y
    ensures base * x < base * y
  {
  }

  lemma DecayBounds(base: real, elapsed: int, window: int)
    requires base >= 0.0 && elapsed >= 0
    ensures 0.0 <= LinearDecay(base, elapsed, window) <= base
  {
    if elapsed < window {
      RatioBounds(elapsed, window);
      ScaleMonotone(base, 0.0, 1.0 - elapsed as real / window as real);
      ScaleMonotone(base, 1.0 - elapsed as real / window as real, 1.0);
    }
  }

  /** A decay penalty never grows with the time elapsed, even from an event in the future. */
  lemma DecayMonotone(base: real, e1: int, e2: int, window: int)
    requires base >= 0.0 && e1 <= e2
    ensures LinearDecay(base, e2, window) <= LinearDecay(base, e1, window)
  {
    if 0 < window && e1 < window {
      RatioMonotone(e1, e2, window);
      if e2 < window {
        ScaleMonotone(base, 1.0 - e2 as real / window as real, 1.0 - e1 as real / window as real);
      } else {
        RatioMonotone(e1, window, window);
        assert window as real / window as real == 1.0;
        ScaleMonotone(base, 0.0, 1.0 - e1 as real / window as real);
      }
    }
  }

  // ----- the score -----

  /** With no event in the future every score lies in [-96, 132]. */
  lemma ScoreBounds(a: AccountView, now: Time)
    requires NoFutureEvents(a.signals, now)
    ensures -96.0 <= Score(a, now) <= 132.0
  {
    var s := a.signals;
    DecayBounds(50.0, now - s.lastUnauthorizedAt, 24 * HOUR);
    DecayBounds(22.0, now - s.lastRateLimitedAt, HOUR);
    DecayBounds(18.0, now - s.lastTimeoutAt, 15 * MINUTE);
    DecayBounds(12.0, now - s.lastServerErrorAt, 15 * MINUTE);
  }

  /** An account with an access token and nothing recorded yet. */
  function NewSignals(): Signals {
    Signals(
      planType := "", status := Ready, cooldownUntil := ZERO_TIME,
      accessToken := "t", upstreamType := "", baseURL := "", apiKey := "",
      usage7d := 0.0, usage7dValid := false, reset7dAt := ZERO_TIME, usage5h := 0.0, usage5hValid := false, reset5hAt := ZERO_TIME,
      autoPause5h := 0.0, autoPause7d := 0.0, autoPause5hDisabled := false, autoPause7dDisabled := false,
      latencyEWMA := 0.0, successStreak := 0, failureStreak := 0,
      lastSuccessAt := ZERO_TIME, lastFailureAt := ZERO_TIME, lastUnauthorizedAt := ZERO_TIME, lastRateLimitedAt := ZERO_TIME,
      lastTimeoutAt := ZERO_TIME, lastServerErrorAt := ZERO_TIME,
      window := Window(seq(SIZE, _ => 0), 0, 0), disabled := false, dispatchPaused := false,
      scoreBiasOverride := None, baseConcurrencyOverride := None, creditEnabled := false, creditSkipUsageWindow := false,
      skipWarmTier := false, subscriptionExpiresAt := ZERO_TIME, allowedApiKeys := {})
  }

  const NEVER_COMPUTED := SchedState(Unset, 0.0, 0.0, 0, 0, 0)

  /** A used-up free account whose five requests failed, with every kind of failure just now. */
  function Disgraced(now: Time): AccountView {
    AccountView(
      NewSignals().(
        planType := "free", usage7d := 100.0, usage7dValid := true, latencyEWMA := 20000.0, failureStreak := 4,
        lastUnauthorizedAt := now, lastRateLimitedAt := now, lastTimeoutAt := now, lastServerErrorAt := now,
        window := Window(seq(SIZE, _ => 0), 5, 5)),
      NEVER_COMPUTED, 0)
  }

  /** A proven account on a streak. */
  function Celebrated(): AccountView {
    AccountView(NewSignals().(successStreak := 6), NEVER_COMPUTED, 11)
  }

  lemma {:induction false} SumOfZeros(outcomes: seq<int>)
    requires forall i :: 0 <= i < |outcomes| ==> outcomes[i] == 0
    ensures Sum(outcomes) == 0
  {
    if outcomes != [] {
      SumOfZeros(outcomes[..|outcomes| - 1]);
    }
  }

  /** Both bounds are attained, with no event in the future. */
  lemma ScoreBoundsAreTight(now: Time)
    requires now > 0
    ensures NoFutureEvents(Disgraced(now).signals, now) && Score(Disgraced(now), now) == -96.0
    ensures NoFutureEvents(Celebrated().signals, now) && Score(Celebrated(), now) == 132.0
  {
    SumOfZeros(Disgraced(now).signals.window.results[..5]);
    assert Lower("free") == "free";
  }

  lemma EventFades(base: real, at: Time, now: Time, window: nat)
    requires now > 0 && window > 0
    ensures at == now ==> EventPenalty(base, at, now, window) == base
    ensures at <= now - window || at == 0 ==> EventPenalty(base, at, now, window) == 0.0
  {
    if at == now {
      assert 0 as real / window as real == 0.0;
    }
  }

  /** What a refusal costs as it happens, and that it is forgotten once its window is over. */
  lemma RefusalsCost(a: AccountView, now: Time)
    requires now > 0
    ensures var without := Score(a.(signals := a.signals.(lastUnauthorizedAt := 0)), now);
      && (a.signals.lastUnauthorizedAt == now ==> Score(a, now) == without - 50.0)
      && (a.signals.lastUnauthorizedAt <= now - 24 * HOUR ==> Score(a, now) == without)
    ensures var without := Score(a.(signals := a.signals.(lastRateLimitedAt := 0)), now);
      && (a.signals.lastRateLimitedAt == now ==> Score(a, now) == without - 22.0)
      && (a.signals.lastRateLimitedAt <= now - HOUR ==> Score(a, now) == without)
  {
    hide SuccessRatePenalty, LatencyPenalty, EventPenalty;
    EventFades(50.0, a.signals.lastUnauthorizedAt, now, 24 * HOUR);
    EventFades(50.0, 0, now, 24 * HOUR);
    EventFades(22.0, a.signals.lastRateLimitedAt, now, HOUR);
    EventFades(22.0, 0, now, HOUR);
  }

  /** The same of a failure that may pass. */
  lemma FailuresCost(a: AccountView, now: Time)
    requires now > 0
    ensures var without := Score(a.(signals := a.signals.(lastTimeoutAt := 0)), now);
      && (a.signals.lastTimeoutAt == now ==> Score(a, now) == without - 18.0)
      && (a.signals.lastTimeoutAt <= now - 15 * MINUTE ==> Score(a, now) == without)
    ensures var without := Score(a.(signals := a.signals.(lastServerErrorAt := 0)), now);
      && (a.signals.lastServerErrorAt == now ==> Score(a, now) == without - 12.0)
      && (a.signals.lastServerErrorAt <= now - 15 * MINUTE ==> Score(a, now) == without)
  {
    hide SuccessRatePenalty, LatencyPenalty, EventPenalty;
    EventFades(18.0, a.signals.lastTimeoutAt, now, 15 * MINUTE);
    EventFades(18.0, 0, now, 15 * MINUTE);
    EventFades(12.0, a.signals.lastServerErrorAt, now, 15 * MINUTE);
    EventFades(12.0, 0, now, 15 * MINUTE);
  }

  /** The stepped penalties on either side of each of their thresholds. */
  lemma PenaltySteps()
    ensures LatencyPenalty(4999.0) == 0.0 && LatencyPenalty(5000.0) == LatencyPenalty(9999.0) == 4.0
    ensures LatencyPenalty(10000.0) == LatencyPenalty(19999.0) == 8.0 && LatencyPenalty(20000.0) == 15.0
    ensures var s := NewSignals().(planType := "Free", usage7dValid := true);
      && UsagePenalty7d(s.(usage7d := 69.0)) == 0.0
      && UsagePenalty7d(s.(usage7d := 70.0)) == UsagePenalty7d(s.(usage7d := 84.0)) == 8.0
      && UsagePenalty7d(s.(usage7d := 85.0)) == UsagePenalty7d(s.(usage7d := 94.0)) == 18.0
      && UsagePenalty7d(s.(usage7d := 95.0)) == UsagePenalty7d(s.(usage7d := 99.0)) == 30.0
      && UsagePenalty7d(s.(usage7d := 100.0)) == 40.0
    ensures forall s: Signals :: Lower(s.planType) != "free" || !s.usage7dValid || (s.creditEnabled && s.creditSkipUsageWindow) ==>
      UsagePenalty7d(s) == 0.0
  {
    assert Lower("Free") == "free";
  }

  // ----- urgency -----

  /** Points on the two curves: halfway to the reset, with full and with half the quota that counts. */
  lemma BonusesHalfway()
    ensures Bonus5h(2 * HOUR, 50.0) == 12.5 && Bonus5h(2 * HOUR, 25.0) == 6.25
    ensures Bonus7d(36 * HOUR, 70.0) == 40.0 && Bonus7d(36 * HOUR, 35.0) == 32.0
  {
  }

  lemma TimeFactorRange(r1: int, r2: int, window: nat)
    requires 0 < r2 <= r1 <= window
    ensures 0.0 <= TimeFactor(r1, window) <= TimeFactor(r2, window) < 1.0
  {
    RatioBounds(r1, window);
    RatioMonotone(r2, r1, window);
    var q := r2 as real / window as real;
    assert q * window as real == r2 as real;
  }

  lemma QuotaFactorMonotone(q1: real, q2: real, full: real)
    requires full > 0.0 && q1 <= q2
    ensures 0.0 <= QuotaFactor(q1, full) <= QuotaFactor(q2, full) <= 1.0
  {
    var p, q := q1 / full, q2 / full;
    assert p * full == q1 && q * full == q2;
  }

  lemma PairMonotone(p1: real, p2: real, y1: real, y2: real)
    requires 0.0 <= p1 <= p2 && 0.0 <= y1 <= y2 <= 1.0
    ensures 0.0 <= p1 * y1 <= p2 * y2 <= p2
  {
    ScaleMonotone(p1, y1, y2);
    ScaleMonotone(y2, p1, p2);
    ScaleMonotone(p2, y2, 1.0);
  }

  /** A product of three factors, the last two at most 1, grows with each of those two. */
  lemma ProductMonotone(base: real, x1: real, x2: real, y1: real, y2: real)
    requires base > 0.0 && 0.0 <= x1 <= x2 < 1.0 && 0.0 <= y1 <= y2 <= 1.0
    ensures 0.0 <= Weighted(base, x1, y1) <= Weighted(base, x2, y2) < base
  {
    ScaleMonotone(base, 0.0, x1);
    ScaleMonotone(base, x1, x2);
    ScaleStrict(base, x2, 1.0);
    var p1, p2 := base * x1, base * x2;
    PairMonotone(p1, p2, y1, y2);
    assert Weighted(base, x1, y1) == p1 * y1;
    assert Weighted(base, x2, y2) == p2 * y2;
  }

  lemma Bonus5hMonotone(r1: int, r2: int, q1: real, q2: real)
    requires 0 < r2 <= r1 <= 4 * HOUR && q1 <= q2
    ensures 0.0 <= Bonus5h(r1, q1) <= Bonus5h(r2, q2) < 25.0
  {
    var x1, x2 := TimeFactor(r1, 4 * HOUR), TimeFactor(r2, 4 * HOUR);
    var y1, y2 := QuotaFactor(q1, 50.0), QuotaFactor(q2, 50.0);
    assert 0.0 <= x1 <= x2 < 1.0 by {
      TimeFactorRange(r1, r2, 4 * HOUR);
    }
    assert 0.0 <= y1 <= y2 <= 1.0 by {
      QuotaFactorMonotone(q1, q2, 50.0);
    }
    ProductMonotone(25.0, x1, x2, y1, y2);
  }

  lemma Bonus7dMonotone(r1: int, r2: int, q1: real, q2: real)
    requires 0 < r2 <= r1 <= 72 * HOUR && q1 <= q2
    ensures 0.0 <= Bonus7d(r1, q1) <= Bonus7d(r2, q2) < 80.0
  {
    var x1, x2 := TimeFactor(r1, 72 * HOUR), TimeFactor(r2, 72 * HOUR);
    var y1, y2 := 0.6 + 0.4 * QuotaFactor(q1, 70.0), 0.6 + 0.4 * QuotaFactor(q2, 70.0);
    assert 0.0 <= x1 <= x2 < 1.0 by {
      TimeFactorRange(r1, r2, 72 * HOUR);
    }
    assert 0.0 <= y1 <= y2 <= 1.0 by {
      QuotaFactorMonotone(q1, q2, 70.0);
    }
    ProductMonotone(80.0, x1, x2, y1, y2);
  }

  /** The bonuses never subtract, and together stay below 165. */
  lemma UrgencyBounds(a: AccountView, now: Time, tier: Tier)
    ensures 0.0 <= Urgency5h(a, now) < 25.0
    ensures 0.0 <= Urgency7d(a, now) < 80.0
    ensures 0.0 <= UrgencyBonus(a, now, tier) < 165.0
  {
    var s := a.signals;
    if Urgency5hOpen(a, now) {
      Bonus5hMonotone(s.reset5hAt - now, s.reset5hAt - now, 100.0 - s.usage5h, 100.0 - s.usage5h);
    }
    if Urgency7dOpen(a, now) {
      Bonus7dMonotone(s.reset7dAt - now, s.reset7dAt - now, 100.0 - s.usage7d, 100.0 - s.usage7d);
    }
  }

  /** The 5-hour bonus grows until the reset it waits for. */
  lemma Urgency5hGrowsTowardsReset(a: AccountView, t1: Time, t2: Time)
    requires t1 <= t2 < a.signals.reset5hAt
    ensures Urgency5h(a, t1) <= Urgency5h(a, t2)
  {
    var s := a.signals;
    if Urgency5hOpen(a, t1) {
      assert Urgency5hOpen(a, t2);
      Bonus5hMonotone(s.reset5hAt - t1, s.reset5hAt - t2, 100.0 - s.usage5h, 100.0 - s.usage5h);
    } else {
      UrgencyBounds(a, t2, Healthy);
    }
  }

  lemma Urgency7dGrowsTowardsReset(a: AccountView, t1: Time, t2: Time)
    requires t1 <= t2 < a.signals.reset7dAt
    ensures Urgency7d(a, t1) <= Urgency7d(a, t2)
  {
    var s := a.signals;
    if Urgency7dOpen(a, t1) {
      assert Urgency7dOpen(a, t2);
      Bonus7dMonotone(s.reset7dAt - t1, s.reset7dAt - t2, 100.0 - s.usage7d, 100.0 - s.usage7d);
    } else {
      UrgencyBounds(a, t2, Healthy);
    }
  }

  lemma ExpiryUrgencyGrowsTowardsExpiry(s: Signals, t1: Time, t2: Time)
    requires t1 <= t2 < s.subscriptionExpiresAt
    ensures ExpiryUrgency(s, t1) <= ExpiryUrgency(s, t2)
  {
  }

  /** The 5-hour bonus falls as the window's quota is used up. */
  lemma Urgency5hFallsWithUsage(a: AccountView, b: AccountView, now: Time)
    requires b == a.(signals := a.signals.(usage5h := b.signals.usage5h))
    requires a.signals.usage5h <= b.signals.usage5h
    ensures Urgency5h(b, now) <= Urgency5h(a, now)
  {
    if Urgency5hOpen(b, now) {
      var remaining := a.signals.reset5hAt - now;
      assert Urgency5hOpen(a, now);
      Bonus5hMonotone(remaining, remaining, 100.0 - b.signals.usage5h, 100.0 - a.signals.usage5h);
    } else {
      UrgencyBounds(a, now, Healthy);
    }
  }

  lemma Urgency7dFallsWithUsage(a: AccountView, b: AccountView, now: Time)
    requires b == a.(signals := a.signals.(usage7d := b.signals.usage7d))
    requires a.signals.usage7d <= b.signals.usage7d
    ensures Urgency7d(b, now) <= Urgency7d(a, now)
  {
    if Urgency7dOpen(b, now) {
      var remaining := a.signals.reset7dAt - now;
      assert Urgency7dOpen(a, now);
      Bonus7dMonotone(remaining, remaining, 100.0 - b.signals.usage7d, 100.0 - a.signals.usage7d);
    } else {
      UrgencyBounds(a, now, Healthy);
    }
  }

  // ----- recomputation -----

  /** An account is banned after a recomputation exactly when it was before, and always has a tier. */
  lemma RecomputeKeepsBan(a: AccountView, baseLimit: int, now: Time)
    ensures Recomputed(a, baseLimit, now).tier == Banned <==> a.sched.tier == Banned
    ensures Recomputed(a, baseLimit, now).tier != Unset
  {
  }

  /** Recomputing again at the same instant changes nothing. */
  lemma RecomputeIdempotent(a: AccountView, baseLimit: int, now: Time)
    ensures
      var b := a.(sched := Recomputed(a, baseLimit, now));
      Recomputed(b, baseLimit, now) == b.sched
  {
    var b := a.(sched := Recomputed(a, baseLimit, now));
    assert Score(a, now) == Score(b, now);
    RecomputeKeepsBan(a, baseLimit, now);
    assert TierByRule(b, now) == b.sched.tier;
    assert Urgency5h(a, now) == Urgency5h(b, now);
    assert Urgency7d(a, now) == Urgency7d(b, now);
  }

  /** The bonuses go to the healthy and warm accounts that are available but for the Disabled and DispatchPaused flags. */
  lemma BonusIffAvailable(a: AccountView, baseLimit: int, now: Time)
    ensures
      var r := Recomputed(a, baseLimit, now);
      if r.tier in {Healthy, Warm} && IsAvailable(a.(signals := a.signals.(disabled := false, dispatchPaused := false)), now) then
        r.scoreBias == match a.signals.scoreBiasOverride
          case Some(bias) => bias
          case None => if Lower(Trim(a.signals.planType)) in {"plus", "pro", "team", "prolite", "pro_lite", "pro-lite"} then 50 else 0
      else
        r.scoreBias == 0 && r.dispatchScore == r.schedulerScore
  {
    RecomputeKeepsBan(a, baseLimit, now);
  }

  /** The limit of each tier; the premium clamp that follows it in the code never fires. */
  lemma RecomputedLimit(a: AccountView, baseLimit: int, now: Time)
    ensures
      var r := Recomputed(a, baseLimit, now);
      && r.baseConcurrency >= 1
      && r.baseConcurrency == (match a.signals.baseConcurrencyOverride
                               case Some(own) => if own > 0 then own else Max(1, baseLimit)
                               case None => Max(1, baseLimit))
      && r.limit == (match r.tier
                     case Banned => 0
                     case Risky => 1
                     case Warm => Max(1, r.baseConcurrency / 2)
                     case Healthy => r.baseConcurrency
                     case Unset => 0)
      && (Premium5hRateLimited(a.signals, now) ==> r.limit <= 1)
      && (r.limit == 0 <==> a.sched.tier == Banned)
  {
  }

  /** A base limit that is not positive counts as 1; no account can tell. */
  lemma BaseLimitClamp(a: AccountView, baseLimit: int, now: Time)
    ensures Recomputed(a, baseLimit, now) == Recomputed(a, if baseLimit <= 0 then 1 else baseLimit, now)
    ensures SnapshotOf(a, baseLimit, now) == SnapshotOf(a, if baseLimit <= 0 then 1 else baseLimit, now)
  {
  }

  // ----- the snapshot -----

  /** Taking a snapshot does not change what a later snapshot at the same instant says. */
  lemma SnapshotStable(a: AccountView, baseLimit: int, now: Time)
    ensures SnapshotOf(AfterSnapshot(a, baseLimit, now), baseLimit, now) == SnapshotOf(a, baseLimit, now)
  {
    if SnapshotRecomputes(a.signals) {
      RecomputeIdempotent(a, baseLimit, now);
    }
  }

  /** While a usage window is known on a plan it matters for, a snapshot shows the account as it is now. */
  lemma WindowedSnapshotIsFresh(a: AccountView, baseLimit: int, now: Time)
    requires
      || (a.signals.usage5hValid && Lower(Trim(a.signals.planType)) in {"plus", "pro", "team", "prolite", "pro_lite", "pro-lite"})
      || (a.signals.usage7dValid
          && Lower(Trim(a.signals.planType)) in {"plus", "pro", "team", "prolite", "pro_lite", "pro-lite", "teamplus", "enterprise",
                                                 "business", "edu", "education"})
    ensures SnapshotOf(a, baseLimit, now).tier == Recomputed(a, baseLimit, now).tier
    ensures SnapshotOf(a, baseLimit, now).limit == Recomputed(a, baseLimit, now).limit
  {
    RecomputedLimit(a, baseLimit, now);
    RecomputeKeepsBan(a, baseLimit, now);
  }

  /** The two availability tests differ in the Disabled flag alone, which the snapshot does not read. */
  lemma AvailabilityAgrees(a: AccountView, baseLimit: int, now: Time)
    ensures IsAvailable(a, now) <==> SnapshotOf(a, baseLimit, now).available && !a.signals.disabled
  {
    RecomputeKeepsBan(a, baseLimit, now);
  }

  /** A premium account that has used up its five hours is not available before the reset, and at best risky. */
  lemma SpentFiveHours(a: AccountView, baseLimit: int, now: Time)
    requires Lower(Trim(a.signals.planType)) in {"plus", "pro", "team", "prolite", "pro_lite", "pro-lite"}
    requires a.signals.usage5hValid && a.signals.usage5h >= 100.0 && now < a.signals.reset5hAt
    ensures !IsAvailable(a, now) && !SnapshotOf(a, baseLimit, now).available
    ensures var r := Recomputed(a, baseLimit, now); r.tier in {Risky, Banned} && r.limit <= 1
    ensures a.sched.tier != Banned ==> Recomputed(a, baseLimit, now).tier == Risky
  {
    assert Premium5hRateLimited(a.signals, now);
    RecomputedLimit(a, baseLimit, now);
  }

  /** Availability told by the account's own record: a credential, and nothing that speaks against it. */
  lemma AvailableMeans(a: AccountView, now: Time)
    ensures var s := a.signals;
      var spent5h := s.usage5hValid && (s.reset5hAt == ZERO_TIME || now < s.reset5hAt) && !s.autoPause5hDisabled && s.autoPause5h > 0.0
                     && s.usage5h / 100.0 >= s.autoPause5h;
      var spent7d := s.usage7dValid && (s.reset7dAt == ZERO_TIME || now < s.reset7dAt) && !s.autoPause7dDisabled && s.autoPause7d > 0.0
                     && s.usage7d / 100.0 >= s.autoPause7d;
      IsAvailable(a, now) <==>
        && !s.disabled && !s.dispatchPaused && s.status != Error && a.sched.tier != Banned
        && !(s.status == Cooldown && now < s.cooldownUntil)
        && !(Lower(s.planType) == "free" && s.usage7dValid && s.usage7d >= 100.0 && !(s.creditEnabled && s.creditSkipUsageWindow))
        && !(Lower(Trim(s.planType)) in {"plus", "pro", "team", "prolite", "pro_lite", "pro-lite"}
             && s.usage5hValid && s.usage5h >= 100.0 && s.reset5hAt > now)
        && !spent5h && !spent7d
        && (Trim(s.accessToken) != ""
            || (Lower(Trim(s.upstreamType)) == "openai_responses" && Trim(s.baseURL) != "" && Trim(s.apiKey) != ""))
  {
  }

  /** What an available account's snapshot can be filed under. */
  lemma AvailableTier(a: AccountView, baseLimit: int, now: Time)
    ensures SnapshotOf(a, baseLimit, now).tier != Unset
    ensures SnapshotOf(a, baseLimit, now).available ==> SnapshotOf(a, baseLimit, now).tier in {Healthy, Warm, Risky}
  {
    RecomputeKeepsBan(a, baseLimit, now);
  }

  /** When the snapshot's zero-score fallbacks leave a recomputed score alone. */
  predicate ScoreKept(a: AccountView) {
    || a.sched.dispatchScore != 0.0
    || (a.sched.schedulerScore == 0.0
        && (|| a.sched.tier == Banned
            || !HasDispatchCredential(a.signals)
            || a.signals.status == Error))
  }

  /**
   * After a recomputation at the same instant the fast snapshot gives the tier and limit the slow
   * path uses, and the same score exactly when no zero-score fallback replaces it with another value.
   */
  lemma SnapshotAgreesWithRecompute(a: AccountView, baseLimit: int, now: Time)
    requires a.sched == Recomputed(a, baseLimit, now)
    ensures
      var snap := SnapshotOf(a, baseLimit, now);
      && snap.tier == a.sched.tier
      && snap.limit == a.sched.limit
      && (snap.score == a.sched.dispatchScore <==>
          ScoreKept(a) || (a.sched.schedulerScore == 0.0 && a.sched.scoreBias == -100))
  {
    RecomputeKeepsBan(a, baseLimit, now);
    RecomputedLimit(a, baseLimit, now);
  }

  /** What a new account is recomputed to, by its plan and the end of its subscription. */
  lemma NewAccountScores(base: nat, now: Time, left: nat)
    requires base > 0 && left > 0
    ensures Recomputed(AccountView(NewSignals(), NEVER_COMPUTED, 0), base, now) == SchedState(Healthy, 100.0, 100.0, 0, base, base)
    ensures var plus := NewSignals().(planType := "plus");
      && Recomputed(AccountView(plus, NEVER_COMPUTED, 0), base, now) == SchedState(Healthy, 100.0, 150.0, 50, base, base)
      && Recomputed(AccountView(plus.(subscriptionExpiresAt := now + left), NEVER_COMPUTED, 0), base, now).dispatchScore ==
           if left <= 3 * DAY then 210.0 else if left <= 7 * DAY then 175.0 else 150.0
  {
    assert Lower("plus") == "plus" && Trim("plus") == "plus" && Lower("") == "" && Trim("t") == "t";
  }

  /** A new account whose score bias, within the range the settings accept, cancels its score of 100. */
  function Cancelled(baseLimit: int, now: Time): AccountView {
    var a := AccountView(NewSignals().(scoreBiasOverride := Some(-100)), NEVER_COMPUTED, 0);
    a.(sched := Recomputed(a, baseLimit, now))
  }

  /** The scores can differ: recomputed to 0, this account is filed by the fast scheduler at 100. */
  lemma FallbackReplacesZero(baseLimit: int, now: Time)
    ensures
      var a := Cancelled(baseLimit, now);
      && a.sched == Recomputed(a, baseLimit, now)
      && a.sched.dispatchScore == 0.0
      && SnapshotOf(a, baseLimit, now).available && SnapshotOf(a, baseLimit, now).score == 100.0
  {
    var unrecorded := AccountView(NewSignals().(scoreBiasOverride := Some(-100)), NEVER_COMPUTED, 0);
    assert Trim("") == "" && Trim("t") == "t" && Lower("") == "";
    RecomputeIdempotent(unrecorded, baseLimit, now);
  }
}
