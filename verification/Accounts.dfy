/** The runtime account (auth/store.go): the fields the schedulers write in place. */
module Accounts {
  import opened Basics
  import opened Scoring

  class Account {
    const dbID: int
    var signals: Signals
    var sched: SchedState
    var activeRequests: int
    var totalRequests: int
    var lastUsedAt: Time

    constructor (dbID: int, signals: Signals)
      ensures this.dbID == dbID && this.signals == signals
      ensures sched == SchedState(Unset, 0.0, 0.0, 0, 0, 0)
      ensures activeRequests == totalRequests == lastUsedAt == 0
    {
      this.dbID := dbID;
      this.signals := signals;
      sched := SchedState(Unset, 0.0, 0.0, 0, 0, 0);
      activeRequests, totalRequests, lastUsedAt := 0, 0, 0;
    }

    function View(): AccountView
      reads this
    {
      AccountView(signals, sched, totalRequests)
    }

    /** An account without a key list serves every key, even the anonymous one. */
    predicate AllowsAPIKey(apiKeyID: int)
      reads this`signals
    {
      if signals.allowedApiKeys == {} then true
      else if apiKeyID <= 0 then false
      else apiKeyID in signals.allowedApiKeys
    }

    function UsagePercentForScheduling(): real
      reads this`signals
    {
      SchedulingUsage(signals)
    }

    /** recomputeSchedulerLocked: the tier is decided by overrides in sequence. */
    method RecomputeScheduler(baseLimit: int, now: Time)
      modifies this`sched
      ensures sched == Recomputed(old(View()), baseLimit, now)
    {
      var a := View();
      var score := Score(a, now);

      var tier := Healthy;
      if score < 60.0 {
        tier := Risky;
      } else if score < 85.0 {
        tier := Warm;
      }
      if signals.lastFailureAt > signals.lastSuccessAt && signals.lastFailureAt != ZERO_TIME && tier == Healthy {
        tier := Warm;
      }
      if signals.lastUnauthorizedAt != ZERO_TIME && now - signals.lastUnauthorizedAt < 24 * HOUR && tier == Healthy {
        tier := Warm;
      }
      if CountsFreeUsage(signals) {
        if signals.usage7d >= 95.0 {
          tier := Risky;
        } else if signals.usage7d >= 85.0 && tier == Healthy {
          tier := Warm;
        }
      }
      if sched.tier == Banned {
        tier := Banned;
      }
      if Premium5hRateLimited(signals, now) && tier != Banned {
        tier := Risky;
      }
      if signals.skipWarmTier && tier == Warm {
        tier := Healthy;
      }

      var conc := EffectiveBaseConcurrency(signals, baseLimit);
      var bias := EffectiveScoreBias(a, now, tier);
      var urgency := 0.0;
      if DispatchBonusEligible(a, now, tier) {
        urgency := Urgency5h(a, now) + Urgency7d(a, now) + ExpiryUrgency(signals, now);
      }
      var limit := ConcurrencyLimitForTier(conc, tier);
      if Premium5hRateLimited(signals, now) && limit > 1 {
        limit := 1;
      }
      sched := SchedState(tier, score, score + bias as real + urgency, bias, conc, limit);
    }

    /** fastSchedulerSnapshot */
    method FastSchedulerSnapshot(baseLimit: int, now: Time) returns (snap: Snap)
      modifies this`sched
      ensures snap == SnapshotOf(old(View()), baseLimit, now)
      ensures View() == AfterSnapshot(old(View()), baseLimit, now)
    {
      if SnapshotRecomputes(signals) {
        RecomputeScheduler(baseLimit, now);
      }
      var tier := HealthTier(View());
      var score := sched.dispatchScore;
      var limit := sched.limit;
      var proven := totalRequests > 10;

      if score == 0.0 && sched.schedulerScore != 0.0 {
        score := sched.schedulerScore;
      }
      if score == 0.0 && tier != Banned && HasDispatchCredential(signals) && signals.status != Error {
        score := 100.0 + EffectiveScoreBias(View(), now, tier) as real;
      }
      if limit <= 0 {
        var conc := sched.baseConcurrency;
        if conc <= 0 {
          conc := EffectiveBaseConcurrency(signals, baseLimit);
        }
        limit := ConcurrencyLimitForTier(conc, tier);
      }

      var available := signals.status != Error && tier != Banned && HasDispatchCredential(signals);
      if signals.dispatchPaused {
        available := false;
      }
      if Cooling(signals, now) {
        available := false;
      }
      if Premium5hRateLimited(signals, now) {
        available := false;
      }
      if QuotaAutoPaused(signals, now) {
        available := false;
      }
      if UsageExhausted(signals) {
        available := false;
      }
      return Snap(tier, score, limit, proven, available);
    }

    /**
     * tryAcquireAccount, undisturbed: with no concurrent caller the first compare-and-swap succeeds.
     * Module Slots has every interleaving of the loop.
     */
    method TryAcquire(limit: int, now: Time) returns (ok: bool)
      modifies this`activeRequests, this`totalRequests, this`lastUsedAt
      ensures ok <==> limit > 0 && old(activeRequests) < limit
      ensures ok ==> activeRequests == old(activeRequests) + 1 && totalRequests == old(totalRequests) + 1 && lastUsedAt == now
      ensures !ok ==> activeRequests == old(activeRequests) && totalRequests == old(totalRequests) && lastUsedAt == old(lastUsedAt)
    {
      if limit <= 0 {
        return false;
      }
      var current := activeRequests;
      if current >= limit {
        return false;
      }
      activeRequests := current + 1;
      totalRequests := totalRequests + 1;
      lastUsedAt := now;
      return true;
    }

    /** FastScheduler.Release */
    method Release()
      modifies this`activeRequests
      ensures activeRequests == old(activeRequests) - 1
    {
      activeRequests := activeRequests - 1;
    }
  }
}
