/**
 * Model cooldowns (auth/store.go:1429-1514, 1999-2026 and 4380-4431): the doubling backoff of
 * MarkModelCooldown on Go's int64 durations, and how long it can be trusted.
 */
module Backoff {
  import opened Basics
  import opened Scoring
  import opened ScoringLaws
  import opened SuccessWindow
  import opened Accounts

  const CAP: nat := 30 * MINUTE
  const TWO63: int := 0x8000_0000_0000_0000
  const TWO64: int := 0x1_0000_0000_0000_0000

  /** Two's complement int64. */
  function Wrap64(x: int): (r: int)
    ensures -TWO63 <= r < TWO63
  {
    (x + TWO63) % TWO64 - TWO63
  }

  function Pow2(n: nat): (p: nat)
    ensures p >= 1
  {
    if n == 0 then 1 else 2 * Pow2(n - 1)
  }

  datatype ModelCooldown = ModelCooldown(reason: string, resetAt: int, updatedAt: Time, level: int)

  type Cooldowns = map<string, ModelCooldown>

  /** The duration asked for, as accepted. */
  function Accepted(duration: int): (d: int)
    ensures 0 < d <= CAP
    ensures 0 < duration <= 30 * MINUTE ==> d == duration
    ensures duration <= 0 ==> d == 300 * SECOND
    ensures duration > 30 * MINUTE ==> d == 1800 * SECOND
  {
    if duration <= 0 then 5 * MINUTE else if duration > CAP then CAP else duration
  }

  predicate Active(c: Cooldowns, key: string, now: Time) {
    key in c && c[key].resetAt > now
  }

  function LevelOf(c: Cooldowns, key: string): int {
    if key in c then c[key].level else 0
  }

  /** What the backoff is meant to be: the duration doubled `level` times, at most half an hour. */
  function Ideal(d: int, level: nat): int {
    Min(CAP, d * Pow2(level))
  }

  /** What int64 makes of it. */
  function Backoff64(d: int, level: nat): int {
    Min(CAP, Wrap64(d * Pow2(level)))
  }

  lemma WrapTwice(x: int)
    ensures Wrap64(2 * Wrap64(x)) == Wrap64(2 * x)
  {
    var k := (x + TWO63) / TWO64;
    assert Wrap64(x) == x - k * TWO64;
    assert 2 * Wrap64(x) + TWO63 == 2 * x + TWO63 - 2 * k * TWO64;
  }

  lemma WrapSmall(x: int)
    requires -TWO63 <= x < TWO63
    ensures Wrap64(x) == x
  {
  }

  /** The loop: one doubling, then level - 1 more. */
  method Double(duration: int, level: int) returns (d: int)
    requires 0 < duration <= CAP
    ensures d == Wrap64(duration * Pow2(if level >= 1 then level else 1))
  {
    WrapSmall(2 * duration);
    d := Wrap64(duration * 2);
    assert duration * Pow2(1) == duration * 2;
    for i: int := 0 to (if level >= 1 then level - 1 else 0)
      invariant d == Wrap64(duration * Pow2(i + 1))
    {
      WrapTwice(duration * Pow2(i + 1));
      assert duration * Pow2(i + 2) == 2 * (duration * Pow2(i + 1));
      d := Wrap64(d * 2);
    }
  }

  /** The table of one account. */
  function Marked(c: Cooldowns, key: string, duration: int, reason: string, now: Time): Cooldowns {
    if key == "" then c
    else
      var active := Active(c, key, now);
      var level := LevelOf(c, key) + if active then 1 else 0;
      var d := if active then Backoff64(Accepted(duration), if level >= 1 then level else 1) else Accepted(duration);
      c[key := ModelCooldown(if reason == "" then "rate_limited" else reason, now + d, now, level)]
  }

  function Cleared(c: Cooldowns, key: string): Cooldowns {
    if key == "" then c else c - {key}
  }

  /** An entry read back, if it is not over yet: from the database at level 0, from the cache at the level it has there. */
  function Restored(c: Cooldowns, key: string, reason: string, resetAt: int, updatedAt: Time, level: nat, now: Time): Cooldowns {
    if key == "" || resetAt <= now then c
    else c[key := ModelCooldown(if Trim(reason) == "" then "rate_limited" else Trim(reason), resetAt, updatedAt, level)]
  }

  /** normalizeModelCooldownKey */
  function Normalized(model: string): string {
    Lower(Trim(model))
  }

  function RateLimitedSignals(s: Signals, now: Time): Signals {
    s.(lastRateLimitedAt := now, lastFailureAt := now, failureStreak := ClampInt(s.failureStreak + 1, 0, 20), successStreak := 0)
  }

  /**
   * What a mark does to the account: a rate limit is recorded and the account recomputed. The tier it steps
   * down to is overwritten there; a ban is neither made nor lifted.
   */
  method RecordRateLimit(acc: Account, baseLimit: int, now: Time)
    modifies acc`signals, acc`sched
    ensures acc.signals == RateLimitedSignals(old(acc.signals), now)
    ensures acc.sched == Recomputed(acc.View(), baseLimit, now)
    ensures acc.sched.tier == Banned <==> old(acc.sched.tier) == Banned
  {
    hide Recomputed, HasDispatchCredential, WellFormed;
    var tier := acc.sched.tier;
    if HealthTier(acc.View()) == Healthy {
      tier := Warm;
    } else if tier != Banned {
      tier := Risky;
    }
    acc.signals := acc.signals.(
      lastRateLimitedAt := now,
      lastFailureAt := now,
      failureStreak := ClampInt(acc.signals.failureStreak + 1, 0, 20),
      successStreak := 0
    );
    acc.sched := acc.sched.(tier := tier);
    RecomputeKeepsBan(acc.View(), baseLimit, now);
    RecomputeIdempotent(acc.View(), baseLimit, now);
    acc.RecomputeScheduler(baseLimit, now);
  }

  class ModelCooldowns {
    const acc: Account
    var cooldowns: Cooldowns

    constructor (acc: Account)
      ensures this.acc == acc && cooldowns == map[]
    {
      this.acc := acc;
      cooldowns := map[];
    }

    method MarkModelCooldown(model: string, duration: int, reason: string, baseLimit: int, now: Time)
      modifies this, acc`signals, acc`sched
      ensures cooldowns == Marked(old(cooldowns), Normalized(model), duration, reason, now)
      ensures Normalized(model) == "" ==> acc.signals == old(acc.signals) && acc.sched == old(acc.sched)
      ensures Normalized(model) != "" ==>
        && acc.signals == RateLimitedSignals(old(acc.signals), now)
        && acc.sched == Recomputed(acc.View(), baseLimit, now)
      ensures acc.sched.tier == Banned <==> old(acc.sched.tier) == Banned
    {
      hide Recomputed, HasDispatchCredential, WellFormed, Normalized, Pow2;
      var key := Normalized(model);
      if key == "" {
        return;
      }
      var d := duration;
      if d <= 0 {
        d := 5 * MINUTE;
      }
      if d > CAP {
        d := CAP;
      }
      var level := LevelOf(cooldowns, key);
      if Active(cooldowns, key, now) {
        level := level + 1;
        d := Double(d, level);
        if d > CAP {
          d := CAP;
        }
      }
      cooldowns := cooldowns[key := ModelCooldown(if reason == "" then "rate_limited" else reason, now + d, now, level)];
      RecordRateLimit(acc, baseLimit, now);
    }

    method ClearModelCooldown(model: string) returns (cleared: bool)
      modifies this
      ensures cooldowns == Cleared(old(cooldowns), Normalized(model))
      ensures cleared <==> Normalized(model) != "" && Normalized(model) in old(cooldowns)
    {
      hide Normalized;
      var key := Normalized(model);
      if key == "" || key !in cooldowns {
        return false;
      }
      cooldowns := cooldowns - {key};
      return true;
    }

    /** RestoreModelCooldown: what the database has, at level 0. */
    method RestoreModelCooldown(model: string, reason: string, resetAt: int, updatedAt: Time, now: Time)
      modifies this
      ensures cooldowns == Restored(old(cooldowns), Normalized(model), reason, resetAt, updatedAt, 0, now)
    {
      hide Normalized;
      var key := Normalized(model);
      if key == "" || resetAt == ZERO_TIME || resetAt <= now {
        return;
      }
      var trimmed := Trim(reason);
      if trimmed == "" {
        trimmed := "rate_limited";
      }
      cooldowns := cooldowns[key := ModelCooldown(trimmed, resetAt, updatedAt, 0)];
    }

    /** applyCachedModelCooldown: what the token cache has, at the level it had where it was marked. */
    method ApplyCachedModelCooldown(model: string, reason: string, resetAt: int, updatedAt: Time, level: nat, now: Time)
      modifies this
      ensures cooldowns ==
        Restored(old(cooldowns), Normalized(model), reason, resetAt, if updatedAt == ZERO_TIME then now else updatedAt, level, now)
    {
      hide Normalized;
      if resetAt <= now {
        return;
      }
      var at := updatedAt;
      if at == ZERO_TIME {
        at := now;
      }
      var key := Normalized(model);
      if key == "" {
        return;
      }
      cooldowns := cooldowns[key := ModelCooldown(if Trim(reason) == "" then "rate_limited" else Trim(reason), resetAt, at, level)];
    }
  }

  lemma {:induction false} Pow2Sum(m: nat, n: nat)
    ensures Pow2(m + n) == Pow2(m) * Pow2(n)
  {
    if n > 0 {
      Pow2Sum(m, n - 1);
      assert Pow2(m + n) == 2 * Pow2(m + n - 1);
    }
  }

  lemma Pow2Is22()
    ensures Pow2(22) == 4194304
  {
    assert Pow2(11) == 2048;
    Pow2Sum(11, 11);
  }

  lemma Pow2Is63()
    ensures Pow2(63) == TWO63
  {
    Pow2Is22();
    Pow2Sum(22, 22);
    assert Pow2(19) == 524288;
    Pow2Sum(44, 19);
  }

  lemma Pow2Is40()
    ensures Pow2(40) == 1_099_511_627_776
  {
    Pow2Is22();
    assert Pow2(18) == 262144;
    Pow2Sum(22, 18);
  }

  lemma Pow2Is64()
    ensures Pow2(64) == TWO64
  {
    Pow2Is63();
  }

  lemma Regroup(x: int, y: int, z: int)
    ensures x * (y * z) == x * z * y
  {
  }

  lemma MultipleWraps(k: int)
    ensures Wrap64(k * TWO64) == 0
  {
    assert (k * TWO64 + TWO63) % TWO64 == TWO63;
  }

  lemma Pow2Monotone(m: nat, n: nat)
    requires m <= n
    ensures Pow2(m) <= Pow2(n)
  {
    Pow2Sum(m, n - m);
  }

  lemma ProductBounds(x: nat, y: nat, x': nat, y': nat)
    requires 0 < x <= x' && 0 < y <= y'
    ensures 0 < x * y <= x' * y'
  {
    assert x * y <= x' * y <= x' * y';
  }

  /** Up to level 22 the doubling does not overflow. */
  lemma SafeLevels(d: int, level: nat)
    requires 0 < d <= CAP && level <= 22
    ensures Backoff64(d, level) == Ideal(d, level) && 0 < Backoff64(d, level) <= CAP
  {
    hide Pow2, Wrap64;
    Pow2Is22();
    Pow2Monotone(level, 22);
    ProductBounds(d, Pow2(level), CAP, Pow2(22));
    WrapSmall(d * Pow2(level));
  }

  /** From level 64 on no duration survives: the cooldown ends as it begins. */
  lemma Vanishes(d: int, level: nat)
    requires level >= 64
    ensures Backoff64(d, level) == 0
  {
    hide Wrap64, Pow2;
    Pow2Is64();
    Pow2Sum(64, level - 64);
    Regroup(d, TWO64, Pow2(level - 64));
    MultipleWraps(d * Pow2(level - 64));
  }

  /** The duration that a level over 22 turns into nothing or worse. */
  function Spoiler(level: nat): int {
    if level <= 63 then Pow2(63 - level) else 1
  }

  /** 2^(63 - level) doubled `level` times is one more than int64 can hold. */
  lemma SignBitOverflows(level: nat)
    requires 23 <= level <= 63
    ensures 0 < Pow2(63 - level) <= CAP && Wrap64(Pow2(63 - level) * Pow2(level)) == -TWO63
  {
    hide Pow2;
    Pow2Is63();
    Pow2Sum(63 - level, level);
    Pow2Is40();
    Pow2Monotone(63 - level, 40);
  }

  lemma SpoilerOverflows(level: nat)
    requires level >= 23
    ensures 0 < Spoiler(level) <= CAP && Backoff64(Spoiler(level), level) <= 0 < Ideal(Spoiler(level), level)
  {
    hide Pow2, Wrap64;
    if level <= 63 {
      SignBitOverflows(level);
    } else {
      Vanishes(1, level);
    }
    ProductBounds(Spoiler(level), Pow2(level), Spoiler(level), Pow2(level));
  }

  /** The backoff is what it is meant to be, for every accepted duration, exactly up to level 22. */
  lemma ExactUpToLevel22(level: nat)
    ensures (forall d :: 0 < d <= CAP ==> Backoff64(d, level) == Ideal(d, level)) <==> level <= 22
  {
    if level <= 22 {
      forall d | 0 < d <= CAP
        ensures Backoff64(d, level) == Ideal(d, level)
      {
        SafeLevels(d, level);
      }
    } else {
      SpoilerOverflows(level);
    }
  }

  // ----- runs -----

  /** What happens to the table of an account; keys are normalized, and an entry read back brings its level. */
  datatype Event =
    | Mark(key: string, duration: int, reason: string, now: Time)
    | Clear(key: string)
    | Restore(key: string, reason: string, resetAt: int, updatedAt: Time, level: nat, now: Time)

  function Run(events: seq<Event>): Cooldowns {
    if events == [] then map[]
    else
      var before := Run(events[..|events| - 1]);
      match events[|events| - 1]
      case Mark(key, duration, reason, now) => Marked(before, key, duration, reason, now)
      case Clear(key) => Cleared(before, key)
      case Restore(key, reason, resetAt, updatedAt, level, now) => Restored(before, key, reason, resetAt, updatedAt, level, now)
  }

  /**
   * How many marks of the key found its previous cooldown still active, since the key was last cleared or
   * read back, on top of the level it was read back with.
   */
  function Hits(events: seq<Event>, key: string): nat {
    if events == [] then 0
    else
      var before := events[..|events| - 1];
      var hits, e := Hits(before, key), events[|events| - 1];
      if e.key != key then hits
      else
        match e
        case Mark(_, _, _, now) => hits + if Active(Run(before), key, now) then 1 else 0
        case Clear(_) => 0
        case Restore(_, _, resetAt, _, level, now) => if resetAt > now then level else hits
  }

  /** The level is that number: no mark, and no cooldown that runs out, brings it down. */
  lemma {:induction false} LevelCountsHits(events: seq<Event>, key: string)
    requires key != ""
    ensures LevelOf(Run(events), key) == Hits(events, key)
    decreases |events|
  {
    if events != [] {
      LevelCountsHits(events[..|events| - 1], key);
    }
  }

  /**
   * Over any run, a mark lasts as long as it is meant to, and at most half an hour, while no more than 22
   * marks of its key, this one included, have hit an active cooldown.
   */
  lemma RunBacksOff(events: seq<Event>, m: Event)
    requires m.Mark? && m.key != "" && Hits(events + [m], m.key) <= 22
    ensures
      var hit := Active(Run(events), m.key, m.now);
      var after := Run(events + [m]);
      && m.key in after && after[m.key].updatedAt == m.now
      && after[m.key].resetAt == m.now + (if hit then Ideal(Accepted(m.duration), Hits(events + [m], m.key)) else Accepted(m.duration))
      && m.now < after[m.key].resetAt <= m.now + CAP
  {
    var all := events + [m];
    assert all[..|all| - 1] == events;
    LevelCountsHits(events, m.key);
    LevelCountsHits(all, m.key);
    SafeLevels(Accepted(m.duration), Hits(all, m.key));
  }

  lemma CapStays(level: nat)
    ensures Ideal(CAP, level) == CAP
  {
    ProductBounds(CAP, 1, CAP, Pow2(level));
  }

  lemma {:induction false} MarkedAgain(marks: seq<Event>, key: string, now: Time)
    requires key != "" && 1 <= |marks| <= 23
    requires forall m :: m in marks ==> m.Mark? && m.key == key && m.duration == CAP && m.now == now
    ensures Hits(marks, key) == |marks| - 1
    ensures key in Run(marks) && Run(marks)[key].resetAt == now + CAP
    decreases |marks|
  {
    hide Pow2, Wrap64, Ideal;
    var n := |marks| - 1;
    var m := marks[n];
    assert marks == marks[..n] + [m];
    if n > 0 {
      MarkedAgain(marks[..n], key, now);
    } else {
      assert Run(marks[..n]) == map[];
    }
    RunBacksOff(marks[..n], m);
    CapStays(n);
  }

  lemma HalfHourOverflows()
    ensures Wrap64(CAP * Pow2(23)) < 0
  {
    Pow2Is22();
    assert Pow2(23) == 8388608;
  }

  /** The 24th mark of half an hour in a burst hits for the 23rd time, and its cooldown is over before it starts. */
  lemma BurstSpoilsBackoff(marks: seq<Event>, key: string, now: Time)
    requires key != "" && |marks| == 24
    requires forall m :: m in marks ==> m.Mark? && m.key == key && m.duration == CAP && m.now == now
    ensures key in Run(marks) && Run(marks)[key].resetAt < now
  {
    hide Hits, Ideal, Wrap64, Pow2;
    var before := marks[..23];
    MarkedAgain(before, key, now);
    LevelCountsHits(before, key);
    HalfHourOverflows();
  }
}
