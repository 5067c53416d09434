/** Store.NextExcludingWithFilter (auth/store.go:3076-3149): the fast path, the slow path, and the retries of both. */
module Dispatch {
  import opened Basics
  import opened Scoring
  import opened SuccessWindow
  import opened ScoringLaws
  import opened Accounts
  import opened Buckets
  import opened Scans
  import FastScheduler
  import opened Rotation
  import opened SlowPath

  const ATTEMPTS: nat := 16

  /** A cooldown another process left in the shared cache. */
  datatype CooldownRecord = CooldownRecord(reason: string, resetAt: Time)

  /** What the shared cache answers at each attempt for each account: anything at all. */
  type Answers = (nat, int) -> Option<CooldownRecord>

  predicate Live(answer: Option<CooldownRecord>, id: int, now: Time) {
    id != 0 && answer.Some? && answer.value.resetAt > now
  }

  datatype Cause = Unauthorized | RateLimited | Other

  /** What the switch of applyCachedAccountCooldown sees after normalizeCooldownReason. */
  function CauseOf(reason: string): Cause {
    var r := if Trim(reason) == "" then "rate_limited" else Trim(reason);
    if r == "unauthorized" then Unauthorized
    else if r in {"rate_limited", "usage_limited", "usage_limit"} then RateLimited
    else Other
  }

  /** Cooling down until the record says so. */
  predicate CooledBy(s: Signals, record: CooldownRecord) {
    s.status == Cooldown && s.cooldownUntil == record.resetAt
  }

  /** Available but for the Disabled flag, which only the slow path reads. */
  predicate OpenView(v: AccountView, now: Time) {
    IsAvailable(v.(signals := v.signals.(disabled := false)), now)
  }

  predicate Open(a: Account, now: Time)
    reads a
  {
    OpenView(a.View(), now)
  }

  /** An account as it was before the request it has just been given was counted. */
  function BeforeGrant(a: Account): AccountView
    reads a
  {
    AccountView(a.signals, a.sched, a.totalRequests - 1)
  }

  /** The fast scheduler could grant the account a slot, and has: the load is within the limit of its snapshot. */
  ghost predicate GrantedFast(a: Account, request: Request, groups: GroupCheck, baseLimit: int, now: Time)
    reads a
  {
    var snap := SnapshotOf(BeforeGrant(a), baseLimit, now);
    Eligible(a, request, groups) && snap.available && 0 < snap.limit && a.activeRequests <= snap.limit
  }

  /** What the fast scheduler grants is open, and shows the same after the refresh that came with the grant. */
  lemma OpenWhenGranted(v: AccountView, w: AccountView, baseLimit: int, now: Time)
    requires Refreshed(v, w.signals, w.sched, baseLimit, now) && SnapshotOf(v, baseLimit, now).available
    ensures OpenView(w, now) && !Cooling(w.signals, now)
  {
    RecomputeKeepsBan(v, baseLimit, now);
  }

  lemma SameSnapshotWhenGranted(v: AccountView, w: AccountView, baseLimit: int, now: Time)
    requires Refreshed(v, w.signals, w.sched, baseLimit, now) && w.totalRequests == v.totalRequests + 1
    ensures SnapshotOf(AccountView(w.signals, w.sched, w.totalRequests - 1), baseLimit, now) == SnapshotOf(v, baseLimit, now)
  {
    SnapshotStable(v, baseLimit, now);
    assert v == AccountView(v.signals, v.sched, v.totalRequests);
  }

  /** What a grant of the fast scheduler, told by the facts it was made on, leaves to see. */
  lemma GrantShows(v: AccountView, a: Account, f: Facts, request: Request, groups: GroupCheck, baseLimit: int, now: Time)
    requires f.snap == SnapshotOf(v, baseLimit, now) && Grantable(f) && Eligible(a, request, groups)
    requires Refreshed(v, a.signals, a.sched, baseLimit, now)
    requires a.totalRequests == v.totalRequests + 1 && a.activeRequests == f.active + 1
    ensures Open(a, now) && !Cooling(a.signals, now) && GrantedFast(a, request, groups, baseLimit, now)
  {
    hide SnapshotOf, AfterSnapshot, Refreshed, OpenView, Cooling, Eligible;
    OpenWhenGranted(v, a.View(), baseLimit, now);
    SameSnapshotWhenGranted(v, a.View(), baseLimit, now);
  }

  lemma NotCooling(v: AccountView, eligible: bool, active: int, baseLimit: int, now: Time)
    ensures OfferOf(v, eligible, active, baseLimit, now).open ==> !Cooling(v.signals, now) && eligible
  {
  }

  lemma OpenWhenWon(v: AccountView, w: AccountView, eligible: bool, active: int, baseLimit: int, now: Time)
    requires OfferOf(v, eligible, active, baseLimit, now).open && w.signals == v.signals && w.sched == v.sched
    ensures OpenView(w, now)
  {
  }

  /** One slot more on `acc`, none anywhere else. */
  twostate predicate TakesOneSlot(all: set<Account>, new acc: Account?)
    reads all`activeRequests
  {
    forall a :: a in all ==> a.activeRequests == old(a.activeRequests) + if a == acc then 1 else 0
  }

  /** Only the accounts a cached cooldown was found for have new signals: they are cooling down. */
  twostate predicate OnlyCooled(all: set<Account>, new cooled: set<Account>, now: Time)
    reads all`signals
  {
    forall a :: a in all ==> if a in cooled then Cooling(a.signals, now) else a.signals == old(a.signals)
  }

  /** What a record found now writes among the signals: the rest stay as they are. */
  function CooledSignals(s: Signals, record: CooldownRecord, now: Time): Signals {
    var cause := CauseOf(record.reason);
    s.(status := Cooldown,
       cooldownUntil := record.resetAt,
       lastUnauthorizedAt := if cause == Unauthorized then now else s.lastUnauthorizedAt,
       lastRateLimitedAt := if cause == RateLimited then now else s.lastRateLimitedAt,
       lastFailureAt := if cause == Other then s.lastFailureAt else now)
  }

  /** What each kind of reason leaves behind, told by the reason itself. */
  lemma ReasonsTold(s: Signals, record: CooldownRecord, now: Time)
    ensures var c, reason := CooledSignals(s, record, now), Trim(record.reason);
      && (c.lastUnauthorizedAt == if reason == "unauthorized" then now else s.lastUnauthorizedAt)
      && (c.lastRateLimitedAt ==
          if reason in {"", "rate_limited", "usage_limited", "usage_limit"} then now else s.lastRateLimitedAt)
      && (c.lastFailureAt ==
          if reason in {"", "unauthorized", "rate_limited", "usage_limited", "usage_limit"} then now else s.lastFailureAt)
  {
  }

  lemma CooledUsage(s: Signals, record: CooldownRecord, now: Time)
    ensures SchedulingUsage(CooledSignals(s, record, now)) == SchedulingUsage(s)
  {
  }

  /**
   * The part of applyCachedAccountCooldown that works on the account. The tier it steps down to is
   * overwritten by the recomputation, which heeds nothing of it but a ban.
   */
  method CoolDown(acc: Account, record: CooldownRecord, baseLimit: int, now: Time)
    requires record.resetAt > now
    modifies acc`signals, acc`sched
    ensures acc.signals == CooledSignals(old(acc.signals), record, now) && CooledBy(acc.signals, record)
    ensures acc.sched == Recomputed(acc.View(), baseLimit, now)
    ensures acc.sched.tier == Banned <==> CauseOf(record.reason) == Unauthorized || old(acc.sched.tier) == Banned
  {
    hide Recomputed, CauseOf, HasDispatchCredential, WellFormed;
    var cause := CauseOf(record.reason);
    var tier := acc.sched.tier;
    if cause == Unauthorized {
      tier := Banned;
    } else if cause == RateLimited {
      if HealthTier(acc.View()) == Healthy {
        tier := Warm;
      } else if tier != Banned {
        tier := Risky;
      }
    }
    var s := acc.signals;
    acc.signals := s.(
      status := Cooldown,
      cooldownUntil := record.resetAt,
      lastUnauthorizedAt := if cause == Unauthorized then now else s.lastUnauthorizedAt,
      lastRateLimitedAt := if cause == RateLimited then now else s.lastRateLimitedAt,
      lastFailureAt := if cause == Other then s.lastFailureAt else now
    );
    acc.sched := acc.sched.(tier := tier);
    RecomputeKeepsBan(acc.View(), baseLimit, now);
    RecomputeIdempotent(acc.View(), baseLimit, now);
    acc.RecomputeScheduler(baseLimit, now);
  }

  /** The same of an account that may be filed: it has used what it had used. */
  method CoolDownFiled(acc: Account, record: CooldownRecord, baseLimit: int, now: Time, ghost mode: string, ghost b: Buckets)
    requires record.resetAt > now
    modifies acc`signals, acc`sched
    ensures acc.signals == CooledSignals(old(acc.signals), record, now) && CooledBy(acc.signals, record)
    ensures acc.sched == Recomputed(acc.View(), baseLimit, now)
    ensures acc.sched.tier == Banned <==> CauseOf(record.reason) == Unauthorized || old(acc.sched.tier) == Banned
    ensures UsageOrdered(mode, b) <==> old(UsageOrdered(mode, b))
  {
    hide Recomputed, CauseOf, CooledSignals, UsageOrdered, SchedulingUsage, StrictlySorted;
    CooledUsage(acc.signals, record, now);
    UsageOrderBy(mode, b);
    ghost var usage := BucketUsage(b);
    CoolDown(acc, record, baseLimit, now);
    UsageOrderBy(mode, b);
    assert acc.UsagePercentForScheduling() == old(acc.UsagePercentForScheduling());
    forall t | t in b
      ensures UsageOf(b[t]) == usage[t]
    {
      assert forall e :: e in b[t] ==> usage[t][e.acc] == e.acc.UsagePercentForScheduling();
    }
    assert BucketUsage(b) == usage;
  }

  /** A slot given back: usage does not change. */
  method ReleaseFiled(acc: Account, ghost mode: string, ghost b: Buckets)
    modifies acc`activeRequests
    ensures acc.activeRequests == old(acc.activeRequests) - 1
    ensures UsageOrdered(mode, b) <==> old(UsageOrdered(mode, b))
  {
    hide StrictlySorted;
    acc.Release();
  }

  class Store {
    var accounts: seq<Account>
    var maxConcurrency: int
    const groups: GroupCheck
    const fast: FastScheduler.Scheduler?

    constructor (accounts: seq<Account>, maxConcurrency: int, groups: GroupCheck, fast: FastScheduler.Scheduler?)
      ensures this.accounts == accounts && this.maxConcurrency == maxConcurrency
      ensures this.groups == groups && this.fast == fast
    {
      this.accounts := accounts;
      this.maxConcurrency := maxConcurrency;
      this.groups := groups;
      this.fast := fast;
    }

    ghost predicate Valid()
      reads this, fast
    {
      fast != null ==> fast.Valid() && fast.groupCheck == groups
    }

    ghost function Listed(): set<Account>
      reads this`accounts
    {
      set a | a in accounts
    }

    /** Every account a call can reach: the list's, and any the fast scheduler still has. */
    ghost function All(): set<Account>
      reads this, fast
    {
      Listed() + if fast == null then {} else Members(fast.buckets)
    }

    /** applyCachedAccountCooldown: afterwards the account is neither available nor in the index. */
    method ApplyCachedCooldown(acc: Account, record: CooldownRecord, now: Time)
      requires Valid() && record.resetAt > now
      modifies acc`signals, acc`sched, (if fast == null then {} else {fast})`buckets, (if fast == null then {} else {fast})`positions
      ensures Valid()
      ensures acc.signals == CooledSignals(old(acc.signals), record, now) && CooledBy(acc.signals, record) && !Open(acc, now)
      ensures acc.sched.tier == Banned <==> CauseOf(record.reason) == Unauthorized || old(acc.sched.tier) == Banned
      ensures fast != null ==> Slots(fast.buckets) == Others(old(Slots(fast.buckets)), acc.dbID)
      ensures fast != null && old(UsageOrdered(fast.mode, fast.buckets)) ==> UsageOrdered(fast.mode, fast.buckets)
    {
      hide FastScheduler.Scheduler.Valid, Recomputed, CauseOf, CooledSignals, UsageOrdered;
      if fast == null {
        CoolDown(acc, record, maxConcurrency, now);
      } else {
        CoolDownFiled(acc, record, maxConcurrency, now, fast.mode, fast.buckets);
        RecomputeKeepsBan(acc.View(), fast.baseLimit, now);
        fast.Update(acc, now);
      }
    }

    /** accountHasCachedCooldown, given the cache's answer. */
    method HasCachedCooldown(acc: Account, answer: Option<CooldownRecord>, now: Time) returns (found: bool)
      requires Valid()
      modifies acc`signals, acc`sched, (if fast == null then {} else {fast})`buckets, (if fast == null then {} else {fast})`positions
      ensures Valid() && (found <==> Live(answer, acc.dbID, now))
      ensures found ==> Cooling(acc.signals, now) && !Open(acc, now)
      ensures All() <= old(All())
      ensures !found ==> acc.signals == old(acc.signals) && acc.sched == old(acc.sched) && acc.View() == old(acc.View())
      ensures !found && fast != null ==> fast.buckets == old(fast.buckets) && fast.positions == old(fast.positions)
      ensures fast != null ==>
        Slots(fast.buckets) == if found then Others(old(Slots(fast.buckets)), acc.dbID) else old(Slots(fast.buckets))
      ensures fast != null && old(UsageOrdered(fast.mode, fast.buckets)) ==> UsageOrdered(fast.mode, fast.buckets)
    {
      hide FastScheduler.Scheduler.Valid, Open, UsageOrdered;
      if acc.dbID == 0 || answer.None? || answer.value.resetAt <= now {
        return false;
      }
      ApplyCachedCooldown(acc, answer.value, now);
      return true;
    }

    /**
     * Of the accounts first filed, those not found cooling show what they showed then; and those of them that
     * are not filed any more were not grantable.
     */
    ghost predicate StillOpen(members: set<Account>, shown: map<Account, Facts>, cooled: set<Account>, request: Request, now: Time)
      reads this, fast, members
    {
      && fast != null && Members(fast.buckets) <= members <= shown.Keys
      && (forall a :: a in members && a !in cooled ==> shown[a] == FactsOf(a, request, groups, fast.baseLimit, now))
      && (forall a :: a in members && a !in cooled && a !in Members(fast.buckets) ==> !Grantable(shown[a]))
    }

    /** None of them was grantable, but for those found cooling. */
    ghost predicate NoneOpen(members: set<Account>, shown: map<Account, Facts>, cooled: set<Account>) {
      members <= shown.Keys && forall a :: a in members && a !in cooled ==> !Grantable(shown[a])
    }

    lemma FirstShown(shown: map<Account, Facts>, request: Request, now: Time)
      requires fast != null && shown.Keys == Members(fast.buckets)
      requires forall a :: a in shown ==> shown[a] == FactsOf(a, request, groups, fast.baseLimit, now)
      ensures StillOpen(Members(fast.buckets), shown, {}, request, now)
    {
    }

    /** One acquire of the fast scheduler; `views` and `facts` are what its accounts showed before. */
    method Acquire(request: Request, now: Time, ghost sorted: bool)
      returns (acc: Account?, ghost views: map<Account, AccountView>, ghost facts: map<Account, Facts>, ghost turn: nat)
      requires Valid() && fast != null && (sorted ==> UsageOrdered(fast.mode, fast.buckets))
      modifies fast`buckets, fast`positions, fast.cursors, Members(fast.buckets)
      ensures Valid() && Members(fast.buckets) <= old(Members(fast.buckets)) == facts.Keys
      // the others show what they showed; those not filed any more, and without an account all, are not grantable
      ensures forall a :: a in facts ==> facts[a] == old(FactsOf(a, request, groups, fast.baseLimit, now))
      ensures forall a :: a in facts && a != acc ==> facts[a] == FactsOf(a, request, groups, fast.baseLimit, now)
      ensures forall a :: a in facts && (acc == null || a !in Members(fast.buckets)) ==> !Grantable(facts[a])
      ensures TakesOneSlot(old(Members(fast.buckets)), acc)
      ensures forall a :: a in old(Members(fast.buckets)) ==> a.signals == old(a.signals)
      ensures acc != null ==>
        && acc in Members(fast.buckets) && acc in views
        && Refreshed(views[acc], acc.signals, acc.sched, fast.baseLimit, now)
        && facts[acc].snap == SnapshotOf(views[acc], fast.baseLimit, now)
        && Grantable(facts[acc]) && Eligible(acc, request, groups)
        && acc.totalRequests == views[acc].totalRequests + 1 && acc.activeRequests == facts[acc].active + 1
      ensures acc != null ==> BestFiled(fast, acc, turn, sorted, request, now)
      ensures sorted ==> UsageOrdered(fast.mode, fast.buckets)
    {
      hide SnapshotOf, AfterSnapshot, ServedInTurn, ServedFirst, OnlyRepaired, AllPassed, Eligible,
           Slots, Members, UsageOrdered, OrderedByFacts, BestFiled, Indexed, ScoreOrdered;
      ghost var b0, p0 := fast.buckets, fast.positions;
      views := map a | a in Members(b0) :: a.View();
      acc, facts, turn := fast.AcquireExcludingWithFilter(request, now);
      MembersWereFiled(b0, fast.buckets, facts);
      forall a | a in facts && a !in Members(fast.buckets)
        ensures !Grantable(facts[a])
      {
        LostNotGrantable(b0, p0, fast.buckets, facts, a);
      }
      if acc != null {
        ServedIsFiled(fast.buckets, fast.positions, acc, fast.mode, fast.cursors[..], turn, facts);
        ServedIsBest(fast, acc, turn, sorted, facts, request, now);
      }
    }

    /** The same on the way through the attempts: what it finds is told by what the accounts first showed. */
    method AcquireOpen(request: Request, now: Time, ghost sorted: bool,
                       ghost members: set<Account>, ghost shown: map<Account, Facts>, ghost cooled: set<Account>)
      returns (acc: Account?, ghost turn: nat)
      requires Valid() && fast != null && (sorted ==> UsageOrdered(fast.mode, fast.buckets))
      requires StillOpen(members, shown, cooled, request, now)
      modifies fast`buckets, fast`positions, fast.cursors, Members(fast.buckets)
      ensures acc == null ==> NoneOpen(members, shown, cooled)
      ensures acc != null ==> StillOpen(members, shown, cooled + {acc}, request, now)
      ensures Valid() && Members(fast.buckets) <= old(Members(fast.buckets))
      ensures TakesOneSlot(old(Members(fast.buckets)), acc)
      ensures forall a :: a in old(Members(fast.buckets)) ==> a.signals == old(a.signals)
      ensures acc != null ==> acc in Members(fast.buckets) && Open(acc, now) && !Cooling(acc.signals, now) && Eligible(acc, request, groups)
      ensures acc != null ==> GrantedFast(acc, request, groups, fast.baseLimit, now)
      ensures acc != null ==> BestFiled(fast, acc, turn, sorted, request, now)
      ensures sorted ==> UsageOrdered(fast.mode, fast.buckets)
    {
      hide FastScheduler.Scheduler.Valid, Open, Cooling, GrantedFast, SnapshotOf, Refreshed, Eligible, Grantable, Members, BestFiled,
           UsageOrdered, FactsOf, TakesOneSlot;
      ghost var views, facts;
      acc, views, facts, turn := Acquire(request, now, sorted);
      if acc != null {
        GrantShows(views[acc], acc, facts[acc], request, groups, fast.baseLimit, now);
      }
    }

    /** The same seen from the store. */
    method AcquireFast(request: Request, now: Time, ghost all: set<Account>, ghost sorted: bool,
                       ghost members: set<Account>, ghost shown: map<Account, Facts>, ghost cooled: set<Account>)
      returns (acc: Account?, ghost turn: nat)
      requires Valid() && fast != null && (sorted ==> UsageOrdered(fast.mode, fast.buckets))
      requires All() <= all && StillOpen(members, shown, cooled, request, now)
      modifies fast`buckets, fast`positions, fast.cursors, Members(fast.buckets)
      ensures acc == null ==> NoneOpen(members, shown, cooled)
      ensures acc != null ==> StillOpen(members, shown, cooled + {acc}, request, now)
      ensures Valid() && All() <= all && Members(fast.buckets) <= old(Members(fast.buckets)) <= all
      ensures TakesOneSlot(all, acc) && forall a :: a in all ==> a.signals == old(a.signals)
      ensures acc != null ==> acc in Members(fast.buckets) && Open(acc, now) && !Cooling(acc.signals, now) && Eligible(acc, request, groups)
      ensures acc != null ==> GrantedFast(acc, request, groups, fast.baseLimit, now)
      ensures acc != null ==> BestFiled(fast, acc, turn, sorted, request, now)
      ensures sorted ==> UsageOrdered(fast.mode, fast.buckets)
    {
      hide FastScheduler.Scheduler.Valid, Open, Cooling, GrantedFast, Eligible, Members, BestFiled, UsageOrdered, StillOpen, NoneOpen;
      acc, turn := AcquireOpen(request, now, sorted, members, shown, cooled);
    }

    /** The same for an account that is filed: found cooling, it alone is taken out. */
    method CheckFiled(acc: Account, answer: Option<CooldownRecord>, now: Time) returns (found: bool)
      requires Valid() && fast != null && acc in Members(fast.buckets)
      modifies acc`signals, acc`sched, fast`buckets, fast`positions
      ensures Valid() && All() <= old(All()) && (found <==> Live(answer, acc.dbID, now))
      ensures found ==> Cooling(acc.signals, now) && Members(fast.buckets) == old(Members(fast.buckets)) - {acc}
      ensures !found ==> acc.signals == old(acc.signals) && acc.sched == old(acc.sched)
      ensures !found ==> fast.buckets == old(fast.buckets) && fast.positions == old(fast.positions)
      ensures old(UsageOrdered(fast.mode, fast.buckets)) ==> UsageOrdered(fast.mode, fast.buckets)
    {
      hide Live, Open, Cooling, Members, Slots, UsageOrdered, Indexed, ScoreOrdered, All;
      ghost var b, p := fast.buckets, fast.positions;
      found := HasCachedCooldown(acc, answer, now);
      if found {
        OthersStayFiled(b, p, acc, fast.buckets);
      }
    }

    /** One attempt of the first loop: an account cooling elsewhere gives its slot back. */
    method FastAttempt(request: Request, now: Time, answers: Answers, attempt: nat, ghost all: set<Account>, ghost sorted: bool,
                       ghost members: set<Account>, ghost shown: map<Account, Facts>, ghost cooled: set<Account>)
      returns (acc: Account?, taken: bool, ghost turn: nat)
      requires Valid() && fast != null && (sorted ==> UsageOrdered(fast.mode, fast.buckets))
      requires All() <= all && StillOpen(members, shown, cooled, request, now)
      modifies fast`buckets, fast`positions, fast.cursors, Members(fast.buckets)
      ensures acc == null ==> NoneOpen(members, shown, cooled)
      ensures acc != null && !taken ==> StillOpen(members, shown, cooled + {acc}, request, now)
      ensures Valid() && All() <= all && Members(fast.buckets) <= old(Members(fast.buckets))
      ensures TakesOneSlot(all, if taken then acc else null)
      ensures forall a :: a in all && (taken || a != acc) ==> a.signals == old(a.signals)
      ensures taken ==> acc != null
      ensures acc != null ==> acc in all && !old(Cooling(acc.signals, now)) && (taken <==> !Live(answers(attempt, acc.dbID), acc.dbID, now))
      ensures acc != null && !taken ==> Cooling(acc.signals, now)
      ensures taken ==> Open(acc, now) && !Cooling(acc.signals, now) && Eligible(acc, request, groups)
      ensures taken ==> GrantedFast(acc, request, groups, fast.baseLimit, now)
      ensures taken ==> BestFiled(fast, acc, turn, sorted, request, now)
      ensures sorted ==> UsageOrdered(fast.mode, fast.buckets)
    {
      hide FastScheduler.Scheduler.Valid, Eligible, Live, Open, Cooling, GrantedFast, Members, BestFiled, UsageOrdered, FactsOf,
           Grantable, All;
      taken := false;
      acc, turn := AcquireFast(request, now, all, sorted, members, shown, cooled);
      if acc == null {
        return;
      }
      var found := CheckFiled(acc, answers(attempt, acc.dbID), now);
      if found {
        ReleaseFiled(acc, fast.mode, fast.buckets);
      } else {
        taken := true;
      }
    }

    /** The first loop: acquire from the fast scheduler, and try again when the account is cooling elsewhere. */
    method FastNext(request: Request, now: Time, answers: Answers, ghost all: set<Account>, ghost sorted: bool)
      returns (acc: Account?, ghost turn: nat, ghost cooled: set<Account>, ghost shown: map<Account, Facts>)
      requires Valid() && fast != null && (sorted ==> UsageOrdered(fast.mode, fast.buckets)) && All() <= all
      modifies fast`buckets, fast`positions, fast.cursors, Members(fast.buckets)
      ensures Valid() && All() <= all
      ensures TakesOneSlot(all, acc) && OnlyCooled(all, cooled, now) && cooled <= all
      ensures acc != null ==>
        && acc in all && acc !in cooled && Open(acc, now) && Eligible(acc, request, groups)
        && GrantedFast(acc, request, groups, fast.baseLimit, now)
        && exists i: nat :: i < ATTEMPTS && !Live(answers(i, acc.dbID), acc.dbID, now)
      // it is the best of what is filed, and without one nothing filed could have been granted
      ensures acc != null ==> BestFiled(fast, acc, turn, sorted, request, now)
      ensures shown.Keys == old(Members(fast.buckets))
      ensures forall a :: a in shown ==> shown[a] == old(FactsOf(a, request, groups, fast.baseLimit, now))
      ensures acc == null ==> |cooled| == ATTEMPTS || NoneOpen(shown.Keys, shown, cooled)
    {
      hide FastScheduler.Scheduler.Valid, Eligible, Live, All, Open, Cooling, GrantedFast, Members, BestFiled, UsageOrdered,
           FactsOf, Grantable, StillOpen, NoneOpen;
      cooled, turn := {}, 0;
      shown := map a | a in Members(fast.buckets) :: FactsOf(a, request, groups, fast.baseLimit, now);
      ghost var members := Members(fast.buckets);
      FirstShown(shown, request, now);
      for attempts := 0 to ATTEMPTS
        invariant Valid() && All() <= all && cooled <= all && |cooled| == attempts
        invariant TakesOneSlot(all, null) && OnlyCooled(all, cooled, now)
        invariant Members(fast.buckets) <= members && StillOpen(members, shown, cooled, request, now)
        invariant sorted ==> UsageOrdered(fast.mode, fast.buckets)
      {
        var taken;
        assert forall a :: a in cooled ==> Cooling(a.signals, now);
        acc, taken, turn := FastAttempt(request, now, answers, attempts, all, sorted, members, shown, cooled);
        if acc == null {
          return;
        }
        if taken {
          return;
        }
        assert acc !in cooled;
        cooled := cooled + {acc};
      }
      acc := null;
    }

    /** Nothing in the list can be dispatched. */
    ghost predicate NoneDispatchable(request: Request, now: Time)
      reads this`accounts, this`maxConcurrency, accounts
    {
      forall a :: a in accounts ==> !Dispatchable(OfferBy(a, request, groups, maxConcurrency, now))
    }

    /** The account has just won with `won`, what it offered then, and no other in the list offers better. */
    ghost predicate WonBy(acc: Account, won: Offer, request: Request, now: Time)
      reads this`accounts, this`maxConcurrency, accounts
    {
      && acc in accounts && Dispatchable(won)
      && won == OfferOf(BeforeGrant(acc), Eligible(acc, request, groups), acc.activeRequests - 1, maxConcurrency, now)
      && forall a :: a in accounts && a != acc ==>
           var o := OfferBy(a, request, groups, maxConcurrency, now);
           Dispatchable(o) ==> !Better(o, won)
    }

    /** The scan of one attempt of the second loop, told account by account. */
    method ScanList(request: Request, now: Time) returns (best: Account?, limit: int, ghost won: Offer)
      modifies accounts`sched
      ensures best == null ==> NoneDispatchable(request, now)
      ensures best != null ==>
        && best in accounts && !Cooling(best.signals, now) && Eligible(best, request, groups)
        && won == OfferBy(best, request, groups, maxConcurrency, now) && Dispatchable(won) && limit == won.limit
        && forall a :: a in accounts ==>
             var o := OfferBy(a, request, groups, maxConcurrency, now);
             Dispatchable(o) ==> !Better(o, won)
    {
      hide Eligible, OfferOf, Better, Cooling;
      ghost var offers, at;
      best, limit, offers, at := PickBest(accounts, request, groups, maxConcurrency, now);
      won := if best == null then Offer(false, Unset, 0.0, 0, 0) else offers[at];
      forall a | a in accounts
        ensures OfferBy(a, request, groups, maxConcurrency, now) in offers
      {
        var i :| 0 <= i < |accounts| && accounts[i] == a;
        assert offers[i] == OfferBy(a, request, groups, maxConcurrency, now);
      }
      if best != null {
        NotCooling(best.View(), Eligible(best, request, groups), best.activeRequests, maxConcurrency, now);
      }
    }

    /** One attempt of the second loop; an undisturbed swap never fails. */
    method SlowAttempt(request: Request, now: Time, answers: Answers, attempt: nat, ghost all: set<Account>)
      returns (best: Account?, taken: bool, ghost won: Offer)
      requires Valid() && All() <= all
      modifies (if fast == null then {} else {fast})`buckets, (if fast == null then {} else {fast})`positions, accounts
      ensures Valid() && All() <= all
      ensures TakesOneSlot(all, if taken then best else null)
      ensures forall a :: a in all && (taken || a != best) ==> a.signals == old(a.signals)
      ensures best == null ==> !taken && NoneDispatchable(request, now)
      ensures best != null ==> best in accounts && !old(Cooling(best.signals, now))
      ensures best != null ==> (taken <==> !Live(answers(attempt, best.dbID), best.dbID, now))
      ensures best != null && !taken ==> Cooling(best.signals, now)
      ensures taken ==> best != null && WonBy(best, won, request, now) && Eligible(best, request, groups) && Open(best, now)
    {
      hide FastScheduler.Scheduler.Valid, Eligible, Live, All, OpenView, Recomputed, Better, IsAvailable, Cooling, UsageOrdered;
      var limit;
      taken := false;
      best, limit, won := ScanList(request, now);
      if best == null {
        return;
      }
      var found := HasCachedCooldown(best, answers(attempt, best.dbID), now);
      if !found {
        ghost var v := best.View();
        taken := best.TryAcquire(limit, now);
        assert BeforeGrant(best) == v;
        OpenWhenWon(v, best.View(), Eligible(best, request, groups), best.activeRequests - 1, maxConcurrency, now);
      }
    }

    /**
     * The second loop: scan, and try again when the winner is cooling elsewhere. It gives up only with
     * nothing to offer, or after cooling down another account at every attempt.
     */
    method SlowNext(request: Request, now: Time, answers: Answers, ghost all: set<Account>)
      returns (acc: Account?, ghost won: Offer, ghost cooled: set<Account>)
      requires Valid() && All() <= all && Listed() <= all
      modifies (if fast == null then {} else {fast})`buckets, (if fast == null then {} else {fast})`positions, accounts
      ensures Valid() && All() <= all
      ensures TakesOneSlot(all, acc) && OnlyCooled(all, cooled, now) && cooled <= Listed()
      ensures acc == null ==> NoneDispatchable(request, now) || |cooled| == ATTEMPTS
      ensures acc != null ==> acc in accounts && !Cooling(acc.signals, now) && acc !in cooled
      ensures acc != null ==> WonBy(acc, won, request, now) && Eligible(acc, request, groups) && Open(acc, now)
    {
      hide FastScheduler.Scheduler.Valid, Eligible, Live, All, Open, Cooling, WonBy, NoneDispatchable;
      ghost var listed := Listed();
      cooled := {};
      won := Offer(false, Unset, 0.0, 0, 0);
      for attempts := 0 to ATTEMPTS
        invariant Valid() && All() <= all && cooled <= listed && |cooled| == attempts
        invariant TakesOneSlot(all, null) && OnlyCooled(all, cooled, now)
      {
        var taken;
        assert forall a :: a in cooled ==> Cooling(a.signals, now);
        acc, taken, won := SlowAttempt(request, now, answers, attempts, all);
        assert acc != null ==> acc in listed && acc !in cooled;
        if acc == null {
          return;
        }
        if taken {
          return;
        }
        assert |cooled + {acc}| == attempts + 1;
        cooled := cooled + {acc};
      }
      acc := null;
    }

    /** The two loops, one after the other. */
    method Next(request: Request, now: Time, answers: Answers, slowAnswers: Answers)
      returns (acc: Account?, ghost won: Option<Offer>, ghost turn: nat, ghost shown: map<Account, Facts>,
               ghost cooledByFast: set<Account>, ghost cooledBySlow: set<Account>)
      requires Valid()
      modifies (if fast == null then {} else {fast})`buckets, (if fast == null then {} else {fast})`positions,
        (if fast == null then {} else {fast.cursors}), All()
      ensures Valid() && All() <= old(All())
      ensures TakesOneSlot(old(All()), acc) && OnlyCooled(old(All()), cooledByFast + cooledBySlow, now)
      ensures acc == null ==> NoneDispatchable(request, now) || |cooledBySlow| == ATTEMPTS
      ensures acc != null ==> acc in old(All()) && acc !in cooledByFast + cooledBySlow && Eligible(acc, request, groups) && Open(acc, now)
      ensures won.None? ==> fast != null && acc != null
      ensures acc != null && won.None? ==>
        && GrantedFast(acc, request, groups, fast.baseLimit, now)
        && BestFiled(fast, acc, turn, old(UsageOrdered(fast.mode, fast.buckets)), request, now)
      ensures fast != null ==>
        && shown.Keys == old(Members(fast.buckets))
        && forall a :: a in shown ==> shown[a] == old(FactsOf(a, request, groups, fast.baseLimit, now))
      ensures won.Some? && fast != null ==> |cooledByFast| == ATTEMPTS || NoneOpen(shown.Keys, shown, cooledByFast)
      ensures acc != null && won.Some? ==> WonBy(acc, won.value, request, now)
    {
      hide FastScheduler.Scheduler.Valid, Eligible, Live, Slots, Members, OpenView, NoneDispatchable, WonBy, Cooling, GrantedFast, BestFiled,
           UsageOrdered, FactsOf, NoneOpen;
      won, turn, shown, cooledByFast, cooledBySlow := None, 0, map[], {}, {};
      ghost var all := All();
      if fast != null {
        acc, turn, cooledByFast, shown := FastNext(request, now, answers, all, UsageOrdered(fast.mode, fast.buckets));
        if acc != null {
          return;
        }
      }
      ghost var w;
      acc, w, cooledBySlow := SlowNext(request, now, slowAnswers, all);
      won := Some(w);
    }

    /**
     * NextExcludingWithFilter: one slot more on the account returned and none elsewhere, in both loops and
     * through every retry. The fast scheduler has the first word, and its best account is returned; the list
     * is scanned only when nothing filed could have been granted or sixteen were found cooling. Without an
     * account, nothing is left to dispatch or another sixteen were.
     */
    method NextExcludingWithFilter(request: Request, now: Time, answers: Answers, slowAnswers: Answers)
      returns (acc: Account?, ghost won: Option<Offer>, ghost turn: nat, ghost shown: map<Account, Facts>,
               ghost cooledByFast: set<Account>, ghost cooledBySlow: set<Account>)
      requires Valid()
      modifies (if fast == null then {} else {fast})`buckets, (if fast == null then {} else {fast})`positions,
        (if fast == null then {} else {fast.cursors}), All()
      ensures Valid() && All() <= old(All())
      ensures TakesOneSlot(old(All()), acc) && OnlyCooled(old(All()), cooledByFast + cooledBySlow, now)
      // told by the accounts themselves
      ensures acc != null ==>
        && acc.dbID !in request.exclude
        && (acc.signals.allowedApiKeys == {} || (request.apiKeyID > 0 && request.apiKeyID in acc.signals.allowedApiKeys))
        && (groups.Some? ==> groups.value(request.apiKeyID, acc))
        && (request.filter.Some? ==> request.filter.value(acc))
      ensures acc == null ==> |cooledBySlow| == 16 || forall a :: a in accounts ==>
        || a.dbID in request.exclude
        || (a.signals.allowedApiKeys != {} && !(request.apiKeyID > 0 && request.apiKeyID in a.signals.allowedApiKeys))
        || (groups.Some? && !groups.value(request.apiKeyID, a))
        || (request.filter.Some? && !request.filter.value(a))
        || NothingLeft(a, maxConcurrency, now)
      ensures acc != null ==> acc in old(All()) && acc !in cooledByFast + cooledBySlow && Open(acc, now)
      ensures won.None? ==> fast != null && acc != null
      ensures acc != null && won.None? ==>
        && GrantedFast(acc, request, groups, fast.baseLimit, now)
        && BestFiled(fast, acc, turn, old(UsageOrdered(fast.mode, fast.buckets)), request, now)
      ensures fast != null ==>
        && shown.Keys == old(Members(fast.buckets))
        && forall a :: a in shown ==> shown[a] == old(FactsOf(a, request, groups, fast.baseLimit, now))
      ensures won.Some? && fast != null ==> |cooledByFast| == 16 || NoneOpen(shown.Keys, shown, cooledByFast)
      ensures acc != null && won.Some? ==> WonBy(acc, won.value, request, now)
    {
      hide FastScheduler.Scheduler.Valid, Eligible, Live, Slots, Members, OpenView, WonBy, Cooling, GrantedFast, BestFiled,
           UsageOrdered, FactsOf, NoneOpen, NothingLeft, TakesOneSlot, OnlyCooled, All;
      acc, won, turn, shown, cooledByFast, cooledBySlow := Next(request, now, answers, slowAnswers);
      if acc != null {
        EligibleMeans(acc, request, groups);
      } else if |cooledBySlow| != ATTEMPTS {
        NoneDispatchableMeans(accounts, request, groups, maxConcurrency, now);
      }
    }

    /** lookupByIDLocked */
    method FindByID(id: int) returns (target: Account?)
      ensures target == null <==> forall a :: a in accounts ==> a.dbID != id
      ensures target != null ==> target in accounts && target.dbID == id
    {
      for i := 0 to |accounts|
        invariant forall a :: a in accounts[..i] ==> a.dbID != id
      {
        if accounts[i].dbID == id {
          return accounts[i];
        }
      }
      assert accounts[..|accounts|] == accounts;
      return null;
    }

    /** What takeByIDExcluding demands of the account it looks up. */
    ghost predicate Takeable(a: Account, request: Request, answer: Option<CooldownRecord>, now: Time)
      reads this`maxConcurrency, a
    {
      && a.dbID != 0 && IsAvailable(a.View(), now) && !Live(answer, a.dbID, now)
      && Grantable(FactsOf(a, request, groups, maxConcurrency, now))
    }

    /** takeByIDExcluding: a slot of the account asked for, exactly when the scheduler itself could grant one. */
    method TakeByID(id: int, request: Request, answer: Option<CooldownRecord>, now: Time) returns (acc: Account?, ghost target: Account?)
      requires Valid()
      modifies (if fast == null then {} else {fast})`buckets, (if fast == null then {} else {fast})`positions, accounts
      ensures Valid() && All() <= old(All())
      ensures target == null ==> acc == null && (id == 0 || id in request.exclude || forall a :: a in accounts ==> a.dbID != id)
      ensures target != null ==>
        && target in accounts && target.dbID == id
        && (acc == target <==> old(Takeable(target, request, answer, now))) && (acc == null || acc == target)
      ensures TakesOneSlot(old(All()), acc)
    {
      hide FastScheduler.Scheduler.Valid, IsAvailable, SnapshotOf, AfterSnapshot, Cooling, Open, UsageOrdered;
      target := null;
      if id == 0 {
        return null, target;
      }
      if id in request.exclude {
        return null, target;
      }
      ghost var all := All();
      var t := FindByID(id);
      target := t;
      if t == null {
        return null, target;
      }
      if !IsAvailable(t.View(), now) {
        return null, target;
      }
      var found := HasCachedCooldown(t, answer, now);
      if found {
        return null, target;
      }
      if !Eligible(t, request, groups) {
        return null, target;
      }
      var snap := t.FastSchedulerSnapshot(maxConcurrency, now);
      if !snap.available || snap.limit <= 0 {
        return null, target;
      }
      var ok := t.TryAcquire(snap.limit, now);
      if !ok {
        return null, target;
      }
      return t, target;
    }
  }
}
