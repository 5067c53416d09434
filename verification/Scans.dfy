/**
 * What the fast scheduler's operations do to buckets, positions and cursors, as facts about values:
 * sort orders, filing and re-filing, the scan of a bucket, and the repairs that restart it.
 */
module Scans {
  import opened Basics
  import opened Scoring
  import opened ScoringLaws
  import opened Accounts
  import opened Buckets

  const ROUND_ROBIN := "round_robin"
  const REMAINING_QUOTA := "remaining_quota"

  type GroupCheck = Option<(int, Account) -> bool>

  /** What a caller asks for: its API key, the accounts it has given up on, its own filter. */
  datatype Request = Request(apiKeyID: int, exclude: set<int>, filter: Option<Account -> bool>)

  predicate Eligible(a: Account, request: Request, groups: GroupCheck)
    reads a`signals
  {
    && a.dbID !in request.exclude
    && a.AllowsAPIKey(request.apiKeyID)
    && (groups.Some? ==> groups.value(request.apiKeyID, a))
    && (request.filter.Some? ==> request.filter.value(a))
  }

  /** The four tests, told by the account's own fields. */
  lemma EligibleMeans(a: Account, request: Request, groups: GroupCheck)
    ensures Eligible(a, request, groups) <==>
      && a.dbID !in request.exclude
      && (a.signals.allowedApiKeys == {} || (request.apiKeyID > 0 && request.apiKeyID in a.signals.allowedApiKeys))
      && (groups.Some? ==> groups.value(request.apiKeyID, a))
      && (request.filter.Some? ==> request.filter.value(a))
  {
  }

  /** All a scan at a fixed instant looks at in an account. */
  datatype Facts = Facts(eligible: bool, snap: Snap, active: int, usage: real)

  function FactsOf(a: Account, request: Request, groups: GroupCheck, baseLimit: int, now: Time): Facts
    reads a
  {
    Facts(Eligible(a, request, groups), SnapshotOf(a.View(), baseLimit, now), a.activeRequests, a.UsagePercentForScheduling())
  }

  /** The facts in the account's own terms. */
  lemma FactsTold(a: Account, request: Request, groups: GroupCheck, baseLimit: int, now: Time)
    ensures var f := FactsOf(a, request, groups, baseLimit, now);
      && (f.snap.available && !a.signals.disabled <==> IsAvailable(a.View(), now))
      && (f.snap.proven <==> a.totalRequests > 10)
      && f.active == a.activeRequests
      && f.usage == if a.signals.usage7dValid then a.signals.usage7d else 0.0
  {
    AvailabilityAgrees(a.View(), baseLimit, now);
  }

  predicate Grantable(f: Facts) {
    f.eligible && f.snap.available && 0 < f.snap.limit && f.active < f.snap.limit
  }

  /** The snapshot says the account is not available, or has no slot to give. */
  predicate NoRoom(a: Account, baseLimit: int, now: Time)
    reads a
  {
    var snap := SnapshotOf(a.View(), baseLimit, now);
    !snap.available || snap.limit <= Max(0, a.activeRequests)
  }

  /** What makes accounts not grantable, told by their own fields. */
  lemma NotGrantableMeans(accounts: set<Account>, request: Request, groups: GroupCheck, baseLimit: int, now: Time)
    requires forall a :: a in accounts ==> !Grantable(FactsOf(a, request, groups, baseLimit, now))
    ensures forall a :: a in accounts ==>
      || a.dbID in request.exclude
      || (a.signals.allowedApiKeys != {} && !(request.apiKeyID > 0 && request.apiKeyID in a.signals.allowedApiKeys))
      || (groups.Some? && !groups.value(request.apiKeyID, a))
      || (request.filter.Some? && !request.filter.value(a))
      || NoRoom(a, baseLimit, now)
  {
    hide SnapshotOf;
  }

  /** The filed copy disagrees with a fresh snapshot. */
  predicate StaleEntry(t: Tier, e: Entry, snap: Snap) {
    snap.tier != t || snap.proven != e.proven || snap.score - e.dispatchScore >= 1.0 || e.dispatchScore - snap.score >= 1.0
  }

  /** Up to date is an entry filed under the snapshot's tier, with its proof, and less than a point from its score. */
  lemma StaleMeans(t: Tier, e: Entry, snap: Snap)
    ensures !StaleEntry(t, e, snap) <==> t == snap.tier && e.proven == snap.proven && -1.0 < e.dispatchScore - snap.score < 1.0
  {
  }

  /** Looked at and left alone: neither grantable nor in need of repair. */
  predicate PassedOver(t: Tier, e: Entry, f: Facts) {
    !Grantable(f) && (f.eligible ==> !StaleEntry(t, e, f.snap))
  }

  function ExactEntry(a: Account, snap: Snap): Entry {
    Entry(a, a.dbID, snap.score, snap.proven)
  }

  /** The slot a snapshot files an account under, if any. */
  ghost function Filed(a: Account, snap: Snap): set<Slot> {
    if a.dbID != 0 && snap.available && 0 < snap.limit then {Slot(snap.tier, ExactEntry(a, snap))} else {}
  }

  /** The snapshots of a list of accounts, and all the slots they file. */
  ghost function Snaps(accounts: seq<Account>, baseLimit: int, now: Time): (snaps: seq<Snap>)
    reads accounts
    ensures |snaps| == |accounts|
  {
    seq(|accounts|, i requires 0 <= i < |accounts| reads accounts => SnapshotOf(accounts[i].View(), baseLimit, now))
  }

  ghost function FiledFrom(accounts: seq<Account>, snaps: seq<Snap>): set<Slot>
    requires |snaps| == |accounts|
  {
    set i, x | 0 <= i < |accounts| && x in Filed(accounts[i], snaps[i]) :: x
  }

  function UsageOf(bucket: seq<Entry>): (usage: map<Account, real>)
    reads (set e | e in bucket :: e.acc)`signals
  {
    map e | e in bucket :: e.acc := e.acc.UsagePercentForScheduling()
  }

  /** The order Rebuild and SetSchedulerMode sort whole buckets in. */
  function FullOrder(mode: string, usage: map<Account, real>): Order {
    if mode == REMAINING_QUOTA then ByUsage(usage) else ByScore
  }

  ghost predicate InFullOrder(mode: string, usage: map<Account, real>, bucket: seq<Entry>) {
    StrictlySorted(FullOrder(mode, usage), bucket)
  }

  /** The usage of every account in the buckets. */
  function UsageIn(b: Buckets): (usage: map<Account, real>)
    requires b.Keys == {Healthy, Warm, Risky}
    reads (set e | e in b[Healthy] + b[Warm] + b[Risky] :: e.acc)`signals
  {
    UsageOf(b[Healthy] + b[Warm] + b[Risky])
  }

  /** The order insertLocked sorts in: round_robin spreads the healthy bucket by usage. */
  function InsertOrder(mode: string, t: Tier, bucket: seq<Entry>): Order
    reads (set e | e in bucket :: e.acc)`signals
  {
    if mode == REMAINING_QUOTA then ByUsage(UsageOf(bucket))
    else if mode == ROUND_ROBIN && t == Healthy then ByUsageThenScore(UsageOf(bucket))
    else ByScore
  }

  /** A bucket just inserted into: by usage in remaining_quota and, healthy, in round_robin, there with ties by score; else by score. */
  lemma InsertOrderMeans(mode: string, t: Tier, bucket: seq<Entry>, i: nat, j: nat)
    requires i < j < |bucket| && StrictlySorted(InsertOrder(mode, t, bucket), bucket)
    ensures var x, y := bucket[i], bucket[j];
      var used, usedThere := x.acc.UsagePercentForScheduling(), y.acc.UsagePercentForScheduling();
      if mode == "remaining_quota" then used <= usedThere
      else if mode == "round_robin" && t == Healthy then used < usedThere || (used == usedThere && x.dispatchScore >= y.dispatchScore)
      else x.dispatchScore >= y.dispatchScore
  {
    assert Before(InsertOrder(mode, t, bucket), bucket[i], bucket[j]);
  }

  /** Outside remaining_quota the warm and risky buckets stay in score order; the healthy one too outside round_robin. */
  ghost predicate ScoreOrdered(mode: string, b: Buckets) {
    forall t :: t in b && mode != REMAINING_QUOTA && !(mode == ROUND_ROBIN && t == Healthy) ==> StrictlySorted(ByScore, b[t])
  }

  lemma FullOrderIsScoreOrder(mode: string, usage: map<Account, real>, b: Buckets)
    requires forall t :: t in b ==> InFullOrder(mode, usage, b[t])
    ensures ScoreOrdered(mode, b)
  {
  }

  /** The accounts still have the usage read. */
  ghost predicate UsageCurrent(usage: map<Account, real>, accounts: set<Account>)
    reads accounts`signals
  {
    forall a :: a in accounts ==> a in usage && usage[a] == a.UsagePercentForScheduling()
  }

  lemma UsageInIsCurrent(b: Buckets)
    requires HasTiers(b)
    ensures UsageCurrent(UsageIn(b), Members(b))
  {
    forall t, e | t in b && e in b[t]
      ensures e in b[Healthy] + b[Warm] + b[Risky]
    {
    }
  }

  /** Usage read for more accounts than the bucket's gives the same order on the bucket. */
  lemma OrderByOwnUsage(mode: string, usage: map<Account, real>, accounts: set<Account>, b: Buckets)
    requires UsageCurrent(usage, accounts) && Members(b) == accounts
    requires forall t :: t in b ==> InFullOrder(mode, usage, b[t])
    ensures forall t :: t in b ==> InFullOrder(mode, UsageOf(b[t]), b[t])
  {
    forall t, e | t in b && e in b[t]
      ensures Usage(usage, e) == Usage(UsageOf(b[t]), e)
    {
      assert Slot(t, e) in Slots(b);
    }
  }

  lemma SameMembers(b: Buckets, b': Buckets)
    requires Slots(b) == Slots(b')
    ensures Members(b) == Members(b')
  {
  }

  // ----- remaining_quota keeps its order -----

  /** In remaining_quota every bucket is sorted by what its accounts have used. */
  ghost predicate UsageOrdered(mode: string, b: Buckets)
    reads (set t, e | t in b && e in b[t] :: e.acc)`signals
  {
    mode == REMAINING_QUOTA ==> forall t :: t in b ==> StrictlySorted(ByUsage(UsageOf(b[t])), b[t])
  }

  ghost function BucketUsage(b: Buckets): map<Tier, map<Account, real>>
    reads (set t, e | t in b && e in b[t] :: e.acc)`signals
  {
    map t | t in b :: UsageOf(b[t])
  }

  /** Only the usage of the accounts matters. */
  lemma UsageOrderBy(mode: string, b: Buckets)
    ensures UsageOrdered(mode, b) <==>
      mode == REMAINING_QUOTA ==> forall t :: t in b ==> StrictlySorted(ByUsage(BucketUsage(b)[t]), b[t])
  {
    hide StrictlySorted;
  }

  ghost function FoundUsage(facts: map<Account, Facts>): map<Account, real> {
    map a | a in facts :: facts[a].usage
  }

  /** The same by the usage an acquire found on entry. */
  ghost predicate OrderedByFacts(mode: string, b: Buckets, facts: map<Account, Facts>) {
    mode == REMAINING_QUOTA ==> forall t :: t in b ==> StrictlySorted(ByUsage(FoundUsage(facts)), b[t])
  }

  /** Only the usage of the bucket's own accounts matters. */
  lemma SameUsageSameOrder(u: map<Account, real>, v: map<Account, real>, bucket: seq<Entry>)
    requires forall e :: e in bucket ==> Usage(u, e) == Usage(v, e)
    requires StrictlySorted(ByUsage(u), bucket)
    ensures StrictlySorted(ByUsage(v), bucket)
  {
  }

  lemma FullOrderIsUsageOrder(mode: string, b: Buckets)
    requires forall t :: t in b ==> InFullOrder(mode, UsageOf(b[t]), b[t])
    ensures UsageOrdered(mode, b)
  {
  }

  lemma StrictlySortedWithout(order: Order, bucket: seq<Entry>, k: nat)
    requires k < |bucket| && StrictlySorted(order, bucket)
    ensures StrictlySorted(order, Without(bucket, k))
  {
  }

  lemma RemoveKeepsUsageOrder(mode: string, b: Buckets, t: Tier, k: nat)
    requires t in b && k < |b[t]| && UsageOrdered(mode, b)
    ensures UsageOrdered(mode, b[t := Without(b[t], k)])
  {
    hide StrictlySorted;
    if mode == REMAINING_QUOTA {
      StrictlySortedWithout(ByUsage(UsageOf(b[t])), b[t], k);
      SameUsageSameOrder(UsageOf(b[t]), UsageOf(Without(b[t], k)), Without(b[t], k));
    }
  }

  lemma InsertKeepsUsageOrder(mode: string, b: Buckets, t: Tier, e: Entry)
    requires t in b && DistinctIDs(b[t] + [e]) && UsageOrdered(mode, b)
    ensures UsageOrdered(mode, b[t := StableSort(InsertOrder(mode, t, b[t] + [e]), b[t] + [e])])
  {
    hide StrictlySorted, StableSort;
    var refilled := b[t] + [e];
    if mode == REMAINING_QUOTA {
      var sorted := StableSort(ByUsage(UsageOf(refilled)), refilled);
      StableSortIsSorted(ByUsage(UsageOf(refilled)), refilled);
      SameElements(refilled, sorted);
      SameUsageSameOrder(UsageOf(refilled), UsageOf(sorted), sorted);
    }
  }

  /** While the accounts' usage is what the facts say, the two orders are one. */
  lemma OrderIsAsFound(mode: string, b: Buckets, facts: map<Account, Facts>)
    requires forall a :: a in Members(b) ==> a in facts && facts[a].usage == a.UsagePercentForScheduling()
    ensures UsageOrdered(mode, b) <==> OrderedByFacts(mode, b, facts)
  {
    hide StrictlySorted;
    forall t | t in b
      ensures StrictlySorted(ByUsage(UsageOf(b[t])), b[t]) <==> StrictlySorted(ByUsage(FoundUsage(facts)), b[t])
    {
      forall e | e in b[t]
        ensures Usage(UsageOf(b[t]), e) == Usage(FoundUsage(facts), e)
      {
        assert Slot(t, e) in Slots(b);
      }
      if StrictlySorted(ByUsage(UsageOf(b[t])), b[t]) {
        SameUsageSameOrder(UsageOf(b[t]), FoundUsage(facts), b[t]);
      }
      if StrictlySorted(ByUsage(FoundUsage(facts)), b[t]) {
        SameUsageSameOrder(FoundUsage(facts), UsageOf(b[t]), b[t]);
      }
    }
  }

  function TierIndex(t: Tier): nat
    requires t in {Healthy, Warm, Risky}
  {
    match t
    case Healthy => 0
    case Warm => 1
    case Risky => 2
  }

  lemma EmptyIsSorted(mode: string, usage: map<Account, real>)
    ensures InFullOrder(mode, usage, [])
  {
  }

  // ----- collecting buckets from a list of accounts -----

  /** The list names every account once (0 marks an account not yet stored). */
  ghost predicate DistinctAccounts(accounts: seq<Account>) {
    forall i, j :: 0 <= i < j < |accounts| ==> accounts[i].dbID != accounts[j].dbID || accounts[i].dbID == 0
  }

  /** `b` holds exactly what the snapshots of the first `n` accounts file. */
  ghost predicate Collected(b: Buckets, accounts: seq<Account>, snaps: seq<Snap>, n: nat) {
    && HasTiers(b) && n <= |accounts| == |snaps|
    && (forall t :: t in b ==> DistinctIDs(b[t]))
    && (forall s :: s in Slots(b) ==> exists j :: 0 <= j < n && s in Filed(accounts[j], snaps[j]))
    && (forall j :: 0 <= j < n ==> Filed(accounts[j], snaps[j]) <= Slots(b))
  }

  lemma CollectOne(b: Buckets, accounts: seq<Account>, snaps: seq<Snap>, n: nat, b': Buckets)
    requires DistinctAccounts(accounts) && n < |accounts| && Collected(b, accounts, snaps, n)
    requires
      var a, snap := accounts[n], snaps[n];
      if Filed(a, snap) == {} then b' == b
      else snap.tier in b && b' == b[snap.tier := b[snap.tier] + [ExactEntry(a, snap)]]
    ensures Collected(b', accounts, snaps, n + 1)
  {
    var a, snap := accounts[n], snaps[n];
    if Filed(a, snap) != {} {
      var e := ExactEntry(a, snap);
      forall other | other in b[snap.tier]
        ensures other.dbID != a.dbID
      {
        assert Slot(snap.tier, other) in Slots(b);
        var j :| 0 <= j < n && Slot(snap.tier, other) in Filed(accounts[j], snaps[j]);
      }
      assert Slots(b') == Slots(b) + {Slot(snap.tier, e)} by {
        RefillSlots(b, snap.tier, b[snap.tier] + [e], [e]);
      }
      forall s | s in Slots(b')
        ensures exists j :: 0 <= j < n + 1 && s in Filed(accounts[j], snaps[j])
      {
        if s in Slots(b) {
          var j :| 0 <= j < n && s in Filed(accounts[j], snaps[j]);
        } else {
          assert s in Filed(accounts[n], snaps[n]);
        }
      }
    }
  }

  /** Entries collected in different tiers are of different accounts. */
  lemma CollectedApart(b: Buckets, accounts: seq<Account>, snaps: seq<Snap>, n: nat, s1: Slot, s2: Slot)
    requires DistinctAccounts(accounts) && Collected(b, accounts, snaps, n)
    requires s1 in Slots(b) && s2 in Slots(b)
    ensures Named(s1.entry) && (s1.entry.dbID == s2.entry.dbID ==> s1 == s2)
  {
    var i :| 0 <= i < n && s1 in Filed(accounts[i], snaps[i]);
    var j :| 0 <= j < n && s2 in Filed(accounts[j], snaps[j]);
  }

  lemma NothingCollected(accounts: seq<Account>, snaps: seq<Snap>)
    requires |accounts| == |snaps|
    ensures Collected(map[Healthy := [], Warm := [], Risky := []], accounts, snaps, 0)
    ensures Indexed(map[Healthy := [], Warm := [], Risky := []], map[])
  {
  }

  lemma FiledExactly(a: Account, snap: Snap)
    ensures Filed(a, snap) ==
            if a.dbID != 0 && snap.available && 0 < snap.limit then {Slot(snap.tier, ExactEntry(a, snap))} else {}
  {
  }

  /** Only accounts of the first `i` tiers have positions. */
  ghost predicate FiledBefore(b: Buckets, p: Positions, i: nat)
    requires HasTiers(b)
  {
    forall id :: id in p ==> exists s :: s in Slots(b) && s.entry.dbID == id && TierIndex(s.tier) < i
  }

  lemma NothingFiled(b: Buckets, accounts: seq<Account>, snaps: seq<Snap>, n: nat)
    requires Collected(b, accounts, snaps, n)
    ensures HasTiers(b) && FiledBefore(b, map[], 0)
  {
  }

  /** Entries of different accounts, none of which has a position yet. */
  ghost predicate NewEntries(bucket: seq<Entry>, p: Positions) {
    DistinctIDs(bucket) && forall e :: e in bucket ==> Named(e) && e.dbID !in p
  }

  ghost predicate OnlyAdds(bucket: seq<Entry>, p: Positions, p': Positions) {
    forall id :: id in p' ==> id in p || HasID(bucket, id)
  }

  lemma AddsNothing(bucket: seq<Entry>, p: Positions)
    ensures OnlyAdds(bucket, p, p)
  {
  }

  lemma NotYetFiled(b: Buckets, accounts: seq<Account>, snaps: seq<Snap>, p: Positions, t: Tier)
    requires DistinctAccounts(accounts) && Collected(b, accounts, snaps, |accounts|)
    requires t in b && FiledBefore(b, p, TierIndex(t))
    ensures NewEntries(b[t], p)
  {
    forall e | e in b[t]
      ensures Named(e) && e.dbID !in p
    {
      CollectedApart(b, accounts, snaps, |accounts|, Slot(t, e), Slot(t, e));
      forall s | s in Slots(b) && s.entry.dbID == e.dbID
        ensures s.tier == t
      {
        CollectedApart(b, accounts, snaps, |accounts|, s, Slot(t, e));
      }
    }
  }

  lemma FiledOneMore(b: Buckets, p: Positions, t: Tier, p': Positions)
    requires HasTiers(b) && t in b && FiledBefore(b, p, TierIndex(t))
    requires OnlyAdds(b[t], p, p')
    ensures FiledBefore(b, p', TierIndex(t) + 1)
  {
    forall id | id in p'
      ensures exists s :: s in Slots(b) && s.entry.dbID == id && TierIndex(s.tier) < TierIndex(t) + 1
    {
      if id in p {
        var s :| s in Slots(b) && s.entry.dbID == id && TierIndex(s.tier) < TierIndex(t);
      } else {
        var e :| e in b[t] && e.dbID == id;
        assert Slot(t, e) in Slots(b);
      }
    }
  }

  lemma SameSlots(b: Buckets, b': Buckets)
    requires HasTiers(b) && HasTiers(b') && forall t :: t in b ==> multiset(b[t]) == multiset(b'[t])
    ensures Slots(b) == Slots(b')
  {
    forall t | t in b
      ensures forall e :: e in b[t] <==> e in b'[t]
    {
      SameElements(b[t], b'[t]);
    }
  }

  /** The first `i` buckets are those of `b` in full order, the others still empty. */
  ghost predicate Installed(mode: string, usage: map<Account, real>, b: Buckets, done: Buckets, i: nat)
  {
    && HasTiers(b) && HasTiers(done)
    && forall t :: t in done ==>
         if TierIndex(t) < i then multiset(done[t]) == multiset(b[t]) && InFullOrder(mode, usage, done[t]) else done[t] == []
  }

  lemma NothingInstalled(mode: string, usage: map<Account, real>, b: Buckets)
    requires HasTiers(b)
    ensures Installed(mode, usage, b, map[Healthy := [], Warm := [], Risky := []], 0)
  {
  }

  lemma StillEmpty(mode: string, usage: map<Account, real>, b: Buckets, done: Buckets, t: Tier)
    requires t in done && t in {Healthy, Warm, Risky} && Installed(mode, usage, b, done, TierIndex(t))
    ensures done[t] == []
  {
  }

  lemma InstalledOneMore(mode: string, usage: map<Account, real>, b: Buckets, done: Buckets, t: Tier, bucket: seq<Entry>)
    requires t in {Healthy, Warm, Risky} && Installed(mode, usage, b, done, TierIndex(t))
    requires multiset(bucket) == multiset(b[t]) && InFullOrder(mode, usage, bucket)
    ensures Installed(mode, usage, b, done[t := bucket], TierIndex(t) + 1)
  {
  }

  lemma InstalledEmpty(mode: string, usage: map<Account, real>, b: Buckets, done: Buckets, t: Tier)
    requires t in {Healthy, Warm, Risky} && Installed(mode, usage, b, done, TierIndex(t)) && b[t] == []
    ensures Installed(mode, usage, b, done, TierIndex(t) + 1)
  {
    EmptyIsSorted(mode, usage);
    StillEmpty(mode, usage, b, done, t);
    assert done == done[t := []];
    InstalledOneMore(mode, usage, b, done, t, []);
  }

  lemma InstalledAll(mode: string, usage: map<Account, real>, b: Buckets, done: Buckets)
    requires Installed(mode, usage, b, done, 3)
    ensures Slots(done) == Slots(b)
    ensures forall t :: t in done ==> InFullOrder(mode, usage, done[t])
  {
    SameSlots(b, done);
  }

  // ----- one scan of a bucket -----

  /** Nothing but the scheduling fields changed, and those only to what a recomputation at `now` gives. */
  ghost predicate Refreshed(v: AccountView, signals: Signals, sched: SchedState, baseLimit: int, now: Time) {
    signals == v.signals && (sched == v.sched || sched == AfterSnapshot(v, baseLimit, now).sched)
  }

  /** An account as an acquire finds it. */
  datatype AtStart = AtStart(view: AccountView, active: int, lastUsedAt: Time)

  /** The account shows what it showed at the start, refreshed at most; its counters are untouched. */
  ghost predicate SteadyOne(f: Facts, b: AtStart, a: Account, request: Request, groups: GroupCheck, baseLimit: int, now: Time)
    reads a
  {
    && f == FactsOf(a, request, groups, baseLimit, now)
    && Refreshed(b.view, a.signals, a.sched, baseLimit, now)
    && a.totalRequests == b.view.totalRequests && a.activeRequests == b.active && a.lastUsedAt == b.lastUsedAt
  }

  ghost predicate Steady(facts: map<Account, Facts>, before: map<Account, AtStart>, accounts: set<Account>,
                         request: Request, groups: GroupCheck, baseLimit: int, now: Time)
    reads accounts
  {
    forall a :: a in accounts ==>
      a in facts && a in before && SteadyOne(facts[a], before[a], a, request, groups, baseLimit, now)
  }

  lemma RefreshedAtFirst(v: AccountView, baseLimit: int, now: Time)
    ensures Refreshed(v, v.signals, v.sched, baseLimit, now)
  {
  }

  lemma SteadyAtFirst(facts: map<Account, Facts>, before: map<Account, AtStart>, accounts: set<Account>,
                      request: Request, groups: GroupCheck, baseLimit: int, now: Time)
    requires forall a :: a in accounts ==> a in facts && facts[a] == FactsOf(a, request, groups, baseLimit, now)
    requires forall a :: a in accounts ==> a in before && before[a] == AtStart(a.View(), a.activeRequests, a.lastUsedAt)
    ensures Steady(facts, before, accounts, request, groups, baseLimit, now)
  {
    hide FactsOf, Refreshed;
    forall a | a in accounts
      ensures Refreshed(a.View(), a.signals, a.sched, baseLimit, now)
    {
      RefreshedAtFirst(a.View(), baseLimit, now);
    }
  }

  lemma SteadyMeans(facts: map<Account, Facts>, before: map<Account, AtStart>, accounts: set<Account>,
                    request: Request, groups: GroupCheck, baseLimit: int, now: Time)
    requires Steady(facts, before, accounts, request, groups, baseLimit, now)
    ensures forall a :: a in accounts ==>
      && a in before && Refreshed(before[a].view, a.signals, a.sched, baseLimit, now)
      && a.totalRequests == before[a].view.totalRequests && a.activeRequests == before[a].active && a.lastUsedAt == before[a].lastUsedAt
      && a in facts && facts[a] == FactsOf(a, request, groups, baseLimit, now)
  {
    hide FactsOf, Refreshed;
  }

  lemma FoundUsageIsCurrent(facts: map<Account, Facts>, request: Request, groups: GroupCheck, baseLimit: int, now: Time)
    requires forall a :: a in facts ==> facts[a] == FactsOf(a, request, groups, baseLimit, now)
    ensures forall a :: a in facts ==> facts[a].usage == a.UsagePercentForScheduling()
  {
  }

  lemma OrderWhileSteady(mode: string, b: Buckets, facts: map<Account, Facts>, before: map<Account, AtStart>, accounts: set<Account>,
                         request: Request, groups: GroupCheck, baseLimit: int, now: Time)
    requires Steady(facts, before, accounts, request, groups, baseLimit, now) && Members(b) <= accounts
    ensures UsageOrdered(mode, b) <==> OrderedByFacts(mode, b, facts)
  {
    hide UsageOrdered, OrderedByFacts, SnapshotOf, Refreshed, Eligible;
    OrderIsAsFound(mode, b, facts);
  }

  /** One slot taken. */
  ghost predicate Granted(b: AtStart, a: Account, baseLimit: int, now: Time)
    reads a
  {
    && Refreshed(b.view, a.signals, a.sched, baseLimit, now)
    && a.totalRequests == b.view.totalRequests + 1 && a.activeRequests == b.active + 1 && a.lastUsedAt == now
  }

  function Rest(accounts: set<Account>, acc: Account?): set<Account> {
    if acc == null then accounts else accounts - {acc}
  }

  lemma RefreshedTwice(v: AccountView, w: AccountView, baseLimit: int, now: Time)
    requires Refreshed(v, w.signals, w.sched, baseLimit, now) && w.totalRequests == v.totalRequests
    ensures
      var again := AfterSnapshot(w, baseLimit, now);
      && Refreshed(v, again.signals, again.sched, baseLimit, now)
      && SnapshotOf(again, baseLimit, now) == SnapshotOf(w, baseLimit, now)
  {
    SnapshotStable(w, baseLimit, now);
    RecomputeIdempotent(v, baseLimit, now);
  }

  /** The entry a scan looks at after `k` others, starting where the cursor stands. */
  function Turn(cursor: nat, k: nat, n: nat): (i: nat)
    requires n > 0
    ensures i < n
  {
    (cursor % n + k) % n
  }

  /** The first `k` entries of the scan were passed over. */
  ghost predicate PassedTurns(t: Tier, bucket: seq<Entry>, cursor: nat, k: nat, facts: map<Account, Facts>) {
    && k <= |bucket|
    && (forall e :: e in bucket ==> e.acc in facts)
    && (forall j :: 0 <= j < k ==>
          var e := bucket[Turn(cursor, j, |bucket|)];
          PassedOver(t, e, facts[e.acc]))
  }

  lemma WrapsOnce(i: nat, n: nat)
    requires i < n
    ensures (i + n) % n == i
  {
  }

  lemma TurnsCoverBucket(cursor: nat, n: nat, i: nat) returns (k: nat)
    requires i < n
    ensures k < n && Turn(cursor, k, n) == i
  {
    var start := cursor % n;
    k := if start <= i then i - start else i + n - start;
    if i < start {
      assert start + k == i + n;
      WrapsOnce(i, n);
    }
  }

  /** A scan that passed everything over passed every entry over. */
  lemma PassedAll(t: Tier, bucket: seq<Entry>, cursor: nat, facts: map<Account, Facts>, e: Entry)
    requires PassedTurns(t, bucket, cursor, |bucket|, facts) && e in bucket
    ensures PassedOver(t, e, facts[e.acc])
  {
    var i :| 0 <= i < |bucket| && bucket[i] == e;
    var k := TurnsCoverBucket(cursor, |bucket|, i);
  }

  // ----- what a whole acquire does -----

  /** Where the scan of a bucket starts: at its cursor, except that remaining_quota always starts at the front. */
  function Ticket(mode: string, cursors: seq<nat>, t: Tier): nat
    requires |cursors| == 3
  {
    if mode == REMAINING_QUOTA || t !in {Healthy, Warm, Risky} then 0 else cursors[TierIndex(t)]
  }

  ghost predicate AllPassed(b: Buckets, t: Tier, facts: map<Account, Facts>) {
    t in b ==> forall e :: e in b[t] ==> e.acc in facts && PassedOver(t, e, facts[e.acc])
  }

  lemma ScanPassedAll(b: Buckets, t: Tier, cursor: nat, facts: map<Account, Facts>)
    requires t in b && PassedTurns(t, b[t], cursor, |b[t]|, facts)
    ensures AllPassed(b, t, facts)
  {
    hide PassedOver;
    forall e | e in b[t]
      ensures PassedOver(t, e, facts[e.acc])
    {
      PassedAll(t, b[t], cursor, facts, e);
    }
  }

  lemma EntriesAreMembers(b: Buckets, t: Tier)
    requires t in b
    ensures forall e :: e in b[t] ==> e.acc in Members(b)
  {
    forall e | e in b[t]
      ensures e.acc in Members(b)
    {
      assert Slot(t, e) in Slots(b);
    }
  }

  /** The slot a scan of tier `t` from `ticket` reaches after `turn` others. */
  ghost function Reached(b: Buckets, t: Tier, ticket: nat, turn: nat): Slot
    requires t in b && turn < |b[t]|
  {
    Slot(t, b[t][Turn(ticket, turn, |b[t]|)])
  }

  /** The scan got to the entry `turn` places after the ticket in tier `t`: all before it were passed over. */
  ghost predicate ReachedInTurn(t: Tier, b: Buckets, ticket: nat, turn: nat, facts: map<Account, Facts>) {
    && HasTiers(b) && t in b && turn < |b[t]|
    && (forall u :: u in b && TierIndex(u) < TierIndex(t) ==> AllPassed(b, u, facts))
    && PassedTurns(t, b[t], ticket, turn, facts)
  }

  /** The entry reached is the account's, in its place, up to date and grantable. */
  ghost predicate GrantedThere(acc: Account, t: Tier, b: Buckets, p: Positions, ticket: nat, turn: nat,
                               facts: map<Account, Facts>)
    requires t in b && turn < |b[t]|
  {
    var e := Reached(b, t, ticket, turn).entry;
    && e.acc == acc && acc in facts && Grantable(facts[acc]) && !StaleEntry(t, e, facts[acc].snap)
    && acc.dbID in p && p[acc.dbID] == Position(t, Turn(ticket, turn, |b[t]|))
  }

  lemma IndexHasTiers(b: Buckets, p: Positions)
    requires Indexed(b, p)
    ensures HasTiers(b)
  {
  }

  lemma FiledWhereReached(b: Buckets, p: Positions, t: Tier, i: nat)
    requires Indexed(b, p) && t in b && i < |b[t]|
    ensures Named(b[t][i]) && b[t][i].dbID in p && p[b[t][i].dbID] == Position(t, i)
  {
    assert Forward(t, b[t], p);
  }

  /** A slot the facts show to be out of date. */
  ghost predicate StaleSlot(s: Slot, facts: map<Account, Facts>) {
    s.entry.acc in facts && StaleEntry(s.tier, s.entry, facts[s.entry.acc].snap)
  }

  /** The termination measure of an acquire. */
  ghost function StaleSlots(slots: set<Slot>, facts: map<Account, Facts>): set<Slot> {
    set s | s in slots && StaleSlot(s, facts)
  }

  ghost predicate HadSlot(slots: set<Slot>, a: Account) {
    exists s :: s in slots && s.entry.acc == a
  }

  /** Slots differ from the old ones only where an old slot was stale: there the exact slot stands, or none. */
  ghost predicate OnlyRepaired(was: set<Slot>, after: set<Slot>, facts: map<Account, Facts>) {
    && (forall s :: s in after && s !in was ==> s.entry.acc in facts && s in Filed(s.entry.acc, facts[s.entry.acc].snap))
    && (forall s :: s in after ==> s.entry.acc in facts && HadSlot(was, s.entry.acc))
    && (forall s :: s in was && s !in after ==> StaleSlot(s, facts) && Filed(s.entry.acc, facts[s.entry.acc].snap) <= after)
  }

  lemma RepairShrinksStale(slots: set<Slot>, fixed: Slot, facts: map<Account, Facts>)
    requires fixed in slots && StaleSlot(fixed, facts)
    ensures
      var repaired := Others(slots, fixed.entry.dbID) + Filed(fixed.entry.acc, facts[fixed.entry.acc].snap);
      StaleSlots(repaired, facts) < StaleSlots(slots, facts)
  {
    var repaired := Others(slots, fixed.entry.dbID) + Filed(fixed.entry.acc, facts[fixed.entry.acc].snap);
    assert fixed in StaleSlots(slots, facts) && fixed !in StaleSlots(repaired, facts);
  }

  lemma NothingRepairedYet(b: Buckets, p: Positions, facts: map<Account, Facts>)
    requires Indexed(b, p) && facts.Keys == Members(b)
    ensures OnlyRepaired(Slots(b), Slots(b), facts)
  {
  }

  /** A slot of the start that a repair leaves out was stale, and its account is filed exactly, or not at all. */
  lemma LeftOutIsRepaired(b0: Buckets, p0: Positions, b: Buckets, p: Positions, fixed: Slot, facts: map<Account, Facts>, s: Slot)
    requires Indexed(b0, p0) && Indexed(b, p) && fixed in Slots(b) && StaleSlot(fixed, facts)
    requires OnlyRepaired(Slots(b0), Slots(b), facts)
    requires s in Slots(b0) && s !in Others(Slots(b), fixed.entry.dbID) + Filed(fixed.entry.acc, facts[fixed.entry.acc].snap)
    ensures StaleSlot(s, facts)
    ensures Filed(s.entry.acc, facts[s.entry.acc].snap) <= Others(Slots(b), fixed.entry.dbID) + Filed(fixed.entry.acc, facts[fixed.entry.acc].snap)
  {
    hide Indexed, StaleEntry;
    var repaired := Others(Slots(b), fixed.entry.dbID) + Filed(fixed.entry.acc, facts[fixed.entry.acc].snap);
    if s in Slots(b) {
      OneSlotPerAccount(b, p, s, fixed);
    } else {
      forall x | x in Filed(s.entry.acc, facts[s.entry.acc].snap)
        ensures x in repaired
      {
        assert x in Slots(b);
        if x.entry.dbID == fixed.entry.dbID {
          IndexedSlot(b, p, fixed);
          OneSlotPerAccount(b, p, x, fixed);
        }
      }
    }
  }

  lemma RepairOnlyRepairs(b0: Buckets, p0: Positions, b: Buckets, p: Positions, fixed: Slot, facts: map<Account, Facts>)
    requires Indexed(b0, p0) && Indexed(b, p) && fixed in Slots(b) && StaleSlot(fixed, facts)
    requires OnlyRepaired(Slots(b0), Slots(b), facts)
    ensures
      OnlyRepaired(Slots(b0), Others(Slots(b), fixed.entry.dbID) + Filed(fixed.entry.acc, facts[fixed.entry.acc].snap), facts)
  {
    hide Indexed, StaleEntry, Slots, HadSlot;
    var repaired := Others(Slots(b), fixed.entry.dbID) + Filed(fixed.entry.acc, facts[fixed.entry.acc].snap);
    forall s | s in repaired
      ensures s in Slots(b) || s.entry.acc == fixed.entry.acc
    {
    }
    forall s | s in Slots(b0) && s !in repaired
      ensures StaleSlot(s, facts) && Filed(s.entry.acc, facts[s.entry.acc].snap) <= repaired
    {
      LeftOutIsRepaired(b0, p0, b, p, fixed, facts, s);
    }
  }

  /** When a pass leaves nothing to offer, none of the accounts filed at the start was grantable. */
  lemma NoneGrantable(b0: Buckets, p0: Positions, b: Buckets, facts: map<Account, Facts>, a: Account)
    requires Indexed(b0, p0) && OnlyRepaired(Slots(b0), Slots(b), facts)
    requires a in Members(b0) && a in facts
    requires forall u :: u in b ==> AllPassed(b, u, facts)
    ensures !Grantable(facts[a])
  {
    var s :| s in Slots(b0) && s.entry.acc == a;
    IndexedSlot(b0, p0, s);
    if s !in Slots(b) && Filed(a, facts[a].snap) != {} {
      var x :| x in Filed(a, facts[a].snap);
      assert x in Slots(b);
    }
  }

  /** Taking an account's slot out leaves all other accounts filed. */
  lemma OthersStayFiled(b: Buckets, p: Positions, acc: Account, b': Buckets)
    requires Indexed(b, p) && acc in Members(b) && Slots(b') == Others(Slots(b), acc.dbID)
    ensures Members(b') == Members(b) - {acc}
  {
    var own :| own in Slots(b) && own.entry.acc == acc;
    IndexedSlot(b, p, own);
    forall x | x in Slots(b)
      ensures x in Slots(b') <==> x.entry.acc != acc
    {
      IndexedSlot(b, p, x);
      if x.entry.dbID == acc.dbID {
        OneSlotPerAccount(b, p, x, own);
      }
    }
  }

  /** An account that a repair has left without a slot was not grantable. */
  lemma LostNotGrantable(b0: Buckets, p0: Positions, b: Buckets, facts: map<Account, Facts>, a: Account)
    requires Indexed(b0, p0) && OnlyRepaired(Slots(b0), Slots(b), facts)
    requires a in Members(b0) && a !in Members(b) && a in facts
    ensures !Grantable(facts[a])
  {
    var s :| s in Slots(b0) && s.entry.acc == a;
    IndexedSlot(b0, p0, s);
    if Filed(a, facts[a].snap) != {} {
      var x :| x in Filed(a, facts[a].snap);
      assert x in Slots(b);
    }
  }

  lemma MembersWereFiled(b0: Buckets, b: Buckets, facts: map<Account, Facts>)
    requires OnlyRepaired(Slots(b0), Slots(b), facts)
    ensures Members(b) <= Members(b0)
  {
    forall a | a in Members(b)
      ensures a in Members(b0)
    {
      var s :| s in Slots(b) && s.entry.acc == a;
      var o :| o in Slots(b0) && o.entry.acc == a;
    }
  }

  /** A grant and the refreshes before it leave every account's usage as it was found. */
  lemma OrderAfterSearch(mode: string, b0: Buckets, b: Buckets, facts: map<Account, Facts>, before: map<Account, AtStart>,
                         acc: Account?, request: Request, groups: GroupCheck, baseLimit: int, now: Time)
    requires Steady(facts, before, Rest(Members(b0), acc), request, groups, baseLimit, now)
    requires acc != null ==> acc in before && Granted(before[acc], acc, baseLimit, now)
    requires forall a :: a in facts ==> a in before && facts[a].usage == SchedulingUsage(before[a].view.signals)
    requires facts.Keys == Members(b0) && OnlyRepaired(Slots(b0), Slots(b), facts)
    ensures UsageOrdered(mode, b) <==> OrderedByFacts(mode, b, facts)
  {
    hide UsageOrdered, OrderedByFacts, SnapshotOf, AfterSnapshot, Eligible, Slots, Members, OnlyRepaired;
    MembersWereFiled(b0, b, facts);
    OrderIsAsFound(mode, b, facts);
  }

  lemma MembersAfterRepair(b: Buckets, b': Buckets, fixed: Entry, snap: Snap)
    requires Slots(b') == Others(Slots(b), fixed.dbID) + Filed(fixed.acc, snap) && fixed.acc in Members(b)
    ensures Members(b') <= Members(b)
  {
  }

  /** The account was reached in its turn from where its bucket's cursor stood, and granted there. */
  ghost predicate ServedInTurn(acc: Account, b: Buckets, p: Positions, mode: string, cursors: seq<nat>, turn: nat,
                               facts: map<Account, Facts>)
    requires |cursors| == 3
  {
    && acc.dbID in p
    && var t := p[acc.dbID].tier;
       && t in {Healthy, Warm, Risky}
       && (mode != REMAINING_QUOTA ==> cursors[TierIndex(t)] > 0)
       && var ticket := if mode == REMAINING_QUOTA then 0 else cursors[TierIndex(t)] - 1;
          ReachedInTurn(t, b, ticket, turn, facts) && GrantedThere(acc, t, b, p, ticket, turn, facts)
  }

  lemma ServedIsFiled(b: Buckets, p: Positions, acc: Account, mode: string, cursors: seq<nat>, turn: nat, facts: map<Account, Facts>)
    requires |cursors| == 3 && ServedInTurn(acc, b, p, mode, cursors, turn, facts)
    ensures acc in Members(b)
  {
    var t := p[acc.dbID].tier;
    var ticket := if mode == REMAINING_QUOTA then 0 else cursors[TierIndex(t)] - 1;
    assert Reached(b, t, ticket, turn) in Slots(b);
  }

  /** The entry a pass gets to first in tier `t`, when it can be served as it stands and all above are passed over. */
  ghost predicate FirstInLine(t: Tier, b: Buckets, ticket: nat, facts: map<Account, Facts>) {
    && HasTiers(b) && t in b && b[t] != []
    && (forall u :: u in b && TierIndex(u) < TierIndex(t) ==> AllPassed(b, u, facts))
    && var s := Reached(b, t, ticket, 0);
       s.entry.acc in facts && Grantable(facts[s.entry.acc]) && !StaleSlot(s, facts)
  }

  /** What the first entry in line is due: a slot at once, and the cursor moved by one. */
  ghost predicate ServedFirst(acc: Account?, mode: string, b0: Buckets, p0: Positions, cursors0: seq<nat>,
                              b: Buckets, p: Positions, cursors: seq<nat>, facts: map<Account, Facts>)
    requires |cursors0| == |cursors| == 3
  {
    forall t :: FirstInLine(t, b0, Ticket(mode, cursors0, t), facts) ==>
      && acc == Reached(b0, t, Ticket(mode, cursors0, t), 0).entry.acc
      && b == b0 && p == p0
      && (mode != REMAINING_QUOTA ==> cursors[TierIndex(t)] == cursors0[TierIndex(t)] + 1)
  }

  /** The scan got to that entry and had something to do there. */
  ghost predicate StoppedAt(u: Tier, b: Buckets, ticket: nat, turn: nat, facts: map<Account, Facts>) {
    && ReachedInTurn(u, b, ticket, turn, facts)
    && var e := Reached(b, u, ticket, turn).entry;
       e.acc in facts && !PassedOver(u, e, facts[e.acc])
  }

  lemma FirstInLineIsReached(t: Tier, b: Buckets, ticket: nat, u: Tier, ticket': nat, turn: nat, facts: map<Account, Facts>)
    requires FirstInLine(t, b, ticket, facts)
    requires StoppedAt(u, b, ticket', turn, facts) && (u == t ==> ticket' == ticket)
    ensures u == t && turn == 0
  {
    var e := Reached(b, t, ticket, 0).entry;
    var f := facts[e.acc];
    assert e in b[t] && Reached(b, u, ticket', turn).entry in b[u];
    assert TierIndex(t) < TierIndex(u) ==> AllPassed(b, t, facts);
    assert TierIndex(u) < TierIndex(t) ==> AllPassed(b, u, facts);
    assert u == t && turn > 0 ==> PassedOver(t, e, f);
  }

  /** A pass gets to the entry first in line before anything else. */
  lemma PassReachesFirst(mode: string, b: Buckets, cursors: seq<nat>, u: Tier, turn: nat, facts: map<Account, Facts>)
    requires |cursors| == 3 && StoppedAt(u, b, Ticket(mode, cursors, u), turn, facts)
    ensures forall t :: FirstInLine(t, b, Ticket(mode, cursors, t), facts) ==>
      t == u && turn == 0 && !StaleSlot(Reached(b, u, Ticket(mode, cursors, u), turn), facts)
  {
    forall t | FirstInLine(t, b, Ticket(mode, cursors, t), facts)
      ensures t == u && turn == 0
    {
      FirstInLineIsReached(t, b, Ticket(mode, cursors, t), u, Ticket(mode, cursors, u), turn, facts);
    }
  }

  lemma NobodyFirst(mode: string, b: Buckets, cursors: seq<nat>, facts: map<Account, Facts>)
    requires |cursors| == 3 && forall u :: u in b ==> AllPassed(b, u, facts)
    ensures forall t :: !FirstInLine(t, b, Ticket(mode, cursors, t), facts)
  {
    forall t | t in b && b[t] != []
      ensures !FirstInLine(t, b, Ticket(mode, cursors, t), facts)
    {
      assert b[t][Turn(Ticket(mode, cursors, t), 0, |b[t]|)] in b[t];
    }
  }

  lemma ReachedIsFiled(b: Buckets, t: Tier, ticket: nat, turn: nat)
    requires t in b && turn < |b[t]|
    ensures Reached(b, t, ticket, turn) in Slots(b)
  {
  }

  ghost predicate NoneFirst(mode: string, b0: Buckets, cursors0: seq<nat>, facts: map<Account, Facts>)
    requires |cursors0| == 3
  {
    forall t :: !FirstInLine(t, b0, Ticket(mode, cursors0, t), facts)
  }

  /** Either no pass has ended yet, or it is settled that nobody was first in line. */
  ghost predicate FirstOrNone(mode: string, b0: Buckets, p0: Positions, cursors0: seq<nat>,
                              b: Buckets, p: Positions, cursors: seq<nat>, facts: map<Account, Facts>)
  {
    && |cursors0| == |cursors| == 3
    && ((b == b0 && p == p0 && cursors == cursors0) || NoneFirst(mode, b0, cursors0, facts))
  }

  lemma StillFirst(mode: string, b: Buckets, p: Positions, cursors: seq<nat>, facts: map<Account, Facts>)
    requires |cursors| == 3
    ensures FirstOrNone(mode, b, p, cursors, b, p, cursors, facts)
  {
  }

  lemma NoneStaysNone(mode: string, b0: Buckets, p0: Positions, cursors0: seq<nat>,
                      b: Buckets, p: Positions, cursors: seq<nat>, facts: map<Account, Facts>)
    requires |cursors0| == |cursors| == 3 && NoneFirst(mode, b0, cursors0, facts)
    ensures FirstOrNone(mode, b0, p0, cursors0, b, p, cursors, facts)
  {
  }

  lemma GrantServes(acc: Account, mode: string, b0: Buckets, p0: Positions, cursors0: seq<nat>,
                    b: Buckets, p: Positions, cursors: seq<nat>, cursors': seq<nat>,
                    t: Tier, turn: nat, facts: map<Account, Facts>)
    requires FirstOrNone(mode, b0, p0, cursors0, b, p, cursors, facts) && |cursors'| == 3
    requires t in {Healthy, Warm, Risky} && ReachedInTurn(t, b, Ticket(mode, cursors, t), turn, facts)
    requires GrantedThere(acc, t, b, p, Ticket(mode, cursors, t), turn, facts)
    requires mode != REMAINING_QUOTA ==> cursors'[TierIndex(t)] == cursors[TierIndex(t)] + 1
    ensures ServedInTurn(acc, b, p, mode, cursors', turn, facts)
    ensures ServedFirst(acc, mode, b0, p0, cursors0, b, p, cursors', facts)
  {
    PassReachesFirst(mode, b, cursors, t, turn, facts);
  }

  lemma NilServes(mode: string, b0: Buckets, p0: Positions, cursors0: seq<nat>,
                  b: Buckets, p: Positions, cursors: seq<nat>, cursors': seq<nat>, facts: map<Account, Facts>)
    requires FirstOrNone(mode, b0, p0, cursors0, b, p, cursors, facts) && |cursors'| == 3
    requires forall u :: u in b ==> AllPassed(b, u, facts)
    ensures ServedFirst(null, mode, b0, p0, cursors0, b, p, cursors', facts)
  {
    NobodyFirst(mode, b, cursors, facts);
  }

  lemma RepairRestarts(mode: string, b0: Buckets, p0: Positions, cursors0: seq<nat>,
                       b: Buckets, p: Positions, cursors: seq<nat>, t: Tier, turn: nat, facts: map<Account, Facts>)
    requires FirstOrNone(mode, b0, p0, cursors0, b, p, cursors, facts)
    requires Indexed(b0, p0) && Indexed(b, p) && OnlyRepaired(Slots(b0), Slots(b), facts)
    requires ReachedInTurn(t, b, Ticket(mode, cursors, t), turn, facts)
    requires StaleSlot(Reached(b, t, Ticket(mode, cursors, t), turn), facts)
    requires facts[Reached(b, t, Ticket(mode, cursors, t), turn).entry.acc].eligible
    ensures NoneFirst(mode, b0, cursors0, facts)
    ensures
      var fixed := Reached(b, t, Ticket(mode, cursors, t), turn);
      var repaired := Others(Slots(b), fixed.entry.dbID) + Filed(fixed.entry.acc, facts[fixed.entry.acc].snap);
      StaleSlots(repaired, facts) < StaleSlots(Slots(b), facts) && OnlyRepaired(Slots(b0), repaired, facts)
  {
    var fixed := Reached(b, t, Ticket(mode, cursors, t), turn);
    PassReachesFirst(mode, b, cursors, t, turn, facts);
    ReachedIsFiled(b, t, Ticket(mode, cursors, t), turn);
    RepairShrinksStale(Slots(b), fixed, facts);
    RepairOnlyRepairs(b0, p0, b, p, fixed, facts);
  }

  lemma DistinctBucket(b: Buckets, p: Positions, t: Tier)
    requires Indexed(b, p) && t in b
    ensures DistinctIDs(b[t])
  {
    IndexedIsDistinct(t, b[t], p);
  }

  lemma WithoutIsDistinct(b: Buckets, p: Positions, t: Tier, k: nat)
    requires Indexed(b, p) && t in b && k < |b[t]|
    ensures DistinctIDs(Without(b[t], k))
  {
    IndexedIsDistinct(t, b[t], p);
  }

  lemma RemoveStep(mode: string, b: Buckets, p: Positions, id: int, p': Positions)
    requires Indexed(b, p) && ScoreOrdered(mode, b)
    requires id in p && Backward(b, id, p[id])
    requires Rebuilt(p[id].tier, Without(b[p[id].tier], p[id].index), p - {id}, p')
    ensures
      var b' := b[p[id].tier := Without(b[p[id].tier], p[id].index)];
      && Indexed(b', p') && ScoreOrdered(mode, b')
      && Slots(b') == Others(Slots(b), id)
      && id !in p'
  {
    var t, k := p[id].tier, p[id].index;
    RemoveKeepsIndex(b, p, id, p');
    if StrictlySorted(ByScore, b[t]) {
      StrictlySortedWithout(ByScore, b[t], k);
    }
    IndexedIsDistinct(t, b[t], p);
    WithoutElements(b[t], k);
  }

  lemma InsertStep(mode: string, b: Buckets, p: Positions, t: Tier, order: Order, e: Entry, p': Positions)
    requires Indexed(b, p) && ScoreOrdered(mode, b) && t in b
    requires Named(e) && e.dbID !in p
    requires mode != REMAINING_QUOTA && !(mode == ROUND_ROBIN && t == Healthy) ==> order == ByScore
    requires Rebuilt(t, StableSort(order, b[t] + [e]), p, p')
    ensures
      var b' := b[t := StableSort(order, b[t] + [e])];
      && Indexed(b', p') && ScoreOrdered(mode, b')
      && Slots(b') == Slots(b) + {Slot(t, e)}
  {
    hide StableSort, StrictlySorted, Indexed, Rebuilt, Slots;
    RefillIsDistinct(b, p, t, e);
    StableSortIsSorted(order, b[t] + [e]);
    RefillKeepsIndex(b, p, t, StableSort(order, b[t] + [e]), [e], p');
  }

  /** Sorting a bucket moves nothing between slots. */
  lemma ResortStep(b: Buckets, p: Positions, t: Tier, order: Order, p': Positions)
    requires Indexed(b, p) && t in b
    requires Rebuilt(t, StableSort(order, b[t]), p, p')
    ensures Indexed(b[t := StableSort(order, b[t])], p')
    ensures Slots(b[t := StableSort(order, b[t])]) == Slots(b)
  {
    hide StableSort, StrictlySorted, Rebuilt, Slots;
    IndexedIsDistinct(t, b[t], p);
    StableSortIsSorted(order, b[t]);
    assert b[t] + [] == b[t];
    RefillKeepsIndex(b, p, t, StableSort(order, b[t]), [], p');
  }

  lemma InstallStep(b: Buckets, p: Positions, t: Tier, order: Order, bucket: seq<Entry>, p': Positions)
    requires Indexed(b, p) && t in b && b[t] == []
    requires NewEntries(bucket, p)
    requires Rebuilt(t, StableSort(order, bucket), p, p')
    ensures Indexed(b[t := StableSort(order, bucket)], p')
    ensures OnlyAdds(bucket, p, p')
  {
    hide StableSort, StrictlySorted, Indexed, Slots;
    StableSortIsSorted(order, bucket);
    SameElements(bucket, StableSort(order, bucket));
    assert b[t] + bucket == bucket;
    RefillKeepsIndex(b, p, t, StableSort(order, bucket), bucket, p');
    forall id | HasID(StableSort(order, bucket), id)
      ensures HasID(bucket, id)
    {
    }
  }
}
