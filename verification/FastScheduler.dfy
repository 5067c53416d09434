/**
 * The in-memory account scheduler (auth/fast_scheduler.go): tier buckets, a position index repaired
 * lazily in the middle of a scan, and round-robin cursors.
 */
module FastScheduler {
  import opened Basics
  import opened Scoring
  import opened ScoringLaws
  import opened Accounts
  import opened Buckets
  import opened Scans

  class Scheduler {
    var baseLimit: int
    var mode: string
    var buckets: Buckets
    var positions: Positions
    const cursors: array<nat>
    var groupCheck: GroupCheck

    ghost predicate Valid()
      reads this
    {
      cursors.Length == 3 && Indexed(buckets, positions) && ScoreOrdered(mode, buckets)
    }

    constructor (baseLimit: int, mode: string)
      ensures Valid() && fresh(cursors)
      ensures Slots(buckets) == {} && cursors[..] == [0, 0, 0]
      ensures this.baseLimit == (if baseLimit <= 0 then 1 else baseLimit)
      ensures this.mode == (if mode == "" then ROUND_ROBIN else mode)
    {
      this.baseLimit := if baseLimit <= 0 then 1 else baseLimit;
      this.mode := if mode == "" then ROUND_ROBIN else mode;
      buckets := map[Healthy := [], Warm := [], Risky := []];
      positions := map[];
      cursors := new nat[3](_ => 0);
      groupCheck := None;
    }

    method SetGroupCheck(check: GroupCheck)
      modifies this`groupCheck
      ensures groupCheck == check
    {
      groupCheck := check;
    }

    /** What is filed stays; the next snapshots are those of the limit given, though one that is not positive is kept as 1. */
    method SetBaseLimit(baseLimit: int)
      modifies this`baseLimit
      ensures old(Valid()) ==> Valid()
      ensures this.baseLimit >= 1
      ensures forall a: AccountView, now: Time :: SnapshotOf(a, this.baseLimit, now) == SnapshotOf(a, baseLimit, now)
    {
      this.baseLimit := if baseLimit <= 0 then 1 else baseLimit;
      forall a: AccountView, now: Time
        ensures SnapshotOf(a, this.baseLimit, now) == SnapshotOf(a, baseLimit, now)
      {
        BaseLimitClamp(a, baseLimit, now);
      }
    }

    method RebuildPositions(t: Tier)
      requires t in buckets && DistinctIDs(buckets[t])
      modifies this`positions
      ensures Rebuilt(t, buckets[t], old(positions), positions)
    {
      var bucket := buckets[t];
      for index := 0 to |bucket|
        invariant forall i :: 0 <= i < index ==> bucket[i].dbID in positions && positions[bucket[i].dbID] == Position(t, i)
        invariant forall id :: id in positions ==> id in old(positions) || HasID(bucket, id)
        invariant forall id :: id in old(positions) && !HasID(bucket, id) ==> id in positions && positions[id] == old(positions[id])
      {
        assert bucket[index] in bucket;
        positions := positions[bucket[index].dbID := Position(t, index)];
      }
    }

    /** removeLocked: the account's slot goes, every other slot stays, no bucket changes order. */
    method RemoveLocked(id: int)
      requires Valid()
      modifies this`buckets, this`positions
      ensures Valid()
      ensures Slots(buckets) == Others(old(Slots(buckets)), id) && id !in positions
      ensures id !in old(positions) ==> buckets == old(buckets) && positions == old(positions)
      ensures id in old(positions) ==>
        var pos := old(positions)[id];
        Backward(old(buckets), id, pos) && buckets == old(buckets)[pos.tier := Without(old(buckets)[pos.tier], pos.index)]
      ensures old(UsageOrdered(mode, buckets)) ==> UsageOrdered(mode, buckets)
    {
      hide ScoreOrdered, StrictlySorted, Rebuilt, UsageOrdered;
      if id !in positions {
        forall s | s in Slots(buckets)
          ensures s.entry.dbID != id
        {
          IndexedSlot(buckets, positions, s);
        }
        return;
      }
      var pos := positions[id];
      var entries := buckets[pos.tier];
      // the code's branch for an index outside the bucket cannot be taken
      assert Backward(buckets, id, pos);

      ghost var b, p := buckets, positions;
      WithoutIsDistinct(b, p, pos.tier, pos.index);
      entries := entries[..pos.index] + entries[pos.index + 1..];
      buckets := buckets[pos.tier := entries];
      positions := positions - {id};
      RebuildPositions(pos.tier);
      RemoveStep(mode, b, p, id, positions);
      if UsageOrdered(mode, b) {
        RemoveKeepsUsageOrder(mode, b, pos.tier, pos.index);
      }
    }

    /** The tail of insertLocked: append, sort the whole bucket, rebuild its positions. */
    method FileEntry(t: Tier, entry: Entry, order: Order)
      requires Valid() && t in buckets && Named(entry) && entry.dbID !in positions
      requires mode != REMAINING_QUOTA && !(mode == ROUND_ROBIN && t == Healthy) ==> order == ByScore
      modifies this`buckets, this`positions
      ensures Valid()
      ensures Slots(buckets) == old(Slots(buckets)) + {Slot(t, entry)}
      ensures buckets == old(buckets)[t := StableSort(order, old(buckets)[t] + [entry])]
    {
      hide StableSort, StrictlySorted, Indexed, ScoreOrdered, Rebuilt, DistinctIDs;
      ghost var b, p := buckets, positions;
      RefillIsDistinct(b, p, t, entry);
      StableSortIsSorted(order, b[t] + [entry]);
      buckets := buckets[t := StableSort(order, buckets[t] + [entry])];
      RebuildPositions(t);
      InsertStep(mode, b, p, t, order, entry, positions);
    }

    /** insertLocked, once the snapshot is taken. */
    method FileSnapshot(acc: Account, snap: Snap)
      requires Valid() && acc.dbID !in positions && acc.dbID != 0
      requires snap.available ==> snap.tier in buckets
      modifies this`buckets, this`positions
      ensures Valid()
      ensures Slots(buckets) == old(Slots(buckets)) + Filed(acc, snap)
      ensures Filed(acc, snap) == {} ==> buckets == old(buckets) && positions == old(positions)
      ensures Filed(acc, snap) != {} ==>
        var refilled := old(buckets)[snap.tier] + [ExactEntry(acc, snap)];
        buckets == old(buckets)[snap.tier := StableSort(InsertOrder(mode, snap.tier, refilled), refilled)]
    {
      if !snap.available || snap.limit <= 0 {
        return;
      }
      var entry := Entry(acc, acc.dbID, snap.score, snap.proven);
      var order := InsertOrder(mode, snap.tier, buckets[snap.tier] + [entry]);
      FileEntry(snap.tier, entry, order);
    }

    /** insertLocked: files the account exactly as a fresh snapshot says, or not at all. */
    method InsertLocked(acc: Account, now: Time)
      requires Valid() && acc.dbID !in positions
      modifies this`buckets, this`positions, acc`sched
      ensures Valid()
      ensures acc.View() == if acc.dbID == 0 then old(acc.View()) else AfterSnapshot(old(acc.View()), baseLimit, now)
      ensures
        var snap := old(SnapshotOf(acc.View(), baseLimit, now));
        && Slots(buckets) == old(Slots(buckets)) + Filed(acc, snap)
        && (Filed(acc, snap) == {} ==> buckets == old(buckets) && positions == old(positions))
        && (Filed(acc, snap) != {} ==>
            var refilled := old(buckets)[snap.tier] + [ExactEntry(acc, snap)];
            buckets == old(buckets)[snap.tier := StableSort(InsertOrder(mode, snap.tier, refilled), refilled)])
      ensures old(UsageOrdered(mode, buckets)) ==> UsageOrdered(mode, buckets)
    {
      hide UsageOrdered, StableSort, SnapshotOf, AfterSnapshot, ScoreOrdered, Slots;
      if acc.dbID == 0 {
        return;
      }
      AvailableTier(acc.View(), baseLimit, now);
      var snap := acc.FastSchedulerSnapshot(baseLimit, now);
      ghost var b, p := buckets, positions;
      FileSnapshot(acc, snap);
      FiledExactly(acc, snap);
      if UsageOrdered(mode, b) && Filed(acc, snap) != {} {
        RefillIsDistinct(b, p, snap.tier, ExactEntry(acc, snap));
        InsertKeepsUsageOrder(mode, b, snap.tier, ExactEntry(acc, snap));
      }
    }

    /** Update: whatever was filed for the account is replaced by what a fresh snapshot says. */
    method Update(acc: Account, now: Time)
      requires Valid()
      modifies this`buckets, this`positions, acc`sched
      ensures Valid()
      ensures acc.View() == if acc.dbID == 0 then old(acc.View()) else AfterSnapshot(old(acc.View()), baseLimit, now)
      ensures Slots(buckets) == Others(old(Slots(buckets)), acc.dbID) + Filed(acc, old(SnapshotOf(acc.View(), baseLimit, now)))
      ensures old(UsageOrdered(mode, buckets)) ==> UsageOrdered(mode, buckets)
    {
      hide SnapshotOf, AfterSnapshot, Indexed, ScoreOrdered, StableSort, InsertOrder, UsageOrdered;
      RemoveLocked(acc.dbID);
      InsertLocked(acc, now);
    }

    method Remove(id: int)
      requires Valid()
      modifies this`buckets, this`positions
      ensures Valid()
      ensures id != 0 ==> Slots(buckets) == Others(old(Slots(buckets)), id) && id !in positions
      ensures id == 0 ==> buckets == old(buckets) && positions == old(positions)
      ensures old(UsageOrdered(mode, buckets)) ==> UsageOrdered(mode, buckets)
    {
      if id == 0 {
        return;
      }
      RemoveLocked(id);
    }

    /** Sorts one bucket for the current mode; the index follows. */
    method Resort(t: Tier, usage: map<Account, real>)
      requires t in buckets && Indexed(buckets, positions)
      modifies this`buckets, this`positions
      ensures Indexed(buckets, positions) && Slots(buckets) == old(Slots(buckets))
      ensures buckets == old(buckets)[t := buckets[t]]
      ensures InFullOrder(mode, usage, buckets[t])
    {
      hide StableSort, StrictlySorted, Indexed, Rebuilt, DistinctIDs, Slots;
      ghost var b, p := buckets, positions;
      DistinctBucket(b, p, t);
      StableSortIsSorted(FullOrder(mode, usage), b[t]);
      buckets := buckets[t := StableSort(FullOrder(mode, usage), buckets[t])];
      RebuildPositions(t);
      ResortStep(b, p, t, FullOrder(mode, usage), positions);
    }

    method ResortAll(usage: map<Account, real>)
      requires Indexed(buckets, positions)
      modifies this`buckets, this`positions
      ensures Indexed(buckets, positions) && Slots(buckets) == old(Slots(buckets))
      ensures forall t :: t in buckets ==> InFullOrder(mode, usage, buckets[t])
    {
      hide Indexed, Slots, InFullOrder;
      IndexHasTiers(buckets, positions);
      for i := 0 to |TIER_ORDER|
        invariant HasTiers(buckets) && Indexed(buckets, positions) && Slots(buckets) == old(Slots(buckets))
        invariant forall t :: t in buckets && TierIndex(t) < i ==> InFullOrder(mode, usage, buckets[t])
      {
        var t := TIER_ORDER[i];
        if |buckets[t]| == 0 {
          EmptyIsSorted(mode, usage);
          assert buckets[t] == [];
          continue;
        }
        Resort(t, usage);
      }
    }

    /** SetSchedulerMode re-sorts every bucket for the new mode and files nothing anew. */
    method SetSchedulerMode(mode: string)
      requires Valid()
      modifies this`mode, this`buckets, this`positions
      ensures Valid()
      ensures this.mode == if mode == "" then ROUND_ROBIN else mode
      ensures Slots(buckets) == old(Slots(buckets))
      ensures forall t :: t in buckets ==> InFullOrder(this.mode, UsageOf(buckets[t]), buckets[t])
      ensures UsageOrdered(this.mode, buckets)
    {
      hide Indexed, Slots, Members, ScoreOrdered, InFullOrder, UsageIn;
      IndexHasTiers(buckets, positions);
      this.mode := if mode == "" then ROUND_ROBIN else mode;
      ghost var b, members := buckets, Members(buckets);
      var usage := UsageIn(buckets);
      UsageInIsCurrent(buckets);
      assert UsageCurrent(usage, members);
      ResortAll(usage);
      SameMembers(b, buckets);
      IndexHasTiers(buckets, positions);
      FullOrderIsScoreOrder(this.mode, usage, buckets);
      OrderByOwnUsage(this.mode, usage, members, buckets);
      FullOrderIsUsageOrder(this.mode, buckets);
    }

    /** The first loop of Rebuild: entries go to their tiers unsorted. */
    method Collect(accounts: seq<Account>, now: Time, ghost snaps: seq<Snap>) returns (b: Buckets)
      requires DistinctAccounts(accounts) && |snaps| == |accounts|
      requires forall i :: 0 <= i < |accounts| ==> snaps[i] == SnapshotOf(accounts[i].View(), baseLimit, now)
      modifies (set a | a in accounts)`sched
      ensures Collected(b, accounts, snaps, |accounts|)
      ensures forall a :: a in accounts ==> Refreshed(old(a.View()), a.signals, a.sched, baseLimit, now)
    {
      hide SnapshotOf, AfterSnapshot, Filed, Collected;
      b := map[Healthy := [], Warm := [], Risky := []];
      NothingCollected(accounts, snaps);
      for i := 0 to |accounts|
        invariant Collected(b, accounts, snaps, i) && HasTiers(b)
        invariant forall j :: i <= j < |accounts| && accounts[j].dbID != 0 ==> accounts[j].sched == old(accounts[j].sched)
        invariant forall a :: a in accounts ==> Refreshed(old(a.View()), a.signals, a.sched, baseLimit, now)
      {
        var acc := accounts[i];
        FiledExactly(acc, snaps[i]);
        if acc.dbID == 0 {
          CollectOne(b, accounts, snaps, i, b);
          continue;
        }
        AvailableTier(acc.View(), baseLimit, now);
        var snap := acc.FastSchedulerSnapshot(baseLimit, now);
        if !snap.available || snap.limit <= 0 {
          CollectOne(b, accounts, snaps, i, b);
          continue;
        }
        ghost var was := b;
        b := b[snap.tier := b[snap.tier] + [Entry(acc, acc.dbID, snap.score, snap.proven)]];
        CollectOne(was, accounts, snaps, i, b);
      }
    }

    /** Sorts a collected bucket and indexes it. */
    method Install(t: Tier, bucket: seq<Entry>, usage: map<Account, real>)
      requires HasTiers(buckets) && Indexed(buckets, positions) && t in buckets && buckets[t] == []
      requires NewEntries(bucket, positions)
      modifies this`buckets, this`positions
      ensures Indexed(buckets, positions)
      ensures buckets == old(buckets)[t := buckets[t]] && multiset(buckets[t]) == multiset(bucket)
      ensures InFullOrder(mode, usage, buckets[t])
      ensures OnlyAdds(bucket, old(positions), positions)
    {
      hide StableSort, StrictlySorted, Indexed, Rebuilt, DistinctIDs;
      ghost var b, p := buckets, positions;
      StableSortIsSorted(FullOrder(mode, usage), bucket);
      buckets := buckets[t := StableSort(FullOrder(mode, usage), bucket)];
      RebuildPositions(t);
      InstallStep(b, p, t, FullOrder(mode, usage), bucket, positions);
    }

    /** One round of the second loop of Rebuild. */
    method InstallTier(t: Tier, b: Buckets, usage: map<Account, real>, ghost accounts: seq<Account>, ghost snaps: seq<Snap>)
      requires |accounts| == |snaps| && DistinctAccounts(accounts) && Collected(b, accounts, snaps, |accounts|)
      requires t in {Healthy, Warm, Risky} && HasTiers(b) && HasTiers(buckets) && Indexed(buckets, positions)
      requires Installed(mode, usage, b, buckets, TierIndex(t)) && FiledBefore(b, positions, TierIndex(t))
      modifies this`buckets, this`positions
      ensures HasTiers(buckets) && Indexed(buckets, positions)
      ensures Installed(mode, usage, b, buckets, TierIndex(t) + 1) && FiledBefore(b, positions, TierIndex(t) + 1)
    {
      hide Indexed, InFullOrder, DistinctAccounts, DistinctIDs, NewEntries, OnlyAdds, Collected, FiledBefore, Installed;
      if |b[t]| == 0 {
        InstalledEmpty(mode, usage, b, buckets, t);
        AddsNothing(b[t], positions);
        FiledOneMore(b, positions, t, positions);
        return;
      }
      NotYetFiled(b, accounts, snaps, positions, t);
      ghost var was, p := buckets, positions;
      StillEmpty(mode, usage, b, buckets, t);
      Install(t, b[t], usage);
      InstalledOneMore(mode, usage, b, was, t, buckets[t]);
      FiledOneMore(b, p, t, positions);
    }

    /** The second loop of Rebuild: every bucket is sorted once and indexed. */
    method InstallAll(b: Buckets, usage: map<Account, real>, ghost accounts: seq<Account>, ghost snaps: seq<Snap>)
      requires |accounts| == |snaps| && DistinctAccounts(accounts) && Collected(b, accounts, snaps, |accounts|)
      modifies this`buckets, this`positions
      ensures Indexed(buckets, positions) && Slots(buckets) == Slots(b)
      ensures forall t :: t in buckets ==> InFullOrder(mode, usage, buckets[t])
    {
      hide Indexed, InFullOrder, Slots, DistinctAccounts, Collected, FiledBefore, Installed;
      buckets := map[Healthy := [], Warm := [], Risky := []];
      positions := map[];
      NothingCollected(accounts, snaps);
      NothingFiled(b, accounts, snaps, |accounts|);
      NothingInstalled(mode, usage, b);
      for i := 0 to |TIER_ORDER|
        invariant HasTiers(buckets) && Indexed(buckets, positions)
        invariant Installed(mode, usage, b, buckets, i)
        invariant FiledBefore(b, positions, i)
      {
        InstallTier(TIER_ORDER[i], b, usage, accounts, snaps);
      }
      InstalledAll(mode, usage, b, buckets);
    }

    /** Rebuild files exactly what fresh snapshots of the accounts say, every bucket in full order. */
    method Rebuild(accounts: seq<Account>, now: Time)
      requires cursors.Length == 3 && DistinctAccounts(accounts)
      modifies this`buckets, this`positions, (set a | a in accounts)`sched
      ensures Valid()
      ensures Slots(buckets) == FiledFrom(accounts, old(Snaps(accounts, baseLimit, now)))
      ensures forall t :: t in buckets ==> InFullOrder(mode, UsageOf(buckets[t]), buckets[t])
      ensures UsageOrdered(mode, buckets)
      ensures forall a :: a in accounts ==> Refreshed(old(a.View()), a.signals, a.sched, baseLimit, now)
    {
      hide SnapshotOf, AfterSnapshot, Filed, Refreshed, Indexed, Slots, Members, DistinctAccounts, InFullOrder, ScoreOrdered, UsageIn;
      ghost var snaps := Snaps(accounts, baseLimit, now);
      var b := Collect(accounts, now, snaps);
      var usage := UsageIn(b);
      UsageInIsCurrent(b);
      ghost var members := Members(b);
      assert UsageCurrent(usage, members);
      InstallAll(b, usage, accounts, snaps);
      SameMembers(b, buckets);
      IndexHasTiers(buckets, positions);
      FullOrderIsScoreOrder(mode, usage, buckets);
      OrderByOwnUsage(mode, usage, members, buckets);
      FullOrderIsUsageOrder(mode, buckets);
    }

    /** A snapshot in the middle of a scan: it may refresh the account, and shows what was shown before. */
    method TakeSnapshot(acc: Account, request: Request, now: Time, ghost f: Facts, ghost b: AtStart) returns (snap: Snap)
      requires SteadyOne(f, b, acc, request, groupCheck, baseLimit, now)
      modifies acc`sched
      ensures snap == f.snap
      ensures SteadyOne(f, b, acc, request, groupCheck, baseLimit, now)
      ensures UsageOrdered(mode, buckets) <==> old(UsageOrdered(mode, buckets))
    {
      hide SnapshotOf, AfterSnapshot, Eligible, Refreshed, UsageOrdered;
      RefreshedTwice(b.view, acc.View(), baseLimit, now);
      ghost var filed := set u, e | u in buckets && e in buckets[u] :: e.acc;
      snap := acc.FastSchedulerSnapshot(baseLimit, now);
      assert forall a :: a in filed ==> a.signals == old(a.signals);
    }

    /** A stale entry is dropped, and filed again as a fresh snapshot says. */
    method Repair(t: Tier, entry: Entry, snap: Snap, request: Request, now: Time, ghost f: Facts, ghost b: AtStart)
      requires Valid() && t in buckets && entry in buckets[t]
      requires SteadyOne(f, b, entry.acc, request, groupCheck, baseLimit, now) && snap == f.snap
      modifies this`buckets, this`positions, entry.acc`sched
      ensures Valid()
      ensures SteadyOne(f, b, entry.acc, request, groupCheck, baseLimit, now)
      ensures Slots(buckets) == Others(old(Slots(buckets)), entry.dbID) + Filed(entry.acc, snap)
      ensures old(UsageOrdered(mode, buckets)) ==> UsageOrdered(mode, buckets)
    {
      hide SnapshotOf, AfterSnapshot, Eligible, Indexed, ScoreOrdered, Refreshed, StableSort, InsertOrder, UsageOrdered;
      IndexedSlot(buckets, positions, Slot(t, entry));
      RemoveLocked(entry.dbID);
      if snap.available && snap.limit > 0 {
        RefreshedTwice(b.view, entry.acc.View(), baseLimit, now);
        InsertLocked(entry.acc, now);
      }
    }

    /** What the scan does with one entry: pass it over, take a slot of its account, or repair it. */
    method TryEntry(t: Tier, entry: Entry, request: Request, now: Time, ghost f: Facts, ghost b: AtStart)
      returns (acc: Account?, stale: bool)
      requires Valid() && t in buckets && entry in buckets[t]
      requires SteadyOne(f, b, entry.acc, request, groupCheck, baseLimit, now)
      modifies this`buckets, this`positions, entry.acc
      ensures Valid()
      ensures !stale ==> buckets == old(buckets) && positions == old(positions)
      ensures acc == null ==> SteadyOne(f, b, entry.acc, request, groupCheck, baseLimit, now)
      ensures acc == null && !stale ==> PassedOver(t, entry, f)
      ensures acc != null ==>
        && acc == entry.acc && !stale && Granted(b, acc, baseLimit, now) && Grantable(f) && !StaleEntry(t, entry, f.snap)
        && Eligible(acc, request, groupCheck)
      ensures stale ==>
        && acc == null && f.eligible && StaleEntry(t, entry, f.snap)
        && Slots(buckets) == Others(old(Slots(buckets)), entry.dbID) + Filed(entry.acc, f.snap)
        && (old(UsageOrdered(mode, buckets)) ==> UsageOrdered(mode, buckets))
    {
      hide SnapshotOf, AfterSnapshot, Indexed, ScoreOrdered, Refreshed, UsageOrdered;
      if !Eligible(entry.acc, request, groupCheck) {
        return null, false;
      }
      var snap := TakeSnapshot(entry.acc, request, now, f, b);
      if StaleEntry(t, entry, snap) {
        Repair(t, entry, snap, request, now, f, b);
        return null, true;
      }
      if !snap.available || snap.limit <= 0 {
        return null, false;
      }
      var ok := entry.acc.TryAcquire(snap.limit, now);
      if !ok {
        return null, false;
      }
      return entry.acc, false;
    }

    /**
     * scanRangeLocked over one whole bucket. `turn` counts the entries passed over. The scan ends with
     * a slot granted, with one stale entry repaired, or with every entry passed over.
     */
    method ScanTier(t: Tier, cursor: nat, request: Request, now: Time,
                    ghost facts: map<Account, Facts>, ghost before: map<Account, AtStart>, ghost all: set<Account>)
      returns (acc: Account?, stale: bool, next: nat, ghost turn: nat)
      requires Valid() && t in buckets
      requires Members(buckets) <= all && Steady(facts, before, all, request, groupCheck, baseLimit, now)
      modifies this`buckets, this`positions, Members(buckets)
      ensures Valid()
      ensures next == if old(buckets)[t] == [] then cursor else cursor + 1
      ensures Steady(facts, before, Rest(all, acc), request, groupCheck, baseLimit, now)
      ensures PassedTurns(t, old(buckets)[t], cursor, turn, facts)
      ensures acc == null && !stale ==> turn == |old(buckets)[t]|
      ensures acc != null || stale ==> turn < |old(buckets)[t]|
      ensures !stale ==> buckets == old(buckets) && positions == old(positions)
      ensures acc != null ==>
        var e := Reached(old(buckets), t, cursor, turn).entry;
        && !stale && e.acc == acc && acc in all && acc in before && Granted(before[acc], acc, baseLimit, now)
        && Eligible(acc, request, groupCheck)
        && Grantable(facts[acc]) && !StaleEntry(t, e, facts[acc].snap)
      ensures stale ==>
        var e := Reached(old(buckets), t, cursor, turn).entry;
        && acc == null && facts[e.acc].eligible && StaleEntry(t, e, facts[e.acc].snap)
        && Slots(buckets) == Others(old(Slots(buckets)), e.dbID) + Filed(e.acc, facts[e.acc].snap)
      ensures OrderedByFacts(mode, old(buckets), facts) ==> OrderedByFacts(mode, buckets, facts)
    {
      hide SteadyOne, Granted, StaleEntry, Grantable, Indexed, ScoreOrdered, PassedOver, Others, Filed, UsageOrdered,
           OrderedByFacts, Slots, Members;
      var bucket := buckets[t];
      turn, next := 0, cursor;
      EntriesAreMembers(buckets, t);
      if |bucket| == 0 {
        return null, false, next, turn;
      }
      next := cursor + 1;
      var start := cursor % |bucket|;
      for offset := 0 to |bucket|
        invariant turn == offset && PassedTurns(t, bucket, cursor, turn, facts)
        invariant buckets == old(buckets) && positions == old(positions)
        invariant Steady(facts, before, all, request, groupCheck, baseLimit, now)
      {
        var entry := bucket[(start + offset) % |bucket|];
        assert entry in bucket;
        OrderWhileSteady(mode, buckets, facts, before, all, request, groupCheck, baseLimit, now);
        acc, stale := TryEntry(t, entry, request, now, facts[entry.acc], before[entry.acc]);
        if stale {
          MembersAfterRepair(old(buckets), buckets, entry, facts[entry.acc].snap);
          OrderWhileSteady(mode, buckets, facts, before, all, request, groupCheck, baseLimit, now);
        }
        if acc != null || stale {
          return acc, stale, next, turn;
        }
        turn := turn + 1;
      }
      return null, false, next, turn;
    }

    /** One pass over the tiers: it ends with a grant, with one repair, or with nothing left to look at. */
    method ScanTiers(request: Request, now: Time, ghost facts: map<Account, Facts>, ghost before: map<Account, AtStart>, ghost all: set<Account>)
      returns (acc: Account?, stale: bool, ghost t: Tier, ghost turn: nat)
      requires Valid()
      requires Members(buckets) <= all && Steady(facts, before, all, request, groupCheck, baseLimit, now)
      modifies this`buckets, this`positions, cursors, Members(buckets)
      ensures Valid()
      ensures Steady(facts, before, Rest(all, acc), request, groupCheck, baseLimit, now)
      ensures !stale ==> buckets == old(buckets) && positions == old(positions)
      ensures acc == null && !stale ==> forall u :: u in buckets ==> AllPassed(buckets, u, facts)
      ensures acc != null || stale ==>
        t in {Healthy, Warm, Risky} && ReachedInTurn(t, old(buckets), Ticket(mode, old(cursors[..]), t), turn, facts)
      ensures acc != null ==>
        && !stale && acc in all && acc in before && Granted(before[acc], acc, baseLimit, now)
        && Eligible(acc, request, groupCheck)
        && GrantedThere(acc, t, buckets, positions, Ticket(mode, old(cursors[..]), t), turn, facts)
        && (mode != REMAINING_QUOTA ==> cursors[TierIndex(t)] == old(cursors[..])[TierIndex(t)] + 1)
      ensures stale ==>
        var fixed := Reached(old(buckets), t, Ticket(mode, old(cursors[..]), t), turn);
        && acc == null && StaleSlot(fixed, facts) && facts[fixed.entry.acc].eligible
        && Slots(buckets) == Others(old(Slots(buckets)), fixed.entry.dbID) + Filed(fixed.entry.acc, facts[fixed.entry.acc].snap)
      ensures OrderedByFacts(mode, old(buckets), facts) ==> OrderedByFacts(mode, buckets, facts)
    {
      hide SteadyOne, Steady, Granted, StaleEntry, Grantable, PassedOver, ScoreOrdered, Others, Filed, Indexed, Slots, Members,
           Turn, OrderedByFacts;
      IndexHasTiers(buckets, positions);
      t, turn := Healthy, 0;
      for i := 0 to |TIER_ORDER|
        invariant buckets == old(buckets) && positions == old(positions)
        invariant forall u :: u in buckets && TierIndex(u) < i ==> AllPassed(buckets, u, facts)
        invariant forall j :: i <= j < 3 ==> cursors[j] == old(cursors[j])
        invariant Steady(facts, before, all, request, groupCheck, baseLimit, now)
      {
        var tier := TIER_ORDER[i];
        t := tier;
        if |buckets[tier]| == 0 {
          continue;
        }
        var cursor := if mode == REMAINING_QUOTA then 0 else cursors[i];
        var next;
        acc, stale, next, turn := ScanTier(tier, cursor, request, now, facts, before, all);
        if mode != REMAINING_QUOTA {
          cursors[i] := next;
        }
        if acc != null {
          FiledWhereReached(buckets, positions, tier, Turn(cursor, turn, |buckets[tier]|));
          return acc, false, t, turn;
        }
        if stale {
          return null, true, t, turn;
        }
        ScanPassedAll(buckets, tier, cursor, facts);
      }
      return null, false, t, turn;
    }

    /** The restart loop of AcquireExcludingWithFilter: every restart leaves fewer stale slots. */
    method Search(request: Request, now: Time, ghost facts: map<Account, Facts>, ghost before: map<Account, AtStart>)
      returns (acc: Account?, ghost turn: nat)
      requires Valid() && facts.Keys == Members(buckets)
      requires Steady(facts, before, Members(buckets), request, groupCheck, baseLimit, now)
      modifies this`buckets, this`positions, cursors, Members(buckets)
      ensures Valid()
      ensures Steady(facts, before, Rest(old(Members(buckets)), acc), request, groupCheck, baseLimit, now)
      ensures OnlyRepaired(old(Slots(buckets)), Slots(buckets), facts)
      ensures acc == null ==> forall u :: u in buckets ==> AllPassed(buckets, u, facts)
      ensures acc != null ==>
        && acc in old(Members(buckets)) && acc in before && Granted(before[acc], acc, baseLimit, now)
        && Eligible(acc, request, groupCheck)
        && ServedInTurn(acc, buckets, positions, mode, cursors[..], turn, facts)
      ensures ServedFirst(acc, mode, old(buckets), old(positions), old(cursors[..]), buckets, positions, cursors[..], facts)
      ensures OrderedByFacts(mode, old(buckets), facts) ==> OrderedByFacts(mode, buckets, facts)
    {
      hide OrderedByFacts;
      hide SteadyOne, Granted, StaleSlot, StaleSlots, Indexed, ScoreOrdered, Others, Filed, Slots, Members, OnlyRepaired;
      hide ReachedInTurn, GrantedThere, AllPassed, Ticket, FirstOrNone, NoneFirst, ServedFirst, ServedInTurn, Reached;
      ghost var b0, p0, c0 := buckets, positions, cursors[..];
      acc, turn := null, 0;
      NothingRepairedYet(b0, p0, facts);
      StillFirst(mode, b0, p0, c0, facts);
      while true
        invariant Valid()
        invariant Steady(facts, before, Members(b0), request, groupCheck, baseLimit, now)
        invariant OnlyRepaired(Slots(b0), Slots(buckets), facts)
        invariant FirstOrNone(mode, b0, p0, c0, buckets, positions, cursors[..], facts)
        invariant OrderedByFacts(mode, b0, facts) ==> OrderedByFacts(mode, buckets, facts)
        decreases StaleSlots(Slots(buckets), facts)
      {
        ghost var b, p, c := buckets, positions, cursors[..];
        MembersWereFiled(b0, b, facts);
        var stale;
        ghost var t;
        acc, stale, t, turn := ScanTiers(request, now, facts, before, Members(b0));
        if acc != null {
          GrantServes(acc, mode, b0, p0, c0, b, p, c, cursors[..], t, turn, facts);
          return;
        }
        if !stale {
          NilServes(mode, b0, p0, c0, b, p, c, cursors[..], facts);
          return;
        }
        RepairRestarts(mode, b0, p0, c0, b, p, c, t, turn, facts);
        NoneStaysNone(mode, b0, p0, c0, buckets, positions, cursors[..], facts);
      }
    }

    /** The search from what every filed account shows on entry, and was. */
    method SearchFiled(request: Request, now: Time)
      returns (acc: Account?, ghost facts: map<Account, Facts>, ghost before: map<Account, AtStart>, ghost turn: nat)
      requires Valid()
      modifies this`buckets, this`positions, cursors, Members(buckets)
      ensures Valid()
      ensures facts.Keys == before.Keys == old(Members(buckets))
      ensures forall a :: a in facts ==> facts[a] == old(FactsOf(a, request, groupCheck, baseLimit, now))
      ensures forall a :: a in before ==> before[a] == old(AtStart(a.View(), a.activeRequests, a.lastUsedAt))
      ensures Steady(facts, before, Rest(facts.Keys, acc), request, groupCheck, baseLimit, now)
      ensures acc == null ==> forall u :: u in buckets ==> AllPassed(buckets, u, facts)
      ensures acc != null ==>
        && acc in facts && Granted(before[acc], acc, baseLimit, now) && Eligible(acc, request, groupCheck)
        && ServedInTurn(acc, buckets, positions, mode, cursors[..], turn, facts)
      ensures ServedFirst(acc, mode, old(buckets), old(positions), old(cursors[..]), buckets, positions, cursors[..], facts)
      ensures old(UsageOrdered(mode, buckets)) ==> UsageOrdered(mode, buckets) && OrderedByFacts(mode, buckets, facts)
      ensures OnlyRepaired(old(Slots(buckets)), Slots(buckets), facts)
    {
      hide FactsOf, AllPassed, ServedInTurn, ServedFirst, OnlyRepaired, Refreshed, Indexed, ScoreOrdered, UsageOrdered,
           OrderedByFacts, SteadyOne, Steady, Granted, Slots, Members;
      facts := map a | a in Members(buckets) :: FactsOf(a, request, groupCheck, baseLimit, now);
      before := map a | a in Members(buckets) :: AtStart(a.View(), a.activeRequests, a.lastUsedAt);
      ghost var b0 := buckets;
      SteadyAtFirst(facts, before, Members(buckets), request, groupCheck, baseLimit, now);
      FoundUsageIsCurrent(facts, request, groupCheck, baseLimit, now);
      OrderIsAsFound(mode, buckets, facts);
      acc, turn := Search(request, now, facts, before);
      OrderAfterSearch(mode, b0, buckets, facts, before, acc, request, groupCheck, baseLimit, now);
    }

    /**
     * AcquireExcludingWithFilter, with the clock fixed and no other caller. `facts` is what every filed
     * account shows on entry; `turn` is how many entries of its bucket came before the one granted.
     */
    method AcquireExcludingWithFilter(request: Request, now: Time)
      returns (acc: Account?, ghost facts: map<Account, Facts>, ghost turn: nat)
      requires Valid()
      modifies this`buckets, this`positions, cursors, Members(buckets)
      ensures Valid()
      ensures facts.Keys == old(Members(buckets))
      // told by the accounts themselves: the one returned passes the four tests, and without one all that pass are unavailable or full
      ensures acc != null ==>
        && acc.dbID !in request.exclude
        && (acc.signals.allowedApiKeys == {} || (request.apiKeyID > 0 && request.apiKeyID in acc.signals.allowedApiKeys))
        && (groupCheck.Some? ==> groupCheck.value(request.apiKeyID, acc))
        && (request.filter.Some? ==> request.filter.value(acc))
      ensures acc == null ==> forall a :: a in facts ==>
        || a.dbID in request.exclude
        || (a.signals.allowedApiKeys != {} && !(request.apiKeyID > 0 && request.apiKeyID in a.signals.allowedApiKeys))
        || (groupCheck.Some? && !groupCheck.value(request.apiKeyID, a))
        || (request.filter.Some? && !request.filter.value(a))
        || NoRoom(a, baseLimit, now)
      ensures forall a :: a in facts ==> facts[a] == old(FactsOf(a, request, groupCheck, baseLimit, now))
      // nil is exact, and leaves nothing stale that the caller may see
      ensures acc == null <==> forall a :: a in facts ==> !Grantable(facts[a])
      ensures acc == null ==> forall u :: u in buckets ==> AllPassed(buckets, u, facts)
      // one slot on the account returned, none elsewhere
      ensures acc != null ==>
        && acc in facts && Grantable(facts[acc])
        && acc.activeRequests == old(acc.activeRequests) + 1
        && acc.totalRequests == old(acc.totalRequests) + 1 && acc.lastUsedAt == now
      ensures forall a :: a in facts && a != acc ==>
        && a.activeRequests == old(a.activeRequests) && a.totalRequests == old(a.totalRequests)
        && a.lastUsedAt == old(a.lastUsedAt)
      // the account is the first of its bucket in turn, and no higher bucket has one to offer
      ensures acc != null ==> ServedInTurn(acc, buckets, positions, mode, cursors[..], turn, facts)
      // an entry first in line is served without repairs
      ensures ServedFirst(acc, mode, old(buckets), old(positions), old(cursors[..]), buckets, positions, cursors[..], facts)
      // remaining_quota keeps its order
      ensures old(UsageOrdered(mode, buckets)) ==> UsageOrdered(mode, buckets) && OrderedByFacts(mode, buckets, facts)
      // the index changes only by repairs, the accounts only by recomputation, and the others show what they showed
      ensures OnlyRepaired(old(Slots(buckets)), Slots(buckets), facts)
      ensures forall a :: a in facts ==> Refreshed(old(a.View()), a.signals, a.sched, baseLimit, now)
      ensures forall a :: a in facts && a != acc ==> FactsOf(a, request, groupCheck, baseLimit, now) == facts[a]
    {
      hide FactsOf, Grantable, AllPassed, ServedFirst, OnlyRepaired, Refreshed, Indexed, ScoreOrdered, UsageOrdered,
           OrderedByFacts, SteadyOne, Steady, Slots, Members, Eligible, SnapshotOf;
      ghost var before;
      ghost var b0, p0 := buckets, positions;
      acc, facts, before, turn := SearchFiled(request, now);
      SteadyMeans(facts, before, Rest(facts.Keys, acc), request, groupCheck, baseLimit, now);
      if acc == null {
        forall a | a in facts
          ensures !Grantable(facts[a])
        {
          NoneGrantable(b0, p0, buckets, facts, a);
        }
        NotGrantableMeans(facts.Keys, request, groupCheck, baseLimit, now);
      } else {
        EligibleMeans(acc, request, groupCheck);
      }
    }
  }
}
