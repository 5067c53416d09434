/** The fast scheduler against the linear scan it stands in for (auth/fast_scheduler.go, auth/store.go:3097-3138). */
module Agreement {
  import opened Basics
  import opened Scoring
  import opened ScoringLaws
  import opened Accounts
  import opened Buckets
  import opened Scans
  import FastScheduler
  import opened SlowPath

  /** On a recomputed account the two paths see the same tier and limit, and differ in the Disabled flag alone. */
  lemma SameOffer(a: AccountView, eligible: bool, active: int, baseLimit: int, now: Time)
    requires a.sched == Recomputed(a, baseLimit, now)
    ensures
      var snap, o := SnapshotOf(a, baseLimit, now), OfferOf(a, eligible, active, baseLimit, now);
      && snap.tier == o.tier && snap.limit == o.limit
      && (Dispatchable(o) <==> Grantable(Facts(eligible, snap, active, SchedulingUsage(a.signals))) && !a.signals.disabled)
  {
    AvailabilityAgrees(a, baseLimit, now);
    SnapshotAgreesWithRecompute(a, baseLimit, now);
  }

  /** Every account of the list is stored, up to date and not disabled. */
  ghost predicate Current(accounts: seq<Account>, baseLimit: int, now: Time)
    reads accounts
  {
    forall a :: a in accounts ==> a.dbID != 0 && !a.signals.disabled && a.sched == Recomputed(a.View(), baseLimit, now)
  }

  lemma RecomputeAgain(v: AccountView, w: AccountView, baseLimit: int, now: Time)
    requires w == v || w == v.(sched := Recomputed(v, baseLimit, now))
    ensures Recomputed(w, baseLimit, now) == Recomputed(v, baseLimit, now)
  {
    RecomputeIdempotent(v, baseLimit, now);
  }

  /** recomputeAllAccountSchedulerState */
  method RecomputeAll(accounts: seq<Account>, baseLimit: int, now: Time)
    modifies accounts`sched
    ensures forall a :: a in accounts ==> a.sched == old(Recomputed(a.View(), baseLimit, now))
    ensures forall a :: a in accounts ==> a.sched == Recomputed(a.View(), baseLimit, now)
  {
    hide Recomputed;
    for i := 0 to |accounts|
      invariant forall a :: a in accounts[..i] ==> a.sched == old(Recomputed(a.View(), baseLimit, now))
      invariant forall a :: a in accounts ==> a.sched == old(a.sched) || a.sched == old(Recomputed(a.View(), baseLimit, now))
    {
      var a := accounts[i];
      RecomputeAgain(old(a.View()), a.View(), baseLimit, now);
      a.RecomputeScheduler(baseLimit, now);
      assert accounts[..i + 1] == accounts[..i] + [a];
    }
    forall a | a in accounts
      ensures a.sched == Recomputed(a.View(), baseLimit, now)
    {
      assert a in accounts[..|accounts|];
      RecomputeAgain(old(a.View()), a.View(), baseLimit, now);
    }
  }

  /** What a rebuilt index has to grant is what the list has to dispatch. */
  lemma FiledIsOffered(accounts: seq<Account>, b: Buckets, request: Request, groups: GroupCheck, baseLimit: int, now: Time)
    requires Current(accounts, baseLimit, now)
    requires Slots(b) == FiledFrom(accounts, Snaps(accounts, baseLimit, now))
    ensures forall a :: a in Members(b) ==> a in accounts
    ensures forall a :: a in accounts && Dispatchable(OfferBy(a, request, groups, baseLimit, now)) ==> a in Members(b)
    ensures forall a :: a in accounts ==>
      var f, o := FactsOf(a, request, groups, baseLimit, now), OfferBy(a, request, groups, baseLimit, now);
      && f.snap.tier == o.tier && (Grantable(f) <==> Dispatchable(o))
      && (Grantable(f) ==> o.tier in {Healthy, Warm, Risky} && Slot(o.tier, ExactEntry(a, f.snap)) in Slots(b))
  {
    hide Recomputed, SnapshotOf, Eligible;
    forall a | a in accounts
      ensures var f, o := FactsOf(a, request, groups, baseLimit, now), OfferBy(a, request, groups, baseLimit, now);
        && f.snap.tier == o.tier && (Grantable(f) <==> Dispatchable(o))
        && (Grantable(f) ==> o.tier in {Healthy, Warm, Risky} && Slot(o.tier, ExactEntry(a, f.snap)) in Slots(b))
      ensures Dispatchable(OfferBy(a, request, groups, baseLimit, now)) ==> a in Members(b)
    {
      AvailableTier(a.View(), baseLimit, now);
      SameOffer(a.View(), Eligible(a, request, groups), a.activeRequests, baseLimit, now);
      var snap := SnapshotOf(a.View(), baseLimit, now);
      if snap.available && 0 < snap.limit {
        var i :| 0 <= i < |accounts| && accounts[i] == a;
        var s := Slot(snap.tier, ExactEntry(a, snap));
        assert s in Filed(accounts[i], Snaps(accounts, baseLimit, now)[i]);
        assert s in Slots(b);
      }
    }
  }

  /** An account filed just as it is now is not passed over for one of a lower tier. */
  lemma ServedFromTopTier(b0: Buckets, b: Buckets, p: Positions, mode: string, cursors: seq<nat>, acc: Account, turn: nat,
                          facts: map<Account, Facts>, a: Account)
    requires |cursors| == 3 && OnlyRepaired(Slots(b0), Slots(b), facts)
    requires ServedInTurn(acc, b, p, mode, cursors, turn, facts)
    requires a in facts && Grantable(facts[a]) && facts[a].snap.tier in {Healthy, Warm, Risky}
    requires Slot(facts[a].snap.tier, ExactEntry(a, facts[a].snap)) in Slots(b0)
    ensures acc in facts && TierPriority(facts[a].snap.tier) <= TierPriority(facts[acc].snap.tier)
  {
    hide Grantable;
    var s := Slot(facts[a].snap.tier, ExactEntry(a, facts[a].snap));
    assert !StaleSlot(s, facts);
    assert s in Slots(b);
    var t := p[acc.dbID].tier;
    assert TierIndex(s.tier) < TierIndex(t) ==> AllPassed(b, s.tier, facts);
  }

  /** What the slow path would have offered for each account. */
  ghost function OfferMap(accounts: seq<Account>, request: Request, groups: GroupCheck, baseLimit: int, now: Time): map<Account, Offer>
    reads accounts
  {
    map a | a in accounts :: OfferBy(a, request, groups, baseLimit, now)
  }

  /** A rebuild refreshes an up to date account to what it is. */
  lemma RefreshKeepsCurrent(v: AccountView, signals: Signals, sched: SchedState, given: int, baseLimit: int, now: Time)
    requires baseLimit == if given <= 0 then 1 else given
    requires v.sched == Recomputed(v, given, now) && Refreshed(v, signals, sched, baseLimit, now)
    ensures signals == v.signals && sched == v.sched == Recomputed(v, baseLimit, now)
  {
    hide Recomputed;
    BaseLimitClamp(v, given, now);
  }

  /** recomputeAllAccountSchedulerState, BuildFastScheduler and rebuildFastScheduler: a scheduler fresh from the list. */
  method BuildFast(accounts: seq<Account>, baseLimit: int, mode: string, groups: GroupCheck, now: Time)
    returns (s: FastScheduler.Scheduler)
    requires DistinctAccounts(accounts) && forall a :: a in accounts ==> a.dbID != 0 && !a.signals.disabled
    modifies accounts`sched
    ensures s.Valid() && fresh(s) && fresh(s.cursors) && s.groupCheck == groups
    ensures s.baseLimit == if baseLimit <= 0 then 1 else baseLimit
    ensures Current(accounts, s.baseLimit, now)
    ensures forall a :: a in accounts ==> a.sched == old(Recomputed(a.View(), baseLimit, now))
    ensures Slots(s.buckets) == FiledFrom(accounts, Snaps(accounts, s.baseLimit, now))
  {
    hide Indexed, ScoreOrdered, Recomputed, SnapshotOf, FiledFrom, Slots, InFullOrder, UsageOrdered, Refreshed, DistinctAccounts;
    RecomputeAll(accounts, baseLimit, now);
    s := new FastScheduler.Scheduler(baseLimit, mode);
    ghost var views := map a | a in accounts :: a.View();
    ghost var snaps := Snaps(accounts, s.baseLimit, now);
    s.Rebuild(accounts, now);
    s.SetGroupCheck(groups);
    forall a | a in accounts
      ensures a.View() == views[a] && a.sched == Recomputed(a.View(), s.baseLimit, now)
    {
      RefreshKeepsCurrent(views[a], a.signals, a.sched, baseLimit, s.baseLimit, now);
    }
    assert Snaps(accounts, s.baseLimit, now) == snaps;
  }

  /** The buckets can grant just the accounts with a dispatchable offer, and have each filed in the offer's tier. */
  ghost predicate OffersFiled(b: Buckets, offers: map<Account, Offer>, found: map<Account, Facts>) {
    && offers.Keys == found.Keys
    && (forall a :: a in Members(b) ==> a in offers)
    && forall a :: a in offers ==>
         var f, o := found[a], offers[a];
         && f.snap.tier == o.tier && (Grantable(f) <==> Dispatchable(o))
         && (Grantable(f) ==>
               a in Members(b) && o.tier in {Healthy, Warm, Risky} && Slot(o.tier, ExactEntry(a, f.snap)) in Slots(b))
  }

  /** An acquire on such buckets agrees with the offers. */
  lemma AcquireMeetsOffers(b0: Buckets, b: Buckets, p: Positions, mode: string, cursors: seq<nat>, acc: Account?, turn: nat,
                           facts: map<Account, Facts>, offers: map<Account, Offer>, found: map<Account, Facts>)
    requires OffersFiled(b0, offers, found)
    requires facts.Keys == Members(b0) && forall a :: a in facts && a in found ==> facts[a] == found[a]
    requires |cursors| == 3 && OnlyRepaired(Slots(b0), Slots(b), facts)
    requires acc == null <==> forall a :: a in facts ==> !Grantable(facts[a])
    requires acc != null ==> acc in facts && Grantable(facts[acc]) && ServedInTurn(acc, b, p, mode, cursors, turn, facts)
    ensures acc == null <==> forall a :: a in offers ==> !Dispatchable(offers[a])
    ensures acc != null ==>
      && acc in offers && Dispatchable(offers[acc])
      && forall a :: a in offers && Dispatchable(offers[a]) ==> TierPriority(offers[a].tier) <= TierPriority(offers[acc].tier)
  {
    hide Slots, Members, Grantable, Dispatchable, OnlyRepaired, ServedInTurn;
    if acc != null {
      forall a | a in offers && Dispatchable(offers[a])
        ensures TierPriority(offers[a].tier) <= TierPriority(offers[acc].tier)
      {
        ServedFromTopTier(b0, b, p, mode, cursors, acc, turn, facts, a);
      }
    }
  }

  lemma FiledAsOffered(accounts: seq<Account>, b: Buckets, offers: map<Account, Offer>, found: map<Account, Facts>,
                       request: Request, groups: GroupCheck, baseLimit: int, now: Time)
    requires Current(accounts, baseLimit, now) && Slots(b) == FiledFrom(accounts, Snaps(accounts, baseLimit, now))
    requires offers.Keys == found.Keys == set a | a in accounts
    requires forall a :: a in accounts ==>
      offers[a] == OfferBy(a, request, groups, baseLimit, now) && found[a] == FactsOf(a, request, groups, baseLimit, now)
    ensures OffersFiled(b, offers, found) && forall a :: a in Members(b) ==> a in accounts
  {
    hide Slots, Members, FiledFrom, Snaps, Current, FactsOf, Grantable, Dispatchable;
    FiledIsOffered(accounts, b, request, groups, baseLimit, now);
  }

  method BuildFor(accounts: seq<Account>, baseLimit: int, mode: string, groups: GroupCheck, request: Request, now: Time)
    returns (s: FastScheduler.Scheduler, ghost offers: map<Account, Offer>, ghost found: map<Account, Facts>)
    requires DistinctAccounts(accounts) && forall a :: a in accounts ==> a.dbID != 0 && !a.signals.disabled
    modifies accounts`sched
    ensures s.Valid() && fresh(s) && fresh(s.cursors)
    ensures offers == old(OfferMap(accounts, request, groups, baseLimit, now))
    ensures OffersFiled(s.buckets, offers, found) && forall a :: a in Members(s.buckets) ==> a in accounts
    ensures forall a :: a in found ==> found[a] == FactsOf(a, request, s.groupCheck, s.baseLimit, now)
  {
    hide Indexed, ScoreOrdered, Recomputed, SnapshotOf, FactsOf, FiledFrom, Snaps, Current, Slots, Members, Eligible, IsAvailable,
         OffersFiled, DistinctAccounts;
    offers := OfferMap(accounts, request, groups, baseLimit, now);
    ghost var views := map a | a in accounts :: a.View();
    s := BuildFast(accounts, baseLimit, mode, groups, now);
    forall a | a in accounts
      ensures OfferBy(a, request, groups, s.baseLimit, now) == offers[a]
    {
      BaseLimitClamp(views[a], baseLimit, now);
      OfferStable(views[a], Eligible(a, request, groups), a.activeRequests, s.baseLimit, now);
      assert a.View() == views[a].(sched := Recomputed(views[a], s.baseLimit, now));
    }
    found := map a | a in accounts :: FactsOf(a, request, groups, s.baseLimit, now);
    FiledAsOffered(accounts, s.buckets, offers, found, request, groups, s.baseLimit, now);
  }

  /**
   * The fast path refines the slow one: a scheduler built from the list finds an account exactly when the
   * linear scan would, and one the scan could dispatch, of the same tier as the scan's choice.
   */
  method BuildAndAcquire(accounts: seq<Account>, baseLimit: int, mode: string, groups: GroupCheck, request: Request, now: Time)
    returns (s: FastScheduler.Scheduler, acc: Account?, ghost offers: map<Account, Offer>)
    requires DistinctAccounts(accounts) && forall a :: a in accounts ==> a.dbID != 0 && !a.signals.disabled
    modifies accounts
    ensures s.Valid() && fresh(s)
    ensures offers == old(OfferMap(accounts, request, groups, baseLimit, now))
    ensures acc == null <==> forall a :: a in offers ==> !Dispatchable(offers[a])
    ensures acc != null ==>
      && acc in offers && Dispatchable(offers[acc])
      && forall a :: a in offers && Dispatchable(offers[a]) ==> TierPriority(offers[a].tier) <= TierPriority(offers[acc].tier)
    ensures forall a :: a in accounts ==> a.activeRequests == old(a.activeRequests) + if a == acc then 1 else 0
  {
    hide Indexed, ScoreOrdered, SnapshotOf, FactsOf, Slots, Members, Eligible, Refreshed, Grantable, Dispatchable, ServedInTurn,
         ServedFirst, OnlyRepaired, AllPassed, DistinctAccounts, UsageOrdered, OrderedByFacts, OffersFiled, OfferMap,
         TierPriority;
    ghost var found;
    s, offers, found := BuildFor(accounts, baseLimit, mode, groups, request, now);
    ghost var b0 := s.buckets;
    ghost var facts, turn;
    acc, facts, turn := s.AcquireExcludingWithFilter(request, now);
    AcquireMeetsOffers(b0, s.buckets, s.positions, s.mode, s.cursors[..], acc, turn, facts, offers, found);
  }
}
