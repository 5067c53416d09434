/** The linear scan of NextExcludingWithFilter (auth/store.go:3097-3138): what it offers and which offer wins. */
module SlowPath {
  import opened Basics
  import opened Scoring
  import opened ScoringLaws
  import opened Accounts
  import opened Scans

  /** tierPriority */
  function TierPriority(t: Tier): nat {
    match t
    case Healthy => 3
    case Warm => 2
    case Risky => 1
    case Banned => 0
    case Unset => 0
  }

  /** All the scan looks at in an account: its own tests and a fresh recomputation. */
  datatype Offer = Offer(open: bool, tier: Tier, score: real, limit: int, load: int)

  function OfferOf(a: AccountView, eligible: bool, active: int, baseLimit: int, now: Time): Offer {
    var r := Recomputed(a, baseLimit, now);
    Offer(eligible && IsAvailable(a, now), r.tier, r.dispatchScore, r.limit, active)
  }

  function OfferBy(a: Account, request: Request, groups: GroupCheck, baseLimit: int, now: Time): Offer
    reads a
  {
    OfferOf(a.View(), Eligible(a, request, groups), a.activeRequests, baseLimit, now)
  }

  predicate Dispatchable(o: Offer) {
    o.open && 0 < o.limit && o.load < o.limit
  }

  /** The account is not available, or has no slot to give once it is recomputed. */
  predicate NothingLeft(a: Account, baseLimit: int, now: Time)
    reads a
  {
    !IsAvailable(a.View(), now) || Recomputed(a.View(), baseLimit, now).limit <= Max(0, a.activeRequests)
  }

  /** What makes accounts not dispatchable, told by their own fields. */
  lemma NoneDispatchableMeans(accounts: seq<Account>, request: Request, groups: GroupCheck, baseLimit: int, now: Time)
    requires forall a :: a in accounts ==> !Dispatchable(OfferBy(a, request, groups, baseLimit, now))
    ensures forall a :: a in accounts ==>
      || a.dbID in request.exclude
      || (a.signals.allowedApiKeys != {} && !(request.apiKeyID > 0 && request.apiKeyID in a.signals.allowedApiKeys))
      || (groups.Some? && !groups.value(request.apiKeyID, a))
      || (request.filter.Some? && !request.filter.value(a))
      || NothingLeft(a, baseLimit, now)
  {
    hide Recomputed, IsAvailable;
  }

  /** Strictly better: by tier, then score, then the lighter load. */
  predicate Better(o: Offer, than: Offer) {
    if TierPriority(o.tier) != TierPriority(than.tier) then TierPriority(o.tier) > TierPriority(than.tier)
    else if o.score != than.score then o.score > than.score
    else o.load < than.load
  }

  /** A recomputation in the scan changes no offer. */
  lemma OfferStable(a: AccountView, eligible: bool, active: int, baseLimit: int, now: Time)
    ensures OfferOf(a.(sched := Recomputed(a, baseLimit, now)), eligible, active, baseLimit, now) == OfferOf(a, eligible, active, baseLimit, now)
  {
    RecomputeKeepsBan(a, baseLimit, now);
    RecomputeIdempotent(a, baseLimit, now);
  }

  /** No dispatchable offer of `among` is strictly better than `best`. */
  ghost predicate Unbeaten(best: Offer, among: seq<Offer>) {
    forall o :: o in among && Dispatchable(o) ==> !Better(o, best)
  }

  lemma UnbeatenMeans(best: Offer, among: seq<Offer>)
    requires Unbeaten(best, among)
    ensures forall o :: o in among && Dispatchable(o) ==>
      && TierPriority(o.tier) <= TierPriority(best.tier)
      && (o.tier == best.tier ==> o.score <= best.score && (o.score == best.score ==> best.load <= o.load))
  {
  }

  /** Replacing the best by an offer that is better, or a tie, leaves it unbeaten. */
  lemma StaysUnbeaten(best: Offer, o: Offer, among: seq<Offer>)
    requires Unbeaten(best, among)
    ensures !Better(o, best) || !Dispatchable(o) ==> Unbeaten(best, among + [o])
    ensures !Better(best, o) ==> Unbeaten(o, among + [o])
  {
  }

  lemma FirstIsUnbeaten(o: Offer, among: seq<Offer>)
    requires forall x :: x in among ==> !Dispatchable(x)
    ensures Unbeaten(o, among + [o])
  {
  }

  ghost function Offers(accounts: seq<Account>, request: Request, groups: GroupCheck, baseLimit: int, now: Time): (offers: seq<Offer>)
    reads accounts
    ensures |offers| == |accounts|
  {
    seq(|accounts|, i requires 0 <= i < |accounts| reads accounts => OfferBy(accounts[i], request, groups, baseLimit, now))
  }

  /** A sub-step: the snapshot the scan takes of one account, which recomputes it. */
  method SchedulerSnapshot(a: Account, eligible: bool, baseLimit: int, now: Time) returns (r: SchedState)
    modifies a`sched
    ensures r == a.sched == old(Recomputed(a.View(), baseLimit, now))
    ensures OfferOf(a.View(), eligible, a.activeRequests, baseLimit, now) ==
      old(OfferOf(a.View(), eligible, a.activeRequests, baseLimit, now))
  {
    OfferStable(a.View(), eligible, a.activeRequests, baseLimit, now);
    ghost var was := a.View();
    a.RecomputeScheduler(baseLimit, now);
    assert a.View() == was.(sched := Recomputed(was, baseLimit, now));
    r := a.sched;
  }

  /**
   * One attempt: whatever the coin says at each tie, the winner is unbeaten by (tier, score, load) among
   * the dispatchable accounts; there is none only if there are no such accounts.
   */
  method PickBest(accounts: seq<Account>, request: Request, groups: GroupCheck, baseLimit: int, now: Time)
    returns (best: Account?, limit: int, ghost offers: seq<Offer>, ghost at: nat)
    modifies accounts`sched
    ensures offers == old(Offers(accounts, request, groups, baseLimit, now))
    ensures offers == Offers(accounts, request, groups, baseLimit, now)
    ensures best == null ==> forall o :: o in offers ==> !Dispatchable(o)
    ensures best != null ==>
      && at < |accounts| && accounts[at] == best && Dispatchable(offers[at]) && limit == offers[at].limit
      && Unbeaten(offers[at], offers)
    // told by the accounts themselves
    ensures forall i :: 0 <= i < |accounts| ==> var r := Recomputed(accounts[i].View(), baseLimit, now);
      offers[i].tier == r.tier && offers[i].score == r.dispatchScore && offers[i].limit == r.limit
      && offers[i].load == accounts[i].activeRequests
    ensures best != null ==>
      && best.dbID !in request.exclude
      && (best.signals.allowedApiKeys == {} || (request.apiKeyID > 0 && request.apiKeyID in best.signals.allowedApiKeys))
      && (groups.Some? ==> groups.value(request.apiKeyID, best))
      && (request.filter.Some? ==> request.filter.value(best))
      && IsAvailable(best.View(), now) && best.activeRequests < limit
      && forall o :: o in offers && Dispatchable(o) ==>
           var b := offers[at];
           && TierPriority(o.tier) <= TierPriority(b.tier)
           && (o.tier == b.tier ==> o.score <= b.score && (o.score == b.score ==> b.load <= o.load))
    ensures best == null ==> forall a :: a in accounts ==>
      || a.dbID in request.exclude
      || (a.signals.allowedApiKeys != {} && !(request.apiKeyID > 0 && request.apiKeyID in a.signals.allowedApiKeys))
      || (groups.Some? && !groups.value(request.apiKeyID, a))
      || (request.filter.Some? && !request.filter.value(a))
      || NothingLeft(a, baseLimit, now)
  {
    hide Eligible, Recomputed, IsAvailable, Unbeaten, NothingLeft;
    offers := Offers(accounts, request, groups, baseLimit, now);
    best, limit, at := null, 0, 0;
    var bestPriority: int := -1;
    var bestScore: real := 0.0;
    var bestLoad: int := 0;
    for i := 0 to |accounts|
      invariant Offers(accounts, request, groups, baseLimit, now) == offers
      invariant best == null ==> bestPriority == -1 && forall o :: o in offers[..i] ==> !Dispatchable(o)
      invariant best != null ==>
        && at < i && accounts[at] == best && Dispatchable(offers[at])
        && limit == offers[at].limit && bestPriority == TierPriority(offers[at].tier)
        && bestScore == offers[at].score && bestLoad == offers[at].load
        && Unbeaten(offers[at], offers[..i])
    {
      var acc := accounts[i];
      assert offers[..i + 1] == offers[..i] + [offers[i]];
      assert offers[i] == OfferBy(acc, request, groups, baseLimit, now);
      if best != null {
        StaysUnbeaten(offers[at], offers[i], offers[..i]);
      } else {
        FirstIsUnbeaten(offers[i], offers[..i]);
      }
      if !Eligible(acc, request, groups) || !IsAvailable(acc.View(), now) {
        continue;
      }
      var load := acc.activeRequests;
      var r := SchedulerSnapshot(acc, true, baseLimit, now);
      if r.limit <= 0 || load >= r.limit {
        continue;
      }
      var priority := TierPriority(r.tier);
      var coin: bool := *;
      if || priority > bestPriority
         || (priority == bestPriority
             && (|| r.dispatchScore > bestScore
                 || (r.dispatchScore == bestScore && load < bestLoad)
                 || (r.dispatchScore == bestScore && load == bestLoad && coin))) {
        bestPriority, bestScore, bestLoad := priority, r.dispatchScore, load;
        best, limit, at := acc, r.limit, i;
      }
    }
    assert offers[..|accounts|] == offers;
    if best == null {
      forall a | a in accounts
        ensures !Dispatchable(OfferBy(a, request, groups, baseLimit, now))
      {
        var i :| 0 <= i < |accounts| && accounts[i] == a;
        assert offers[i] == OfferBy(accounts[i], request, groups, baseLimit, now);
      }
      NoneDispatchableMeans(accounts, request, groups, baseLimit, now);
    } else {
      EligibleMeans(best, request, groups);
      UnbeatenMeans(offers[at], offers);
    }
  }
}
