/** What the scheduling modes promise over several acquires (auth/fast_scheduler.go). */
module Rotation {
  import opened Basics
  import opened Scoring
  import opened Accounts
  import opened Buckets
  import opened Scans
  import opened FastScheduler

  lemma QuotientIsUnique(x: nat, q: nat, r: nat, n: nat)
    requires 0 < n && r < n && x == q * n + r
    ensures x % n == r
  {
    var d := x / n - q;
    assert d * n == r - x % n;
    assert d >= 1 ==> d * n >= n;
    assert d <= -1 ==> d * n + n <= 0;
  }

  /** remaining_quota: of the grantable accounts in its sorted bucket, the one served has used least. */
  lemma LeastUsageIsServed(acc: Account, t: Tier, b: Buckets, p: Positions, turn: nat, facts: map<Account, Facts>,
                           usage: map<Account, real>, e: Entry)
    requires ReachedInTurn(t, b, 0, turn, facts) && GrantedThere(acc, t, b, p, 0, turn, facts)
    requires StrictlySorted(ByUsage(usage), b[t])
    requires e in b[t] && Grantable(facts[e.acc])
    ensures Usage(usage, Reached(b, t, 0, turn).entry) <= Usage(usage, e)
  {
    hide Grantable, StaleEntry, ProvenThenID;
    var n := |b[t]|;
    var i :| 0 <= i < n && b[t][i] == e;
    QuotientIsUnique(i, 0, i, n);
    QuotientIsUnique(turn, 0, turn, n);
    assert Turn(0, i, n) == i && Turn(0, turn, n) == turn;
    assert i < turn ==> PassedOver(t, e, facts[e.acc]);
    assert turn < i ==> Before(ByUsage(usage), b[t][turn], b[t][i]);
  }

  /**
   * remaining_quota over sorted buckets: the order is kept, and of the grantable accounts in its bucket the
   * one served has used least.
   */
  method ServeLeastUsed(s: Scheduler, request: Request, now: Time) returns (acc: Account?, ghost facts: map<Account, Facts>)
    requires s.Valid() && s.mode == REMAINING_QUOTA && UsageOrdered(s.mode, s.buckets)
    modifies s`buckets, s`positions, s.cursors, Members(s.buckets)
    ensures s.Valid() && UsageOrdered(s.mode, s.buckets)
    ensures facts.Keys == old(Members(s.buckets))
    ensures forall a :: a in facts ==> facts[a] == old(FactsOf(a, request, s.groupCheck, s.baseLimit, now))
    ensures acc == null <==> forall a :: a in facts ==> !Grantable(facts[a])
    ensures acc != null ==>
      && acc in facts && Grantable(facts[acc])
      && acc.dbID in s.positions && s.positions[acc.dbID].tier in s.buckets
      && forall e :: e in s.buckets[s.positions[acc.dbID].tier] ==>
           e.acc in facts && (Grantable(facts[e.acc]) ==> facts[acc].usage <= facts[e.acc].usage)
  {
    hide FactsOf, Grantable, UsageOrdered, OnlyRepaired, ServedFirst, Refreshed, AllPassed, Indexed, ScoreOrdered, Slots, Members;
    ghost var turn;
    acc, facts, turn := s.AcquireExcludingWithFilter(request, now);
    if acc != null {
      var t := s.positions[acc.dbID].tier;
      forall e | e in s.buckets[t]
        ensures e.acc in facts && (Grantable(facts[e.acc]) ==> facts[acc].usage <= facts[e.acc].usage)
      {
        if Grantable(facts[e.acc]) {
          LeastUsageIsServed(acc, t, s.buckets, s.positions, turn, facts, FoundUsage(facts), e);
        }
      }
    }
  }

  /** A scan passes over every entry of the tiers above `t`. */
  predicate NothingAbove(s: Scheduler, t: Tier, request: Request, now: Time)
    requires s.Valid() && t in s.buckets
    reads s, Members(s.buckets)
  {
    IndexHasTiers(s.buckets, s.positions);
    forall u :: u in s.buckets && TierIndex(u) < TierIndex(t) ==>
      (EntriesAreMembers(s.buckets, u);
       forall e :: e in s.buckets[u] ==> PassedOver(u, e, FactsOf(e.acc, request, s.groupCheck, s.baseLimit, now)))
  }

  predicate GrantableNow(s: Scheduler, a: Account, request: Request, now: Time)
    reads s, a
  {
    Grantable(FactsOf(a, request, s.groupCheck, s.baseLimit, now))
  }

  /** Nothing grantable in the first `turn` places from the ticket. */
  predicate NoneBetween(s: Scheduler, t: Tier, ticket: nat, turn: nat, request: Request, now: Time)
    requires t in s.buckets
    reads s, Members(s.buckets)
  {
    EntriesAreMembers(s.buckets, t);
    && turn < |s.buckets[t]|
    && forall j :: 0 <= j < turn ==> !GrantableNow(s, s.buckets[t][Turn(ticket, j, |s.buckets[t]|)].acc, request, now)
  }

  /** None of the grantable accounts of the bucket has used less. */
  predicate NoneUsedLess(s: Scheduler, t: Tier, usage: real, request: Request, now: Time)
    requires t in s.buckets
    reads s, Members(s.buckets)
  {
    EntriesAreMembers(s.buckets, t);
    forall e :: e in s.buckets[t] ==> !GrantableNow(s, e.acc, request, now) || usage <= e.acc.UsagePercentForScheduling()
  }

  /** Where the cursor of tier `t` was before it moved on; in remaining_quota, the front. */
  function LastTicket(s: Scheduler, t: Tier): nat
    requires s.Valid() && t in s.buckets
    reads s, s.cursors
  {
    IndexHasTiers(s.buckets, s.positions);
    var c := s.cursors[TierIndex(t)];
    if s.mode == REMAINING_QUOTA || c == 0 then 0 else c - 1
  }

  /**
   * The account just served is the best the buckets had to offer: a scan passes over everything above its
   * bucket, nothing grantable stands between the cursor, where it was, and it, and in remaining_quota, from
   * buckets sorted by usage, none of the grantable accounts of its bucket has used less.
   */
  ghost predicate BestFiled(s: Scheduler, acc: Account, turn: nat, sorted: bool, request: Request, now: Time)
    reads s, s.cursors, acc`signals, Members(s.buckets)
  {
    && s.Valid() && acc.dbID in s.positions
    && var t := s.positions[acc.dbID].tier;
       && t in s.buckets && NothingAbove(s, t, request, now)
       && NoneBetween(s, t, LastTicket(s, t), turn, request, now)
       && s.buckets[t][Turn(LastTicket(s, t), turn, |s.buckets[t]|)].acc == acc
       && (s.mode == REMAINING_QUOTA && sorted ==> NoneUsedLess(s, t, acc.UsagePercentForScheduling(), request, now))
  }

  /** What the facts of an acquire say, with the others as they were, holds of the accounts themselves. */
  ghost predicate ToldBy(s: Scheduler, acc: Account, facts: map<Account, Facts>, request: Request, now: Time)
    reads s, facts.Keys, acc`signals
  {
    && (forall a :: a in facts && a != acc ==> facts[a] == FactsOf(a, request, s.groupCheck, s.baseLimit, now))
    && acc in facts && Grantable(facts[acc]) && facts[acc].usage == acc.UsagePercentForScheduling()
  }

  lemma NothingWasAbove(s: Scheduler, acc: Account, t: Tier, facts: map<Account, Facts>, request: Request, now: Time)
    requires s.Valid() && t in s.buckets && ToldBy(s, acc, facts, request, now)
    requires forall u :: u in s.buckets && TierIndex(u) < TierIndex(t) ==> AllPassed(s.buckets, u, facts)
    ensures NothingAbove(s, t, request, now)
  {
    hide FactsOf, Grantable, StaleEntry, Members, Slots, Indexed, ScoreOrdered;
  }

  lemma NoneWasBetween(s: Scheduler, acc: Account, t: Tier, ticket: nat, turn: nat, facts: map<Account, Facts>, request: Request, now: Time)
    requires s.Valid() && t in s.buckets && ToldBy(s, acc, facts, request, now)
    requires turn < |s.buckets[t]| && PassedTurns(t, s.buckets[t], ticket, turn, facts)
    ensures NoneBetween(s, t, ticket, turn, request, now)
  {
    hide FactsOf, Grantable, StaleEntry, Members, Slots, Indexed, ScoreOrdered, Turn;
  }

  lemma NoneHasUsedLess(s: Scheduler, acc: Account, t: Tier, turn: nat, facts: map<Account, Facts>, request: Request, now: Time)
    requires s.Valid() && t in s.buckets && ToldBy(s, acc, facts, request, now)
    requires ReachedInTurn(t, s.buckets, 0, turn, facts) && GrantedThere(acc, t, s.buckets, s.positions, 0, turn, facts)
    requires s.mode == REMAINING_QUOTA && OrderedByFacts(s.mode, s.buckets, facts)
    ensures NoneUsedLess(s, t, acc.UsagePercentForScheduling(), request, now)
  {
    hide Grantable, StaleEntry, Members, Slots, Indexed, ScoreOrdered, SnapshotOf, Eligible;
    EntriesAreMembers(s.buckets, t);
    forall e | e in s.buckets[t]
      ensures !GrantableNow(s, e.acc, request, now) || acc.UsagePercentForScheduling() <= e.acc.UsagePercentForScheduling()
    {
      if e.acc != acc && GrantableNow(s, e.acc, request, now) {
        LeastUsageIsServed(acc, t, s.buckets, s.positions, turn, facts, FoundUsage(facts), e);
      }
    }
  }

  lemma ServedIsBest(s: Scheduler, acc: Account, turn: nat, sorted: bool, facts: map<Account, Facts>, request: Request, now: Time)
    requires s.Valid() && ServedInTurn(acc, s.buckets, s.positions, s.mode, s.cursors[..], turn, facts)
    requires ToldBy(s, acc, facts, request, now)
    requires sorted ==> OrderedByFacts(s.mode, s.buckets, facts)
    ensures BestFiled(s, acc, turn, sorted, request, now)
  {
    hide ToldBy, Grantable, StaleEntry, OrderedByFacts, FactsOf, Indexed, ScoreOrdered, Slots, Members, AllPassed,
         PassedTurns, NothingAbove, NoneBetween, NoneUsedLess, Turn;
    var t := s.positions[acc.dbID].tier;
    NothingWasAbove(s, acc, t, facts, request, now);
    NoneWasBetween(s, acc, t, LastTicket(s, t), turn, facts, request, now);
    if s.mode == REMAINING_QUOTA && sorted {
      NoneHasUsedLess(s, acc, t, turn, facts, request, now);
    }
  }

  lemma NoMultipleBetween(k: int, d: int, n: nat)
    requires d == k * n && 0 <= d < n
    ensures d == 0
  {
    assert k >= 1 ==> k * n >= n;
    assert k <= -1 ==> k * n + n <= 0;
  }

  lemma RemainderApart(x: nat, y: nat, n: nat)
    requires 0 < n && x < y < x + n
    ensures x % n != y % n
  {
    if x % n == y % n {
      var k := y / n - x / n;
      assert y - x == k * n;
      NoMultipleBetween(k, y - x, n);
    }
  }

  /** Round a circle of n, any n turns in a row stand at different places, and the next n at the same again. */
  lemma TurnsDiffer(c: nat, i: nat, j: nat, n: nat)
    requires 0 < n
    ensures i < j < i + n ==> (c + i) % n != (c + j) % n
    ensures j == i + n ==> (c + i) % n == (c + j) % n
  {
    if j == i + n {
      QuotientIsUnique(c + j, (c + i) / n + 1, (c + i) % n, n);
    } else if i < j < i + n {
      RemainderApart(c + i, c + j, n);
    }
  }

  lemma BucketAccountsDiffer(b: Buckets, p: Positions, t: Tier)
    requires Indexed(b, p) && t in b
    ensures forall i, j :: 0 <= i < j < |b[t]| ==> b[t][i].acc != b[t][j].acc
  {
    IndexedIsDistinct(t, b[t], p);
    assert Forward(t, b[t], p);
  }

  /** Served by one ticket after another, no two of n in a row are the same account. */
  lemma InTurn(b: Buckets, p: Positions, t: Tier, start: nat, served: seq<Account>)
    requires Indexed(b, p) && t in b && b[t] != []
    requires forall i :: 0 <= i < |served| ==> served[i] == b[t][(start + i) % |b[t]|].acc
    ensures forall i, j :: 0 <= i < j < |served| && j < i + |b[t]| ==> served[i] != served[j]
    ensures forall i, j :: 0 <= i < |served| && j == i + |b[t]| < |served| ==> served[i] == served[j]
  {
    BucketAccountsDiffer(b, p, t);
    var n := |b[t]|;
    forall i, j | 0 <= i < j < |served|
      ensures j < i + n ==> served[i] != served[j]
      ensures j == i + n ==> served[i] == served[j]
    {
      TurnsDiffer(start, i, j, n);
    }
  }

  predicate Ready(t: Tier, e: Entry, f: Facts) {
    Grantable(f) && !StaleEntry(t, e, f.snap)
  }

  /** The entry at the `i`-th ticket of the bucket is up to date and grantable. */
  predicate TicketReady(s: Scheduler, t: Tier, ticket: nat, request: Request, now: Time)
    requires s.Valid() && t in s.buckets && s.buckets[t] != []
    reads s, Members(s.buckets)
  {
    EntriesAreMembers(s.buckets, t);
    var e := s.buckets[t][ticket % |s.buckets[t]|];
    Ready(t, e, FactsOf(e.acc, request, s.groupCheck, s.baseLimit, now))
  }

  function CursorOf(s: Scheduler, t: Tier): nat
    requires s.Valid() && t in s.buckets
    reads s, s.cursors
  {
    IndexHasTiers(s.buckets, s.positions);
    s.cursors[TierIndex(t)]
  }

  /** What every filed account shows. */
  ghost function Shown(s: Scheduler, request: Request, now: Time): map<Account, Facts>
    reads s, Members(s.buckets)
  {
    map a | a in Members(s.buckets) :: FactsOf(a, request, s.groupCheck, s.baseLimit, now)
  }

  lemma NextIsFirst(s: Scheduler, t: Tier, request: Request, now: Time)
    requires s.Valid() && t in s.buckets && s.buckets[t] != []
    requires NothingAbove(s, t, request, now) && TicketReady(s, t, CursorOf(s, t), request, now)
    ensures FirstInLine(t, s.buckets, CursorOf(s, t), Shown(s, request, now))
  {
    hide FactsOf, Grantable, StaleEntry, Members, Slots, Indexed, ScoreOrdered, PassedOver;
    var cursor, n := CursorOf(s, t), |s.buckets[t]|;
    IndexHasTiers(s.buckets, s.positions);
    QuotientIsUnique(cursor % n, 0, cursor % n, n);
    assert Turn(cursor, 0, n) == cursor % n;
    EntriesAreMembers(s.buckets, t);
    forall u | u in s.buckets && TierIndex(u) < TierIndex(t)
      ensures AllPassed(s.buckets, u, Shown(s, request, now))
    {
      EntriesAreMembers(s.buckets, u);
    }
  }

  /** One acquire that finds the entry at the cursor ready serves it and moves the cursor on. */
  method ServeNext(s: Scheduler, t: Tier, request: Request, now: Time) returns (acc: Account)
    requires s.Valid() && t in s.buckets && s.buckets[t] != [] && s.mode != REMAINING_QUOTA
    requires NothingAbove(s, t, request, now) && TicketReady(s, t, CursorOf(s, t), request, now)
    modifies s`buckets, s`positions, s.cursors, Members(s.buckets)
    ensures s.Valid() && s.buckets == old(s.buckets) && s.positions == old(s.positions)
    ensures acc == s.buckets[t][old(CursorOf(s, t)) % |s.buckets[t]|].acc
    ensures CursorOf(s, t) == old(CursorOf(s, t)) + 1
    ensures forall a :: a in Members(s.buckets) && a != acc ==>
      FactsOf(a, request, s.groupCheck, s.baseLimit, now) == old(FactsOf(a, request, s.groupCheck, s.baseLimit, now))
    ensures acc.activeRequests == old(acc.activeRequests) + 1
  {
    hide SnapshotOf, AfterSnapshot, Refreshed, Eligible, Grantable, StaleEntry, OnlyRepaired, ServedInTurn, Indexed, ScoreOrdered,
         Members, Slots, UsageOrdered, OrderedByFacts, PassedOver, FirstInLine, AllPassed;
    IndexHasTiers(s.buckets, s.positions);
    NextIsFirst(s, t, request, now);
    ghost var members, cursor, n := Members(s.buckets), CursorOf(s, t), |s.buckets[t]|;
    ghost var shown := Shown(s, request, now);
    var r;
    ghost var facts, turn;
    QuotientIsUnique(cursor % n, 0, cursor % n, n);
    assert Turn(cursor, 0, n) == cursor % n;
    r, facts, turn := s.AcquireExcludingWithFilter(request, now);
    assert facts == shown;
    acc := r;
  }

  lemma OtherBucketsDiffer(b: Buckets, p: Positions, t: Tier, e: Entry, u: Tier)
    requires Indexed(b, p) && t in b && e in b[t] && u in b && u != t
    ensures forall f :: f in b[u] ==> f.acc != e.acc
  {
    IndexHasTiers(b, p);
    forall f | f in b[u]
      ensures f.acc != e.acc
    {
      IndexedSlot(b, p, Slot(t, e));
      IndexedSlot(b, p, Slot(u, f));
    }
  }

  /** What was ready stays ready until its turn. */
  method ServeTurn(s: Scheduler, t: Tier, request: Request, now: Time) returns (acc: Account)
    requires s.Valid() && t in s.buckets && s.buckets[t] != [] && s.mode != REMAINING_QUOTA
    requires NothingAbove(s, t, request, now) && TicketReady(s, t, CursorOf(s, t), request, now)
    modifies s`buckets, s`positions, s.cursors, Members(s.buckets)
    ensures s.Valid() && s.buckets == old(s.buckets)
    ensures acc == s.buckets[t][old(CursorOf(s, t)) % |s.buckets[t]|].acc
    ensures CursorOf(s, t) == old(CursorOf(s, t)) + 1
    ensures NothingAbove(s, t, request, now)
    ensures forall ticket: nat :: ticket % |s.buckets[t]| != old(CursorOf(s, t)) % |s.buckets[t]| ==>
      old(TicketReady(s, t, ticket, request, now)) ==> TicketReady(s, t, ticket, request, now)
  {
    hide FactsOf, Ready, PassedOver, Slots, Members, Indexed, ScoreOrdered;
    var entry := s.buckets[t][CursorOf(s, t) % |s.buckets[t]|];
    acc := ServeNext(s, t, request, now);
    BucketAccountsDiffer(s.buckets, s.positions, t);
    EntriesAreMembers(s.buckets, t);
    forall u | u in s.buckets && u != t
      ensures forall e :: e in s.buckets[u] ==> e.acc != acc && e.acc in Members(s.buckets)
    {
      OtherBucketsDiffer(s.buckets, s.positions, t, entry, u);
      EntriesAreMembers(s.buckets, u);
    }
  }

  /** Every entry of the bucket is up to date and grantable, and a scan passes over all above. */
  ghost predicate ReadyTier(s: Scheduler, t: Tier, request: Request, now: Time)
    reads s, Members(s.buckets)
  {
    && s.Valid() && t in s.buckets && s.buckets[t] != [] && NothingAbove(s, t, request, now)
    && forall ticket: nat :: TicketReady(s, t, ticket, request, now)
  }

  /**
   * Over a bucket whose n entries are all ready to begin with, n acquires in a row serve its n accounts, each
   * once, in the bucket's order from the cursor.
   */
  method ServeRound(s: Scheduler, t: Tier, request: Request, now: Time) returns (served: seq<Account>)
    requires ReadyTier(s, t, request, now) && s.mode != REMAINING_QUOTA
    modifies s`buckets, s`positions, s.cursors, Members(s.buckets)
    ensures s.Valid() && s.buckets == old(s.buckets)
    ensures |served| == |s.buckets[t]|
    ensures forall i :: 0 <= i < |served| ==> served[i] == s.buckets[t][(old(CursorOf(s, t)) + i) % |served|].acc
    ensures forall i, j :: 0 <= i < j < |served| ==> served[i] != served[j]
  {
    hide Members, Slots, Indexed, ScoreOrdered, NothingAbove, TicketReady;
    ghost var start := CursorOf(s, t);
    var bucket := s.buckets[t];
    var n := |bucket|;
    served := [];
    while |served| < n
      invariant s.Valid() && s.buckets == old(s.buckets) && |served| <= n
      invariant CursorOf(s, t) == start + |served|
      invariant forall i :: 0 <= i < |served| ==> served[i] == bucket[(start + i) % n].acc
      invariant NothingAbove(s, t, request, now)
      invariant forall ticket :: start + |served| <= ticket < start + n ==> TicketReady(s, t, ticket, request, now)
    {
      forall ticket | start + |served| < ticket < start + n
        ensures ticket % n != (start + |served|) % n
      {
        RemainderApart(start + |served|, ticket, n);
      }
      var acc := ServeTurn(s, t, request, now);
      served := served + [acc];
    }
    InTurn(s.buckets, s.positions, t, start, served);
  }

  /** Slots given back, in any order. */
  method GiveBack(freed: seq<Account>, ghost members: set<Account>)
    requires forall a :: a in freed ==> a in members
    modifies members`activeRequests
  {
    for i := 0 to |freed| {
      freed[i].Release();
    }
  }

  /**
   * Round robin is fair, however often and whenever it is asked: of acquires for any requests at any times,
   * with slots of any accounts given back in between, each serves the next entry of the bucket, as long as
   * it finds that ready and nothing to do above. Of any n in a row no two serve the same account, and the
   * next n serve the same again.
   */
  method ServeTurns(s: Scheduler, t: Tier, requests: seq<Request>, times: seq<Time>, freed: seq<seq<Account>>)
    returns (served: seq<Account>)
    requires s.Valid() && t in s.buckets && s.buckets[t] != [] && s.mode != REMAINING_QUOTA
    requires |requests| == |times| == |freed|
    requires forall f :: f in freed ==> forall a :: a in f ==> a in Members(s.buckets)
    modifies s`buckets, s`positions, s.cursors, Members(s.buckets)
    ensures s.Valid() && s.buckets == old(s.buckets) && |served| <= |requests|
    ensures |served| < |requests| ==>
      var request, now := requests[|served|], times[|served|];
      !(NothingAbove(s, t, request, now) && TicketReady(s, t, CursorOf(s, t), request, now))
    ensures forall i :: 0 <= i < |served| ==> served[i] == s.buckets[t][(old(CursorOf(s, t)) + i) % |s.buckets[t]|].acc
    ensures forall i, j :: 0 <= i < j < |served| && j < i + |s.buckets[t]| ==> served[i] != served[j]
    ensures forall i, j :: 0 <= i < |served| && j == i + |s.buckets[t]| < |served| ==> served[i] == served[j]
  {
    hide Members, Slots, Indexed, ScoreOrdered, NothingAbove, TicketReady, FactsOf;
    ghost var members, start := Members(s.buckets), CursorOf(s, t);
    var bucket := s.buckets[t];
    served := [];
    while |served| < |requests|
      invariant s.Valid() && s.buckets == old(s.buckets) && |served| <= |requests|
      invariant CursorOf(s, t) == start + |served|
      invariant forall i :: 0 <= i < |served| ==> served[i] == bucket[(start + i) % |bucket|].acc
    {
      var request, now := requests[|served|], times[|served|];
      assert freed[|served|] in freed;
      GiveBack(freed[|served|], members);
      if !NothingAbove(s, t, request, now) || !TicketReady(s, t, CursorOf(s, t), request, now) {
        break;
      }
      var acc := ServeNext(s, t, request, now);
      served := served + [acc];
    }
    InTurn(s.buckets, s.positions, t, start, served);
  }
}
