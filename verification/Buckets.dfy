/**
 * The tier buckets of the fast scheduler as values: the sort orders of their entries, and the
 * position index that must stay their exact inverse (auth/fast_scheduler.go).
 */
module Buckets {
  import opened Scoring
  import opened Accounts

  datatype Entry = Entry(acc: Account, dbID: int, dispatchScore: real, proven: bool)

  datatype Position = Position(tier: Tier, index: int)

  /** Where the index files an account. */
  datatype Slot = Slot(tier: Tier, entry: Entry)

  const TIER_ORDER: seq<Tier> := [Healthy, Warm, Risky]

  // ----- sort orders -----

  /** The three comparison functions of the scheduler; usage is read when the sort runs. */
  datatype Order =
    | ByScore
    | ByUsage(usage: map<Account, real>)
    | ByUsageThenScore(usage: map<Account, real>)

  function Usage(usage: map<Account, real>, e: Entry): real {
    if e.acc in usage then usage[e.acc] else 0.0
  }

  predicate ProvenThenID(x: Entry, y: Entry) {
    if x.proven != y.proven then x.proven else x.dbID < y.dbID
  }

  predicate ScoreThenRest(x: Entry, y: Entry) {
    if x.dispatchScore == y.dispatchScore then ProvenThenID(x, y) else x.dispatchScore > y.dispatchScore
  }

  predicate Before(order: Order, x: Entry, y: Entry) {
    match order
    case ByScore => ScoreThenRest(x, y)
    case ByUsage(u) => if Usage(u, x) == Usage(u, y) then ProvenThenID(x, y) else Usage(u, x) < Usage(u, y)
    case ByUsageThenScore(u) =>
      if Usage(u, x) == Usage(u, y) then ScoreThenRest(x, y) else Usage(u, x) < Usage(u, y)
  }

  ghost predicate DistinctIDs(s: seq<Entry>) {
    forall i, j :: 0 <= i < j < |s| ==> s[i].dbID != s[j].dbID
  }

  ghost predicate StrictlySorted(order: Order, s: seq<Entry>) {
    forall i, j :: 0 <= i < j < |s| ==> Before(order, s[i], s[j])
  }

  /** In score order nothing stands behind a lower score; of equal scores the proven come first, and then the lower ids. */
  lemma ScoreOrderMeans(s: seq<Entry>, i: nat, j: nat)
    requires StrictlySorted(ByScore, s) && i < j < |s|
    ensures s[i].dispatchScore >= s[j].dispatchScore
    ensures s[i].dispatchScore == s[j].dispatchScore ==> (s[j].proven ==> s[i].proven)
    ensures s[i].dispatchScore == s[j].dispatchScore && s[i].proven == s[j].proven ==> s[i].dbID < s[j].dbID
  {
    assert Before(ByScore, s[i], s[j]);
  }

  /** In usage order nothing stands behind a higher usage; ties go by score in the one order, by proof and id in the other. */
  lemma UsageOrderMeans(usage: map<Account, real>, s: seq<Entry>, i: nat, j: nat)
    requires i < j < |s| && s[i].acc in usage && s[j].acc in usage
    ensures StrictlySorted(ByUsage(usage), s) ==>
      && usage[s[i].acc] <= usage[s[j].acc]
      && (usage[s[i].acc] == usage[s[j].acc] ==> (s[j].proven ==> s[i].proven))
    ensures StrictlySorted(ByUsageThenScore(usage), s) ==>
      && usage[s[i].acc] <= usage[s[j].acc]
      && (usage[s[i].acc] == usage[s[j].acc] ==> s[i].dispatchScore >= s[j].dispatchScore)
  {
    assert StrictlySorted(ByUsage(usage), s) ==> Before(ByUsage(usage), s[i], s[j]);
    assert StrictlySorted(ByUsageThenScore(usage), s) ==> Before(ByUsageThenScore(usage), s[i], s[j]);
  }

  /** Each order is a strict total order on entries of different accounts. */
  lemma BeforeIsTotal(order: Order, x: Entry, y: Entry, z: Entry)
    ensures !(Before(order, x, y) && Before(order, y, x))
    ensures x.dbID != y.dbID ==> Before(order, x, y) || Before(order, y, x)
    ensures Before(order, x, y) && Before(order, y, z) ==> Before(order, x, z)
  {
  }

  /** sort.SliceStable: an element goes behind those it does not come strictly before. */
  function Insert(order: Order, s: seq<Entry>, x: Entry): seq<Entry> {
    if s == [] then [x]
    else if Before(order, x, s[|s| - 1]) then Insert(order, s[..|s| - 1], x) + [s[|s| - 1]]
    else s + [x]
  }

  function StableSort(order: Order, s: seq<Entry>): seq<Entry> {
    if s == [] then [] else Insert(order, StableSort(order, s[..|s| - 1]), s[|s| - 1])
  }

  lemma AppendKeepsSorted(order: Order, s: seq<Entry>, x: Entry)
    requires StrictlySorted(order, s) && DistinctIDs(s)
    requires forall e :: e in s ==> Before(order, e, x) && e.dbID != x.dbID
    ensures StrictlySorted(order, s + [x]) && DistinctIDs(s + [x])
  {
  }

  lemma FrontIsSorted(order: Order, s: seq<Entry>)
    requires s != [] && StrictlySorted(order, s) && DistinctIDs(s)
    ensures StrictlySorted(order, s[..|s| - 1]) && DistinctIDs(s[..|s| - 1])
    ensures forall e :: e in s[..|s| - 1] ==> Before(order, e, s[|s| - 1]) && e.dbID != s[|s| - 1].dbID
  {
  }

  lemma {:induction false} InsertKeepsElements(order: Order, s: seq<Entry>, x: Entry)
    ensures multiset(Insert(order, s, x)) == multiset(s) + multiset{x}
    ensures |Insert(order, s, x)| == |s| + 1
  {
    hide Before;
    if s != [] {
      InsertKeepsElements(order, s[..|s| - 1], x);
      assert s == s[..|s| - 1] + [s[|s| - 1]];
    }
  }

  lemma {:induction false} InsertIsSorted(order: Order, s: seq<Entry>, x: Entry)
    requires StrictlySorted(order, s) && DistinctIDs(s)
    requires forall e :: e in s ==> e.dbID != x.dbID
    ensures multiset(Insert(order, s, x)) == multiset(s) + multiset{x}
    ensures |Insert(order, s, x)| == |s| + 1
    ensures StrictlySorted(order, Insert(order, s, x)) && DistinctIDs(Insert(order, s, x))
  {
    InsertKeepsElements(order, s, x);
    if s == [] {
      AppendKeepsSorted(order, s, x);
    } else {
      hide StrictlySorted, DistinctIDs, Before;
      var front, last := s[..|s| - 1], s[|s| - 1];
      FrontIsSorted(order, s);
      BeforeIsTotal(order, x, last, last);
      if Before(order, x, last) {
        InsertIsSorted(order, front, x);
        var r := Insert(order, front, x);
        forall e | e in r
          ensures Before(order, e, last) && e.dbID != last.dbID
        {
          assert e in multiset(r);
          assert e == x || e in front;
        }
        AppendKeepsSorted(order, r, last);
      } else {
        forall e | e in s
          ensures Before(order, e, x)
        {
          assert e == last || e in front;
          BeforeIsTotal(order, e, last, x);
        }
        AppendKeepsSorted(order, s, x);
      }
    }
  }

  /** Sorting keeps the entries and, their accounts being different, orders them strictly. */
  lemma {:induction false} StableSortIsSorted(order: Order, s: seq<Entry>)
    requires DistinctIDs(s)
    ensures multiset(StableSort(order, s)) == multiset(s)
    ensures |StableSort(order, s)| == |s|
    ensures StrictlySorted(order, StableSort(order, s)) && DistinctIDs(StableSort(order, s))
  {
    if s != [] {
      var front, x := s[..|s| - 1], s[|s| - 1];
      assert s == front + [x];
      StableSortIsSorted(order, front);
      forall e | e in StableSort(order, front)
        ensures e.dbID != x.dbID
      {
        assert e in multiset(StableSort(order, front));
        assert e in front;
      }
      InsertIsSorted(order, StableSort(order, front), x);
    }
  }

  lemma SameElements(a: seq<Entry>, b: seq<Entry>)
    requires multiset(a) == multiset(b)
    ensures forall e :: e in a <==> e in b
  {
    assert forall e :: e in a <==> e in multiset(a);
    assert forall e :: e in b <==> e in multiset(b);
  }

  lemma DropLast(s: seq<Entry>)
    requires s != []
    ensures multiset(s[..|s| - 1]) == multiset(s) - multiset{s[|s| - 1]}
  {
    assert s == s[..|s| - 1] + [s[|s| - 1]];
  }

  /** The order leaves no choice: two strictly sorted arrangements of the same entries are equal. */
  lemma {:induction false} SortedArrangementIsUnique(order: Order, a: seq<Entry>, b: seq<Entry>)
    requires StrictlySorted(order, a) && StrictlySorted(order, b)
    requires multiset(a) == multiset(b)
    ensures a == b
  {
    SameElements(a, b);
    assert |a| == |multiset(a)| == |multiset(b)| == |b|;
    if a != [] {
      var x, y := a[|a| - 1], b[|b| - 1];
      BeforeIsTotal(order, x, y, x);
      assert x in b && y in a;
      assert x == y;
      DropLast(a);
      DropLast(b);
      SortedArrangementIsUnique(order, a[..|a| - 1], b[..|b| - 1]);
    }
  }

  // ----- the position index -----

  type Buckets = map<Tier, seq<Entry>>
  type Positions = map<int, Position>

  ghost predicate HasTiers(b: Buckets) {
    b.Keys == {Healthy, Warm, Risky}
  }

  /** Entries name the account they hold, and 0 is no account. */
  predicate Named(e: Entry) {
    e.dbID == e.acc.dbID != 0
  }

  ghost predicate HasID(bucket: seq<Entry>, id: int) {
    exists e :: e in bucket && e.dbID == id
  }

  /** The positions file every entry of the bucket where it is. */
  ghost predicate Forward(t: Tier, bucket: seq<Entry>, p: Positions) {
    forall i :: 0 <= i < |bucket| ==>
      Named(bucket[i]) && bucket[i].dbID in p && p[bucket[i].dbID] == Position(t, i)
  }

  /** The position of `id` is that of an entry for it. */
  ghost predicate Backward(b: Buckets, id: int, pos: Position) {
    && pos.tier in b
    && 0 <= pos.index < |b[pos.tier]|
    && b[pos.tier][pos.index].dbID == id
  }

  /** `positions` is the exact inverse of the buckets; so every account is filed at most once. */
  ghost predicate Indexed(b: Buckets, p: Positions) {
    && HasTiers(b)
    && (forall t :: t in b ==> Forward(t, b[t], p))
    && (forall id :: id in p ==> Backward(b, id, p[id]))
  }

  /** What is filed, forgetting the order inside the buckets. */
  ghost function Slots(b: Buckets): set<Slot> {
    set t, e | t in b && e in b[t] :: Slot(t, e)
  }

  ghost function Others(slots: set<Slot>, id: int): set<Slot> {
    set s | s in slots && s.entry.dbID != id
  }

  /** The accounts in the buckets. */
  ghost function Members(b: Buckets): set<Account> {
    set s | s in Slots(b) :: s.entry.acc
  }

  lemma IndexedSlot(b: Buckets, p: Positions, s: Slot)
    requires Indexed(b, p) && s in Slots(b)
    ensures Named(s.entry) && s.entry.dbID in p
    ensures
      var pos := p[s.entry.dbID];
      pos.tier == s.tier && 0 <= pos.index < |b[s.tier]| && b[s.tier][pos.index] == s.entry
  {
    var i :| 0 <= i < |b[s.tier]| && b[s.tier][i] == s.entry;
    assert Forward(s.tier, b[s.tier], p);
  }

  /** An account has at most one slot over all the tiers. */
  lemma OneSlotPerAccount(b: Buckets, p: Positions, s1: Slot, s2: Slot)
    requires Indexed(b, p) && s1 in Slots(b) && s2 in Slots(b)
    requires s1.entry.dbID == s2.entry.dbID
    ensures s1 == s2
  {
    IndexedSlot(b, p, s1);
    IndexedSlot(b, p, s2);
  }

  lemma IndexedIsDistinct(t: Tier, bucket: seq<Entry>, p: Positions)
    requires Forward(t, bucket, p)
    ensures DistinctIDs(bucket)
  {
  }

  /** rebuildPositionsLocked(t) overwrites the positions of the bucket's entries. */
  ghost predicate Rebuilt(t: Tier, bucket: seq<Entry>, p: Positions, p': Positions) {
    && (forall i :: 0 <= i < |bucket| ==> bucket[i].dbID in p' && p'[bucket[i].dbID] == Position(t, i))
    && (forall id :: id in p' ==> id in p || HasID(bucket, id))
    && (forall id :: id in p && !HasID(bucket, id) ==> id in p' && p'[id] == p[id])
  }

  lemma OtherBucketKept(u: Tier, other: seq<Entry>, t: Tier, bucket: seq<Entry>, p: Positions, p': Positions)
    requires u != t && Forward(u, other, p)
    requires forall e :: e in bucket ==> (e.dbID in p ==> p[e.dbID].tier == t)
    requires Rebuilt(t, bucket, p, p')
    ensures Forward(u, other, p')
  {
    forall i | 0 <= i < |other|
      ensures !HasID(bucket, other[i].dbID)
    {
      assert p[other[i].dbID].tier == u;
    }
  }

  /**
   * Replacing one bucket and rebuilding its positions restores the index, provided the new bucket
   * covers whatever the positions still file under that tier and nothing filed elsewhere.
   */
  lemma RebuildRestoresIndex(b: Buckets, p: Positions, t: Tier, bucket: seq<Entry>, p': Positions)
    requires HasTiers(b) && t in b
    requires forall u :: u in b && u != t ==> Forward(u, b[u], p)
    requires forall id :: id in p ==> if p[id].tier == t then HasID(bucket, id) else Backward(b, id, p[id])
    requires forall e :: e in bucket ==> Named(e) && (e.dbID in p ==> p[e.dbID].tier == t)
    requires Rebuilt(t, bucket, p, p')
    ensures Indexed(b[t := bucket], p')
  {
    var b' := b[t := bucket];
    forall u | u in b'
      ensures Forward(u, b'[u], p')
    {
      if u != t {
        OtherBucketKept(u, b[u], t, bucket, p, p');
      }
    }
    forall id | id in p'
      ensures Backward(b', id, p'[id])
    {
      if HasID(bucket, id) {
        var e :| e in bucket && e.dbID == id;
        var i :| 0 <= i < |bucket| && bucket[i] == e;
        assert p'[bucket[i].dbID] == Position(t, i);
      }
    }
  }

  function Without(bucket: seq<Entry>, i: nat): seq<Entry>
    requires i < |bucket|
  {
    bucket[..i] + bucket[i + 1..]
  }

  lemma WithoutElements(bucket: seq<Entry>, k: nat)
    requires k < |bucket| && DistinctIDs(bucket)
    ensures forall e :: e in Without(bucket, k) <==> e in bucket && e.dbID != bucket[k].dbID
  {
    forall e | e in bucket && e.dbID != bucket[k].dbID
      ensures e in Without(bucket, k)
    {
      var j :| 0 <= j < |bucket| && bucket[j] == e;
      assert Without(bucket, k)[if j < k then j else j - 1] == e;
    }
    forall e | e in Without(bucket, k)
      ensures e in bucket && e.dbID != bucket[k].dbID
    {
      var i :| 0 <= i < |bucket| - 1 && Without(bucket, k)[i] == e;
      assert bucket[if i < k then i else i + 1] == e;
    }
  }

  lemma RemoveSlots(b: Buckets, p: Positions, t: Tier, k: nat)
    requires Indexed(b, p) && t in b && k < |b[t]|
    ensures Slots(b[t := Without(b[t], k)]) == Others(Slots(b), b[t][k].dbID)
  {
    var id := b[t][k].dbID;
    var b' := b[t := Without(b[t], k)];
    IndexedIsDistinct(t, b[t], p);
    WithoutElements(b[t], k);
    IndexedSlot(b, p, Slot(t, b[t][k]));
    forall s | s in Slots(b) && s.tier != t
      ensures s.entry.dbID != id
    {
      IndexedSlot(b, p, s);
    }
  }

  /** Removing the entry an account's position names removes that account and nothing else. */
  lemma RemoveKeepsIndex(b: Buckets, p: Positions, id: int, p': Positions)
    requires Indexed(b, p) && id in p && Backward(b, id, p[id])
    requires Rebuilt(p[id].tier, Without(b[p[id].tier], p[id].index), p - {id}, p')
    ensures
      var b' := b[p[id].tier := Without(b[p[id].tier], p[id].index)];
      Indexed(b', p') && Slots(b') == Others(Slots(b), id)
  {
    var t, k := p[id].tier, p[id].index;
    var bucket := Without(b[t], k);
    IndexedIsDistinct(t, b[t], p);
    WithoutElements(b[t], k);
    forall e | e in bucket
      ensures Named(e) && p[e.dbID].tier == t
    {
      IndexedSlot(b, p, Slot(t, e));
    }
    forall u | u in b && u != t
      ensures Forward(u, b[u], p - {id})
    {
    }
    forall other | other in p - {id}
      ensures if p[other].tier == t then HasID(bucket, other) else Backward(b, other, p[other])
    {
      if p[other].tier == t {
        assert b[t][p[other].index] in bucket;
      }
    }
    RebuildRestoresIndex(b, p - {id}, t, bucket, p');
    RemoveSlots(b, p, t, k);
  }

  lemma RefillSlots(b: Buckets, t: Tier, bucket: seq<Entry>, added: seq<Entry>)
    requires t in b && multiset(bucket) == multiset(b[t] + added)
    ensures Slots(b[t := bucket]) == Slots(b) + (set e | e in added :: Slot(t, e))
  {
    SameElements(bucket, b[t] + added);
    assert forall e :: e in bucket <==> e in b[t] || e in added;
  }

  /** Replacing a bucket by an arrangement of its entries and some newcomers. */
  lemma RefillKeepsIndex(b: Buckets, p: Positions, t: Tier, bucket: seq<Entry>, added: seq<Entry>, p': Positions)
    requires Indexed(b, p) && t in b
    requires forall e :: e in added ==> Named(e) && e.dbID !in p
    requires multiset(bucket) == multiset(b[t] + added)
    requires Rebuilt(t, bucket, p, p')
    ensures Indexed(b[t := bucket], p')
    ensures Slots(b[t := bucket]) == Slots(b) + (set e | e in added :: Slot(t, e))
  {
    SameElements(bucket, b[t] + added);
    forall e | e in bucket
      ensures Named(e) && (e.dbID in p ==> p[e.dbID].tier == t)
    {
      assert e in b[t] + added;
      if e in b[t] {
        IndexedSlot(b, p, Slot(t, e));
      }
    }
    forall id | id in p
      ensures if p[id].tier == t then HasID(bucket, id) else Backward(b, id, p[id])
    {
      if p[id].tier == t {
        assert b[t][p[id].index] in b[t] + added;
      }
    }
    RebuildRestoresIndex(b, p, t, bucket, p');
    RefillSlots(b, t, bucket, added);
  }

  lemma RefillIsDistinct(b: Buckets, p: Positions, t: Tier, added: Entry)
    requires Indexed(b, p) && t in b && added.dbID !in p
    ensures DistinctIDs(b[t] + [added])
  {
    IndexedIsDistinct(t, b[t], p);
    assert Forward(t, b[t], p);
  }
}
