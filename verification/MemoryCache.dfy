/**
 * The in-process cache (cache/memory.go): each of its maps under every interleaving of its two-phase reads
 * with writes, deletes, evictions and the cleanup pass.
 */
module MemoryCache {
  import opened Basics

  /** A value with its expiry; 0, the zero time, never expires. */
  datatype Entry<V> = Entry(value: V, expiresAt: int)

  predicate Expired<V>(e: Entry<V>, now: int) {
    e.expiresAt != 0 && now > e.expiresAt
  }

  /** What the cleanup pass leaves. */
  function Kept<K(==), V>(entries: map<K, Entry<V>>, now: int): map<K, Entry<V>> {
    map k | k in entries && !Expired(entries[k], now) :: entries[k]
  }

  function Find<K(==), V>(entries: map<K, Entry<V>>, k: K): Option<Entry<V>> {
    if k in entries then Some(entries[k]) else None
  }

  /** The answer to a read that saw `seen` and looked at the clock at `now`. */
  function Answered<V>(seen: Option<Entry<V>>, now: int): Option<V> {
    if seen.Some? && !Expired(seen.value, now) then Some(seen.value.value) else None
  }

  /** The second look before an eviction: tokens compare the whole entry and the clock again, the others the expiry only. */
  predicate EvictGuard<V(==)>(exact: bool, current: Entry<V>, seen: Entry<V>, now: int) {
    if exact then current == seen && Expired(current, now) else current.expiresAt == seen.expiresAt
  }

  function AfterEvict<K(==), V(==)>(entries: map<K, Entry<V>>, k: K, exact: bool, seen: Entry<V>, now: int): map<K, Entry<V>> {
    if k in entries && EvictGuard(exact, entries[k], seen, now) then entries - {k} else entries
  }

  function AfterDrop<K(==), V>(entries: map<K, Entry<V>>, k: K, now: int): map<K, Entry<V>> {
    if k in entries && Expired(entries[k], now) then entries - {k} else entries
  }

  function Without<K(==), V>(entries: map<K, Entry<V>>, k: K, which: V -> bool): map<K, Entry<V>> {
    if k in entries && which(entries[k].value) then entries - {k} else entries
  }

  predicate LockHeld<K(==), V>(entries: map<K, Entry<V>>, k: K, now: int) {
    k in entries && now < entries[k].expiresAt
  }

  function AfterTryLock<K(==), V>(entries: map<K, Entry<V>>, k: K, value: V, until: int, now: int): map<K, Entry<V>> {
    if LockHeld(entries, k, now) then entries else entries[k := Entry(value, until)]
  }

  /** The entries are those of the simple map, less some that have expired. */
  ghost predicate LessExpired<K, V>(entries: map<K, Entry<V>>, simple: map<K, Entry<V>>, now: int) {
    && (forall k :: k in entries ==> k in simple && entries[k] == simple[k])
    && (forall k :: k in simple && k !in entries ==> Expired(simple[k], now))
  }

  lemma SomeKey<K>(keys: set<K>)
    ensures keys == {} || exists k :: k in keys
  {
    if forall k :: k !in keys {
      assert keys == {};
    }
  }

  /**
   * One of the maps. `simple` is the map with expiry times its clients can think of instead: it loses an
   * entry to a delete only, never to an eviction or a cleanup, and every result is the one it gives.
   */
  class Table<K(==), V(==)> {
    var entries: map<K, Entry<V>>
    ghost var simple: map<K, Entry<V>>
    ghost var clock: int

    ghost predicate Valid()
      reads this
    {
      LessExpired(entries, simple, clock)
    }

    constructor ()
      ensures Valid() && simple == map[] && clock == 0
    {
      entries, simple, clock := map[], map[], 0;
    }

    method Set(k: K, value: V, expiresAt: int)
      requires Valid()
      modifies this
      ensures Valid() && clock == old(clock)
      ensures simple == old(simple)[k := Entry(value, expiresAt)]
    {
      entries := entries[k := Entry(value, expiresAt)];
      simple := simple[k := Entry(value, expiresAt)];
    }

    method DeleteIf(k: K, which: V -> bool)
      requires Valid()
      modifies this
      ensures Valid() && clock == old(clock)
      ensures simple == Without(old(simple), k, which)
      // the value goes if it is accepted, here and for every client; nothing else does
      ensures k in old(entries) && which(old(entries)[k].value) ==> k !in entries
      ensures k in old(simple) ==> (k in simple <==> !which(old(simple)[k].value))
      ensures forall j :: j in simple ==> j in old(simple) && simple[j] == old(simple)[j]
      ensures forall j :: j in old(simple) && j != k ==> j in simple
    {
      if k in entries && which(entries[k].value) {
        entries := entries - {k};
      }
      simple := Without(simple, k, which);
    }

    /** The second look of a read that saw an expired entry: nothing a client could still be answered is lost. */
    method Evict(exact: bool, k: K, seen: Entry<V>, now: int)
      requires Valid() && clock <= now && Expired(seen, now)
      modifies this
      ensures Valid() && clock == now && simple == old(simple)
      ensures entries == AfterEvict(old(entries), k, exact, seen, now)
    {
      if k in entries && EvictGuard(exact, entries[k], seen, now) {
        entries := entries - {k};
      }
      clock := now;
    }

    /** A read undisturbed from its first look to its second: the answer is the simple map's. */
    method Get(exact: bool, k: K, now: int, later: int) returns (answer: Option<V>)
      requires Valid() && clock <= now <= later
      modifies this
      ensures Valid() && clock == later && simple == old(simple)
      ensures answer == Answered(Find(simple, k), now)
    {
      clock := later;
      if k !in entries {
        return None;
      }
      var entry := entries[k];
      if Expired(entry, now) {
        Evict(exact, k, entry, later);
        return None;
      }
      return Some(entry.value);
    }

    /** Granted unless the simple map has the lock held, even when the cleanup pass has dropped it. */
    method TryLock(k: K, value: V, until: int, now: int) returns (granted: bool)
      requires Valid() && clock <= now
      modifies this
      ensures Valid() && clock == now
      ensures granted <==> !LockHeld(old(simple), k, now)
      ensures entries == AfterTryLock(old(entries), k, value, until, now)
      ensures simple == AfterTryLock(old(simple), k, value, until, now)
    {
      clock := now;
      simple := AfterTryLock(simple, k, value, until, now);
      if k in entries && now < entries[k].expiresAt {
        return false;
      }
      entries := entries[k := Entry(value, until)];
      return true;
    }

    /** The cleanup pass over this map, key by key, with a clock read before the lock was had. */
    method Cleanup(at: int, now: int)
      requires Valid() && clock <= now && at <= now
      modifies this
      ensures Valid() && clock == now && simple == old(simple)
      ensures entries == Kept(old(entries), at)
    {
      clock := now;
      var keys: set<K> := entries.Keys;
      while keys != {}
        invariant Valid() && clock == now && simple == old(simple)
        invariant keys <= old(entries).Keys
        invariant forall k :: k in entries <==> k in old(entries) && (k in keys || !Expired(old(entries)[k], at))
        invariant forall k :: k in entries ==> entries[k] == old(entries)[k]
        decreases keys
      {
        SomeKey(keys);
        var k: K :| k in keys;
        keys := keys - {k};
        if Expired(entries[k], at) {
          entries := entries - {k};
        }
      }
    }
  }

  // ----- interleavings -----

  /** A read between its two looks: it saw an entry or none, or it saw an expired one it is about to evict. */
  datatype Reading<K, V> = Seen(key: K, entry: Option<Entry<V>>) | Stale(key: K, expired: Entry<V>)

  datatype State<K, V> = State(now: int, entries: map<K, Entry<V>>, gets: map<nat, Reading<K, V>>, results: seq<(nat, Option<V>)>)

  datatype Event<!K, !V> =
    | Tick(passed: nat)
    | Set(k: K, value: V, expiresAt: int)
    | DeleteIf(k: K, which: V -> bool)
    | Read(r: nat, k: K)                      // the look under the read lock
    | Answer(r: nat)                          // the look at the clock, which fixes the result
    | TryLock(r: nat, k: K, value: V, until: int)
    | Evict(r: nat, exact: bool)              // the second look, under the write lock
    | Cleanup(ago: nat)                       // the cleanup pass, by a clock read that long ago
    | Drop(k: K)                              // a waiting caller drops an expired entry

  predicate Housekeeping<K, V>(e: Event<K, V>) {
    e.Evict? || e.Cleanup? || e.Drop?
  }

  function Start<K, V>(): State<K, V> {
    State(0, map[], map[], [])
  }

  function Step<K(==), V(==)>(s: State<K, V>, e: Event<K, V>): State<K, V> {
    match e
    case Tick(passed) => s.(now := s.now + passed)
    case Set(k, value, expiresAt) => s.(entries := s.entries[k := Entry(value, expiresAt)])
    case DeleteIf(k, which) => s.(entries := Without(s.entries, k, which))
    case Read(r, k) => s.(gets := s.gets[r := Seen(k, Find(s.entries, k))])
    case Answer(r) =>
      if r !in s.gets || s.gets[r].Stale? then s
      else
        var seen := s.gets[r].entry;
        var gets := if seen.Some? && Expired(seen.value, s.now) then s.gets[r := Stale(s.gets[r].key, seen.value)] else s.gets - {r};
        s.(gets := gets, results := s.results + [(r, Answered(seen, s.now))])
    case TryLock(r, k, value, until) =>
      s.(entries := AfterTryLock(s.entries, k, value, until, s.now),
         results := s.results + [(r, if LockHeld(s.entries, k, s.now) then None else Some(value))])
    case Evict(r, exact) =>
      if r !in s.gets || s.gets[r].Seen? then s
      else
        s.(gets := s.gets - {r}, entries := AfterEvict(s.entries, s.gets[r].key, exact, s.gets[r].expired, s.now))
    case Cleanup(ago) => s.(entries := Kept(s.entries, s.now - ago))
    case Drop(k) => s.(entries := AfterDrop(s.entries, k, s.now))
  }

  function Run<K(==), V(==)>(events: seq<Event<K, V>>): State<K, V> {
    if events == [] then Start() else Step(Run(events[..|events| - 1]), events[|events| - 1])
  }

  lemma NothingRun<K, V>()
    ensures Run<K, V>([]) == Start()
  {
  }

  lemma RunOneMore<K, V>(events: seq<Event<K, V>>, e: Event<K, V>)
    ensures Run(events + [e]) == Step(Run(events), e)
  {
    assert (events + [e])[..|events|] == events;
  }

  /** The simple map with expiry times: it never removes an entry but for a delete, and has no housekeeping. */
  function SimpleStep<K(==), V>(s: State<K, V>, e: Event<K, V>): State<K, V> {
    match e
    case Tick(passed) => s.(now := s.now + passed)
    case Set(k, value, expiresAt) => s.(entries := s.entries[k := Entry(value, expiresAt)])
    case DeleteIf(k, which) => s.(entries := Without(s.entries, k, which))
    case Read(r, k) => s.(gets := s.gets[r := Seen(k, Find(s.entries, k))])
    case Answer(r) =>
      if r !in s.gets || s.gets[r].Stale? then s
      else s.(gets := s.gets - {r}, results := s.results + [(r, Answered(s.gets[r].entry, s.now))])
    case TryLock(r, k, value, until) =>
      s.(entries := AfterTryLock(s.entries, k, value, until, s.now),
         results := s.results + [(r, if LockHeld(s.entries, k, s.now) then None else Some(value))])
    case _ => s
  }

  function Simple<K(==), V>(events: seq<Event<K, V>>): State<K, V> {
    if events == [] then Start() else SimpleStep(Simple(events[..|events| - 1]), events[|events| - 1])
  }

  /** The two reads see the same, or one sees nothing where the other sees an entry long expired. */
  ghost predicate SameView<V>(seen: Option<Entry<V>>, simple: Option<Entry<V>>, now: int) {
    seen == simple || (seen.None? && simple.Some? && Expired(simple.value, now))
  }

  /** The cache is the simple map less some expired entries; a read about to evict has seen an expired one. */
  ghost predicate Refines<K, V>(c: State<K, V>, s: State<K, V>) {
    && c.now == s.now && c.results == s.results
    && LessExpired(c.entries, s.entries, s.now)
    && (forall r :: r in c.gets && c.gets[r].Stale? ==> Expired(c.gets[r].expired, c.now) && r !in s.gets)
    && (forall r :: r in c.gets && c.gets[r].Seen? ==> r in s.gets)
    && (forall r :: r in s.gets ==>
          && r in c.gets && c.gets[r].Seen? && s.gets[r].Seen?
          && SameView(c.gets[r].entry, s.gets[r].entry, s.now))
  }

  /** Eviction, the cleanup pass and a waiting caller only ever remove entries that have expired. */
  lemma HousekeepingRemovesExpired<K, V>(c: State<K, V>, s: State<K, V>, e: Event<K, V>, k: K)
    requires Refines(c, s) && Housekeeping(e)
    requires k in c.entries && k !in Step(c, e).entries
    ensures Expired(c.entries[k], c.now)
  {
  }

  lemma HousekeepingRefines<K, V>(c: State<K, V>, s: State<K, V>, e: Event<K, V>)
    requires Refines(c, s) && Housekeeping(e)
    ensures Refines(Step(c, e), s)
  {
  }

  predicate Looks<K, V>(e: Event<K, V>) {
    e.Read? || e.Answer?
  }

  lemma LookRefines<K, V>(c: State<K, V>, s: State<K, V>, e: Event<K, V>)
    requires Refines(c, s) && Looks(e)
    ensures Refines(Step(c, e), SimpleStep(s, e))
  {
  }

  lemma WriteRefines<K, V>(c: State<K, V>, s: State<K, V>, e: Event<K, V>)
    requires Refines(c, s) && !Housekeeping(e) && !Looks(e)
    ensures Refines(Step(c, e), SimpleStep(s, e))
  {
  }

  lemma StepRefines<K, V>(c: State<K, V>, s: State<K, V>, e: Event<K, V>)
    requires Refines(c, s)
    ensures Refines(Step(c, e), SimpleStep(s, e))
  {
    if Housekeeping(e) {
      HousekeepingRefines(c, s, e);
      assert SimpleStep(s, e) == s;
    } else if Looks(e) {
      LookRefines(c, s, e);
    } else {
      WriteRefines(c, s, e);
    }
  }

  /**
   * Over every interleaving the cache answers every read, and grants every lock, as the simple map does that
   * has no housekeeping at all.
   */
  lemma {:induction false} CacheRefinesSimple<K, V>(events: seq<Event<K, V>>)
    ensures Refines(Run(events), Simple(events))
    decreases |events|
  {
    if events != [] {
      CacheRefinesSimple(events[..|events| - 1]);
      StepRefines(Run(events[..|events| - 1]), Simple(events[..|events| - 1]), events[|events| - 1]);
    }
  }

  /** The same run without evictions, cleanups and drops. */
  function ClientsOnly<K, V>(events: seq<Event<K, V>>): seq<Event<K, V>> {
    if events == [] then []
    else
      var rest, e := ClientsOnly(events[..|events| - 1]), events[|events| - 1];
      if Housekeeping(e) then rest else rest + [e]
  }

  lemma {:induction false} SimpleIgnoresHousekeeping<K, V>(events: seq<Event<K, V>>)
    ensures Simple(ClientsOnly(events)) == Simple(events)
    decreases |events|
  {
    if events != [] {
      var rest, e := ClientsOnly(events[..|events| - 1]), events[|events| - 1];
      SimpleIgnoresHousekeeping(events[..|events| - 1]);
      if !Housekeeping(e) {
        assert (rest + [e])[..|rest|] == rest;
      }
    }
  }

  /** Where the housekeeping runs, and whether it runs, changes no result. */
  lemma HousekeepingIsInvisible<K, V>(events: seq<Event<K, V>>, others: seq<Event<K, V>>)
    requires ClientsOnly(events) == ClientsOnly(others)
    ensures Run(events).results == Run(others).results
  {
    CacheRefinesSimple(events);
    CacheRefinesSimple(others);
    SimpleIgnoresHousekeeping(events);
    SimpleIgnoresHousekeeping(others);
  }

  ghost predicate About<K, V>(e: Event<K, V>, r: nat) {
    (e.Read? || e.Answer?) && e.r == r
  }

  lemma {:induction false} PendingStays<K, V>(before: seq<Event<K, V>>, r: nat, k: K, mid: seq<Event<K, V>>)
    requires forall e :: e in mid ==> !About(e, r)
    ensures var s := Simple(before + [Read(r, k)] + mid); r in s.gets && s.gets[r] == Seen(k, Find(Simple(before).entries, k))
    decreases |mid|
  {
    var begun := before + [Read(r, k)];
    if mid == [] {
      assert begun + mid == begun && begun[..|before|] == before;
    } else {
      var n := |mid| - 1;
      assert (begun + mid)[..|begun| + n] == begun + mid[..n];
      assert (begun + mid)[|begun| + n] == mid[n];
      PendingStays(before, r, k, mid[..n]);
      assert !About(mid[n], r);
    }
  }

  /**
   * A read answers what the simple map had at its first look, by the clock at its second, whatever happens
   * in between.
   */
  lemma ReadAnswersSimple<K, V>(before: seq<Event<K, V>>, r: nat, k: K, mid: seq<Event<K, V>>)
    requires forall e :: e in mid ==> !About(e, r)
    ensures var begun := before + [Read(r, k)] + mid;
      Run(begun + [Answer(r)]).results == Run(begun).results + [(r, Answered(Find(Simple(before).entries, k), Run(begun).now))]
  {
    hide Find;
    var begun := before + [Read(r, k)] + mid;
    PendingStays(before, r, k, mid);
    CacheRefinesSimple(begun);
    CacheRefinesSimple(begun + [Answer(r)]);
    assert (begun + [Answer(r)])[..|begun|] == begun;
  }

  predicate Writes<K(==), V>(e: Event<K, V>, k: K) {
    (e.Set? || e.DeleteIf? || e.TryLock?) && e.k == k
  }

  lemma {:induction false} UnwrittenStays<K, V>(before: seq<Event<K, V>>, k: K, mid: seq<Event<K, V>>)
    requires forall m :: m in mid ==> !Writes(m, k)
    ensures Find(Simple(before + mid).entries, k) == Find(Simple(before).entries, k)
    decreases |mid|
  {
    if mid == [] {
      assert before + mid == before;
    } else {
      var n := |mid| - 1;
      assert (before + mid)[..|before| + n] == before + mid[..n];
      assert (before + mid)[|before| + n] == mid[n];
      UnwrittenStays(before, k, mid[..n]);
      assert !Writes(mid[n], k);
    }
  }

  lemma SimpleOneMore<K, V>(events: seq<Event<K, V>>, e: Event<K, V>)
    ensures Simple(events + [e]) == SimpleStep(Simple(events), e)
  {
    assert (events + [e])[..|events|] == events;
  }

  /** When nothing is written to its key between its two looks, a read answers what the simple map holds as it answers. */
  lemma UndisturbedReadIsCurrent<K, V>(before: seq<Event<K, V>>, r: nat, k: K, mid: seq<Event<K, V>>)
    requires forall e :: e in mid ==> !About(e, r) && !Writes(e, k)
    ensures var begun := before + [Read(r, k)] + mid;
      Run(begun + [Answer(r)]).results == Run(begun).results + [(r, Answered(Find(Simple(begun).entries, k), Run(begun).now))]
  {
    ReadAnswersSimple(before, r, k, mid);
    SimpleOneMore(before, Read(r, k));
    UnwrittenStays(before + [Read(r, k)], k, mid);
  }

  lemma {:induction false} NothingBack<K, V>(before: seq<Event<K, V>>, k: K, mid: seq<Event<K, V>>)
    requires forall e :: e in mid ==> !((e.Set? || e.TryLock?) && e.k == k)
    ensures k !in Simple(before + [DeleteIf(k, _ => true)] + mid).entries
    decreases |mid|
  {
    var deleted: seq<Event<K, V>> := before + [DeleteIf(k, _ => true)];
    if mid == [] {
      assert deleted + mid == deleted;
      SimpleOneMore(before, DeleteIf(k, _ => true));
    } else {
      var n := |mid| - 1;
      NothingBack(before, k, mid[..n]);
      SimpleOneMore(deleted + mid[..n], mid[n]);
      assert deleted + mid == deleted + mid[..n] + [mid[n]];
      assert mid[n] in mid;
    }
  }

  /** A value set is what every later read answers until it expires, if nothing is written to its key before the read begins. */
  lemma SetIsRead<K, V>(before: seq<Event<K, V>>, k: K, value: V, expiresAt: int, mid: seq<Event<K, V>>, r: nat, rest: seq<Event<K, V>>)
    requires forall e :: e in mid ==> !Writes(e, k)
    requires forall e :: e in rest ==> !About(e, r)
    ensures var begun := before + [Set(k, value, expiresAt)] + mid + [Read(r, k)] + rest;
      var s, after := Run(begun), Run(begun + [Answer(r)]);
      after.results == s.results + [(r, if expiresAt == 0 || s.now <= expiresAt then Some(value) else None)]
  {
    var written := before + [Set(k, value, expiresAt)];
    SimpleOneMore(before, Set(k, value, expiresAt));
    UnwrittenStays(written, k, mid);
    ReadAnswersSimple(written + mid, r, k, rest);
  }

  /** A deleted entry is answered to no read begun later, as long as its key is not set or locked again. */
  lemma DeletedIsGone<K, V>(before: seq<Event<K, V>>, k: K, mid: seq<Event<K, V>>, r: nat, rest: seq<Event<K, V>>)
    requires forall e :: e in mid ==> !((e.Set? || e.TryLock?) && e.k == k)
    requires forall e :: e in rest ==> !About(e, r)
    ensures var begun := before + [DeleteIf(k, _ => true)] + mid + [Read(r, k)] + rest;
      Run(begun + [Answer(r)]).results == Run(begun).results + [(r, None)]
  {
    var deleted: seq<Event<K, V>> := before + [DeleteIf(k, _ => true)];
    NothingBack(before, k, mid);
    ReadAnswersSimple(deleted + mid, r, k, rest);
  }

  /** A released refresh lock is granted to the next who asks. */
  lemma ReleasedIsGranted<K, V>(before: seq<Event<K, V>>, k: K, mid: seq<Event<K, V>>, r: nat, value: V, until: int)
    requires forall e :: e in mid ==> !((e.Set? || e.TryLock?) && e.k == k)
    ensures var events := before + [DeleteIf(k, _ => true)] + mid;
      Run(events + [TryLock(r, k, value, until)]).results == Run(events).results + [(r, Some(value))]
  {
    var events: seq<Event<K, V>> := before + [DeleteIf(k, _ => true)] + mid;
    NothingBack(before, k, mid);
    CacheRefinesSimple(events);
    CacheRefinesSimple(events + [TryLock(r, k, value, until)]);
    SimpleOneMore(events, TryLock(r, k, value, until));
  }

  /**
   * Reads are not atomic: one that straddles a write can miss although the map held a live entry for the key
   * at every moment from before the read to after it.
   */
  lemma StraddlingReadMisses<K, V>(r: nat, k: K, a: V, b: V)
    ensures var events := [Set(k, a, 10), Read(r, k), Set(k, b, 100), Tick(11), Answer(r)];
      && Run(events).results == [(r, None)]
      && forall n :: 1 <= n <= 5 ==>
           var s := Run(events[..n]); k in s.entries && !Expired(s.entries[k], s.now)
  {
    hide Run;
    var events: seq<Event<K, V>> := [Set(k, a, 10), Read(r, k), Set(k, b, 100), Tick(11), Answer(r)];
    NothingRun<K, V>();
    RunOneMore([], events[0]);
    RunOneMore(events[..1], events[1]);
    RunOneMore(events[..2], events[2]);
    RunOneMore(events[..3], events[3]);
    RunOneMore(events[..4], events[4]);
    assert events[..1] == [] + [events[0]];
    assert forall n :: 0 <= n < 5 ==> events[..n + 1] == events[..n] + [events[n]];
    assert events[..5] == events;
  }

  ghost predicate Overwrites<K, V>(e: Event<K, V>, k: K) {
    (e.Set? || e.DeleteIf?) && e.k == k
  }

  lemma {:induction false} LockStays<K, V>(events: seq<Event<K, V>>, r: nat, k: K, value: V, until: int, mid: seq<Event<K, V>>)
    requires !LockHeld(Simple(events).entries, k, Simple(events).now)
    requires forall e :: e in mid ==> !Overwrites(e, k)
    requires Simple(events + [TryLock(r, k, value, until)] + mid).now < until
    ensures Find(Simple(events + [TryLock(r, k, value, until)] + mid).entries, k) == Some(Entry(value, until))
    decreases |mid|
  {
    var locked := events + [TryLock(r, k, value, until)];
    if mid == [] {
      assert locked + mid == locked && locked[..|events|] == events;
    } else {
      var n := |mid| - 1;
      assert (locked + mid)[..|locked| + n] == locked + mid[..n];
      assert (locked + mid)[|locked| + n] == mid[n];
      LockStays(events, r, k, value, until, mid[..n]);
      assert !Overwrites(mid[n], k);
    }
  }

  /** A refresh lock once granted excludes all others until it is released or its time is up. */
  lemma LockExcludes<K, V>(events: seq<Event<K, V>>, r: nat, k: K, value: V, until: int, mid: seq<Event<K, V>>)
    requires !LockHeld(Run(events).entries, k, Run(events).now)
    requires forall e :: e in mid ==> !Overwrites(e, k)
    requires Run(events + [TryLock(r, k, value, until)] + mid).now < until
    ensures var s := Run(events + [TryLock(r, k, value, until)] + mid); LockHeld(s.entries, k, s.now)
  {
    CacheRefinesSimple(events);
    CacheRefinesSimple(events + [TryLock(r, k, value, until)] + mid);
    LockStays(events, r, k, value, until, mid);
  }
}
