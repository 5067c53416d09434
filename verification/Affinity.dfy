/**
 * Session affinity (auth/store.go:3326-3391 and 3411-3477): the table of bindings, and what a bounded
 * binding can promise over a whole run.
 */
module Affinity {
  import opened Basics

  datatype Mode = Bounded | Off | Strict

  const MAX_REQUESTS: nat := 50
  const MAX_DURATION: nat := 5 * MINUTE

  datatype Binding = Binding(accountID: int, proxyURL: string, boundAt: Time, requestCount: nat, expiresAt: Time)

  type Bindings = map<string, Binding>

  /** A binding the token cache holds. */
  datatype Cached = Cached(accountID: int, proxyURL: string)

  /**
   * What the rest of the store answers in one call: is the bound account still healthy, can a slot of it be
   * taken, what does the token cache hold (nothing, when there is none), and the same of the cached account.
   */
  datatype Answers = Answers(healthy: bool, taken: bool, cached: Option<Cached>, cachedHealthy: bool, cachedTaken: bool)

  datatype Sticky = Sticky(accountID: int, proxyURL: string, adopted: bool)

  predicate Expired(b: Binding, now: Time) {
    b.expiresAt <= now
  }

  predicate Escapes(b: Binding, mode: Mode, healthy: bool, now: Time) {
    mode == Bounded &&
    (|| b.requestCount >= MAX_REQUESTS
     || (b.boundAt != ZERO_TIME && now - b.boundAt >= MAX_DURATION)
     || !healthy)
  }

  predicate SameAccount(b: Bindings, key: string, accountID: int) {
    key in b && b[key].accountID == accountID
  }

  function AfterBind(b: Bindings, key: string, accountID: int, proxyURL: string, now: Time, ttl: nat): Bindings {
    if key == "" then b
    else if SameAccount(b, key, accountID) then b[key := b[key].(proxyURL := Trim(proxyURL), expiresAt := now + ttl)]
    else b[key := Binding(accountID, Trim(proxyURL), now, 0, now + ttl)]
  }

  function AfterUnbind(b: Bindings, key: string, accountID: int): Bindings {
    if key != "" && accountID != 0 && SameAccount(b, key, accountID) then b - {key} else b
  }

  /** Served by its binding, the key's account is returned and the use counted. */
  predicate ServedByBinding(b: Bindings, key: string, mode: Mode, now: Time, a: Answers) {
    key != "" && mode != Off && key in b && !Expired(b[key], now) && !Escapes(b[key], mode, a.healthy, now) && a.taken
  }

  predicate Released(b: Bindings, key: string, mode: Mode, now: Time, a: Answers) {
    key != "" && mode != Off && key in b && (Expired(b[key], now) || Escapes(b[key], mode, a.healthy, now))
  }

  predicate AdoptsCached(b: Bindings, key: string, mode: Mode, now: Time, a: Answers) {
    && key != "" && mode != Off && !ServedByBinding(b, key, mode, now, a)
    && a.cached.Some? && a.cached.value.accountID != 0 && (mode == Bounded ==> a.cachedHealthy) && a.cachedTaken
  }

  function AfterNext(b: Bindings, key: string, mode: Mode, now: Time, a: Answers, ttl: nat): Bindings {
    if ServedByBinding(b, key, mode, now, a) then b[key := b[key].(requestCount := b[key].requestCount + 1)]
    else if AdoptsCached(b, key, mode, now, a) then
      b[key := Binding(a.cached.value.accountID, Trim(a.cached.value.proxyURL), ZERO_TIME, 0, now + ttl)]
    else if Released(b, key, mode, now, a) then b - {key}
    else b
  }

  function StickyReturn(b: Bindings, key: string, mode: Mode, now: Time, a: Answers): Option<Sticky> {
    if ServedByBinding(b, key, mode, now, a) then Some(Sticky(b[key].accountID, b[key].proxyURL, false))
    else if AdoptsCached(b, key, mode, now, a) then Some(Sticky(a.cached.value.accountID, Trim(a.cached.value.proxyURL), true))
    else None
  }

  /** A live binding serves: in strict mode until it expires, in bounded mode within its limits. */
  lemma LiveBindingServes(b: Bindings, key: string, mode: Mode, now: Time, a: Answers, ttl: nat)
    requires key != "" && key in b && now < b[key].expiresAt && a.taken
    requires mode == Strict ||
      (mode == Bounded && a.healthy && b[key].requestCount < 50 && (b[key].boundAt == ZERO_TIME || now - b[key].boundAt < 5 * MINUTE))
    ensures StickyReturn(b, key, mode, now, a) == Some(Sticky(b[key].accountID, b[key].proxyURL, false))
    ensures AfterNext(b, key, mode, now, a, ttl) == b[key := b[key].(requestCount := b[key].requestCount + 1)]
  {
  }

  /** And only so: any other sticky return is an adoption of what the cache has, and healthy in bounded mode. */
  lemma StickyIsLiveOrCached(b: Bindings, key: string, mode: Mode, now: Time, a: Answers)
    ensures key == "" || mode == Off ==> StickyReturn(b, key, mode, now, a) == None
    ensures match StickyReturn(b, key, mode, now, a)
      case None => true
      case Some(s) =>
        if s.adopted then
          a.cached.Some? && a.cachedTaken && a.cached.value.accountID == s.accountID != 0 && (mode == Bounded ==> a.cachedHealthy)
        else
          && key in b && now < b[key].expiresAt && a.taken && b[key].accountID == s.accountID && b[key].proxyURL == s.proxyURL
          && (mode == Bounded ==>
              a.healthy && b[key].requestCount < 50 && (b[key].boundAt == ZERO_TIME || now - b[key].boundAt < 5 * MINUTE))
  {
  }

  /** A new binding serves the account it was made for, through the proxy it was made with, until it expires or its bounds are reached. */
  lemma NewBindingServes(b: Bindings, key: string, accountID: int, proxyURL: string, now: Time, ttl: nat, mode: Mode, later: Time, a: Answers)
    requires key != "" && later < now + ttl && a.taken && !SameAccount(b, key, accountID)
    requires mode == Strict || (mode == Bounded && a.healthy && later - now < 5 * MINUTE)
    ensures StickyReturn(AfterBind(b, key, accountID, proxyURL, now, ttl), key, mode, later, a) == Some(Sticky(accountID, Trim(proxyURL), false))
  {
  }

  /** Binding the same account again starts neither its time nor its count anew, and putting it off for good takes an Unbind. */
  lemma BoundAgainAndUnbound(b: Bindings, key: string, accountID: int, proxyURL: string, now: Time, ttl: nat)
    requires key != "" && key in b && b[key].accountID == accountID
    ensures AfterBind(b, key, accountID, proxyURL, now, ttl) ==
      b[key := Binding(accountID, Trim(proxyURL), b[key].boundAt, b[key].requestCount, now + ttl)]
    ensures accountID != 0 ==> AfterUnbind(b, key, accountID).Keys == b.Keys - {key}
    ensures forall other :: other != accountID ==> AfterUnbind(b, key, other) == b
  {
  }

  class Sessions {
    var bindings: Bindings
    const ttl: nat

    constructor (ttl: nat)
      ensures bindings == map[] && this.ttl == ttl
    {
      bindings := map[];
      this.ttl := ttl;
    }

    method Bind(rawKey: string, accountID: int, proxyURL: string, now: Time)
      modifies this
      ensures bindings == AfterBind(old(bindings), Trim(rawKey), accountID, proxyURL, now, ttl)
    {
      var key := Trim(rawKey);
      if key == "" {
        return;
      }
      var binding := Binding(accountID, Trim(proxyURL), now, 0, now + ttl);
      if key in bindings && bindings[key].accountID == accountID {
        binding := binding.(boundAt := bindings[key].boundAt, requestCount := bindings[key].requestCount);
      }
      bindings := bindings[key := binding];
    }

    method Unbind(rawKey: string, accountID: int)
      modifies this
      ensures bindings == AfterUnbind(old(bindings), Trim(rawKey), accountID)
    {
      if accountID == 0 {
        return;
      }
      var key := Trim(rawKey);
      if key == "" {
        return;
      }
      if key in bindings && bindings[key].accountID == accountID {
        bindings := bindings - {key};
      }
    }

    /** NextForSessionWithFilter up to its last line: None means the ordinary choice of an account follows. */
    method NextForSession(rawKey: string, mode: Mode, now: Time, a: Answers) returns (sticky: Option<Sticky>)
      modifies this
      ensures sticky == StickyReturn(old(bindings), Trim(rawKey), mode, now, a)
      ensures bindings == AfterNext(old(bindings), Trim(rawKey), mode, now, a, ttl)
    {
      var key := Trim(rawKey);
      if key == "" {
        return None;
      }
      if mode == Off {
        return None;
      }
      if key in bindings {
        var binding := bindings[key];
        var expired := binding.expiresAt <= now;
        var escape := false;
        if mode == Bounded {
          if binding.requestCount >= MAX_REQUESTS {
            escape := true;
          } else if binding.boundAt != ZERO_TIME && now - binding.boundAt >= MAX_DURATION {
            escape := true;
          } else if !a.healthy {
            escape := true;
          }
        }
        if expired || escape {
          if key in bindings && bindings[key].accountID == binding.accountID {
            bindings := bindings - {key};
          }
        } else if a.taken {
          if key in bindings && bindings[key].accountID == binding.accountID {
            bindings := bindings[key := bindings[key].(requestCount := bindings[key].requestCount + 1)];
          }
          return Some(Sticky(binding.accountID, binding.proxyURL, false));
        }
      }
      if a.cached.Some? && a.cached.value.accountID != 0 {
        var binding := Binding(a.cached.value.accountID, Trim(a.cached.value.proxyURL), ZERO_TIME, 0, now + ttl);
        if mode == Bounded && !a.cachedHealthy {
        } else if a.cachedTaken {
          bindings := bindings[key := binding];
          return Some(Sticky(binding.accountID, binding.proxyURL, true));
        }
      }
      return None;
    }
  }

  // ----- runs -----

  /** One call, with its key already trimmed; any mode at any time, and any clock that is not the zero time. */
  datatype Event =
    | Bind(key: string, accountID: int, proxyURL: string, at: Time)
    | Unbind(key: string, accountID: int)
    | Next(key: string, mode: Mode, at: Time, a: Answers)

  /** How a binding epoch of a key began: the key was bound to another account than before, or adopted from the cache. */
  datatype Start = Start(accountID: int, at: Time, adopted: bool)

  /** A sticky return, in the `epoch`-th binding epoch of its key. */
  datatype Return = Return(key: string, epoch: nat, accountID: int, at: Time, bounded: bool, adopted: bool)

  datatype Trace = Trace(bindings: Bindings, epochs: map<string, seq<Start>>, log: seq<Return>) {
    function Epochs(key: string): seq<Start> {
      if key in epochs then epochs[key] else []
    }
  }

  const BEGINNING := Trace(map[], map[], [])

  function Begin(t: Trace, key: string, start: Start): map<string, seq<Start>> {
    t.epochs[key := t.Epochs(key) + [start]]
  }

  function Step(t: Trace, e: Event, ttl: nat): Trace {
    var b := t.bindings;
    match e
    case Bind(key, accountID, proxyURL, at) =>
      Trace(AfterBind(b, key, accountID, proxyURL, at, ttl),
            if key == "" || SameAccount(b, key, accountID) then t.epochs else Begin(t, key, Start(accountID, at, false)),
            t.log)
    case Unbind(key, accountID) => t.(bindings := AfterUnbind(b, key, accountID))
    case Next(key, mode, at, a) =>
      var epochs := if AdoptsCached(b, key, mode, at, a) then Begin(t, key, Start(a.cached.value.accountID, at, true)) else t.epochs;
      var log := match StickyReturn(b, key, mode, at, a)
                 case None => t.log
                 case Some(s) => t.log + [Return(key, |if key in epochs then epochs[key] else []|, s.accountID, at, mode == Bounded, s.adopted)];
      Trace(AfterNext(b, key, mode, at, a, ttl), epochs, log)
  }

  function Run(events: seq<Event>, ttl: nat): Trace {
    if events == [] then BEGINNING else Step(Run(events[..|events| - 1], ttl), events[|events| - 1], ttl)
  }

  /** The returns of one epoch served by its binding, that is, all but the one that adopted it. */
  function Served(log: seq<Return>, key: string, epoch: nat): nat {
    if log == [] then 0
    else
      var last := log[|log| - 1];
      Served(log[..|log| - 1], key, epoch) + if last.key == key && last.epoch == epoch && !last.adopted then 1 else 0
  }

  /** Of those, the ones in bounded mode. */
  function ServedBounded(log: seq<Return>, key: string, epoch: nat): nat {
    if log == [] then 0
    else
      var last := log[|log| - 1];
      ServedBounded(log[..|log| - 1], key, epoch)
      + if last.key == key && last.epoch == epoch && !last.adopted && last.bounded then 1 else 0
  }

  predicate InItsEpoch(t: Trace, r: Return) {
    && 1 <= r.epoch <= |t.Epochs(r.key)|
    && var start := t.Epochs(r.key)[r.epoch - 1];
       && r.accountID == start.accountID && (r.adopted ==> start.adopted)
       && (r.bounded && !start.adopted ==> r.at - start.at < MAX_DURATION)
  }

  /** The table agrees with the trace: its current epochs, and the uses counted in them. */
  predicate Tracked(t: Trace, key: string) {
    key in t.bindings ==>
      var n := |t.Epochs(key)|;
      && n > 0 && t.bindings[key].accountID == t.Epochs(key)[n - 1].accountID
      && t.bindings[key].boundAt == (if t.Epochs(key)[n - 1].adopted then ZERO_TIME else t.Epochs(key)[n - 1].at)
      && t.bindings[key].requestCount == Served(t.log, key, n)
  }

  predicate StartsTimed(t: Trace, key: string) {
    forall s :: s in t.Epochs(key) ==> s.at != ZERO_TIME
  }

  ghost predicate Good(t: Trace) {
    && (forall key :: Tracked(t, key) && StartsTimed(t, key))
    && (forall key, epoch: nat :: epoch > |t.Epochs(key)| ==> Served(t.log, key, epoch) == 0)
    && (forall key, epoch: nat :: ServedBounded(t.log, key, epoch) <= MAX_REQUESTS)
    && (forall i :: 0 <= i < |t.log| ==> InItsEpoch(t, t.log[i]))
  }

  lemma ServedAppend(log: seq<Return>, r: Return, key: string, epoch: nat)
    ensures Served(log + [r], key, epoch) == Served(log, key, epoch) + if r.key == key && r.epoch == epoch && !r.adopted then 1 else 0
    ensures ServedBounded(log + [r], key, epoch) ==
      ServedBounded(log, key, epoch) + if r.key == key && r.epoch == epoch && !r.adopted && r.bounded then 1 else 0
  {
    assert (log + [r])[..|log|] == log;
  }

  lemma {:induction false} BoundedAreServed(log: seq<Return>, key: string, epoch: nat)
    ensures ServedBounded(log, key, epoch) <= Served(log, key, epoch)
  {
    if log != [] {
      BoundedAreServed(log[..|log| - 1], key, epoch);
    }
  }

  predicate Timed(e: Event) {
    !e.Unbind? ==> e.at != ZERO_TIME
  }

  lemma StepEpochs(t: Trace, e: Event, ttl: nat, key: string)
    requires Good(t) && Timed(e)
    ensures var t' := Step(t, e, ttl);
      && t.Epochs(key) <= t'.Epochs(key) && |t'.Epochs(key)| <= |t.Epochs(key)| + 1 && StartsTimed(t', key)
      && (key != e.key ==> t'.Epochs(key) == t.Epochs(key))
  {
    hide Tracked, Served, ServedBounded, InItsEpoch;
    assert StartsTimed(t, key);
  }

  /** What a step logs belongs to the epoch its key is in after the step. */
  lemma StepLogs(t: Trace, e: Event, ttl: nat)
    requires Good(t) && Timed(e)
    ensures var t' := Step(t, e, ttl);
      || t'.log == t.log
      || (exists r :: t'.log == t.log + [r] && r.key == e.key && r.epoch == |t'.Epochs(e.key)| && InItsEpoch(t', r)
            && (!r.adopted ==> t'.epochs == t.epochs && e.key in t.bindings)
            && (!r.adopted && r.bounded ==> t.bindings[e.key].requestCount < MAX_REQUESTS)
            && (r.adopted ==> |t'.Epochs(e.key)| == |t.Epochs(e.key)| + 1))
  {
    var t' := Step(t, e, ttl);
    if e.Next? && StickyReturn(t.bindings, e.key, e.mode, e.at, e.a).Some? {
      var r := t'.log[|t.log|];
      assert t'.log == t.log + [r];
      assert Tracked(t, e.key);
    }
  }

  lemma StepTracked(t: Trace, e: Event, ttl: nat, key: string)
    requires Good(t) && Timed(e)
    ensures Tracked(Step(t, e, ttl), key)
  {
    hide Served, ServedBounded, InItsEpoch, StartsTimed;
    var t' := Step(t, e, ttl);
    assert Tracked(t, key);
    var n := |t'.Epochs(key)|;
    assert n > |t.Epochs(key)| ==> Served(t.log, key, n) == 0;
    if t'.log != t.log {
      var r := t'.log[|t.log|];
      assert t'.log == t.log + [r];
      ServedAppend(t.log, r, key, n);
    }
  }

  lemma StillInItsEpoch(t: Trace, t': Trace, r: Return)
    requires InItsEpoch(t, r) && t.Epochs(r.key) <= t'.Epochs(r.key)
    ensures InItsEpoch(t', r)
  {
  }

  lemma StepCounts(t: Trace, e: Event, ttl: nat, key: string, epoch: nat)
    requires Good(t) && Timed(e)
    ensures var t' := Step(t, e, ttl);
      && (epoch > |t'.Epochs(key)| ==> Served(t'.log, key, epoch) == 0)
      && ServedBounded(t'.log, key, epoch) <= MAX_REQUESTS
  {
    hide Step;
    var t' := Step(t, e, ttl);
    StepLogs(t, e, ttl);
    StepEpochs(t, e, ttl, key);
    if t'.log != t.log {
      var r := t'.log[|t.log|];
      assert t'.log == t.log + [r];
      ServedAppend(t.log, r, key, epoch);
      BoundedAreServed(t.log, key, epoch);
      assert Tracked(t, key);
    }
  }

  lemma StepGood(t: Trace, e: Event, ttl: nat)
    requires Good(t) && Timed(e)
    ensures Good(Step(t, e, ttl))
  {
    hide Step, Tracked, InItsEpoch, Served, ServedBounded, StartsTimed;
    var t' := Step(t, e, ttl);
    StepLogs(t, e, ttl);
    forall key
      ensures Tracked(t', key) && StartsTimed(t', key)
    {
      StepTracked(t, e, ttl, key);
      StepEpochs(t, e, ttl, key);
    }
    forall key, epoch: nat
      ensures epoch > |t'.Epochs(key)| ==> Served(t'.log, key, epoch) == 0
      ensures ServedBounded(t'.log, key, epoch) <= MAX_REQUESTS
    {
      StepCounts(t, e, ttl, key, epoch);
    }
    forall i | 0 <= i < |t'.log|
      ensures InItsEpoch(t', t'.log[i])
    {
      if i < |t.log| {
        StepEpochs(t, e, ttl, t.log[i].key);
        StillInItsEpoch(t, t', t.log[i]);
      }
    }
  }

  lemma {:induction false} RunGood(events: seq<Event>, ttl: nat)
    requires forall e :: e in events ==> Timed(e)
    ensures Good(Run(events, ttl))
    decreases |events|
  {
    if events != [] {
      RunGood(events[..|events| - 1], ttl);
      StepGood(Run(events[..|events| - 1], ttl), events[|events| - 1], ttl);
    }
  }

  /**
   * Bounded affinity over every run, whatever the modes, clocks, rebindings and cache answers: a binding
   * epoch serves at most 50 bounded returns, all for the account it began with; and if it began with a Bind
   * rather than an adoption from the cache, each of them less than 5 minutes after that Bind, even though
   * binding the same account again extends the expiry.
   */
  lemma BoundedAffinity(events: seq<Event>, ttl: nat, key: string, epoch: nat)
    requires forall e :: e in events ==> Timed(e)
    ensures var t := Run(events, ttl);
      && ServedBounded(t.log, key, epoch) <= MAX_REQUESTS
      && forall r :: r in t.log && r.key == key && r.epoch == epoch ==>
           && 1 <= epoch <= |t.Epochs(key)|
           && var start := t.Epochs(key)[epoch - 1];
              && r.accountID == start.accountID
              && (r.bounded && !start.adopted ==> r.at - start.at < MAX_DURATION)
  {
    hide Run, Tracked, StartsTimed, Served, ServedBounded;
    RunGood(events, ttl);
  }

  lemma {:induction false} OtherKeysLeaveIt(before: seq<Event>, mid: seq<Event>, ttl: nat, key: string)
    requires key != "" && forall e :: e in mid ==> e.key != key
    ensures key in Run(before + mid, ttl).bindings <==> key in Run(before, ttl).bindings
    ensures key in Run(before, ttl).bindings ==> Run(before + mid, ttl).bindings[key] == Run(before, ttl).bindings[key]
    decreases |mid|
  {
    if mid == [] {
      assert before + mid == before;
    } else {
      var n := |mid| - 1;
      assert (before + mid)[..|before| + n] == before + mid[..n];
      assert (before + mid)[|before| + n] == mid[n];
      OtherKeysLeaveIt(before, mid[..n], ttl, key);
      assert mid[n] in mid;
    }
  }

  /** In strict mode a session keeps the account it was bound to until the binding expires. */
  lemma StrictKeepsAccount(before: seq<Event>, key: string, account: int, proxyURL: string, at: Time, mid: seq<Event>,
                           now: Time, a: Answers, ttl: nat)
    requires key != "" && now < at + ttl && a.taken
    requires forall e :: e in mid ==> e.key != key
    ensures var bound := before + [Bind(key, account, proxyURL, at)] + mid;
      var t, after := Run(bound, ttl), Run(bound + [Next(key, Strict, now, a)], ttl);
      && |after.log| == |t.log| + 1 && after.log[..|t.log|] == t.log
      && var r := after.log[|t.log|]; r.key == key && r.accountID == account && !r.adopted
  {
    hide Trim;
    var bind, next := Bind(key, account, proxyURL, at), Next(key, Strict, now, a);
    assert (before + [bind])[..|before|] == before;
    OtherKeysLeaveIt(before + [bind], mid, ttl, key);
    var bound := before + [bind] + mid;
    assert (bound + [next])[..|bound|] == bound;
    LiveBindingServes(Run(bound, ttl).bindings, key, Strict, now, a, ttl);
  }

  /** Without a token cache every epoch begins with a Bind. */
  lemma {:induction false} NoCacheNoAdoption(events: seq<Event>, ttl: nat, key: string)
    requires forall e :: e in events && e.Next? ==> e.a.cached.None?
    ensures forall s :: s in Run(events, ttl).Epochs(key) ==> !s.adopted
    decreases |events|
  {
    if events != [] {
      NoCacheNoAdoption(events[..|events| - 1], ttl, key);
      assert events[|events| - 1] in events;
    }
  }

  /** A binding in the token cache and when it expires there. */
  datatype Copy = Copy(cached: Cached, expiresAt: int)

  /** What the calls leave in a token cache no other process writes: the last Bind of the key, unless it was unbound. */
  function CopyOf(events: seq<Event>, key: string, ttl: nat): Option<Copy> {
    if events == [] then None
    else
      var before := CopyOf(events[..|events| - 1], key, ttl);
      match events[|events| - 1]
      case Bind(k, accountID, proxyURL, at) =>
        if k == key && key != "" && accountID != 0 then Some(Copy(Cached(accountID, Trim(proxyURL)), at + ttl)) else before
      case Unbind(k, accountID) =>
        if k == key && accountID != 0 && before.Some? && before.value.cached.accountID == accountID then None else before
      case Next(_, _, _, _) => before
  }

  function OwnAnswer(events: seq<Event>, key: string, ttl: nat, now: Time): Option<Cached> {
    var copy := CopyOf(events, key, ttl);
    if copy.Some? && now <= copy.value.expiresAt then Some(copy.value.cached) else None
  }

  datatype TokenCache = NoCache | OwnCache | SharedCache

  /** What the token cache can answer to a call after `before`: with other processes writing to it, anything. */
  predicate CanAnswer(cache: TokenCache, before: seq<Event>, e: Event, ttl: nat) {
    e.Next? ==>
      match cache
      case NoCache => e.a.cached.None?
      case OwnCache => e.a.cached == OwnAnswer(before, e.key, ttl, e.at)
      case SharedCache => true
  }

  /** What can happen in a store with such a token cache. */
  ghost predicate Possible(cache: TokenCache, events: seq<Event>, ttl: nat) {
    forall i :: 0 <= i < |events| ==> Timed(events[i]) && CanAnswer(cache, events[..i], events[i], ttl)
  }

  /** The promise: a bounded return comes less than 5 minutes after a Bind, before it, of its key to its account. */
  predicate InTime(t: Trace, r: Return) {
    r.bounded ==>
      exists n :: 0 <= n < r.epoch && n < |t.Epochs(r.key)|
        && var start := t.Epochs(r.key)[n]; !start.adopted && start.accountID == r.accountID && r.at - start.at < MAX_DURATION
  }

  ghost predicate PromiseKept(t: Trace) {
    forall r :: r in t.log ==> InTime(t, r)
  }

  lemma RunOneMore(events: seq<Event>, e: Event, ttl: nat, key: string)
    ensures Run(events + [e], ttl) == Step(Run(events, ttl), e, ttl)
    ensures e.Next? ==> CopyOf(events + [e], key, ttl) == CopyOf(events, key, ttl)
  {
    assert (events + [e])[..|events|] == events;
  }

  /** An account bound, and bound again at the instant its five minutes are over. */
  function TwoBinds(account: int): seq<Event> {
    [Bind("k", account, "", 1), Bind("k", account, "", 1 + MAX_DURATION)]
  }

  lemma AfterTwoBinds(account: int, ttl: nat)
    requires account != 0
    ensures var t := Run(TwoBinds(account), ttl);
      && "k" in t.bindings && t.bindings["k"] == Binding(account, "", 1, 0, 1 + MAX_DURATION + ttl)
      && t.Epochs("k") == [Start(account, 1, false)] && t.log == []
    ensures CopyOf(TwoBinds(account), "k", ttl) == Some(Copy(Cached(account, ""), 1 + MAX_DURATION + ttl))
  {
    var e1, e2 := Bind("k", account, "", 1), Bind("k", account, "", 1 + MAX_DURATION);
    RunOneMore([], e1, ttl, "k");
    RunOneMore([e1], e2, ttl, "k");
    assert [] + [e1] == [e1] && [e1] + [e2] == TwoBinds(account);
    assert Trim("") == "";
  }

  /** A token cache that has the account, which is healthy and has a slot to give. */
  function StillCached(account: int): Answers {
    Answers(true, true, Some(Cached(account, "")), true, true)
  }

  lemma AdoptedAgain(account: int, t: Trace, ttl: nat, later: nat)
    requires account != 0 && later < ttl
    requires "k" in t.bindings && t.bindings["k"] == Binding(account, "", 1, 0, 1 + MAX_DURATION + ttl)
    requires t.Epochs("k") == [Start(account, 1, false)]
    ensures
      var t1 := Step(t, Next("k", Bounded, 1 + MAX_DURATION, StillCached(account)), ttl);
      var t2 := Step(t1, Next("k", Bounded, 1 + MAX_DURATION + later, StillCached(account)), ttl);
      && t1.log == t.log + [Return("k", 2, account, 1 + MAX_DURATION, true, true)]
      && t2.log == t1.log + [Return("k", 2, account, 1 + MAX_DURATION + later, true, false)]
      && t1.Epochs("k") == t2.Epochs("k") == [Start(account, 1, false), Start(account, 1 + MAX_DURATION, true)]
  {
    hide Trim;
    var again := StillCached(account);
    var e1, e2 := Next("k", Bounded, 1 + MAX_DURATION, again), Next("k", Bounded, 1 + MAX_DURATION + later, again);
    var t1 := Step(t, e1, ttl);
    assert Released(t.bindings, "k", Bounded, e1.at, again);
    assert AdoptsCached(t.bindings, "k", Bounded, e1.at, again);
    assert t1.log == t.log + [Return("k", 2, account, 1 + MAX_DURATION, true, true)];
    assert ServedByBinding(t1.bindings, "k", Bounded, e2.at, again);
  }

  /**
   * With a token cache, even one no other process writes to, the five minutes are not kept: the account a
   * binding has just let go is adopted again at once, and served until that adoption expires.
   */
  lemma CacheOutlivesBound(account: int, ttl: nat, later: nat)
    requires account != 0 && later < ttl
    ensures var again := StillCached(account);
      var events := TwoBinds(account) + [Next("k", Bounded, 1 + MAX_DURATION, again)];
      var all := events + [Next("k", Bounded, 1 + MAX_DURATION + later, again)];
      var t1, t2 := Run(events, ttl), Run(all, ttl);
      && Possible(OwnCache, all, ttl)
      && t1.log == [Return("k", 2, account, 1 + MAX_DURATION, true, true)]
      && t2.log == t1.log + [Return("k", 2, account, 1 + MAX_DURATION + later, true, false)]
      && t1.Epochs("k") == t2.Epochs("k") == [Start(account, 1, false), Start(account, 1 + MAX_DURATION, true)]
  {
    hide Step, Run, CopyOf;
    var again := StillCached(account);
    var e1, e2 := Next("k", Bounded, 1 + MAX_DURATION, again), Next("k", Bounded, 1 + MAX_DURATION + later, again);
    var binds := TwoBinds(account);
    var all := binds + [e1] + [e2];
    AfterTwoBinds(account, ttl);
    RunOneMore(binds, e1, ttl, "k");
    RunOneMore(binds + [e1], e2, ttl, "k");
    AdoptedAgain(account, Run(binds, ttl), ttl, later);
    assert all[..2] == binds && all[..3] == binds + [e1];
  }

  lemma KeptWithoutCache(events: seq<Event>, ttl: nat)
    requires Possible(NoCache, events, ttl)
    ensures PromiseKept(Run(events, ttl))
  {
    hide Run, ServedBounded;
    var t := Run(events, ttl);
    forall r | r in t.log
      ensures InTime(t, r)
    {
      BoundedAffinity(events, ttl, r.key, r.epoch);
      NoCacheNoAdoption(events, ttl, r.key);
      assert t.Epochs(r.key)[r.epoch - 1] in t.Epochs(r.key);
    }
  }

  lemma BrokenWithCache(cache: TokenCache, ttl: nat) returns (events: seq<Event>)
    requires ttl > 0 && cache != NoCache
    ensures Possible(cache, events, ttl) && !PromiseKept(Run(events, ttl))
  {
    hide Run, CopyOf;
    var e := Next("k", Bounded, 1 + MAX_DURATION, StillCached(1));
    events := TwoBinds(1) + [e] + [e];
    CacheOutlivesBound(1, ttl, 0);
    var t := Run(events, ttl);
    assert t.log[0] in t.log && !InTime(t, t.log[0]);
  }

  /** Whatever the expiry and the kind of token cache, the promise is kept in every run exactly when there is none. */
  lemma PromiseKeptIffNoCache(cache: TokenCache, ttl: nat)
    requires ttl > 0
    ensures (forall events :: Possible(cache, events, ttl) ==> PromiseKept(Run(events, ttl))) <==> cache == NoCache
  {
    if cache == NoCache {
      forall events | Possible(cache, events, ttl)
        ensures PromiseKept(Run(events, ttl))
      {
        KeptWithoutCache(events, ttl);
      }
    } else {
      var events := BrokenWithCache(cache, ttl);
    }
  }
}
