/**
 * Concurrency slots under every interleaving: the compare-and-swap loop of tryAcquireAccount and Release
 * (auth/fast_scheduler.go) and of the API key limiter (proxy/apikey_concurrency.go), split at each atomic
 * operation. The two differ in the release: the limiter's runs at most once and clamps a negative counter
 * (`once`), the account's is a bare decrement.
 */
module Slots {
  import opened Basics

  /** A caller in the loop of acquire, before or after its load of the counter. */
  datatype Caller = Trying(key: int, limit: int) | Loaded(key: int, limit: int, seen: int)

  /** A slot: held, being released (flag won, not yet decremented), decremented to `left`, or done with. */
  datatype Phase = Held | Releasing | Dropped(left: int) | Done

  datatype Grant = Grant(key: int, limit: int, phase: Phase) {
    predicate Occupies() { phase == Held || phase == Releasing }
  }

  /** `extra` counts the decrements by repeated releases of one grant, which only accounts allow. */
  datatype State = State(counters: map<int, int>, callers: map<nat, Caller>, grants: map<nat, Grant>, extra: map<int, nat>) {
    function Counter(key: int): int {
      if key in counters then counters[key] else 0
    }

    function Extra(key: int): nat {
      if key in extra then extra[key] else 0
    }

    function Outstanding(key: int): set<nat> {
      set g | g in grants && grants[g].key == key && grants[g].Occupies()
    }
  }

  const INITIAL := State(map[], map[], map[], map[])

  datatype Step =
    | Enter(c: nat, key: int, limit: int)  // acquire is called with a positive limit
    | Load(c: nat)                         // current := load
    | Refuse(c: nat)                       // current >= limit: no slot
    | Lose(c: nat)                         // the swap fails, once more round the loop
    | Win(c: nat, g: nat)                  // the swap succeeds, grant g is born
    | Release(g: nat)                      // the release of g wins its flag
    | Drop(g: nat)                         // the decrement
    | Clamp(g: nat)                        // a negative counter is set to 0
    | Settle(g: nat)                       // nothing to clamp
    | Again(g: nat)                        // an account released once more for the same grant

  predicate Enabled(once: bool, s: State, step: Step) {
    match step
    case Enter(c, _, limit) => c !in s.callers && limit > 0
    case Load(c) => c in s.callers && s.callers[c].Trying?
    case Refuse(c) => c in s.callers && s.callers[c].Loaded? && s.callers[c].seen >= s.callers[c].limit
    case Lose(c) =>
      && c in s.callers && s.callers[c].Loaded? && s.callers[c].seen < s.callers[c].limit
      && s.Counter(s.callers[c].key) != s.callers[c].seen
    case Win(c, g) =>
      && c in s.callers && s.callers[c].Loaded? && s.callers[c].seen < s.callers[c].limit
      && s.Counter(s.callers[c].key) == s.callers[c].seen
      && g !in s.grants
    case Release(g) => g in s.grants && s.grants[g].phase == Held
    case Drop(g) => g in s.grants && s.grants[g].phase == Releasing
    case Clamp(g) => once && g in s.grants && s.grants[g].phase.Dropped? && s.grants[g].phase.left < 0
    case Settle(g) => g in s.grants && s.grants[g].phase.Dropped? && (once ==> s.grants[g].phase.left >= 0)
    case Again(g) => !once && g in s.grants && s.grants[g].phase == Done
  }

  function Apply(once: bool, s: State, step: Step): State
    requires Enabled(once, s, step)
  {
    match step
    case Enter(c, key, limit) => s.(callers := s.callers[c := Trying(key, limit)])
    case Load(c) =>
      var r := s.callers[c];
      s.(callers := s.callers[c := Loaded(r.key, r.limit, s.Counter(r.key))])
    case Refuse(c) => s.(callers := s.callers - {c})
    case Lose(c) => s.(callers := s.callers[c := Trying(s.callers[c].key, s.callers[c].limit)])
    case Win(c, g) =>
      var r := s.callers[c];
      State(s.counters[r.key := r.seen + 1], s.callers - {c}, s.grants[g := Grant(r.key, r.limit, Held)], s.extra)
    case Release(g) => s.(grants := s.grants[g := s.grants[g].(phase := Releasing)])
    case Drop(g) =>
      var key := s.grants[g].key;
      var left := s.Counter(key) - 1;
      s.(counters := s.counters[key := left], grants := s.grants[g := s.grants[g].(phase := Dropped(left))])
    case Clamp(g) => s.(counters := s.counters[s.grants[g].key := 0], grants := s.grants[g := s.grants[g].(phase := Done)])
    case Settle(g) => s.(grants := s.grants[g := s.grants[g].(phase := Done)])
    case Again(g) =>
      var key := s.grants[g].key;
      s.(counters := s.counters[key := s.Counter(key) - 1], extra := s.extra[key := s.Extra(key) + 1])
  }

  /** The state after a run, if every step of it is enabled in its turn. */
  function After(once: bool, steps: seq<Step>): Option<State> {
    if steps == [] then Some(INITIAL)
    else
      match After(once, steps[..|steps| - 1])
      case None => None
      case Some(s) => if Enabled(once, s, steps[|steps| - 1]) then Some(Apply(once, s, steps[|steps| - 1])) else None
  }

  lemma AfterOneMore(once: bool, steps: seq<Step>, step: Step)
    ensures After(once, steps + [step]) ==
      (match After(once, steps)
       case None => None
       case Some(s) => if Enabled(once, s, step) then Some(Apply(once, s, step)) else None)
  {
    assert (steps + [step])[..|steps|] == steps;
  }

  /** The counter is the number of slots out, less the repeated releases; the limiter has none and clamps nothing. */
  ghost predicate Counted(once: bool, s: State) {
    && (forall k :: s.Counter(k) == |s.Outstanding(k)| - s.Extra(k))
    && (once ==> forall k :: s.Extra(k) == 0)
    && (once ==> forall g :: g in s.grants && s.grants[g].phase.Dropped? ==> s.grants[g].phase.left >= 0)
  }

  /** Only a won swap and a decrement change the slots that are out on a key. */
  lemma OutstandingAfter(once: bool, s: State, step: Step, key: int)
    requires Enabled(once, s, step)
    ensures Apply(once, s, step).Outstanding(key) ==
      if step.Win? && s.callers[step.c].key == key then s.Outstanding(key) + {step.g}
      else if step.Drop? then s.Outstanding(key) - {step.g}
      else s.Outstanding(key)
  {
  }

  lemma StepCountedOn(once: bool, s: State, step: Step, key: int)
    requires Counted(once, s) && Enabled(once, s, step)
    ensures var s' := Apply(once, s, step); s'.Counter(key) == |s'.Outstanding(key)| - s'.Extra(key)
  {
    OutstandingAfter(once, s, step, key);
    if step.Drop? {
      assert s.grants[step.g].key == key <==> step.g in s.Outstanding(key);
    }
  }

  lemma StepCounted(once: bool, s: State, step: Step)
    requires Counted(once, s) && Enabled(once, s, step)
    ensures Counted(once, Apply(once, s, step))
  {
    forall k
      ensures var s' := Apply(once, s, step); s'.Counter(k) == |s'.Outstanding(k)| - s'.Extra(k)
    {
      StepCountedOn(once, s, step, k);
    }
    assert once ==> forall k :: Apply(once, s, step).Extra(k) == s.Extra(k);
    if step.Drop? && once {
      assert step.g in s.Outstanding(s.grants[step.g].key);
    }
  }

  /**
   * Conservation: in every run of every interleaving the counter is exactly the number of slots that are
   * out, less the repeated releases. For the limiter these are never any.
   */
  lemma {:induction false} CounterIsOutstanding(once: bool, steps: seq<Step>)
    requires After(once, steps).Some?
    ensures Counted(once, After(once, steps).value)
    decreases |steps|
  {
    if steps == [] {
      assert forall k :: INITIAL.Outstanding(k) == {};
    } else {
      CounterIsOutstanding(once, steps[..|steps| - 1]);
      StepCounted(once, After(once, steps[..|steps| - 1]).value, steps[|steps| - 1]);
    }
  }

  /** An account's counter tells the truth exactly when no grant on it was released twice. */
  lemma TruthfulIffReleasedOnce(once: bool, steps: seq<Step>, key: int)
    requires After(once, steps).Some?
    ensures var s := After(once, steps).value;
      s.Counter(key) == |s.Outstanding(key)| <==> s.Extra(key) == 0
  {
    CounterIsOutstanding(once, steps);
  }

  /** The limiter's clamp is dead code. */
  lemma ClampNeverRuns(steps: seq<Step>, g: nat)
    ensures After(true, steps).Some? ==> !Enabled(true, After(true, steps).value, Clamp(g))
  {
    if After(true, steps).Some? {
      CounterIsOutstanding(true, steps);
    }
  }

  /** A grant never makes more slots than its own limit, whatever the limits of the others. */
  lemma GrantWithinOwnLimit(once: bool, steps: seq<Step>, c: nat, g: nat)
    requires After(once, steps + [Win(c, g)]).Some?
    ensures var s := After(once, steps + [Win(c, g)]).value;
      g in s.grants && |s.Outstanding(s.grants[g].key)| <= s.grants[g].limit + s.Extra(s.grants[g].key)
  {
    AfterOneMore(once, steps, Win(c, g));
    CounterIsOutstanding(once, steps + [Win(c, g)]);
  }

  /** After its load a caller is refused exactly when at that moment the slots out had reached its limit. */
  lemma RefusedIffFull(once: bool, steps: seq<Step>, c: nat)
    requires After(once, steps + [Load(c)]).Some?
    ensures var s := After(once, steps + [Load(c)]).value;
      Enabled(once, s, Refuse(c)) <==> |s.Outstanding(s.callers[c].key)| - s.Extra(s.callers[c].key) >= s.callers[c].limit
  {
    AfterOneMore(once, steps, Load(c));
    CounterIsOutstanding(once, steps + [Load(c)]);
  }

  /** No limit on the key passes `most`, and neither do the slots out, but for repeated releases. */
  ghost predicate Bounded(s: State, key: int, most: int) {
    && |s.Outstanding(key)| <= most + s.Extra(key)
    && forall c :: c in s.callers && s.callers[c].key == key ==> s.callers[c].limit <= most
  }

  lemma StepBounded(once: bool, s: State, step: Step, key: int, most: int)
    requires Counted(once, s) && Bounded(s, key, most) && Enabled(once, s, step)
    requires step.Enter? && step.key == key ==> step.limit <= most
    ensures Bounded(Apply(once, s, step), key, most)
  {
    OutstandingAfter(once, s, step, key);
    StepCountedOn(once, s, step, key);
  }

  /** The limits asked for on a key in a run. */
  ghost predicate Asked(steps: seq<Step>, key: int, most: int) {
    forall i :: 0 <= i < |steps| && steps[i].Enter? && steps[i].key == key ==> steps[i].limit <= most
  }

  /** With one bound on all the limits of a key, the slots out never pass it, but for repeated releases. */
  lemma {:induction false} NeverMoreThanAsked(once: bool, steps: seq<Step>, key: int, most: nat)
    requires After(once, steps).Some? && Asked(steps, key, most)
    ensures Bounded(After(once, steps).value, key, most)
    decreases |steps|
  {
    if steps == [] {
      assert INITIAL.Outstanding(key) == {};
    } else {
      hide Bounded, Counted, Enabled, Apply;
      var before := steps[..|steps| - 1];
      assert forall i :: 0 <= i < |before| ==> before[i] == steps[i];
      NeverMoreThanAsked(once, before, key, most);
      CounterIsOutstanding(once, before);
      StepBounded(once, After(once, before).value, steps[|steps| - 1], key, most);
    }
  }

  predicate ChangesCounter(s: State, step: Step, key: int) {
    || (step.Win? && step.c in s.callers && s.callers[step.c].key == key)
    || ((step.Drop? || step.Clamp? || step.Again?) && step.g in s.grants && s.grants[step.g].key == key)
  }

  ghost predicate ChangedAt(once: bool, before: seq<Step>, mid: seq<Step>, i: nat, key: int)
    requires i < |mid|
  {
    var s := After(once, before + mid[..i]);
    s.Some? && ChangesCounter(s.value, mid[i], key)
  }

  predicate StepOf(step: Step, c: nat) {
    (step.Enter? || step.Load? || step.Refuse? || step.Lose? || step.Win?) && step.c == c
  }

  lemma StepByOthers(once: bool, s: State, step: Step, c: nat)
    requires c in s.callers && Enabled(once, s, step) && !StepOf(step, c)
    ensures var s' := Apply(once, s, step); c in s'.callers && s'.callers[c] == s.callers[c]
    ensures var k := s.callers[c].key; Apply(once, s, step).Counter(k) != s.Counter(k) ==> ChangesCounter(s, step, k)
  {
  }

  /**
   * Progress of the loop: a caller's swap only fails because, since its load, another caller got a slot of
   * the same counter or one was given back.
   */
  lemma {:induction false} LosesOnlyToProgress(once: bool, steps: seq<Step>, mid: seq<Step>, c: nat)
    requires After(once, steps + [Load(c)] + mid).Some?
    requires forall i :: 0 <= i < |mid| ==> !StepOf(mid[i], c)
    ensures var s := After(once, steps + [Load(c)] + mid).value;
      && c in s.callers && s.callers[c].Loaded?
      && (s.Counter(s.callers[c].key) != s.callers[c].seen ==>
            exists i :: 0 <= i < |mid| && ChangedAt(once, steps + [Load(c)], mid, i, s.callers[c].key))
    decreases |mid|
  {
    var loaded := steps + [Load(c)];
    if mid == [] {
      assert loaded + mid == loaded;
      AfterOneMore(once, steps, Load(c));
    } else {
      hide Enabled, Apply, ChangesCounter, StepOf;
      var n := |mid| - 1;
      assert loaded + mid == (loaded + mid[..n]) + [mid[n]];
      AfterOneMore(once, loaded + mid[..n], mid[n]);
      LosesOnlyToProgress(once, steps, mid[..n], c);
      var s := After(once, loaded + mid[..n]).value;
      StepByOthers(once, s, mid[n], c);
      var key := s.callers[c].key;
      if i :| 0 <= i < n && ChangedAt(once, loaded, mid[..n], i, key) {
        assert mid[..n][..i] == mid[..i];
        assert ChangedAt(once, loaded, mid, i, key);
      } else if s.Counter(key) != After(once, loaded + mid).value.Counter(key) {
        assert ChangedAt(once, loaded, mid, n, key);
      }
    }
  }
}
