/**
 * The ring buffer of an account's most recent request outcomes (auth/store.go:607-630),
 * and its refinement of the full request history.
 */
module SuccessWindow {
  import opened Basics

  const SIZE: nat := 20

  datatype RawWindow = Window(results: seq<int>, next: nat, count: nat)

  /** The buffer as a value: 1 for a success, 0 for a failure. */
  type Window = w: RawWindow | WellFormed(w)
    witness Window(seq(SIZE, _ => 0), 0, 0)

  predicate WellFormed(w: RawWindow) {
    && |w.results| == SIZE
    && w.next < SIZE
    && w.count <= SIZE
    && forall i :: 0 <= i < SIZE ==> 0 <= w.results[i] <= 1
  }

  function Outcome(success: bool): int {
    if success then 1 else 0
  }

  function Sum(s: seq<int>): int {
    if s == [] then 0 else Sum(s[..|s| - 1]) + s[|s| - 1]
  }

  /** The rate the scheduler scores with: 1.0 before the first request. */
  function SuccessRate(w: Window): real {
    if w.count == 0 then 1.0 else Sum(w.results[..w.count]) as real / w.count as real
  }

  /** The last `SIZE` outcomes of a history, oldest first. */
  function Recent(history: seq<bool>): seq<int> {
    var n := Min(|history|, SIZE);
    seq(n, i requires 0 <= i < n => Outcome(history[|history| - n + i]))
  }

  /** The cell written `d` requests ago, when `next` is the cell to write next. */
  function CellBack(next: nat, d: nat): nat
    requires next < SIZE && 1 <= d <= SIZE
  {
    if d <= next then next - d else next + SIZE - d
  }

  /** The window a run that recorded `history` leaves. */
  ghost predicate Holds(w: Window, history: seq<bool>) {
    && w.count == Min(|history|, SIZE)
    && (w.count < SIZE ==> w.next == w.count)
    && forall d :: 1 <= d <= w.count ==> w.results[CellBack(w.next, d)] == Outcome(history[|history| - d])
  }

  /** One more outcome moves every recorded cell one request further back. */
  lemma ShiftCells(w: Window, w': Window, history: seq<bool>, success: bool)
    requires Holds(w, history)
    requires w'.results == w.results[w.next := Outcome(success)]
    requires w'.next == (if w.next == SIZE - 1 then 0 else w.next + 1)
    requires w'.count == Min(w.count + 1, SIZE)
    ensures Holds(w', history + [success])
  {
    var longer := history + [success];
    forall d | 1 <= d <= w'.count
      ensures w'.results[CellBack(w'.next, d)] == Outcome(longer[|longer| - d])
    {
      if d > 1 {
        assert CellBack(w'.next, d) == CellBack(w.next, d - 1) != w.next;
      }
    }
  }

  class ResultRing {
    var results: array<int>
    var next: nat
    var count: nat

    ghost predicate Valid()
      reads this, results
    {
      results.Length == SIZE && WellFormed(Window(results[..], next, count))
    }

    ghost function View(): Window
      reads this, results
      requires Valid()
    {
      Window(results[..], next, count)
    }

    constructor ()
      ensures Valid() && fresh(results) && Holds(View(), [])
    {
      results := new int[SIZE](_ => 0);
      next, count := 0, 0;
    }

    /** recordResultLocked: a ring that held `history` now holds `history` and this outcome. */
    method Record(success: bool, ghost history: seq<bool>)
      requires Valid() && Holds(View(), history)
      modifies this`next, this`count, results
      ensures Valid() && Holds(View(), history + [success])
    {
      if success {
        results[next] := 1;
      } else {
        results[next] := 0;
      }
      next := (next + 1) % results.Length;
      if count < results.Length {
        count := count + 1;
      }
      ShiftCells(Window(old(results[..]), old(next), old(count)), View(), history, success);
    }

    /** recentSuccessRateLocked */
    method RecentSuccessRate() returns (rate: real)
      requires Valid()
      ensures rate == SuccessRate(View())
    {
      if count == 0 {
        return 1.0;
      }
      var sum := 0;
      for i := 0 to count
        invariant sum == Sum(results[..i])
      {
        assert results[..i + 1][..i] == results[..i];
        sum := sum + results[i];
      }
      return sum as real / count as real;
    }
  }

  lemma {:induction false} SumAppend(a: seq<int>, b: seq<int>)
    ensures Sum(a + b) == Sum(a) + Sum(b)
  {
    if b == [] {
      assert a + b == a;
    } else {
      assert (a + b)[..|a + b| - 1] == a + b[..|b| - 1];
      SumAppend(a, b[..|b| - 1]);
    }
  }

  /** A full ring read from the cell to be overwritten next is the recent history in order. */
  lemma FullRingInOrder(w: Window, history: seq<bool>)
    requires Holds(w, history) && |history| >= SIZE
    ensures w.results[w.next..] + w.results[..w.next] == Recent(history)
  {
    var read := w.results[w.next..] + w.results[..w.next];
    forall i | 0 <= i < SIZE
      ensures read[i] == Recent(history)[i]
    {
      assert w.results[CellBack(w.next, SIZE - i)] == Outcome(history[|history| - SIZE + i]);
    }
  }

  lemma Rotated(cells: seq<int>, n: nat)
    requires n <= |cells|
    ensures multiset(cells[n..] + cells[..n]) == multiset(cells) && Sum(cells[n..] + cells[..n]) == Sum(cells)
  {
    var front, back := cells[..n], cells[n..];
    assert cells == front + back;
    SumAppend(front, back);
    SumAppend(back, front);
  }

  /** The recorded cells hold exactly the last min(n, SIZE) outcomes. */
  lemma RecordedCells(w: Window, history: seq<bool>)
    requires Holds(w, history)
    ensures multiset(w.results[..w.count]) == multiset(Recent(history))
    ensures Sum(w.results[..w.count]) == Sum(Recent(history))
  {
    if |history| < SIZE {
      forall i | 0 <= i < w.count
        ensures w.results[i] == Recent(history)[i]
      {
        assert w.results[CellBack(w.next, w.count - i)] == Outcome(history[i]);
      }
      assert w.results[..w.count] == Recent(history);
    } else {
      FullRingInOrder(w, history);
      Rotated(w.results, w.next);
      assert w.results[..w.count] == w.results;
    }
  }

  function Successes(history: seq<bool>): nat {
    if history == [] then 0 else Successes(history[..|history| - 1]) + Outcome(history[|history| - 1])
  }

  lemma {:induction false} SumCountsSuccesses(outcomes: seq<int>, recent: seq<bool>)
    requires |outcomes| == |recent|
    requires forall i :: 0 <= i < |recent| ==> outcomes[i] == Outcome(recent[i])
    ensures Sum(outcomes) == Successes(recent) <= |recent|
  {
    if recent != [] {
      SumCountsSuccesses(outcomes[..|outcomes| - 1], recent[..|recent| - 1]);
    }
  }

  lemma WindowCountsSuccesses(w: Window, history: seq<bool>)
    requires Holds(w, history)
    ensures Sum(w.results[..w.count]) == Successes(history[|history| - w.count..]) <= w.count
  {
    RecordedCells(w, history);
    SumCountsSuccesses(Recent(history), history[|history| - w.count..]);
  }

  /** The rate is the fraction of successes among the last min(n, SIZE) requests, 1.0 when there were none. */
  lemma RateIsRecentFraction(w: Window, history: seq<bool>)
    requires Holds(w, history)
    ensures history == [] ==> SuccessRate(w) == 1.0
    ensures history != [] ==>
      var n := Min(|history|, SIZE);
      SuccessRate(w) == Successes(history[|history| - n..]) as real / n as real
  {
    WindowCountsSuccesses(w, history);
  }

  lemma {:induction false} SumBounds(outcomes: seq<int>)
    requires forall i :: 0 <= i < |outcomes| ==> 0 <= outcomes[i] <= 1
    ensures 0 <= Sum(outcomes) <= |outcomes|
  {
    if outcomes != [] {
      SumBounds(outcomes[..|outcomes| - 1]);
    }
  }

  lemma FractionBounds(part: real, whole: real)
    requires 0.0 <= part <= whole && whole > 0.0
    ensures 0.0 <= part / whole <= 1.0
  {
    var q := part / whole;
    assert q * whole == part;
  }

  lemma RateBounds(w: Window)
    ensures 0.0 <= SuccessRate(w) <= 1.0
  {
    SumBounds(w.results[..w.count]);
    if w.count > 0 {
      FractionBounds(Sum(w.results[..w.count]) as real, w.count as real);
    }
  }
}
