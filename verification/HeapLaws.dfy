/**
 * The ordering of the refresh queue (auth/refresh_scheduler.go:79-88) and the steps of Go's
 * container/heap on it, on sequences of keys.
 */
module HeapLaws {
  import opened Basics

  datatype Key = Key(priority: int, scheduledAt: Time)

  /** Higher priority first, then the earlier time. */
  predicate Less(a: Key, b: Key) {
    if a.priority != b.priority then a.priority > b.priority else a.scheduledAt < b.scheduledAt
  }

  function Parent(i: nat): nat
    requires i > 0
  {
    (i - 1) / 2
  }

  ghost predicate EdgeOK(k: seq<Key>, c: nat)
    requires 0 < c < |k|
  {
    !Less(k[c], k[Parent(c)])
  }

  ghost predicate Heap(k: seq<Key>) {
    forall c :: 0 < c < |k| ==> EdgeOK(k, c)
  }

  /** The children of `j` are in order with its parent, so that moving `j` keeps them in order. */
  ghost predicate GrandOK(k: seq<Key>, j: nat)
    requires j < |k|
  {
    j > 0 ==> forall c :: 0 < c < |k| && Parent(c) == j ==> !Less(k[c], k[Parent(j)])
  }

  /** A heap but for the edge above `j`. */
  ghost predicate UpHole(k: seq<Key>, j: nat) {
    && j < |k| && GrandOK(k, j)
    && forall c :: 0 < c < |k| && c != j ==> EdgeOK(k, c)
  }

  /** A heap but for the edges below `i` and, while `i` is where the sift began, the one above it. */
  ghost predicate DownHole(k: seq<Key>, i: nat, start: nat) {
    && i < |k| && GrandOK(k, i)
    && forall c :: 0 < c < |k| && Parent(c) != i && (c != i || i != start) ==> EdgeOK(k, c)
  }

  function Swapped<T>(s: seq<T>, i: nat, j: nat): seq<T>
    requires i < |s| && j < |s|
  {
    s[i := s[j]][j := s[i]]
  }

  lemma SwapKeepsElements<T>(s: seq<T>, i: nat, j: nat)
    requires i < |s| && j < |s|
    ensures multiset(Swapped(s, i, j)) == multiset(s)
    ensures forall x :: x in Swapped(s, i, j) <==> x in s
  {
    var r := Swapped(s, i, j);
    forall x | x in s
      ensures x in r
    {
      var k :| 0 <= k < |s| && s[k] == x;
      assert r[if k == i then j else if k == j then i else k] == x;
    }
  }

  lemma LessIsStrictWeak(a: Key, b: Key, c: Key)
    ensures !(Less(a, b) && Less(b, a))
    ensures !Less(b, a) && !Less(c, b) ==> !Less(c, a)
    ensures Less(a, b) && !Less(c, b) ==> Less(a, c)
  {
  }

  lemma UpStep(k: seq<Key>, j: nat)
    requires UpHole(k, j) && j > 0 && Less(k[j], k[Parent(j)])
    ensures UpHole(Swapped(k, Parent(j), j), Parent(j))
  {
    var p := Parent(j);
    var s := Swapped(k, p, j);
    forall c | 0 < c < |s| && c != p
      ensures EdgeOK(s, c)
    {
      assert c != j ==> EdgeOK(k, c);
    }
    if p > 0 {
      assert EdgeOK(k, p);
      forall c | 0 < c < |s| && Parent(c) == p
        ensures !Less(s[c], s[Parent(p)])
      {
        assert c != j ==> EdgeOK(k, c);
      }
    }
  }

  lemma HoleInside(k: seq<Key>, j: nat)
    requires UpHole(k, j)
    ensures j < |k|
  {
  }

  lemma UpDone(k: seq<Key>, j: nat)
    requires UpHole(k, j) && (j == 0 || !Less(k[j], k[Parent(j)]))
    ensures Heap(k)
  {
  }

  /** The child container/heap compares with: the right one only when it comes first. */
  function FirstChild(k: seq<Key>, i: nat): nat
    requires 2 * i + 1 < |k|
  {
    if 2 * i + 2 < |k| && Less(k[2 * i + 2], k[2 * i + 1]) then 2 * i + 2 else 2 * i + 1
  }

  lemma DownStep(k: seq<Key>, i: nat, start: nat)
    requires start <= i && DownHole(k, i, start) && 2 * i + 1 < |k| && Less(k[FirstChild(k, i)], k[i])
    ensures DownHole(Swapped(k, i, FirstChild(k, i)), FirstChild(k, i), start)
  {
    var j := FirstChild(k, i);
    var s := Swapped(k, i, j);
    forall c | 0 < c < |s| && Parent(c) != j
      ensures EdgeOK(s, c)
    {
      if c == i {
        assert !Less(k[j], k[Parent(i)]);
      } else if Parent(c) == i {
        assert c == 2 * i + 1 || c == 2 * i + 2;
      } else {
        assert EdgeOK(k, c);
      }
    }
    forall c | 0 < c < |s| && Parent(c) == j
      ensures !Less(s[c], s[Parent(j)])
    {
      assert EdgeOK(k, c);
    }
  }

  lemma DownDone(k: seq<Key>, i: nat, start: nat)
    requires DownHole(k, i, start) && (2 * i + 1 >= |k| || !Less(k[FirstChild(k, i)], k[i]))
    ensures i == start ==> UpHole(k, i)
    ensures i != start ==> Heap(k)
  {
    forall c | 0 < c < |k| && Parent(c) == i
      ensures EdgeOK(k, c)
    {
      assert c == 2 * i + 1 || c == 2 * i + 2;
    }
  }

  /** Changing one key of a heap leaves a hole there, ready for a sift either way. */
  lemma RekeyLeavesHole(k: seq<Key>, i: nat, key: Key)
    requires Heap(k) && i < |k|
    ensures DownHole(k[i := key], i, i)
  {
    var r := k[i := key];
    forall c | 0 < c < |r| && Parent(c) != i && c != i
      ensures EdgeOK(r, c)
    {
      assert EdgeOK(k, c);
    }
    if i > 0 {
      forall c | 0 < c < |r| && Parent(c) == i
        ensures !Less(r[c], r[Parent(i)])
      {
        assert EdgeOK(k, c) && EdgeOK(k, i);
      }
    }
  }

  lemma PrefixIsHeap(k: seq<Key>, n: nat)
    requires Heap(k) && n <= |k|
    ensures Heap(k[..n])
  {
    forall c | 0 < c < n
      ensures EdgeOK(k[..n], c)
    {
      assert EdgeOK(k, c);
    }
  }

  /** No key of a heap comes before the first. */
  lemma {:induction false} RootComesFirst(k: seq<Key>, c: nat)
    requires Heap(k) && c < |k|
    ensures !Less(k[c], k[0])
  {
    if c > 0 {
      RootComesFirst(k, Parent(c));
      assert EdgeOK(k, c);
    }
  }

  lemma AppendLeavesHole(k: seq<Key>, key: Key)
    requires Heap(k)
    ensures UpHole(k + [key], |k|)
  {
    var r := k + [key];
    forall c | 0 < c < |k|
      ensures EdgeOK(r, c)
    {
      assert EdgeOK(k, c);
    }
  }
}
