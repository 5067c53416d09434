/**
 * The token refresh scheduler (auth/refresh_scheduler.go): a priority queue on container/heap with
 * back-pointers, the task table, the bounded channel the due tasks move into, and the way from there through
 * the semaphore into a goroutine and out of it again. The loops are split where they let go of a lock, and
 * what they have in hand there is part of the state.
 */
module RefreshScheduler {
  import opened Basics
  import opened HeapLaws

  datatype RefreshState = Pending | Running | Success | Failed | Retrying

  /** What the dispatch loop will do with the front of the queue, having looked at it. */
  datatype Verdict = Undecided | ToDrop | ToSend

  const IMMEDIATE_PRIORITY: int := 1000
  const DEFAULT_CONCURRENCY: nat := 10

  class RefreshTask {
    const dbID: int
    var scheduledAt: Time
    var priority: int
    var attempts: nat
    var state: RefreshState
    var nextRetryAt: Time
    var heapIndex: int

    constructor (dbID: int, scheduledAt: Time, priority: int)
      ensures this.dbID == dbID && this.scheduledAt == scheduledAt && this.priority == priority
      ensures attempts == 0 && state == Pending && nextRetryAt == ZERO_TIME && heapIndex == -1
    {
      this.dbID := dbID;
      this.scheduledAt := scheduledAt;
      this.priority := priority;
      attempts, state, nextRetryAt, heapIndex := 0, Pending, ZERO_TIME, -1;
    }

    function Key(): Key
      reads this`priority, this`scheduledAt
    {
      HeapLaws.Key.Key(priority, scheduledAt)
    }

    /** A refresh has ended: a failure is retried while attempts remain and the error allows it. */
    method Record(failed: bool, retryable: bool, maxAttempts: nat, nextRetryAt: Time)
      modifies this`state, this`attempts, this`nextRetryAt
      ensures attempts == old(attempts) + (if failed then 1 else 0)
      ensures state == if !failed then Success else if attempts < maxAttempts && retryable then Retrying else Failed
      ensures this.nextRetryAt == if state == Retrying then nextRetryAt else old(this.nextRetryAt)
    {
      if failed {
        state := Failed;
        attempts := attempts + 1;
        if attempts < maxAttempts && retryable {
          state := Retrying;
          this.nextRetryAt := nextRetryAt;
        }
      } else {
        state := Success;
      }
    }
  }

  function Keys(pq: seq<RefreshTask>): seq<Key>
    reads pq
  {
    seq(|pq|, (i: int) requires 0 <= i < |pq| reads pq => pq[i].Key())
  }

  /** The tasks in the queue know their places, so none is in it twice; the others have none. */
  ghost predicate Placed(pq: seq<RefreshTask>, known: set<RefreshTask>)
    reads known`heapIndex
  {
    && (forall t :: t in pq ==> t in known)
    && (forall i :: 0 <= i < |pq| ==> pq[i].heapIndex == i)
    && (forall t :: t in known && t !in pq ==> t.heapIndex == -1)
  }

  ghost predicate Foremost(task: RefreshTask, left: seq<RefreshTask>)
    reads task`priority, task`scheduledAt, left`priority, left`scheduledAt
  {
    forall t :: t in left ==> !Less(t.Key(), task.Key())
  }

  /** No task of the queue comes before the one in front. */
  lemma FrontComesFirst(pq: seq<RefreshTask>)
    requires pq != [] && Heap(Keys(pq))
    ensures Foremost(pq[0], pq)
  {
    forall t | t in pq
      ensures !Less(t.Key(), pq[0].Key())
    {
      var i :| 0 <= i < |pq| && pq[i] == t;
      RootComesFirst(Keys(pq), i);
    }
  }

  /**
   * A run of the dispatch loop so far: the tasks the queue had are still there, were sent, or were dropped;
   * the right ones were sent, in order, and none that is left comes before one of them.
   */
  ghost predicate Dispatched(had: multiset<RefreshTask>, left: seq<RefreshTask>, sent: seq<RefreshTask>, dropped: multiset<RefreshTask>,
                             now: Time)
    reads sent`state, sent`priority, sent`scheduledAt, left`priority, left`scheduledAt, dropped`state, dropped`scheduledAt
  {
    && had == multiset(left) + multiset(sent) + dropped
    && (forall t :: t in sent ==> t.state == Pending && t.scheduledAt <= now)
    && (forall t :: t in dropped ==> t.state != Pending && t.scheduledAt <= now)
    && (forall i, j :: 0 <= i < j < |sent| ==> !Less(sent[j].Key(), sent[i].Key()))
    && (forall s, t :: s in sent && t in left ==> !Less(t.Key(), s.Key()))
  }

  lemma NoneYet(left: seq<RefreshTask>, now: Time)
    ensures Dispatched(multiset(left), left, [], multiset{}, now)
  {
  }

  lemma LeftFrom(was: seq<RefreshTask>, task: RefreshTask, now: seq<RefreshTask>)
    requires multiset(now) == multiset(was) - multiset{task}
    ensures forall t :: t in now ==> t in was
  {
    forall t | t in now
      ensures t in was
    {
      assert t in multiset(now);
    }
  }

  lemma FewerLeft(was: seq<RefreshTask>, task: RefreshTask, left: seq<RefreshTask>)
    requires task in was && multiset(left) == multiset(was) - multiset{task}
    ensures |left| < |was| && multiset(was) == multiset(left) + multiset{task}
    ensures forall t :: t in left ==> t in was
  {
    assert task in multiset(was);
    assert |multiset(was)| == |multiset(left)| + 1;
    LeftFrom(was, task, left);
  }

  /** Taking a due front out goes on with the run, whether it is sent or dropped. */
  lemma OneMore(had: multiset<RefreshTask>, was: seq<RefreshTask>, sent: seq<RefreshTask>, dropped: multiset<RefreshTask>, now: Time,
                left: seq<RefreshTask>)
    requires Dispatched(had, was, sent, dropped, now)
    requires was != [] && was[0].scheduledAt <= now && Foremost(was[0], was)
    requires multiset(left) == multiset(was) - multiset{was[0]}
    ensures |left| < |was|
    ensures if was[0].state == Pending then Dispatched(had, left, sent + [was[0]], dropped, now)
            else Dispatched(had, left, sent, dropped + multiset{was[0]}, now)
  {
    hide Less;
    FewerLeft(was, was[0], left);
    assert multiset(sent + [was[0]]) == multiset(sent) + multiset{was[0]};
  }

  /** What is left and what was sent was queued before, and of what was queued every pending task. */
  lemma OnlyFromQueue(had: seq<RefreshTask>, left: seq<RefreshTask>, sent: seq<RefreshTask>, dropped: multiset<RefreshTask>, now: Time)
    requires Dispatched(multiset(had), left, sent, dropped, now)
    ensures forall t :: t in left || t in sent ==> t in had
    ensures forall t :: t in had && t.state == Pending ==> t in left || t in sent
  {
    hide Less;
    forall t | t in left || t in sent
      ensures t in had
    {
      assert t in multiset(left) || t in multiset(sent);
      assert t in multiset(had);
    }
    forall t | t in had && t.state == Pending
      ensures t in left || t in sent
    {
      assert t in multiset(had);
      assert t in multiset(left) || t in multiset(sent) || t in dropped;
    }
  }

  lemma SameLeft(had: multiset<RefreshTask>, was: seq<RefreshTask>, sent: seq<RefreshTask>, dropped: multiset<RefreshTask>, now: Time,
                 left: seq<RefreshTask>)
    requires Dispatched(had, was, sent, dropped, now) && multiset(left) == multiset(was)
    ensures Dispatched(had, left, sent, dropped, now)
  {
    forall t | t in left
      ensures t in was
    {
      assert t in multiset(left);
    }
  }

  /** A due task behind a front that is not due has strictly lower priority. */
  lemma OnlyOutranked(pq: seq<RefreshTask>, now: Time)
    requires pq != [] && Heap(Keys(pq)) && pq[0].scheduledAt > now
    ensures forall t :: t in pq && t.scheduledAt <= now ==> t.priority < pq[0].priority
  {
    FrontComesFirst(pq);
  }

  lemma EmptyOrNot(s: set<int>)
    ensures s == {} || exists x :: x in s
  {
    if forall x :: x !in s {
      assert s == {};
    }
  }

  lemma SameMembers(was: seq<RefreshTask>, task: RefreshTask, now: seq<RefreshTask>)
    requires multiset(now) == if task in was then multiset(was) else multiset(was) + multiset{task}
    ensures forall t :: t != task ==> (t in now <==> t in was)
  {
    assert forall t :: t in now <==> t in multiset(now);
    assert forall t :: t in was <==> t in multiset(was);
  }

  /** Taken out and put back. */
  lemma BackAgain(was: seq<RefreshTask>, task: RefreshTask, rest: seq<RefreshTask>, now: seq<RefreshTask>)
    requires task in was && task !in rest && multiset(rest) == multiset(was) - multiset{task}
    requires multiset(now) == if task in rest then multiset(rest) else multiset(rest) + multiset{task}
    ensures multiset(now) == multiset(was)
  {
    assert task in multiset(was);
  }

  lemma OthersLeft(was: seq<RefreshTask>, task: RefreshTask, now: seq<RefreshTask>)
    requires multiset(now) == multiset(was) - multiset{task} && task !in now
    ensures forall t :: t in now <==> t in was && t != task
  {
    assert forall t :: t in now <==> t in multiset(now);
    assert forall t :: t in was <==> t in multiset(was);
  }

  class Scheduler {
    var pq: seq<RefreshTask>
    var tasks: map<int, RefreshTask>
    var queue: seq<RefreshTask>
    const capacity: nat
    const maxConcurrency: nat
    /** The dispatch loop's verdict, and the task it has popped and not yet sent. */
    var verdict: Verdict
    var popped: RefreshTask?
    /** The due retries the retry loop has collected and not yet queued. */
    var batch: seq<RefreshTask>
    /** The task the channel's reader holds while it waits for the semaphore. */
    var hand: RefreshTask?
    /** One entry for each goroutine that has a slot: before it starts its task, while it runs it, and at its end. */
    var admitted: multiset<RefreshTask>
    var running: multiset<RefreshTask>
    var ending: multiset<RefreshTask>
    ghost var known: set<RefreshTask>

    constructor (capacity: nat, maxConcurrency: int)
      ensures Valid() && pq == [] && tasks == map[] && queue == [] && known == {}
      ensures verdict == Undecided && popped == null && batch == [] && hand == null && SlotsTaken() == 0
      ensures this.capacity == capacity && (maxConcurrency > 0 ==> this.maxConcurrency == maxConcurrency)
    {
      this.capacity := capacity;
      this.maxConcurrency := if maxConcurrency <= 0 then DEFAULT_CONCURRENCY else maxConcurrency;
      pq, tasks, queue, known := [], map[], [], {};
      verdict, popped, batch := Undecided, null, [];
      hand, admitted, running, ending := null, multiset{}, multiset{}, multiset{};
    }

    /** What the semaphore's channel holds. */
    function SlotsTaken(): nat
      reads this`admitted, this`running, this`ending
    {
      |admitted| + |running| + |ending|
    }

    /** The loops and the goroutines have known tasks in hand; there are no more goroutines than slots. */
    ghost predicate Engaged()
      reads this`popped, this`batch, this`hand, this`admitted, this`running, this`ending, this`known
    {
      && (popped != null ==> popped in known)
      && (forall t :: t in batch ==> t in known)
      && (hand != null ==> hand in known)
      && (forall t :: t in admitted + running + ending ==> t in known)
      && SlotsTaken() <= maxConcurrency && maxConcurrency > 0
    }

    /** `known` has every task ever made; everything else holds some of them. */
    ghost predicate Linked()
      reads this, known
    {
      && Placed(pq, known)
      && (forall t :: t in queue ==> t in known)
      && (forall id :: id in tasks ==> tasks[id] in known && tasks[id].dbID == id)
      && |queue| <= capacity
      && Engaged()
    }

    ghost predicate Valid()
      reads this, known
    {
      Linked() && Heap(Keys(pq))
    }

    ghost predicate InTable(t: RefreshTask)
      reads this`tasks
    {
      t.dbID in tasks && tasks[t.dbID] == t
    }

    /**
     * Out of the queue and not yet started: popped to be sent, in the channel, in its reader's hand, or in a
     * goroutine that is about to start it.
     */
    ghost predicate OnItsWay(t: RefreshTask)
      reads this`popped, this`queue, this`hand, this`admitted
    {
      t == popped || t in queue || t == hand || t in admitted
    }

    /** On its way, or a retry about to be queued: no look at the table or the queue tells. */
    ghost predicate Coming(t: RefreshTask)
      reads this`batch, this`popped, this`queue, this`hand, this`admitted
    {
      OnItsWay(t) || t in batch
    }

    /** Queued and on its way at once: the task will be sent a second time. */
    ghost predicate InBoth(t: RefreshTask)
      reads this`pq, this`popped, this`queue, this`hand, this`admitted
    {
      t in pq && OnItsWay(t)
    }

    /** Nothing of the scheduler will ever start the task again. */
    ghost predicate Gone(t: RefreshTask)
      reads this`known, this`pq, this`tasks, this`batch, this`popped, this`queue, this`hand, this`admitted
    {
      t in known && t !in pq && !Coming(t) && !InTable(t)
    }

    /** Pending in the table, and nowhere else. */
    ghost predicate Stranded(t: RefreshTask)
      reads this`pq, this`tasks, this`batch, this`popped, this`queue, this`hand, this`admitted, t`state
    {
      InTable(t) && t.state == Pending && t !in pq && !Coming(t)
    }

    /** What a step keeps: a task that is gone does not come back, and none is stranded but perhaps `but`. */
    twostate predicate KeepsTrack(new but: RefreshTask?)
      reads this, known
    {
      && (forall t :: t in old(known) && old(Gone(t)) ==> Gone(t))
      && (forall t :: t in known && t != but && Stranded(t) ==> t in old(known) && old(Stranded(t)))
    }

    // ----- container/heap on the queue -----

    method Swap(i: nat, j: nat)
      requires i < |pq| && j < |pq| && Placed(pq, known)
      modifies this`pq, known`heapIndex
      ensures pq == Swapped(old(pq), i, j) && Placed(pq, known) && multiset(pq) == multiset(old(pq))
      ensures Keys(pq) == Swapped(old(Keys(pq)), i, j)
    {
      SwapKeepsElements(pq, i, j);
      pq := pq[i := pq[j]][j := pq[i]];
      pq[i].heapIndex := i;
      pq[j].heapIndex := j;
    }

    /** up: the first `n` places are in heap order but for the hole at `start`. */
    method Up(start: nat, ghost n: nat)
      requires Placed(pq, known)
      requires n <= |pq| && UpHole(Keys(pq)[..n], start)
      modifies this`pq, known`heapIndex
      ensures Placed(pq, known) && multiset(pq) == multiset(old(pq)) && |pq| == |old(pq)|
      ensures Heap(Keys(pq)[..n]) && pq[n..] == old(pq[n..])
    {
      hide UpHole, Heap, Placed;
      var j: nat := start;
      HoleInside(Keys(pq)[..n], start);
      while true
        invariant |pq| == |old(pq)| && Placed(pq, known) && multiset(pq) == multiset(old(pq))
        invariant j < n && UpHole(Keys(pq)[..n], j) && pq[n..] == old(pq[n..])
        decreases j
      {
        ghost var k := Keys(pq)[..n];
        if j == 0 || !Less(pq[j].Key(), pq[(j - 1) / 2].Key()) {
          UpDone(k, j);
          return;
        }
        UpStep(k, j);
        Swap((j - 1) / 2, j);
        assert Keys(pq)[..n] == Swapped(k, Parent(j), j);
        j := (j - 1) / 2;
      }
    }

    /** down over the first `n` places; reports whether anything moved. */
    method Down(start: nat, n: nat) returns (moved: bool)
      requires Placed(pq, known) && start <= n <= |pq|
      requires start < n ==> DownHole(Keys(pq)[..n], start, start)
      modifies this`pq, known`heapIndex
      ensures Placed(pq, known) && multiset(pq) == multiset(old(pq)) && |pq| == |old(pq)| && pq[n..] == old(pq[n..])
      ensures moved ==> Heap(Keys(pq)[..n])
      ensures !moved ==> pq == old(pq) && (start < n ==> UpHole(Keys(pq)[..n], start))
    {
      hide UpHole, DownHole, Heap, Placed;
      var i: nat := start;
      while 2 * i + 1 < n
        invariant start <= i <= n && (start < n ==> i < n)
        invariant |pq| == |old(pq)| && Placed(pq, known) && multiset(pq) == multiset(old(pq)) && pq[n..] == old(pq[n..])
        invariant start < n ==> DownHole(Keys(pq)[..n], i, start)
        invariant i == start ==> pq == old(pq)
      {
        ghost var k := Keys(pq)[..n];
        var j := 2 * i + 1;
        if j + 1 < n && Less(pq[j + 1].Key(), pq[j].Key()) {
          j := j + 1;
        }
        assert j == FirstChild(k, i);
        if !Less(pq[j].Key(), pq[i].Key()) {
          break;
        }
        DownStep(k, i, start);
        Swap(i, j);
        assert Keys(pq)[..n] == Swapped(k, i, j);
        i := j;
      }
      if start < n {
        DownDone(Keys(pq)[..n], i, start);
      }
      return i > start;
    }

    /** Down and, if nothing moved, up: the key at `i` may have changed either way. */
    method Sift(i: nat, n: nat)
      requires Placed(pq, known) && i < n <= |pq| && DownHole(Keys(pq)[..n], i, i)
      modifies this`pq, known`heapIndex
      ensures Placed(pq, known) && multiset(pq) == multiset(old(pq)) && |pq| == |old(pq)| && pq[n..] == old(pq[n..])
      ensures Heap(Keys(pq)[..n])
    {
      hide UpHole, DownHole, Heap, Placed, Less;
      var moved := Down(i, n);
      if !moved {
        Up(i, n);
      }
    }

    /** heap.Fix: the key at `i` may have changed either way. */
    method HeapFix(i: nat)
      requires Placed(pq, known) && i < |pq| && DownHole(Keys(pq), i, i)
      modifies this`pq, known`heapIndex
      ensures Placed(pq, known) && multiset(pq) == multiset(old(pq)) && Heap(Keys(pq))
    {
      hide UpHole, DownHole, Heap, Placed;
      assert Keys(pq)[..|pq|] == Keys(pq);
      Sift(i, |pq|);
      assert Keys(pq)[..|pq|] == Keys(pq);
    }

    method HeapPush(task: RefreshTask)
      requires Placed(pq, known) && Heap(Keys(pq)) && task in known && task !in pq
      modifies this`pq, known`heapIndex
      ensures Placed(pq, known) && multiset(pq) == multiset(old(pq)) + multiset{task} && Heap(Keys(pq))
    {
      hide UpHole, DownHole, Heap;
      AppendLeavesHole(Keys(pq), task.Key());
      ghost var k := Keys(pq);
      task.heapIndex := |pq|;
      pq := pq + [task];
      assert Keys(pq)[..|pq|] == Keys(pq) == k + [task.Key()];
      Up(|pq| - 1, |pq|);
      assert Keys(pq)[..|pq|] == Keys(pq);
    }

    /** The queue's own Pop: the last place is given up. */
    method PopLast() returns (task: RefreshTask)
      requires Placed(pq, known) && pq != [] && Heap(Keys(pq)[..|pq| - 1])
      modifies this`pq, known`heapIndex
      ensures task == old(pq[|pq| - 1]) && pq == old(pq[..|pq| - 1]) && task !in pq
      ensures Placed(pq, known) && multiset(pq) == multiset(old(pq)) - multiset{task} && Heap(Keys(pq))
    {
      hide Heap;
      ghost var k := Keys(pq);
      assert pq == pq[..|pq| - 1] + [pq[|pq| - 1]];
      var n := |pq|;
      task := pq[n - 1];
      task.heapIndex := -1;
      pq := pq[..n - 1];
      assert Keys(pq) == k[..n - 1];
    }

    /** heap.Remove: the task at `i` goes, whatever moves. */
    method HeapRemove(i: nat) returns (task: RefreshTask)
      requires Placed(pq, known) && Heap(Keys(pq)) && i < |pq|
      modifies this`pq, known`heapIndex
      ensures task == old(pq[i]) && task !in pq
      ensures Placed(pq, known) && multiset(pq) == multiset(old(pq)) - multiset{task} && Heap(Keys(pq))
    {
      hide UpHole, DownHole, Heap, Placed, Less;
      var n := |pq| - 1;
      ghost var k := Keys(pq);
      PrefixIsHeap(k, n);
      if n != i {
        RekeyLeavesHole(k[..n], i, k[n]);
        Swap(i, n);
        assert Keys(pq)[..n] == k[..n][i := k[n]];
        ghost var last := pq[n..];
        Sift(i, n);
        assert pq[n..] == last && pq[n] == last[0];
      }
      task := PopLast();
    }

    /** heap.Pop: the front task goes. */
    method HeapPop() returns (task: RefreshTask)
      requires Placed(pq, known) && Heap(Keys(pq)) && pq != []
      modifies this`pq, known`heapIndex
      ensures task == old(pq[0]) && task !in pq
      ensures Placed(pq, known) && multiset(pq) == multiset(old(pq)) - multiset{task} && Heap(Keys(pq))
    {
      hide UpHole, DownHole, Heap, Placed;
      var n := |pq| - 1;
      ghost var k := Keys(pq);
      PrefixIsHeap(k, n);
      if n > 0 {
        RekeyLeavesHole(k[..n], 0, k[n]);
      }
      Swap(0, n);
      assert n > 0 ==> Keys(pq)[..n] == k[..n][0 := k[n]];
      ghost var last := pq[n..];
      var moved := Down(0, n);
      if !moved && n > 0 {
        UpDone(Keys(pq)[..n], 0);
      }
      assert pq[n..] == last && pq[n] == last[0];
      task := PopLast();
    }

    // ----- the queue's users -----

    /** All is well but for the key of one task of the queue, which may just have changed. */
    ghost predicate ValidBut(task: RefreshTask)
      reads this, known
    {
      && Linked() && task in known
      && if task in pq then 0 <= task.heapIndex < |pq| && DownHole(Keys(pq), task.heapIndex, task.heapIndex) else Heap(Keys(pq))
    }

    lemma NothingToMove(task: RefreshTask)
      requires Valid() && task in known
      ensures ValidBut(task)
    {
      hide Heap, DownHole;
      if task in pq {
        RekeyLeavesHole(Keys(pq), task.heapIndex, task.Key());
        assert Keys(pq)[task.heapIndex := task.Key()] == Keys(pq);
      }
    }

    /** pushToQueue: moves a task of the queue to its new place, or adds one from outside. */
    method PushToQueue(task: RefreshTask)
      requires ValidBut(task)
      modifies this`pq, known`heapIndex
      ensures Valid() && task in pq
      ensures multiset(pq) == if task in old(pq) then multiset(old(pq)) else multiset(old(pq)) + multiset{task}
    {
      hide Heap, DownHole;
      var index := task.heapIndex;
      if 0 <= index < |pq| {
        HeapFix(index);
      } else {
        task.heapIndex := -1;
        HeapPush(task);
      }
      assert task in multiset(pq);
    }

    /** removeFromQueue: takes out this very task, if it is there. */
    method RemoveFromQueue(task: RefreshTask)
      requires Valid() && task in known
      modifies this`pq, known`heapIndex
      ensures Valid() && task !in pq
      ensures multiset(pq) == multiset(old(pq)) - multiset{task}
    {
      hide Heap;
      var index := task.heapIndex;
      if 0 <= index < |pq| {
        var removed := HeapRemove(index);
      }
    }

    /** popFromQueue: no task left comes before the one returned. */
    method PopFromQueue() returns (task: RefreshTask?)
      requires Valid()
      modifies this`pq, known`heapIndex
      ensures Valid()
      ensures task == null <==> old(pq) == []
      ensures task == null ==> pq == []
      ensures task != null ==>
        && task == old(pq[0]) && task in known && task !in pq
        && multiset(pq) == multiset(old(pq)) - multiset{task}
        && Foremost(task, pq)
      ensures forall t :: t in pq <==> t in old(pq) && t != task
    {
      hide Heap, Less;
      if |pq| == 0 {
        return null;
      }
      FrontComesFirst(pq);
      ghost var was := pq;
      task := HeapPop();
      OthersLeft(was, task, pq);
    }

    /** Gives a known task a new key; wherever it is in the queue, a sift there will restore the heap. */
    method Rekey(task: RefreshTask, scheduledAt: Time, priority: int)
      requires Valid() && task in known
      modifies task`scheduledAt, task`priority
      ensures ValidBut(task) && task.scheduledAt == scheduledAt && task.priority == priority
    {
      hide Heap, DownHole;
      ghost var k := Keys(pq);
      if task in pq {
        RekeyLeavesHole(k, task.heapIndex, HeapLaws.Key.Key(priority, scheduledAt));
      }
      task.scheduledAt := scheduledAt;
      task.priority := priority;
      if task in pq {
        assert Keys(pq) == k[task.heapIndex := HeapLaws.Key.Key(priority, scheduledAt)];
      } else {
        assert Keys(pq) == k;
      }
    }

    /** The task is pending, with a new key, and in its place in the queue. */
    method Requeue(task: RefreshTask, scheduledAt: Time, priority: int, attempts: nat)
      requires Valid() && task in known
      modifies this`pq, known`heapIndex, task`state, task`scheduledAt, task`priority, task`attempts
      ensures Valid()
      ensures task.state == Pending && task.scheduledAt == scheduledAt && task.priority == priority && task.attempts == attempts
      ensures task in pq
      ensures multiset(pq) == if task in old(pq) then multiset(old(pq)) else multiset(old(pq)) + multiset{task}
      ensures forall t :: t != task ==> (t in pq <==> t in old(pq))
    {
      hide Heap, DownHole, Engaged;
      ghost var k, was := Keys(pq), pq;
      task.state := Pending;
      task.attempts := attempts;
      assert Keys(pq) == k;
      Rekey(task, scheduledAt, priority);
      PushToQueue(task);
      SameMembers(was, task, pq);
    }

    /** A new task in the table, in no queue yet. */
    method Enlist(dbID: int, scheduledAt: Time, priority: int) returns (task: RefreshTask)
      requires Valid()
      modifies this`tasks, this`known
      ensures Valid() && known == old(known) + {task} && fresh(task) && task !in pq && !Coming(task)
      ensures task.state == Pending && task.attempts == 0 && task.priority == priority && task.scheduledAt == scheduledAt
      ensures task.dbID == dbID && tasks == old(tasks)[dbID := task]
    {
      hide Heap, DownHole;
      ghost var k := Keys(pq);
      task := new RefreshTask(dbID, scheduledAt, priority);
      known := known + {task};
      tasks := tasks[dbID := task];
      assert Keys(pq) == k;
    }

    /** Schedule for an account that has no task in the table. */
    method ScheduleNew(dbID: int, scheduledAt: Time, priority: int) returns (task: RefreshTask)
      requires Valid() && dbID !in tasks
      modifies this`pq, this`tasks, this`known, known`heapIndex
      ensures Valid() && known == old(known) + {task} && fresh(task)
      ensures task.dbID == dbID && tasks == old(tasks)[dbID := task]
      ensures task.state == Pending && task.attempts == 0 && task.scheduledAt == scheduledAt && task.priority == priority
      ensures task in pq && multiset(pq) == multiset(old(pq)) + multiset{task}
      ensures forall t :: t in old(known) ==> (t in pq <==> t in old(pq))
      ensures KeepsTrack(null)
    {
      hide Heap, DownHole, Placed, Engaged, OnItsWay, Keys;
      task := Enlist(dbID, scheduledAt, priority);
      Requeue(task, scheduledAt, priority, 0);
    }

    /**
     * Schedule: an account has at most one task in the table. A running task is left alone; any other is
     * reset and put in its place in the queue; an account without one gets a new task.
     */
    method Schedule(dbID: int, scheduledAt: Time, priority: int)
      requires Valid()
      modifies this`pq, this`tasks, this`known
      modifies known`heapIndex, known`state, known`scheduledAt, known`priority, known`attempts
      ensures Valid() && dbID in tasks && known == old(known) + {tasks[dbID]} && fresh(known - old(known))
      ensures dbID in old(tasks) && old(tasks[dbID].state) == Running ==>
        && tasks == old(tasks) && pq == old(pq) && tasks[dbID].state == Running && tasks[dbID].Key() == old(tasks[dbID].Key())
        && tasks[dbID].attempts == old(tasks[dbID].attempts)
      ensures !(dbID in old(tasks) && old(tasks[dbID].state) == Running) ==>
        && dbID in tasks && tasks == old(tasks)[dbID := tasks[dbID]]
        && (if dbID in old(tasks) then tasks[dbID] == old(tasks[dbID]) else fresh(tasks[dbID]))
        && tasks[dbID].state == Pending && tasks[dbID].attempts == 0
        && tasks[dbID].scheduledAt == scheduledAt && tasks[dbID].priority == priority
        && tasks[dbID] in pq
        && multiset(pq) == if tasks[dbID] in old(pq) then multiset(old(pq)) else multiset(old(pq)) + multiset{tasks[dbID]}
      ensures forall t :: t in old(known) && !(dbID in old(tasks) && t == old(tasks[dbID])) ==>
        t.state == old(t.state) && t.Key() == old(t.Key()) && t.attempts == old(t.attempts)
      // a task that is on its way is now queued as well, and only such a task is in both places anew
      ensures forall t :: t in old(known) ==>
        (InBoth(t) <==> old(InBoth(t)) || (OnItsWay(t) && old(InTable(t)) && t.dbID == dbID && old(t.state) != Running))
      ensures KeepsTrack(null)
    {
      hide Heap, DownHole, Placed, Engaged;
      if dbID in tasks {
        var existing := tasks[dbID];
        if existing.state != Running {
          Requeue(existing, scheduledAt, priority, 0);
        }
        return;
      }
      var task := ScheduleNew(dbID, scheduledAt, priority);
    }

    /** Marks the task finished, so as not to run it again, and takes it out of the queue. */
    method Close(task: RefreshTask)
      requires Valid() && task in known
      modifies this`pq, known`heapIndex, task`state
      ensures Valid() && task.state == Success && task !in pq
      ensures multiset(pq) == multiset(old(pq)) - multiset{task}
      ensures forall t :: t in pq <==> t in old(pq) && t != task
    {
      hide Heap, DownHole, Engaged;
      ghost var k, was := Keys(pq), pq;
      task.state := Success;
      assert Keys(pq) == k;
      RemoveFromQueue(task);
      OthersLeft(was, task, pq);
    }

    /** A new task of highest priority takes the account's place in the table and goes to the channel, if there is room. */
    method SendNew(dbID: int, now: Time) returns (task: RefreshTask)
      requires Valid()
      modifies this`tasks, this`queue, this`known
      ensures Valid() && known == old(known) + {task} && fresh(task)
      ensures task.state == Pending && task.priority == IMMEDIATE_PRIORITY && task.scheduledAt == now
      ensures task.dbID == dbID && tasks == old(tasks)[dbID := task]
      ensures queue == if |old(queue)| < capacity then old(queue) + [task] else old(queue)
      ensures Coming(task) <==> |old(queue)| < capacity
      ensures forall t :: t in old(known) ==> (Coming(t) <==> old(Coming(t)))
    {
      hide Heap, Placed, Engaged;
      ghost var k := Keys(pq);
      task := Enlist(dbID, now, IMMEDIATE_PRIORITY);
      if |queue| < capacity {
        queue := queue + [task];
      }
      assert Keys(pq) == k;
    }

    /** ScheduleImmediate: the account's old task leaves the queue for good, a new one goes straight to the channel. */
    method ScheduleImmediate(dbID: int, now: Time)
      requires Valid()
      modifies this`pq, this`tasks, this`queue, this`known, known`heapIndex, known`state
      ensures Valid() && old(known) <= known && fresh(known - old(known))
      ensures dbID in tasks && fresh(tasks[dbID]) && tasks == old(tasks)[dbID := tasks[dbID]]
      ensures tasks[dbID].state == Pending && tasks[dbID].priority == IMMEDIATE_PRIORITY && tasks[dbID].scheduledAt == now
      ensures tasks[dbID] !in pq
      ensures queue == if |old(queue)| < capacity then old(queue) + [tasks[dbID]] else old(queue)
      ensures dbID in old(tasks) ==>
        old(tasks[dbID]).state == Success && multiset(pq) == multiset(old(pq)) - multiset{old(tasks[dbID])}
      ensures dbID !in old(tasks) ==> multiset(pq) == multiset(old(pq))
      ensures forall t :: t in old(known) && !(dbID in old(tasks) && t == old(tasks[dbID])) ==> t.state == old(t.state)
      ensures forall t :: t in old(known) ==> t.Key() == old(t.Key())
      // the task it supersedes can be started again exactly when it is coming
      ensures dbID in old(tasks) ==> (Gone(old(tasks[dbID])) <==> !old(Coming(tasks[dbID])))
      // the new task is stranded exactly when the channel was full
      ensures KeepsTrack(tasks[dbID]) && (Stranded(tasks[dbID]) <==> |old(queue)| == capacity)
    {
      hide Heap, Placed, Engaged, OnItsWay;
      if dbID in tasks {
        Close(tasks[dbID]);
      }
      var task := SendNew(dbID, now);
    }

    /** CancelTask: only a pending or retrying task can be cancelled; it leaves the table and the queue. */
    method CancelTask(dbID: int) returns (cancelled: bool)
      requires Valid()
      modifies this`pq, this`tasks, known`heapIndex, known`state
      ensures Valid() && known == old(known)
      ensures cancelled <==> dbID in old(tasks) && old(tasks[dbID].state) in {Pending, Retrying}
      ensures cancelled ==>
        && tasks == old(tasks) - {dbID} && old(tasks[dbID]).state == Success
        && multiset(pq) == multiset(old(pq)) - multiset{old(tasks[dbID])}
      ensures !cancelled ==> tasks == old(tasks) && pq == old(pq)
      ensures forall t :: t in known && !(cancelled && t == old(tasks[dbID])) ==> t.state == old(t.state)
      ensures forall t :: t in known ==> t.Key() == old(t.Key())
      // the cancelled task is skipped exactly when it is not coming
      ensures cancelled ==> (Gone(old(tasks[dbID])) <==> !Coming(old(tasks[dbID])))
      ensures KeepsTrack(null)
    {
      hide Heap, Placed, Engaged, OnItsWay;
      if dbID in tasks {
        var task := tasks[dbID];
        if task.state == Pending || task.state == Retrying {
          Close(task);
          tasks := tasks - {dbID};
          return true;
        }
      }
      return false;
    }

    /** The dispatch loop looks at the front of the queue. */
    method Look(now: Time)
      requires Valid() && popped == null
      modifies this`verdict
      ensures Valid()
      ensures verdict ==
        if pq == [] || pq[0].scheduledAt > now then Undecided else if pq[0].state == Pending then ToSend else ToDrop
      ensures KeepsTrack(null)
    {
      hide Heap, Placed, Engaged;
      ghost var k := Keys(pq);
      if |pq| == 0 || pq[0].scheduledAt > now {
        verdict := Undecided;
      } else {
        verdict := if pq[0].state == Pending then ToSend else ToDrop;
      }
      assert Keys(pq) == k;
    }

    lemma HeldIsKnown()
      requires Engaged()
      ensures popped != null ==> popped in known
    {
    }

    method Hold(task: RefreshTask?)
      requires Valid() && (task != null ==> task in known)
      modifies this`popped
      ensures Valid() && popped == task
    {
      hide Heap, Placed;
      popped := task;
    }

    /** It pops the front, whichever task that is by now, and does with it as it has decided. */
    method Take() returns (front: RefreshTask?)
      requires Valid() && popped == null && verdict != Undecided
      modifies this`pq, this`verdict, this`popped, known`heapIndex
      ensures Valid() && verdict == Undecided && (front == null <==> old(pq) == []) && (front == null ==> pq == [])
      ensures popped == if old(verdict) == ToSend then front else null
      ensures front != null ==>
        front == old(pq[0]) && front in known && front !in pq && multiset(pq) == multiset(old(pq)) - multiset{front} && Foremost(front, pq)
      // what it drops is stranded exactly when it should have been sent
      ensures KeepsTrack(front)
      ensures front != null ==>
        (Stranded(front) <==> old(verdict) == ToDrop && front.state == Pending && InTable(front) && !old(Coming(front)))
    {
      hide Heap, Placed, Less, Foremost, Engaged, InTable, Keys, SlotsTaken;
      front := PopFromQueue();
      if verdict == ToSend {
        Hold(front);
      }
      verdict := Undecided;
    }

    /** What it has popped goes to the channel or, when that is full, back into the queue. */
    method Send() returns (accepted: bool)
      requires Valid() && popped != null
      modifies this`pq, this`queue, this`popped, known`heapIndex
      ensures Valid() && popped == null && (accepted <==> |old(queue)| < capacity)
      ensures queue == if accepted then old(queue) + [old(popped)] else old(queue)
      ensures accepted ==> pq == old(pq)
      ensures !accepted ==>
        multiset(pq) == if old(popped) in old(pq) then multiset(old(pq)) else multiset(old(pq)) + multiset{old(popped)}
      ensures KeepsTrack(null)
    {
      hide Heap, Placed, Less, Engaged, InTable, Keys;
      ghost var was := pq;
      HeldIsKnown();
      var task := popped;
      Hold(null);
      accepted := |queue| < capacity;
      if accepted {
        queue := queue + [task];
      } else {
        NothingToMove(task);
        PushToQueue(task);
        SameMembers(was, task, pq);
      }
    }

    /** The undisturbed end of a round that has found the front due and no longer pending. */
    method DropFront(now: Time, ghost had: multiset<RefreshTask>, ghost sent: seq<RefreshTask>, ghost dropped: multiset<RefreshTask>)
      requires Valid() && popped == null && verdict == ToDrop && Dispatched(had, pq, sent, dropped, now)
      requires pq != [] && pq[0].scheduledAt <= now && pq[0].state != Pending
      modifies this`pq, this`verdict, this`popped, known`heapIndex
      ensures Valid() && popped == null && |pq| < |old(pq)|
      ensures Dispatched(had, pq, sent, dropped + multiset{old(pq[0])}, now)
    {
      hide Heap, Placed, Less, Dispatched, Linked, Foremost, KeepsTrack, Stranded;
      ghost var was := pq;
      FrontComesFirst(pq);
      var front := Take();
      OneMore(had, was, sent, dropped, now, pq);
    }

    /** The undisturbed end of a round that has found the front due and pending. */
    method SendFront(now: Time, ghost had: multiset<RefreshTask>, ghost sent: seq<RefreshTask>, ghost dropped: multiset<RefreshTask>)
      returns (accepted: bool)
      requires Valid() && popped == null && verdict == ToSend && Dispatched(had, pq, sent, dropped, now)
      requires pq != [] && pq[0].scheduledAt <= now && pq[0].state == Pending
      modifies this`pq, this`queue, this`verdict, this`popped, known`heapIndex
      ensures Valid() && popped == null && (accepted ==> |pq| < |old(pq)|) && (!accepted ==> |queue| == capacity)
      ensures queue == if accepted then old(queue) + [old(pq[0])] else old(queue)
      ensures Dispatched(had, pq, if accepted then sent + [old(pq[0])] else sent, dropped, now)
    {
      hide Heap, Placed, Less, Dispatched, Foremost, KeepsTrack, Stranded, Engaged;
      ghost var was := pq;
      FrontComesFirst(pq);
      var front := Take();
      ghost var rest := pq;
      accepted := Send();
      if accepted {
        OneMore(had, was, sent, dropped, now, pq);
      } else {
        BackAgain(was, front, rest, pq);
        SameLeft(had, was, sent, dropped, now, pq);
      }
    }

    /**
     * One round of processScheduledTasks, undisturbed. It ends the loop in front of a task that is not due, or
     * with the channel full.
     */
    method DispatchFront(now: Time, ghost had: multiset<RefreshTask>, ghost sent: seq<RefreshTask>, ghost dropped: multiset<RefreshTask>)
      returns (more: bool, ghost sentNow: seq<RefreshTask>, ghost droppedNow: multiset<RefreshTask>)
      requires Valid() && popped == null && pq != [] && Dispatched(had, pq, sent, dropped, now)
      modifies this`pq, this`queue, this`verdict, this`popped, known`heapIndex
      ensures Valid() && popped == null && Dispatched(had, pq, sentNow, droppedNow, now)
      ensures (sentNow == sent && queue == old(queue)) || exists t :: sentNow == sent + [t] && queue == old(queue) + [t]
      ensures more ==> |pq| < |old(pq)|
      ensures !more ==>
        || |queue| == capacity
        || (pq != [] && pq[0].scheduledAt > now && forall t :: t in pq && t.scheduledAt <= now ==> t.priority < pq[0].priority)
    {
      hide Heap, Placed, Less, Dispatched, Linked, KeepsTrack;
      sentNow, droppedNow := sent, dropped;
      ghost var front := pq[0];
      Look(now);
      if verdict == Undecided {
        OnlyOutranked(pq, now);
        more := false;
      } else if verdict == ToDrop {
        DropFront(now, had, sent, dropped);
        more, droppedNow := true, dropped + multiset{front};
      } else {
        more := SendFront(now, had, sent, dropped);
        sentNow := if more then sent + [front] else sent;
      }
    }

    /**
     * processScheduledTasks: pops due tasks from the front and sends the pending ones to the channel, until
     * the front is not due or the channel is full. No task is lost and none is sent out of turn; a due task
     * stays only behind a full channel or a front of strictly higher priority that is not due.
     */
    method ProcessScheduledTasks(now: Time) returns (ghost sent: seq<RefreshTask>, ghost dropped: multiset<RefreshTask>)
      requires Valid() && popped == null
      modifies this`pq, this`queue, this`verdict, this`popped, known`heapIndex
      ensures Valid() && popped == null && queue == old(queue) + sent
      ensures Dispatched(multiset(old(pq)), pq, sent, dropped, now)
      ensures pq == [] || pq[0].scheduledAt > now || |queue| == capacity
      ensures |queue| < capacity ==> forall t :: t in pq && t.scheduledAt <= now ==> t.priority < pq[0].priority
      ensures KeepsTrack(null)
    {
      hide Heap, Placed, Less, Dispatched, Linked;
      ghost var had, all := multiset(pq), pq;
      sent, dropped := [], multiset{};
      NoneYet(pq, now);
      var more := true;
      while more && pq != []
        invariant Valid() && popped == null && queue == old(queue) + sent
        invariant Dispatched(had, pq, sent, dropped, now)
        invariant !more ==>
          || |queue| == capacity
          || (pq != [] && pq[0].scheduledAt > now && forall t :: t in pq && t.scheduledAt <= now ==> t.priority < pq[0].priority)
        decreases more, |pq|
      {
        more, sent, dropped := DispatchFront(now, had, sent, dropped);
      }
      OnlyFromQueue(all, pq, sent, dropped, now);
    }

    ghost predicate RetryDue(t: RefreshTask, now: Time)
      reads this, t
    {
      InTable(t) && t.state == Retrying && t.nextRetryAt < now
    }

    /** The first half of processRetries: the retrying tasks whose time has come, in no particular order. */
    method DueRetries(now: Time) returns (due: seq<RefreshTask>)
      requires Valid()
      ensures forall t :: t in due ==> RetryDue(t, now)
      ensures forall id :: id in tasks && RetryDue(tasks[id], now) ==> tasks[id] in due
      ensures forall i, j :: 0 <= i < j < |due| ==> due[i] != due[j]
    {
      due := [];
      var ids: set<int> := tasks.Keys;
      while ids != {}
        invariant ids <= tasks.Keys
        invariant forall t :: t in due ==> RetryDue(t, now) && t.dbID !in ids
        invariant forall id :: id in tasks && id !in ids && RetryDue(tasks[id], now) ==> tasks[id] in due
        invariant forall i, j :: 0 <= i < j < |due| ==> due[i] != due[j]
        decreases ids
      {
        EmptyOrNot(ids);
        var id: int :| id in ids;
        ids := ids - {id};
        var task := tasks[id];
        if task.state == Retrying && task.nextRetryAt < now {
          due := due + [task];
        }
      }
    }

    /** What processRetries does to a task, due or not. */
    twostate predicate Retried(t: RefreshTask, due: bool, now: Time)
      reads this, t
    {
      && t.attempts == old(t.attempts)
      && if due then t.state == Pending && t.scheduledAt == now && t.priority == old(t.priority) && t in pq
         else t.state == old(t.state) && t.Key() == old(t.Key()) && (t in pq <==> t in old(pq))
    }

    lemma KnownDue(due: seq<RefreshTask>, now: Time)
      requires Linked()
      requires forall t :: t in due ==> RetryDue(t, now)
      requires forall id :: id in tasks && RetryDue(tasks[id], now) ==> tasks[id] in due
      ensures forall t :: t in due ==> t in known
      ensures forall t :: t in known ==> (t in due <==> RetryDue(t, now))
    {
      assert forall t :: t in due ==> t.dbID in tasks && tasks[t.dbID] == t;
    }

    /** The retry loop collects the due retries, under the table's lock. */
    method Collect(now: Time)
      requires Valid() && batch == []
      modifies this`batch
      ensures Valid()
      ensures forall t :: t in batch ==> t in known
      ensures forall t :: t in known ==> (t in batch <==> RetryDue(t, now))
      ensures forall t :: t in known ==>
        (t in batch <==> t.dbID in tasks && tasks[t.dbID] == t && t.state == Retrying && t.nextRetryAt < now)
      ensures forall i, j :: 0 <= i < j < |batch| ==> batch[i] != batch[j]
      ensures KeepsTrack(null)
    {
      hide Heap, Placed;
      var due := DueRetries(now);
      KnownDue(due, now);
      batch := due;
    }

    /** One collected retry is pending and queued, whatever has become of it since. */
    method RetryNext(task: RefreshTask, now: Time)
      requires Valid() && batch != [] && batch[0] == task
      modifies this`pq, this`batch, known`heapIndex, task`state, task`scheduledAt, task`priority, task`attempts
      ensures Valid() && batch == old(batch[1..])
      ensures task.state == Pending && task.scheduledAt == now
      ensures task.priority == old(task.priority) && task.attempts == old(task.attempts)
      ensures multiset(pq) == if task in old(pq) then multiset(old(pq)) else multiset(old(pq)) + multiset{task}
      ensures task in pq && forall t :: t != task ==> (t in pq <==> t in old(pq))
      ensures KeepsTrack(null)
    {
      hide Heap, DownHole, Placed;
      Requeue(task, now, task.priority, task.attempts);
      batch := batch[1..];
    }

    /** processRetries, undisturbed: every due retry is pending again and in the queue, no other task is touched. */
    method ProcessRetries(now: Time)
      requires Valid() && batch == []
      modifies this`pq, this`batch, known`heapIndex, known`state, known`scheduledAt, known`priority, known`attempts
      ensures Valid() && batch == []
      ensures forall t :: t in known ==> Retried(t, old(RetryDue(t, now)), now)
      ensures KeepsTrack(null)
    {
      hide Heap, DownHole, Linked, OnItsWay, Keys, InTable;
      Collect(now);
      var due := batch;
      for i := 0 to |due|
        invariant Valid() && batch == due[i..]
        invariant forall t :: t in known ==> Retried(t, t in due[..i], now)
      {
        assert due[i] in known && due[i] !in due[..i];
        RetryNext(due[i], now);
      }
      assert due[..|due|] == due;
    }

    // ----- from the channel to the end of a refresh -----

    /** executeLoop: the reader, with nothing in hand, takes the front of the channel. */
    method Receive() returns (task: RefreshTask?)
      requires Valid() && hand == null
      modifies this`queue, this`hand
      ensures Valid() && hand == task && (task == null <==> old(queue) == [])
      ensures task == null ==> queue == []
      ensures task != null ==> task == old(queue[0]) && queue == old(queue[1..])
      ensures KeepsTrack(null)
    {
      hide Heap, Placed;
      if |queue| == 0 {
        return null;
      }
      hand := queue[0];
      queue := queue[1..];
      return hand;
    }

    /** executeTask up to its goroutine: the task in hand gets a slot of the semaphore, if one is free. */
    method Admit() returns (task: RefreshTask?)
      requires Valid()
      modifies this`hand, this`admitted
      ensures Valid()
      ensures task == if old(hand) != null && old(SlotsTaken()) < maxConcurrency then old(hand) else null
      ensures task == null ==> hand == old(hand) && admitted == old(admitted)
      ensures task != null ==> hand == null && admitted == old(admitted) + multiset{task}
      ensures KeepsTrack(null)
    {
      hide Heap, Placed;
      if hand == null || SlotsTaken() >= maxConcurrency {
        return null;
      }
      task := hand;
      admitted := admitted + multiset{task};
      hand := null;
    }

    method MoveToRunning(task: RefreshTask)
      requires Valid() && task in admitted
      modifies this`admitted, this`running
      ensures Valid() && admitted == old(admitted) - multiset{task} && running == old(running) + multiset{task}
    {
      hide Heap, Placed;
      admitted := admitted - multiset{task};
      running := running + multiset{task};
    }

    /** The goroutine starts its task, whatever has become of that since it was sent. */
    method StartTask(task: RefreshTask)
      requires Valid() && task in admitted
      modifies this`admitted, this`running, task`state
      ensures Valid() && task.state == Running && !old(Gone(task))
      ensures admitted == old(admitted) - multiset{task} && running == old(running) + multiset{task}
      ensures KeepsTrack(null)
    {
      hide Heap, Placed;
      ghost var k := Keys(pq);
      MoveToRunning(task);
      task.state := Running;
      assert Keys(pq) == k;
    }

    method MoveToEnding(task: RefreshTask)
      requires Valid() && task in running
      modifies this`running, this`ending
      ensures Valid() && running == old(running) - multiset{task} && ending == old(ending) + multiset{task}
    {
      hide Heap, Placed;
      running := running - multiset{task};
      ending := ending + multiset{task};
    }

    /** The refresh ends, well or not. */
    method Conclude(task: RefreshTask, failed: bool, retryable: bool, maxAttempts: nat, nextRetryAt: Time)
      requires Valid() && task in running
      modifies this`running, this`ending, task`state, task`attempts, task`nextRetryAt
      ensures Valid()
      ensures running == old(running) - multiset{task} && ending == old(ending) + multiset{task}
      ensures task.attempts == old(task.attempts) + (if failed then 1 else 0)
      ensures task.state == if !failed then Success else if task.attempts < maxAttempts && retryable then Retrying else Failed
      ensures task.state == Retrying ==> task.nextRetryAt == nextRetryAt
      ensures KeepsTrack(null)
    {
      hide Heap, Placed, Gone, InTable, OnItsWay;
      ghost var k := Keys(pq);
      MoveToEnding(task);
      task.Record(failed, retryable, maxAttempts, nextRetryAt);
      assert Keys(pq) == k;
    }

    method ReturnSlot(task: RefreshTask)
      requires Valid() && task in ending
      modifies this`ending
      ensures Valid() && SlotsTaken() < maxConcurrency && ending == old(ending) - multiset{task}
    {
      hide Heap, Placed;
      ending := ending - multiset{task};
    }

    /**
     * The goroutine's last step: whichever task the table has for the account goes when its own is finished,
     * and the slot is free again.
     */
    method CleanUp(task: RefreshTask, maxAttempts: nat) returns (finished: bool)
      requires Valid() && task in ending
      modifies this`ending, this`tasks
      ensures Valid() && SlotsTaken() < maxConcurrency
      ensures ending == old(ending) - multiset{task}
      ensures finished <==> task.state == Success || (task.state == Failed && task.attempts >= maxAttempts)
      ensures tasks == if finished then old(tasks) - {task.dbID} else old(tasks)
      // another task loses its place in the table exactly when it has taken the finished one's
      ensures forall t :: t in known && t != task ==>
        (InTable(t) <==> old(InTable(t)) && !(finished && t.dbID == task.dbID))
      ensures KeepsTrack(null)
    {
      hide Heap, Placed, Engaged, OnItsWay, SlotsTaken;
      finished := task.state == Success || (task.state == Failed && task.attempts >= maxAttempts);
      if finished {
        tasks := tasks - {task.dbID};
      }
      ReturnSlot(task);
    }
  }
}
