/** What calls of the refresh scheduler one after another promise, and do not (auth/refresh_scheduler.go). */
module RefreshRuns {
  import opened Basics
  import opened RefreshScheduler

  lemma OnlyOne(tasks: seq<RefreshTask>, task: RefreshTask)
    requires multiset(tasks) == multiset{task}
    ensures tasks == [task]
  {
    assert |tasks| == |multiset(tasks)|;
    assert tasks[0] in multiset(tasks);
  }

  lemma TwoInOrder(pq: seq<RefreshTask>, before: RefreshTask, after: RefreshTask)
    requires HeapLaws.Heap(Keys(pq)) && multiset(pq) == multiset{after} + multiset{before}
    requires before.priority > after.priority
    ensures pq == [before, after]
  {
    FrontComesFirst(pq);
    assert |pq| == |multiset(pq)| == 2;
    assert pq == [pq[0], pq[1]];
    assert multiset(pq) == multiset{pq[0], pq[1]};
    assert pq[0] in multiset(pq) && pq[1] in multiset(pq) && before in multiset(pq);
    assert pq[0] == after ==> HeapLaws.Less(before.Key(), pq[0].Key());
  }

  /** Of a queue of one pending task, it is sent or left. */
  lemma SentOrLeft(task: RefreshTask, left: seq<RefreshTask>, sent: seq<RefreshTask>, dropped: multiset<RefreshTask>, now: Time)
    requires Dispatched(multiset{task}, left, sent, dropped, now) && task.state == Pending
    ensures (left == [] && sent == [task]) || (left == [task] && sent == [])
  {
    assert |left| == |multiset(left)| && |sent| == |multiset(sent)|;
    assert |multiset{task}| == |left| + |sent| + |dropped|;
    forall t | t in left || t in sent || t in dropped
      ensures t == task
    {
      assert t in multiset(left) || t in multiset(sent) || t in dropped;
      assert t in multiset{task};
    }
    assert task in multiset{task};
    assert task in left || task in sent by {
      assert task in multiset(left) || task in multiset(sent);
    }
  }

  /** A due task alone in the queue goes to the channel. */
  method SendAlone(s: Scheduler, task: RefreshTask, now: Time)
    requires s.Valid() && s.popped == null && multiset(s.pq) == multiset{task} && |s.queue| < s.capacity
    requires task.state == Pending && task.scheduledAt <= now
    modifies s`pq, s`queue, s`verdict, s`popped, s.known`heapIndex
    ensures s.Valid() && s.popped == null && s.pq == [] && s.queue == old(s.queue) + [task]
  {
    hide HeapLaws.Heap, Placed, Scheduler.KeepsTrack;
    ghost var sent, dropped;
    sent, dropped := s.ProcessScheduledTasks(now);
    SentOrLeft(task, s.pq, sent, dropped, now);
  }

  /** The refresh of a running task ends well and gives back its slot. */
  method EndRefresh(s: Scheduler, task: RefreshTask)
    requires s.Valid() && task in s.running
    modifies s`running, s`ending, s`tasks, s.known`state, s.known`attempts, s.known`nextRetryAt
    ensures s.Valid() && s.SlotsTaken() < s.maxConcurrency
    ensures s.tasks == old(s.tasks) - {task.dbID} && task.state == Success
  {
    hide HeapLaws.Heap, Placed, Scheduler.KeepsTrack;
    s.Conclude(task, false, false, 0, ZERO_TIME);
    var finished := s.CleanUp(task, 0);
  }

  lemma SomeElement<T>(m: multiset<T>)
    ensures m == multiset{} || exists x :: x in m
  {
    if forall x :: x !in m {
      assert m == multiset{};
    }
  }

  /** One of the refreshes under way comes to its end. */
  method EndSome(s: Scheduler)
    requires s.Valid() && s.SlotsTaken() > 0
    modifies s`admitted, s`running, s`ending, s`tasks, s.known`state, s.known`attempts, s.known`nextRetryAt
    ensures s.Valid() && s.SlotsTaken() < s.maxConcurrency && s.admitted <= old(s.admitted)
  {
    hide HeapLaws.Heap, Placed, Scheduler.KeepsTrack;
    SomeElement(s.ending);
    SomeElement(s.running);
    SomeElement(s.admitted);
    if task :| task in s.ending {
      var finished := s.CleanUp(task, 0);
    } else if task :| task in s.running {
      EndRefresh(s, task);
    } else {
      var task :| task in s.admitted;
      s.StartTask(task);
      EndRefresh(s, task);
    }
  }

  /** Whatever becomes of a task that has been sent, it gets to a goroutine, and is started. */
  method RunThrough(s: Scheduler, task: RefreshTask)
    requires s.Valid() && (task in s.queue || task == s.hand || task in s.admitted)
    modifies s`queue, s`hand, s`admitted, s`running, s`ending, s`tasks
    modifies s.known`state, s.known`attempts, s.known`nextRetryAt
    ensures s.Valid() && task.state == Running && task in s.running
  {
    hide HeapLaws.Heap, Placed, Scheduler.KeepsTrack;
    while task !in s.admitted
      invariant s.Valid() && (task in s.queue || task == s.hand || task in s.admitted)
      decreases |s.queue|, s.hand != null
    {
      if s.hand == null {
        var received := s.Receive();
      } else {
        if s.SlotsTaken() == s.maxConcurrency {
          EndSome(s);
        }
        var next := s.Admit();
      }
    }
    s.StartTask(task);
  }

  /** With the reader idle and a slot free, the front of the channel runs. */
  method RunFront(s: Scheduler, task: RefreshTask)
    requires s.Valid() && s.queue != [] && s.queue[0] == task
    requires s.hand == null && s.admitted == multiset{} && s.SlotsTaken() < s.maxConcurrency
    modifies s`queue, s`hand, s`admitted, s`running, task`state
    ensures s.Valid() && s.queue == old(s.queue[1..]) && task.state == Running
    ensures s.hand == null && s.admitted == multiset{} && s.running == old(s.running) + multiset{task}
  {
    hide HeapLaws.Heap, Placed, Scheduler.KeepsTrack;
    var received := s.Receive();
    var next := s.Admit();
    s.StartTask(task);
  }

  /** A new task of a scheduler with an empty queue goes to the channel. */
  method SendFirst(s: Scheduler, dbID: int, now: Time) returns (task: RefreshTask)
    requires s.Valid() && s.popped == null && s.pq == [] && dbID !in s.tasks && |s.queue| < s.capacity
    modifies s`pq, s`tasks, s`known, s`queue, s`verdict, s`popped, s.known
    ensures s.Valid() && fresh(task) && s.known == old(s.known) + {task} && s.popped == null && s.pq == [] && s.queue == old(s.queue) + [task]
    ensures s.tasks == old(s.tasks)[dbID := task]
    ensures task.dbID == dbID && task.state == Pending
  {
    hide HeapLaws.Heap, Placed, Scheduler.KeepsTrack;
    task := s.ScheduleNew(dbID, now, 0);
    SendAlone(s, task, now);
  }

  /** A new scheduler with one task in its queue, due at once. */
  method FirstQueued(capacity: nat, maxConcurrency: nat, dbID: int, now: Time) returns (s: Scheduler, task: RefreshTask)
    requires capacity > 0 && maxConcurrency > 0
    ensures s.Valid() && fresh(s) && fresh(s.known) && s.capacity == capacity && s.maxConcurrency == maxConcurrency
    ensures s.pq == [task] && s.queue == [] && s.tasks == map[dbID := task] && s.popped == null && s.hand == null
    ensures s.SlotsTaken() == 0 && s.verdict == Undecided && s.batch == []
    ensures task.dbID == dbID && task.state == Pending && task.scheduledAt == now && task.priority == 0 && s.known == {task}
  {
    hide HeapLaws.Heap, Placed, Scheduler.KeepsTrack;
    s := new Scheduler(capacity, maxConcurrency);
    task := s.ScheduleNew(dbID, now, 0);
    OnlyOne(s.pq, task);
  }

  /** A new scheduler whose first task has gone to the channel. */
  method FirstSent(capacity: nat, maxConcurrency: nat, dbID: int, now: Time) returns (s: Scheduler, task: RefreshTask)
    requires capacity > 0 && maxConcurrency > 0
    ensures s.Valid() && fresh(s) && fresh(s.known) && s.capacity == capacity && s.maxConcurrency == maxConcurrency
    ensures s.pq == [] && s.queue == [task] && s.tasks == map[dbID := task] && s.popped == null && s.hand == null
    ensures s.SlotsTaken() == 0 && s.batch == []
    ensures task.dbID == dbID && task.state == Pending && task.scheduledAt == now && task.priority == 0 && s.known == {task}
  {
    hide HeapLaws.Heap, Placed, Scheduler.KeepsTrack;
    s, task := FirstQueued(capacity, maxConcurrency, dbID, now);
    assert multiset(s.pq) == multiset{task};
    SendAlone(s, task, now);
  }

  /** A new scheduler whose first task runs. */
  method FirstRuns(capacity: nat, maxConcurrency: nat, dbID: int, now: Time) returns (s: Scheduler, task: RefreshTask)
    requires capacity > 0 && maxConcurrency > 0
    ensures s.Valid() && fresh(s) && fresh(s.known) && s.capacity == capacity && s.maxConcurrency == maxConcurrency
    ensures s.pq == [] && s.queue == [] && s.tasks == map[dbID := task] && s.popped == null && s.hand == null
    ensures s.admitted == multiset{} && s.running == multiset{task} && s.ending == multiset{} && s.batch == []
    ensures task.dbID == dbID && task.state == Running && s.known == {task}
  {
    hide HeapLaws.Heap, Placed, Scheduler.KeepsTrack;
    s, task := FirstSent(capacity, maxConcurrency, dbID, now);
    RunFront(s, task);
  }

  /** A task cancelled with success while in the channel, its account no longer in the table, runs all the same. */
  method CancelledTaskRuns(dbID: int, now: Time) returns (s: Scheduler, task: RefreshTask, cancelled: bool)
    ensures s.Valid() && cancelled && task.dbID == dbID && dbID !in s.tasks && task !in s.pq && task.state == Running
  {
    hide HeapLaws.Heap, Placed, Scheduler.KeepsTrack;
    s, task := FirstSent(1, 1, dbID, now);
    cancelled := s.CancelTask(dbID);
    assert multiset(s.pq) == multiset{};
    assert s.pq == [];
    RunFront(s, task);
  }

  /** With every slot taken, the channel's reader holds the next task, in neither queue nor channel. */
  method HeldBack(other: int, dbID: int, now: Time) returns (s: Scheduler, first: RefreshTask, task: RefreshTask)
    requires other != dbID
    ensures s.Valid() && fresh(s) && fresh(s.known) && s.SlotsTaken() == s.maxConcurrency && s.running == multiset{first}
    ensures s.hand == task && s.queue == [] && s.pq == [] && s.admitted == multiset{} && fresh(task)
    ensures s.tasks == map[other := first, dbID := task] && task.state == Pending && task.dbID == dbID && first.dbID == other
  {
    hide HeapLaws.Heap, HeapLaws.Less, Placed, Foremost, Scheduler.KeepsTrack, Scheduler.Stranded, Scheduler.OnItsWay,
         Scheduler.Coming, Scheduler.Engaged;
    s, first := FirstRuns(1, 1, other, now);
    task := SendFirst(s, dbID, now);
    var received := s.Receive();
  }

  method HeldAndCancelled(other: int, dbID: int, now: Time)
    returns (s: Scheduler, first: RefreshTask, task: RefreshTask, cancelled: bool)
    requires other != dbID
    ensures s.Valid() && fresh(s) && fresh(s.known) && s.running == multiset{first} && s.admitted == multiset{}
    ensures s.hand == task && s.pq == [] && s.tasks == map[other := first] && cancelled && task.dbID == dbID && first.dbID == other
    ensures first != task && fresh(task)
  {
    hide HeapLaws.Heap, HeapLaws.Less, Placed, Foremost, Scheduler.KeepsTrack, Scheduler.Stranded, Scheduler.OnItsWay,
         Scheduler.Coming, Scheduler.Engaged;
    s, first, task := HeldBack(other, dbID, now);
    cancelled := s.CancelTask(dbID);
    assert multiset(s.pq) == multiset{};
    assert s.pq == [];
  }

  /** A task cancelled with success while its reader waits for a slot runs all the same when one is free. */
  method HeldTaskRuns(other: int, dbID: int, now: Time) returns (s: Scheduler, task: RefreshTask, cancelled: bool)
    requires other != dbID
    ensures s.Valid() && cancelled && task.dbID == dbID && dbID !in s.tasks && task !in s.pq && task.state == Running
  {
    hide HeapLaws.Heap, HeapLaws.Less, Placed, Foremost, Scheduler.KeepsTrack, Scheduler.Stranded, Scheduler.OnItsWay,
         Scheduler.Coming, Scheduler.Engaged;
    var first;
    s, first, task, cancelled := HeldAndCancelled(other, dbID, now);
    EndRefresh(s, first);
    var next := s.Admit();
    s.StartTask(task);
  }

  /** The dispatch loop has popped a task and not yet sent it. */
  method FirstPopped(dbID: int, now: Time) returns (s: Scheduler, task: RefreshTask)
    ensures s.Valid() && fresh(s) && fresh(s.known) && s.capacity == s.maxConcurrency == 1
    ensures s.pq == [] && s.queue == [] && s.tasks == map[dbID := task] && s.popped == task && s.hand == null
    ensures s.SlotsTaken() == 0 && task.dbID == dbID && task.state == Pending && s.known == {task}
  {
    hide HeapLaws.Heap, HeapLaws.Less, Placed, Foremost, Scheduler.KeepsTrack, Scheduler.Stranded, Scheduler.OnItsWay,
         Scheduler.Coming, Scheduler.Engaged;
    s, task := FirstQueued(1, 1, dbID, now);
    s.Look(now);
    var front := s.Take();
    assert multiset(s.pq) == multiset{};
    assert s.pq == [];
  }

  /** A task cancelled with success while the dispatch loop holds it, popped and not yet sent, runs all the same. */
  method PoppedTaskRuns(dbID: int, now: Time) returns (s: Scheduler, task: RefreshTask, cancelled: bool)
    ensures s.Valid() && cancelled && task.dbID == dbID && dbID !in s.tasks && task !in s.pq && task.state == Running
  {
    hide HeapLaws.Heap, HeapLaws.Less, Placed, Foremost, Scheduler.KeepsTrack, Scheduler.Stranded, Scheduler.OnItsWay,
         Scheduler.Coming, Scheduler.Engaged;
    s, task := FirstPopped(dbID, now);
    cancelled := s.CancelTask(dbID);
    assert multiset(s.pq) == multiset{};
    assert s.pq == [];
    var accepted := s.Send();
    RunFront(s, task);
  }

  /** A new scheduler whose first task has failed and waits for its retry. */
  method FailedOnce(dbID: int, now: Time) returns (s: Scheduler, task: RefreshTask)
    ensures s.Valid() && fresh(s) && fresh(s.known) && s.capacity == s.maxConcurrency == 1
    ensures s.pq == [] && s.queue == [] && s.tasks == map[dbID := task] && s.popped == null && s.hand == null
    ensures s.SlotsTaken() == 0 && s.batch == [] && s.known == {task}
    ensures task.dbID == dbID && task.state == Retrying && task.nextRetryAt == now
  {
    hide HeapLaws.Heap, HeapLaws.Less, Placed, Foremost, Scheduler.KeepsTrack, Scheduler.Stranded, Scheduler.OnItsWay,
         Scheduler.Coming, Scheduler.Engaged;
    s, task := FirstRuns(1, 1, dbID, now);
    var limit := task.attempts + 2;
    s.Conclude(task, true, true, limit, now);
    var finished := s.CleanUp(task, limit);
  }

  /** The time of its retry has come, and the retry loop has collected it. */
  method RetryCollected(dbID: int, now: Time) returns (s: Scheduler, task: RefreshTask)
    ensures s.Valid() && fresh(s) && fresh(s.known) && s.capacity == s.maxConcurrency == 1
    ensures s.pq == [] && s.queue == [] && s.tasks == map[dbID := task] && s.popped == null && s.hand == null
    ensures s.SlotsTaken() == 0 && s.batch != [] && s.batch[0] == task && task.dbID == dbID && task.state == Retrying
  {
    hide HeapLaws.Heap, HeapLaws.Less, Placed, Foremost, Scheduler.KeepsTrack, Scheduler.Stranded, Scheduler.OnItsWay,
         Scheduler.Coming, Scheduler.Engaged;
    s, task := FailedOnce(dbID, now);
    s.Collect(now + 1);
    assert s.RetryDue(task, now + 1);
    assert s.batch[0] in s.batch;
  }

  /** A task cancelled with success while the retry loop holds it is pending again, and queued. */
  method CancelledRetryQueued(dbID: int, now: Time) returns (s: Scheduler, task: RefreshTask, cancelled: bool)
    ensures s.Valid() && fresh(s) && fresh(s.known) && s.capacity == s.maxConcurrency == 1
    ensures multiset(s.pq) == multiset{task} && s.queue == [] && s.popped == null && s.hand == null && s.SlotsTaken() == 0
    ensures cancelled && task.dbID == dbID && dbID !in s.tasks && task.state == Pending && task.scheduledAt == now + 1
  {
    hide HeapLaws.Heap, HeapLaws.Less, Placed, Foremost, Scheduler.KeepsTrack, Scheduler.Stranded, Scheduler.OnItsWay,
         Scheduler.Coming, Scheduler.Engaged;
    s, task := RetryCollected(dbID, now);
    cancelled := s.CancelTask(dbID);
    assert multiset(s.pq) == multiset{};
    s.RetryNext(task, now + 1);
  }

  /** And so it is sent and run. */
  method CancelledRetryRuns(dbID: int, now: Time) returns (s: Scheduler, task: RefreshTask, cancelled: bool)
    ensures s.Valid() && cancelled && task.dbID == dbID && dbID !in s.tasks && task.state == Running
  {
    hide HeapLaws.Heap, HeapLaws.Less, Placed, Foremost, Scheduler.KeepsTrack, Scheduler.Stranded, Scheduler.OnItsWay,
         Scheduler.Coming, Scheduler.Engaged;
    s, task, cancelled := CancelledRetryQueued(dbID, now);
    SendAlone(s, task, now + 1);
    RunFront(s, task);
  }

  /** The same of a task that an immediate refresh supersedes. */
  method SupersededTaskRuns(dbID: int, now: Time) returns (s: Scheduler, task: RefreshTask)
    ensures s.Valid() && task.dbID == dbID && dbID in s.tasks && s.tasks[dbID] != task && task.state == Running
  {
    hide HeapLaws.Heap, HeapLaws.Less, Placed, Foremost, Scheduler.KeepsTrack, Scheduler.Stranded, Scheduler.OnItsWay,
         Scheduler.Coming, Scheduler.Engaged;
    s, task := FirstSent(2, 1, dbID, now);
    s.ScheduleImmediate(dbID, now);
    RunFront(s, task);
  }

  /** A pending task scheduled again while it waits in the channel is in the queue, too. */
  method SentAndQueued(capacity: nat, maxConcurrency: nat, dbID: int, now: Time) returns (s: Scheduler, task: RefreshTask)
    requires capacity > 0 && maxConcurrency > 0
    ensures s.Valid() && fresh(s) && fresh(s.known) && s.capacity == capacity && s.maxConcurrency == maxConcurrency
    ensures s.pq == [task] && s.queue == [task] && s.tasks == map[dbID := task] && s.popped == null && s.hand == null
    ensures s.SlotsTaken() == 0 && s.batch == []
    ensures task.dbID == dbID && task.state == Pending && task.scheduledAt == now && task.priority == 0 && s.known == {task}
  {
    hide HeapLaws.Heap, HeapLaws.Less, Placed, Foremost, Scheduler.KeepsTrack, Scheduler.Stranded, Scheduler.OnItsWay,
         Scheduler.Coming, Scheduler.Engaged;
    s, task := FirstSent(capacity, maxConcurrency, dbID, now);
    s.Schedule(dbID, now, 0);
    OnlyOne(s.pq, task);
  }

  /** It is sent a second time. */
  method SentTwice(maxConcurrency: nat, dbID: int, now: Time) returns (s: Scheduler, task: RefreshTask)
    requires maxConcurrency > 0
    ensures s.Valid() && fresh(s) && fresh(s.known) && s.maxConcurrency == maxConcurrency
    ensures s.queue == [task, task] && s.popped == null && s.hand == null && s.SlotsTaken() == 0 && task.dbID == dbID && fresh(task)
  {
    hide HeapLaws.Heap, HeapLaws.Less, Placed, Foremost, Scheduler.KeepsTrack, Scheduler.Stranded, Scheduler.OnItsWay,
         Scheduler.Coming, Scheduler.Engaged;
    s, task := SentAndQueued(2, maxConcurrency, dbID, now);
    assert multiset(s.pq) == multiset{task};
    SendAlone(s, task, now);
  }

  /** A pending task scheduled again while it waits in the channel is refreshed twice, here at the same time. */
  method ScheduledAgainRunsTwice(dbID: int, now: Time) returns (s: Scheduler, task: RefreshTask)
    ensures s.Valid() && task.dbID == dbID && s.running == multiset{task, task}
  {
    hide HeapLaws.Heap, Placed, Scheduler.KeepsTrack;
    s, task := SentTwice(2, dbID, now);
    RunFront(s, task);
    RunFront(s, task);
  }

  /** An immediate refresh of an account whose refresh is under way. */
  method Succeeded(dbID: int, now: Time) returns (s: Scheduler, first: RefreshTask, task: RefreshTask)
    ensures s.Valid() && fresh(s) && fresh(s.known) && s.queue == [task] && s.hand == null && s.maxConcurrency == 1
    ensures s.admitted == multiset{} && s.running == multiset{first} && s.ending == multiset{}
    ensures first != task && first.dbID == task.dbID == dbID && s.tasks == map[dbID := task] && task.state == Pending
  {
    hide HeapLaws.Heap, HeapLaws.Less, Placed, Foremost, Scheduler.KeepsTrack, Scheduler.Stranded, Scheduler.OnItsWay,
         Scheduler.Coming, Scheduler.Engaged;
    s, first := FirstRuns(1, 1, dbID, now);
    s.ScheduleImmediate(dbID, now);
    task := s.tasks[dbID];
  }

  /** Once the dispatch loop has looked at a due task in front, another account's comes before it that is not due yet. */
  method Overtake(s: Scheduler, first: RefreshTask, dbID: int, now: Time) returns (task: RefreshTask)
    requires s.Valid() && s.popped == null && s.pq == [first] && first.scheduledAt <= now && first.priority == 0 && dbID !in s.tasks
    modifies s`pq, s`tasks, s`known, s`verdict, s.known`heapIndex
    ensures s.Valid() && s.pq == [task, first] && s.known == old(s.known) + {task} && fresh(task)
    ensures s.verdict == (if first.state == Pending then ToSend else ToDrop) && !s.Coming(task)
    ensures s.InTable(task) && task.dbID == dbID && task.state == Pending && task.scheduledAt == now + 1
  {
    hide HeapLaws.Heap, Placed, Scheduler.KeepsTrack;
    s.Look(now);
    task := s.ScheduleNew(dbID, now + 1, 1);
    TwoInOrder(s.pq, task, first);
  }

  /** The dispatch loop is about to send a due task, and another that is not due is in front. */
  method SendingAnother(other: int, dbID: int, now: Time) returns (s: Scheduler, task: RefreshTask)
    requires other != dbID
    ensures s.Valid() && fresh(s) && fresh(s.known) && s.capacity == 1
    ensures s.pq != [] && s.pq[0] == task && s.popped == null && s.verdict == ToSend && s.queue == []
    ensures task.scheduledAt == now + 1
  {
    hide HeapLaws.Heap, HeapLaws.Less, Placed, Foremost, Scheduler.KeepsTrack, Scheduler.Coming, Scheduler.Engaged;
    var first;
    s, first := FirstQueued(1, 1, other, now);
    task := Overtake(s, first, dbID, now);
  }

  /** What the dispatch loop pops need not be what it has looked at: a task is sent before its time. */
  method SentBeforeItsTime(other: int, dbID: int, now: Time) returns (s: Scheduler, task: RefreshTask)
    requires other != dbID
    ensures s.Valid() && s.queue == [task] && task.scheduledAt > now
  {
    hide HeapLaws.Heap, HeapLaws.Less, Placed, Foremost, Scheduler.KeepsTrack, Scheduler.Coming, Scheduler.Engaged;
    s, task := SendingAnother(other, dbID, now);
    var front := s.Take();
    var accepted := s.Send();
  }

  /** A task scheduled again while it was in the channel is in the queue as it runs. */
  method RunsWhileQueued(dbID: int, now: Time) returns (s: Scheduler, task: RefreshTask)
    ensures s.Valid() && fresh(s) && fresh(s.known) && s.pq == [task] && s.queue == [] && s.tasks == map[dbID := task]
    ensures s.popped == null && s.hand == null && s.admitted == multiset{} && s.batch == []
    ensures task.state == Running && task.scheduledAt == now && task.priority == 0 && s.known == {task}
  {
    hide HeapLaws.Heap, HeapLaws.Less, Placed, Foremost, Scheduler.KeepsTrack, Scheduler.Stranded, Scheduler.OnItsWay,
         Scheduler.Coming, Scheduler.Engaged;
    s, task := SentAndQueued(1, 1, dbID, now);
    RunFront(s, task);
  }

  /** Nor is what it drops what it has looked at: a pending task is lost, but for its place in the table. */
  method DroppedByMistake(other: int, dbID: int, now: Time) returns (s: Scheduler, task: RefreshTask)
    requires other != dbID
    ensures s.Valid() && task.dbID == dbID && s.Stranded(task)
  {
    hide HeapLaws.Heap, HeapLaws.Less, Placed, Foremost, Scheduler.KeepsTrack, Scheduler.OnItsWay, Scheduler.Coming,
         Scheduler.Engaged;
    var first;
    s, first := RunsWhileQueued(other, now);
    task := Overtake(s, first, dbID, now);
    var front := s.Take();
  }

  /** The end of a superseded refresh takes its successor's place in the table: that can no longer be cancelled, and runs. */
  method SuccessorForgotten(dbID: int, now: Time) returns (s: Scheduler, task: RefreshTask, cancelled: bool)
    ensures s.Valid() && !cancelled && task.dbID == dbID && task.state == Running
  {
    hide HeapLaws.Heap, Placed, Scheduler.KeepsTrack;
    var first;
    s, first, task := Succeeded(dbID, now);
    EndRefresh(s, first);
    cancelled := s.CancelTask(dbID);
    RunFront(s, task);
  }

  /** An immediate refresh asked for while the channel is full is in the table and nowhere else. */
  method StrandedByFullChannel(other: int, dbID: int, now: Time) returns (s: Scheduler)
    requires other != dbID
    ensures s.Valid() && dbID in s.tasks && s.Stranded(s.tasks[dbID])
  {
    hide HeapLaws.Heap, Placed, Scheduler.KeepsTrack;
    var first;
    s, first := FirstSent(1, 1, other, now);
    s.ScheduleImmediate(dbID, now);
  }
}
