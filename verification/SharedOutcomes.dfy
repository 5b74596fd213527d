/** The in-memory result backend files the queue's own task objects: exactly which calls undo
    an outcome that was stored. */
module SharedOutcomes {
  import opened Tasks
  import opened Sequences
  import opened MemoryQueue
  import opened MemoryRuns
  import opened MemoryResults

  predicate Outcome(b: InMemoryResultBackend, id: Id)
    reads b, if id in b.results then {b.results[id]} else {}
  {
    id in b.results && b.results[id].status.Terminal()
  }

  /** A dequeue undoes a stored outcome exactly when its object is an overdue claim or the one
      that the dequeue picks. */
  method DequeueUndoesIff(q: InMemoryQueue, b: InMemoryResultBackend, id: Id, now: real, timeout: real)
    returns (r: Option<Task>)
    requires q.Valid() && Outcome(b, id)
    modifies q, q.Held()`status, q.Held()`startedAt
    ensures b.results == old(b.results)
    ensures var t := b.results[id];
            Outcome(b, id) <==> t !in OverdueTasks(old(q.claimed), now) && old(q.Picks(now)) != Some(t)
  {
    hide PendingModel, ClaimModel, TasksOf, Picked, Mem.Dequeued, Keys, Distinct;
    OverdueAreHeld(q.pending, q.claimed, now);
    r := q.DequeueRound(now, timeout);
  }

  lemma OverdueAreHeld(pending: seq<Task>, claimed: seq<Claimed>, now: real)
    ensures OverdueTasks(claimed, now) <= TasksOf(pending, claimed)
  {}

  /** A nack undoes a stored outcome exactly when it puts that very object back; so a late
      worker's retry undoes the outcome of the worker that overtook it. */
  method NackUndoesIff(q: InMemoryQueue, b: InMemoryResultBackend, id: Id, task: Task, requeue: bool)
    requires q.Valid() && Outcome(b, id)
    modifies q, task`status, task`startedAt
    ensures b.results == old(b.results)
    ensures Outcome(b, id) <==> !(requeue && b.results[id] == task)
  {
    hide PendingModel, ClaimModel, TasksOf, Keys, Distinct;
    q.Nack(task, requeue);
  }

  // --------------------------------------------------------- two scenarios

  lemma WinnerFirst(e: Entry, c: Claim, now: real, timeout: real)
    requires e.Ready(now) && c.expiresAt <= now && e.priority > c.entry.priority
    ensures Mem([e], [c]).Dequeued(now, timeout) == (Mem([c.entry], [Claim(e, now + timeout)]), Some(e))
  {
    hide Filter, Best, IndexOf;
    var m, es := Mem([e], [c]), [e, c.entry];
    FilterOne(c, IsExpired(now));
    FilterOne(c, IsHeld(now));
    assert m.Reclaimed(now) == Mem(es, []);
    PutFirst(Claim(e, now + timeout));
    ScanFindsFirstBest(es, now, 2);
    assert IsFirstBest(es, now, 2, 0);
    assert Without(es, 0) == [c.entry];
  }

  /** A worker claims the only task for a second. */
  method OneClaimed(d: TaskData) returns (q: InMemoryQueue, t: Task)
    requires d.availableAt == None
    ensures fresh(q) && fresh(t) && q.Valid() && t.Data().AsRunning(0.0) == d.AsRunning(0.0)
    ensures q.pending == [] && q.claimed == [Claimed(t, 1.0)]
  {
    hide PendingModel, ClaimModel, Mem.Dequeued, Keys, TasksOf, Picked;
    q := new InMemoryQueue();
    t := new Task(d);
    q.Enqueue(t);
    OnlyOne(EntryOf(t), 0.0, 1.0);
    assert q.Model() == Mem([EntryOf(t)], []);
    assert q.pending == [t];
    HeldOnly(t);
    var r := q.DequeueRound(0.0, 1.0);
    assert |q.pending| == |q.Model().pending| == 0 && |q.claimed| == |q.Model().claims| == 1;
    assert q.claimed[0] == Claimed(t, 1.0);
  }

  lemma HeldOnly(t: Task)
    ensures TasksOf([t], []) == {t}
  {}

  /** A worker stores its outcome, its claim expires before it acks, and the next dequeue
      hands out the same object. */
  method RedeliveryUndoesOutcome(d: TaskData) returns (b: InMemoryResultBackend)
    requires d.availableAt == None
    ensures d.id in b.results && !Outcome(b, d.id)
  {
    var q, t := OneClaimed(d);
    b := new InMemoryResultBackend();
    t.MarkSuccess(Null, 0.5);
    b.Store(t);
    assert q.claimed[0].task in OverdueTasks(q.claimed, 2.0);
    var r := DequeueUndoesIff(q, b, d.id, 2.0, 1.0);
  }

  lemma PicksOnly(q: InMemoryQueue, t: Task, now: real)
    requires q.pending == [t] && (forall c :: c in q.claimed ==> c.expiresAt > now) && t.availableAt == None
    ensures q.Picks(now) == Some(t)
  {
    FilterNone(q.claimed, Overdue(now));
    assert Lined(q.pending, q.claimed, now) == [t];
    var es := PendingModel([t]);
    assert es == [EntryOf(t)];
    ScanFindsFirstBest(es, now, 1);
    assert IsFirstBest(es, now, 1, 0);
  }

  /** The claim on t has expired, and a dequeue has put t back into the deque but claimed a
      more urgent task. */
  method OneReleased(d: TaskData, urgent: TaskData) returns (q: InMemoryQueue, t: Task)
    requires d.availableAt == urgent.availableAt == None && d.id != urgent.id && d.priority < urgent.priority
    ensures fresh(q) && fresh(t) && q.Valid() && t.Data().AsRunning(0.0) == d.AsRunning(0.0)
    ensures q.pending == [t] && (forall c :: c in q.claimed ==> c.expiresAt == 102.0 && fresh(c.task))
  {
    hide PendingModel, ClaimModel, Mem.Dequeued, Keys, TasksOf, Picked;
    q, t := OneClaimed(d);
    var u := new Task(urgent);
    q.Enqueue(u);
    WinnerFirst(EntryOf(u), Claim(EntryOf(t), 1.0), 2.0, 100.0);
    assert q.Model() == Mem([EntryOf(u)], [Claim(EntryOf(t), 1.0)]);
    assert q.pending == [u] && q.claimed == [Claimed(t, 1.0)];
    HeldBoth(u, Claimed(t, 1.0));
    var r := q.DequeueRound(2.0, 100.0);
    AllHeld(q.pending, q.claimed);
    assert |q.pending| == |q.Model().pending| == 1 && q.Model().pending[0].id == t.id;
    assert |q.claimed| == |q.Model().claims| == 1;
    assert q.pending[0] == t;
  }

  lemma HeldBoth(u: Task, c: Claimed)
    ensures TasksOf([u], [c]) == {u, c.task}
  {}

  /** A worker stores its outcome after its claim was reclaimed, while its task waits in the
      deque; the next dequeue hands out the same object. */
  method LateStoreIsUndone(d: TaskData, urgent: TaskData) returns (b: InMemoryResultBackend)
    requires d.availableAt == urgent.availableAt == None && d.id != urgent.id && d.priority < urgent.priority
    ensures d.id in b.results && !Outcome(b, d.id)
  {
    var q, t := OneReleased(d, urgent);
    b := new InMemoryResultBackend();
    t.MarkSuccess(Null, 2.5);
    b.Store(t);
    PicksOnly(q, t, 3.0);
    var r := DequeueUndoesIff(q, b, d.id, 3.0, 1.0);
  }

  // ------------------------------------------------- what get makes of it

  /** The write to an object that turns it from what it says into what d says. */
  function Becomes(t: Task, d: TaskData): Write { Write(t, Told(d.status, d.result, d.error)) }

  /** A redelivery marks the object running, a retry or a reclaim marks it pending: if that
      falls between the wait of get and its test of the status, get raises its
      unexpected-status error, although a success was stored. */
  method MarkSurprisesGet(d: TaskData, running: bool, now: real) returns (r: Got)
    ensures r == RaisedUnexpected
  {
    var t := new Task(d);
    var b := new InMemoryResultBackend();
    t.MarkSuccess(Null, 0.5);
    b.Store(t);
    var marked := if running then t.Data().AsRunning(now) else t.Data().AsPending();
    var polls := [MemoryResults.Poll([], [], now)];
    OneLook(b, t, polls[0], Becomes(t, marked));
    var get := new InMemoryAsyncResult(t.id, b);
    ghost var n;
    r, n := get.Get(None, polls, [Becomes(t, marked)], [t]);
  }

  lemma OneLook(b: InMemoryResultBackend, t: Task, p: MemoryResults.Poll, w: Write)
    requires b.results == map[t.id := t] && t.status.Terminal() && p.stored == [] && p.writes == [] && w.task == t
    ensures b.results == Filed(map[], [t])
    ensures ReadyAt(b.results, [p], 1, t.id)
    ensures ToldAt(b.results, [p], 1, [w], t.id) == Some(w.told)
  {
    assert [t][..0] == [] && [p][..1] == [p] && [p][..0] == [] && [w][..0] == [];
    assert StoredIn([p]) == [] && WritesIn([p]) == [];
    assert [] + [w] == [w];
  }
}
