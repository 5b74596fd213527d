/** What holds over whole runs of the in-memory queue: which operations can make a task
    vanish, the order in which tasks are delivered, and when the queue stays free of
    duplicates. */
module MemoryRuns {
  import opened Tasks
  import opened Sequences
  import opened MemoryQueue

  // ------------------------------------------------------------- draining

  function IsReady(now: real): Entry -> bool { (e: Entry) => e.Ready(now) }

  function IsDelayed(now: real): Entry -> bool { (e: Entry) => !e.Ready(now) }

  /** Ready, and of this priority and age. */
  function IsReadyAt(now: real, priority: int, createdAt: real): Entry -> bool {
    (e: Entry) => e.Ready(now) && e.priority == priority && e.createdAt == createdAt
  }

  function IsAt(priority: int, createdAt: real): Entry -> bool {
    (e: Entry) => e.priority == priority && e.createdAt == createdAt
  }

  /** The entries that repeated scans take out of a deque, in order. */
  function Taken(es: seq<Entry>, now: real): seq<Entry>
    decreases |es|
  {
    match Best(es, now, |es|)
    case None => []
    case Some(k) => [es[k]] + Taken(Without(es, k), now)
  }

  /** What they leave behind. */
  function Left(es: seq<Entry>, now: real): seq<Entry>
    decreases |es|
  {
    match Best(es, now, |es|)
    case None => es
    case Some(k) => Left(Without(es, k), now)
  }

  /** The delayed entries are left in their original order. */
  lemma {:induction false} LeavesTheDelayed(es: seq<Entry>, now: real)
    ensures Left(es, now) == Filter(es, IsDelayed(now))
    decreases |es|
  {
    ScanFindsFirstBest(es, now, |es|);
    match Best(es, now, |es|)
    case None => FilterAll(es, IsDelayed(now));
    case Some(k) =>
      FilterSplit(es, k, IsDelayed(now));
      LeavesTheDelayed(Without(es, k), now);
  }

  /** Stability: among ready entries of one priority and age, deque order is kept. */
  lemma {:induction false} TakesStably(es: seq<Entry>, now: real, p: int, c: real)
    ensures Filter(Taken(es, now), IsAt(p, c)) == Filter(es, IsReadyAt(now, p, c))
    decreases |es|
  {
    ScanFindsFirstBest(es, now, |es|);
    match Best(es, now, |es|)
    case None => FilterNone(es, IsReadyAt(now, p, c));
    case Some(k) =>
      TakesStably(Without(es, k), now, p, c);
      StableStep(es, k, now, p, c, Taken(Without(es, k), now));
  }

  lemma StableStep(es: seq<Entry>, k: nat, now: real, p: int, c: real, rest: seq<Entry>)
    requires IsFirstBest(es, now, |es|, k)
    requires Filter(rest, IsAt(p, c)) == Filter(Without(es, k), IsReadyAt(now, p, c))
    ensures Filter([es[k]] + rest, IsAt(p, c)) == Filter(es, IsReadyAt(now, p, c))
  {
    hide Filter;
    var f := IsReadyAt(now, p, c);
    FilterSplit(es, k, f);
    FilterConcat([es[k]], rest, IsAt(p, c));
    FilterOne(es[k], IsAt(p, c));
    if f(es[k]) {
      assert forall i :: 0 <= i < k ==> !f(es[..k][i]);
      FilterNone(es[..k], f);
    }
  }

  /** Exactly the ready entries are taken, each as often as it was there. */
  lemma {:induction false} TakesTheReady(es: seq<Entry>, now: real)
    ensures multiset(Taken(es, now)) == multiset(Filter(es, IsReady(now)))
    decreases |es|
  {
    ScanFindsFirstBest(es, now, |es|);
    match Best(es, now, |es|)
    case None => FilterNone(es, IsReady(now));
    case Some(k) =>
      FilterSplit(es, k, IsReady(now));
      TakesTheReady(Without(es, k), now);
      var a, b := Filter(es[..k], IsReady(now)), Filter(es[k + 1..], IsReady(now));
      assert multiset(a + [es[k]] + b) == multiset{es[k]} + multiset(a + b);
  }

  lemma {:induction false} TakenAreReady(es: seq<Entry>, now: real)
    ensures forall e :: e in Taken(es, now) ==> e in es && e.Ready(now)
    decreases |es|
  {
    ScanFindsFirstBest(es, now, |es|);
    match Best(es, now, |es|)
    case None =>
    case Some(k) => TakenAreReady(Without(es, k), now);
  }

  /** No entry is taken before one that outranks it: priority first, then age. */
  lemma {:induction false} TakesInOrder(es: seq<Entry>, now: real, i: nat, j: nat)
    requires i < j < |Taken(es, now)|
    ensures var e, d := Taken(es, now)[i], Taken(es, now)[j];
            d.priority < e.priority || (d.priority == e.priority && e.createdAt <= d.createdAt)
    decreases |es|
  {
    ScanFindsFirstBest(es, now, |es|);
    var k := Best(es, now, |es|).value;
    var rest := Taken(Without(es, k), now);
    if i > 0 {
      TakesInOrder(Without(es, k), now, i - 1, j - 1);
    } else {
      TakenAreReady(Without(es, k), now);
      assert rest[j - 1] in rest;
      assert rest[j - 1] in es;
    }
  }

  /** Repeated dequeues at one clock until None: what they return and what they leave. */
  function Drain(m: Mem, now: real, timeout: real): (seq<Entry>, Mem)
    requires 0.0 < timeout
    decreases |m.Reclaimed(now).pending|
  {
    match m.Dequeued(now, timeout)
    case (m', None) => ([], m')
    case (m', Some(e)) =>
      ClaimIsHeld(m, now, timeout);
      var (es, rest) := Drain(m', now, timeout);
      ([e] + es, rest)
  }

  /** What the next reclaim sees after a task was claimed: nothing new has expired. */
  lemma ClaimIsHeld(m: Mem, now: real, timeout: real)
    requires 0.0 < timeout && m.Dequeued(now, timeout).1.Some?
    ensures m.Dequeued(now, timeout).0.Reclaimed(now) == m.Dequeued(now, timeout).0
    ensures |m.Dequeued(now, timeout).0.pending| < |m.Reclaimed(now).pending|
  {
    var q := m.Reclaimed(now);
    var m' := m.Dequeued(now, timeout).0;
    FilterMembers(m.claims, IsHeld(now));
    forall i | 0 <= i < |m'.claims| ensures m'.claims[i].expiresAt > now {
      if m'.claims[i] in q.claims {} else {}
    }
    FilterAll(m'.claims, IsHeld(now));
    FilterNone(m'.claims, IsExpired(now));
  }

  /** Draining the queue at one clock is a stable sort of everything ready, waiting or
      expired: the dequeues return the scans' choices over the deque after one reclaim. */
  lemma {:induction false} DrainIsTaken(m: Mem, now: real, timeout: real)
    requires 0.0 < timeout
    ensures Drain(m, now, timeout).0 == Taken(m.Reclaimed(now).pending, now)
    ensures Drain(m, now, timeout).1.pending == Left(m.Reclaimed(now).pending, now)
    decreases |m.Reclaimed(now).pending|
  {
    match m.Dequeued(now, timeout)
    case (m', None) =>
    case (m', Some(e)) =>
      ClaimIsHeld(m, now, timeout);
      DrainIsTaken(m', now, timeout);
  }

  /** What a dequeue does where there is only one task. */
  lemma OnlyOne(e: Entry, now: real, timeout: real)
    requires e.Ready(now)
    ensures Mem([e], []).Dequeued(now, timeout) == (Mem([], [Claim(e, now + timeout)]), Some(e))
  {
    hide Filter, Best, IndexOf;
    var m := Mem([e], []);
    FilterNone([], IsExpired(now));
    FilterNone([], IsHeld(now));
    assert m.Reclaimed(now) == m;
    ScanFindsFirstBest([e], now, 1);
    assert IsFirstBest([e], now, 1, 0);
    assert Without([e], 0) == [];
    PutFirst(Claim(e, now + timeout));
  }

  lemma PutFirst(c: Claim)
    ensures Put([], c) == [c]
  {}

  // ------------------------------------------------------- runs of operations

  ghost predicate IsMemRun(states: seq<Mem>, ops: seq<Op>) {
    && |states| == |ops| + 1
    && forall i :: 0 <= i < |ops| ==> states[i + 1] == ops[i].Apply(states[i])
  }

  ghost predicate Waiting(m: Mem, id: Id) { exists i :: 0 <= i < |m.pending| && m.pending[i].id == id }

  ghost predicate InFlight(m: Mem, id: Id) { exists i :: 0 <= i < |m.claims| && m.claims[i].entry.id == id }

  ghost predicate IsActive(m: Mem, id: Id) { Waiting(m, id) || InFlight(m, id) }

  lemma PopKeeps(claims: seq<Claim>, id: Id, other: Id)
    requires exists i :: 0 <= i < |claims| && claims[i].entry.id == other
    requires id != other
    ensures exists i :: 0 <= i < |Pop(claims, id)| && Pop(claims, id)[i].entry.id == other
  {
    hide Without, IndexOf, ClaimIds;
    var i :| 0 <= i < |claims| && claims[i].entry.id == other;
    var k := IndexOf(ClaimIds(claims), id);
    if k.Some? {
      WithoutAt(claims, k.value);
      assert i != k.value;
      assert Pop(claims, id)[if i < k.value then i else i - 1] == claims[i];
    } else {
      assert Pop(claims, id) == claims;
    }
  }

  lemma PutKeeps(claims: seq<Claim>, c: Claim, other: Id)
    requires (exists i :: 0 <= i < |claims| && claims[i].entry.id == other) || c.entry.id == other
    ensures exists i :: 0 <= i < |Put(claims, c)| && Put(claims, c)[i].entry.id == other
  {
    var k := IndexOf(ClaimIds(claims), c.entry.id);
    var at := if k.Some? then k.value else |claims|;
    assert Put(claims, c)[at] == c;
    if c.entry.id != other {
      var i :| 0 <= i < |claims| && claims[i].entry.id == other;
      assert Put(claims, c)[i].entry.id == other;
    }
  }

  lemma ReclaimKeeps(m: Mem, now: real, id: Id)
    requires IsActive(m, id)
    ensures IsActive(m.Reclaimed(now), id)
  {
    var q := m.Reclaimed(now);
    if Waiting(m, id) {
      var i :| 0 <= i < |m.pending| && m.pending[i].id == id;
      assert q.pending[i].id == id;
    } else {
      var i :| 0 <= i < |m.claims| && m.claims[i].entry.id == id;
      var c := m.claims[i];
      FilterMembers(m.claims, IsExpired(now));
      FilterMembers(m.claims, IsHeld(now));
      if c.expiresAt <= now {
        var expired := Filter(m.claims, IsExpired(now));
        assert c in expired;
        var j :| 0 <= j < |expired| && expired[j] == c;
        assert q.pending[|m.pending| + j].id == id;
      } else {
        assert c in q.claims;
      }
    }
  }

  lemma DequeueKeeps(m: Mem, now: real, timeout: real, id: Id)
    requires IsActive(m, id)
    ensures IsActive(m.Dequeued(now, timeout).0, id)
  {
    ReclaimKeeps(m, now, id);
    var q := m.Reclaimed(now);
    var best := Best(q.pending, now, |q.pending|);
    if best.Some? {
      var k := best.value;
      var c := Claim(q.pending[k], now + timeout);
      if q.pending[k].id == id || InFlight(q, id) {
        PutKeeps(q.claims, c, id);
      } else {
        var i :| 0 <= i < |q.pending| && q.pending[i].id == id;
        assert Without(q.pending, k)[if i < k then i else i - 1].id == id;
      }
    }
  }

  /** No operation but an ack or a dead-lettering nack of a task makes it vanish. */
  lemma ActiveStep(m: Mem, op: Op, id: Id)
    requires IsActive(m, id) && !op.Removes(id)
    ensures IsActive(op.Apply(m), id)
  {
    match op
    case EnqueueOp(e) =>
      if Waiting(m, id) {
        var i :| 0 <= i < |m.pending| && m.pending[i].id == id;
        assert op.Apply(m).pending[i].id == id;
      }
    case DequeueOp(now, timeout) => DequeueKeeps(m, now, timeout, id);
    case AckOp(other) =>
      if InFlight(m, id) { PopKeeps(m.claims, other, id); }
    case NackOp(e, requeue) =>
      var m' := op.Apply(m);
      if e.id == id {
        assert m'.pending[|m.pending|].id == id;
      } else if InFlight(m, id) {
        PopKeeps(m.claims, e.id, id);
      } else {
        var i :| 0 <= i < |m.pending| && m.pending[i].id == id;
        assert m'.pending[i].id == id;
      }
    case ChangeOp(other, retries, availableAt) =>
      var m' := op.Apply(m);
      assert PendingIds(m'.pending) == PendingIds(m.pending) && ClaimIds(m'.claims) == ClaimIds(m.claims);
      if Waiting(m, id) {
        var i :| 0 <= i < |m.pending| && m.pending[i].id == id;
        assert m'.pending[i].id == id;
      } else {
        var i :| 0 <= i < |m.claims| && m.claims[i].entry.id == id;
        assert m'.claims[i].entry.id == id;
      }
  }

  /** In every run, late settles and duplicates included: once enqueued, a task stays active
      until an ack or a dead-lettering nack of that very task. */
  lemma {:induction false} ActiveUntilRemoved(states: seq<Mem>, ops: seq<Op>, j: nat, i: nat, id: Id)
    requires IsMemRun(states, ops) && j < i < |states|
    requires ops[j].EnqueueOp? && ops[j].entry.id == id
    requires forall k :: j < k < i ==> !ops[k].Removes(id)
    ensures IsActive(states[i], id)
    decreases i
  {
    if i == j + 1 {
      assert states[i].pending[|states[j].pending|].id == id;
    } else {
      ActiveUntilRemoved(states, ops, j, i - 1, id);
      ActiveStep(states[i - 1], ops[i - 1], id);
    }
  }

  /** An ack ends a task's activity exactly when the task is not also waiting; after a late
      nack it can be. */
  lemma AckRemovesIff(m: Mem, id: Id)
    requires Distinct(ClaimIds(m.claims))
    ensures !IsActive(m.Acked(id), id) <==> !Waiting(m, id)
  {
    var k := IndexOf(ClaimIds(m.claims), id);
    if k.Some? {
      forall i | 0 <= i < |m.Acked(id).claims| ensures m.Acked(id).claims[i].entry.id != id {
        var was := if i < k.value then i else i + 1;
        assert m.Acked(id).claims[i] == m.claims[was];
        assert ClaimIds(m.claims)[was] != ClaimIds(m.claims)[k.value];
      }
    }
  }

  // ------------------------------------------------------------ timely runs

  /** Every task in the queue, as often as it is queued. */
  function Ids(m: Mem): multiset<Id> {
    multiset(PendingIds(m.pending)) + multiset(ClaimIds(m.claims))
  }

  /** No task is queued twice, in the deque, in the dict, or in both. */
  ghost predicate Clean(m: Mem) { forall id :: Ids(m)[id] <= 1 }

  /** Enqueued tasks are new, and whatever is acked or nacked is claimed at that moment. */
  predicate Timely(m: Mem, op: Op) {
    match op
    case EnqueueOp(e) => e.id !in Ids(m)
    case DequeueOp(_, _) => true
    case AckOp(id) => id in ClaimIds(m.claims)
    case NackOp(e, _) => e.id in ClaimIds(m.claims)
    case ChangeOp(id, _, _) => id in ClaimIds(m.claims)
  }

  /** What an operation does to the tasks in the queue. */
  function IdsAfter(ids: multiset<Id>, op: Op): multiset<Id> {
    match op
    case EnqueueOp(e) => ids + multiset{e.id}
    case DequeueOp(_, _) => ids
    case AckOp(id) => ids - multiset{id}
    case NackOp(e, requeue) => if requeue then ids else ids - multiset{e.id}
    case ChangeOp(_, _, _) => ids
  }

  lemma {:induction false} IdsOfFilter(claims: seq<Claim>, now: real)
    ensures multiset(ClaimIds(claims)) ==
            multiset(ClaimIds(Filter(claims, IsExpired(now)))) + multiset(ClaimIds(Filter(claims, IsHeld(now))))
  {
    if claims != [] {
      var n, c := |claims| - 1, claims[|claims| - 1];
      IdsOfFilter(claims[..n], now);
      var f, h := Filter(claims[..n], IsExpired(now)), Filter(claims[..n], IsHeld(now));
      ClaimIdsGrow(claims[..n], c);
      assert claims == claims[..n] + [c];
      if c.expiresAt <= now {
        assert Filter(claims, IsExpired(now)) == f + [c] && Filter(claims, IsHeld(now)) == h;
        ClaimIdsGrow(f, c);
      } else {
        assert Filter(claims, IsExpired(now)) == f && Filter(claims, IsHeld(now)) == h + [c];
        ClaimIdsGrow(h, c);
      }
    }
  }

  lemma ClaimIdsGrow(claims: seq<Claim>, c: Claim)
    ensures multiset(ClaimIds(claims + [c])) == multiset(ClaimIds(claims)) + multiset{c.entry.id}
  {
    assert ClaimIds(claims + [c]) == ClaimIds(claims) + [c.entry.id];
  }

  lemma ReclaimMovesIds(m: Mem, now: real)
    ensures Ids(m.Reclaimed(now)) == Ids(m)
  {
    hide Filter;
    IdsOfFilter(m.claims, now);
    var expired := Filter(m.claims, IsExpired(now));
    assert PendingIds(m.Reclaimed(now).pending) == PendingIds(m.pending) + ClaimIds(expired);
  }

  lemma PopRemovesId(m: Mem, id: Id)
    requires id in ClaimIds(m.claims)
    ensures Ids(m.Acked(id)) == Ids(m) - multiset{id}
  {
    var k := IndexOf(ClaimIds(m.claims), id).value;
    assert ClaimIds(Without(m.claims, k)) == Without(ClaimIds(m.claims), k);
    MultisetWithout(ClaimIds(m.claims), k);
  }

  lemma ClaimMovesId(q: Mem, k: nat, expiresAt: real)
    requires Clean(q) && k < |q.pending|
    ensures Ids(Mem(Without(q.pending, k), Put(q.claims, Claim(q.pending[k], expiresAt)))) == Ids(q)
  {
    var pids, e := PendingIds(q.pending), q.pending[k];
    assert PendingIds(Without(q.pending, k)) == Without(pids, k);
    MultisetWithout(pids, k);
    assert e.id !in ClaimIds(q.claims) by {
      assert pids[k] in multiset(pids);
      assert Ids(q)[e.id] <= 1;
    }
    var c := Claim(e, expiresAt);
    assert ClaimIds(q.claims + [c]) == ClaimIds(q.claims) + [e.id];
  }

  lemma DequeueMovesIds(m: Mem, now: real, timeout: real)
    requires Clean(m)
    ensures Ids(m.Dequeued(now, timeout).0) == Ids(m)
  {
    hide Ids, Put, Mem.Reclaimed;
    ReclaimMovesIds(m, now);
    var q := m.Reclaimed(now);
    var best := Best(q.pending, now, |q.pending|);
    if best.Some? { ClaimMovesId(q, best.value, now + timeout); }
  }

  /** In a clean queue a timely operation adds or removes exactly the task it is about. */
  lemma TimelyStep(m: Mem, op: Op)
    requires Clean(m) && Timely(m, op)
    ensures Ids(op.Apply(m)) == IdsAfter(Ids(m), op)
    ensures Clean(op.Apply(m))
  {
    hide Mem.Reclaimed, Mem.Dequeued, Mem.Changed, Mem.Acked, Mem.Enqueued, Mem.Nacked, Ids;
    match op
    case EnqueueOp(e) => EnqueueAddsId(m, e);
    case DequeueOp(now, timeout) => DequeueMovesIds(m, now, timeout);
    case AckOp(id) => PopRemovesId(m, id);
    case NackOp(e, requeue) => NackKeepsId(m, e, requeue);
    case ChangeOp(id, retries, availableAt) => ChangeKeepsIds(m, id, retries, availableAt);
  }

  lemma NackKeepsId(m: Mem, e: Entry, requeue: bool)
    requires e.id in ClaimIds(m.claims)
    ensures Ids(m.Nacked(e, requeue)) == if requeue then Ids(m) else Ids(m) - multiset{e.id}
  {
    hide Mem.Acked, Mem.Enqueued;
    PopRemovesId(m, e.id);
    EnqueueAddsId(m.Acked(e.id), e);
    assert e.id in Ids(m);
  }

  lemma ChangeKeepsIds(m: Mem, id: Id, retries: int, availableAt: Option<real>)
    ensures Ids(m.Changed(id, retries, availableAt)) == Ids(m)
  {
    var m' := m.Changed(id, retries, availableAt);
    assert PendingIds(m'.pending) == PendingIds(m.pending) && ClaimIds(m'.claims) == ClaimIds(m.claims);
  }

  lemma EnqueueAddsId(m: Mem, e: Entry)
    ensures Ids(m.Enqueued(e)) == Ids(m) + multiset{e.id}
  {
    assert PendingIds(m.pending + [e]) == PendingIds(m.pending) + [e.id];
  }

  function Enqueues(ops: seq<Op>): nat {
    if ops == [] then 0 else Enqueues(ops[..|ops| - 1]) + if ops[|ops| - 1].EnqueueOp? then 1 else 0
  }

  function Removals(ops: seq<Op>): nat {
    if ops == [] then 0
    else
      var last := ops[|ops| - 1];
      Removals(ops[..|ops| - 1]) + if last.AckOp? || (last.NackOp? && !last.requeue) then 1 else 0
  }

  /** In timely runs from the empty queue nothing is ever queued twice, and size() is the
      number of enqueues less the number of acks and dead-lettering nacks. */
  lemma {:induction false} TimelyRunsAreClean(states: seq<Mem>, ops: seq<Op>, i: nat)
    requires IsMemRun(states, ops) && i < |states| && states[0] == Mem([], [])
    requires forall k :: 0 <= k < |ops| ==> Timely(states[k], ops[k])
    ensures Clean(states[i])
    ensures states[i].Size() + Removals(ops[..i]) == Enqueues(ops[..i])
  {
    hide Clean, Timely, Ids, Op.Apply, Mem.Size;
    if i == 0 {
      assert ops[..0] == [];
      EmptyIsClean();
    } else {
      TimelyRunsAreClean(states, ops, i - 1);
      TimelyStep(states[i - 1], ops[i - 1]);
      SizeStep(states[i - 1], ops[i - 1]);
      assert ops[..i][..i - 1] == ops[..i - 1];
    }
  }

  lemma EmptyIsClean()
    ensures Clean(Mem([], [])) && Mem([], []).Size() == 0
  {}

  /** How a timely operation changes size(). */
  lemma SizeStep(m: Mem, op: Op)
    requires Clean(m) && Timely(m, op)
    ensures op.Apply(m).Size() + (if op.AckOp? || (op.NackOp? && !op.requeue) then 1 else 0) ==
            m.Size() + if op.EnqueueOp? then 1 else 0
  {
    hide Clean, Op.Apply, Mem.Size;
    TimelyStep(m, op);
    SizeIsIds(m);
    SizeIsIds(op.Apply(m));
    if op.AckOp? || op.NackOp? {
      var id := if op.AckOp? then op.id else op.entry.id;
      assert id in Ids(m);
    }
  }

  lemma SizeIsIds(m: Mem)
    ensures m.Size() == |Ids(m)|
  {}

  /** A nack for retry keeps the queue clean exactly when the task is not already waiting:
      a worker whose claim was reclaimed and not claimed again duplicates it. */
  lemma RetryKeepsCleanIff(m: Mem, e: Entry)
    requires Clean(m)
    ensures Clean(m.Nacked(e, true)) <==> e.id !in PendingIds(m.pending)
  {
    EnqueueAddsId(m.Acked(e.id), e);
    var ids := Ids(m.Acked(e.id));
    if e.id in ClaimIds(m.claims) {
      PopRemovesId(m, e.id);
      assert e.id in multiset(ClaimIds(m.claims));
      assert Ids(m)[e.id] <= 1;
    } else if e.id in PendingIds(m.pending) {
      assert (ids + multiset{e.id})[e.id] == 2 by { assert ids[e.id] >= 1; assert Ids(m)[e.id] <= 1; }
    }
  }

  // -------------------------------------------------------- bounded delivery

  /** Every queued task is available, and every claim has expired. */
  predicate AllDue(m: Mem, now: real) {
    && (forall i :: 0 <= i < |m.pending| ==> m.pending[i].Ready(now))
    && (forall i :: 0 <= i < |m.claims| ==> m.claims[i].expiresAt <= now && m.claims[i].entry.Ready(now))
  }

  /** The deque after one reclaim then holds everything, and all of it is ready. */
  lemma AllDueAfterReclaim(m: Mem, now: real)
    requires AllDue(m, now)
    ensures var q := m.Reclaimed(now);
            && q == Mem(m.pending + EntriesOf(m.claims), [])
            && multiset(PendingIds(q.pending)) == Ids(m)
  {
    hide Filter;
    FilterNone(m.claims, IsHeld(now));
    FilterAll(m.claims, IsExpired(now));
    assert PendingIds(m.pending + EntriesOf(m.claims)) == PendingIds(m.pending) + ClaimIds(m.claims);
  }

  lemma AllReady(es: seq<Entry>, now: real)
    requires forall i :: 0 <= i < |es| ==> es[i].Ready(now)
    ensures Filter(es, IsReady(now)) == es && Filter(es, IsDelayed(now)) == []
  {
    hide Filter;
    FilterAll(es, IsReady(now));
    FilterNone(es, IsDelayed(now));
  }

  /** Once everything is due, a clean queue delivers every task exactly once in size()
      dequeues, waiting and expired ones in one common order, and then returns None. */
  lemma BoundedDelivery(m: Mem, now: real, timeout: real)
    requires AllDue(m, now) && Clean(m) && 0.0 < timeout
    ensures var (es, rest) := Drain(m, now, timeout);
            && |es| == m.Size()
            && multiset(PendingIds(es)) == Ids(m) && Distinct(PendingIds(es))
            && (forall i, j :: 0 <= i < j < |es| ==>
                  es[j].priority < es[i].priority
                  || (es[j].priority == es[i].priority && es[i].createdAt <= es[j].createdAt))
            && rest.pending == []
  {
    hide Mem.Reclaimed, Ids, Drain, Taken, Left;
    var all := m.Reclaimed(now).pending;
    var (es, rest) := Drain(m, now, timeout);
    AllDueAfterReclaim(m, now);
    AllReady(all, now);
    DrainIsTaken(m, now, timeout);
    TakesTheReady(all, now);
    LeavesTheDelayed(all, now);
    SameImages(es, all, (e: Entry) => e.id, PendingIds(es), PendingIds(all));
    assert |multiset(es)| == |multiset(all)|;
    DistinctFromMultiset(PendingIds(es));
    forall i, j | 0 <= i < j < |es|
      ensures es[j].priority < es[i].priority
              || (es[j].priority == es[i].priority && es[i].createdAt <= es[j].createdAt)
    {
      TakesInOrder(all, now, i, j);
    }
  }
}
