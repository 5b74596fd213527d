/** Mutual exclusion in the in-memory queue: a task is not handed out while an earlier claim
    on it is unexpired, unless somebody acked or nacked it in between. */
module MemoryExclusion {
  import opened Tasks
  import opened Sequences
  import opened MemoryQueue
  import opened MemoryRuns

  /** Somebody, the holder or not, acks or nacks the task. */
  predicate Settles(op: Op, id: Id) { (op.AckOp? && op.id == id) || (op.NackOp? && op.entry.id == id) }

  /** The task is in the queue once only, claimed until this moment. */
  ghost predicate HeldUntil(m: Mem, id: Id, until: real) {
    Ids(m)[id] == 1 && exists i :: 0 <= i < |m.claims| && m.claims[i].entry.id == id && m.claims[i].expiresAt == until
  }

  /** The operation is a dequeue that hands out the task. */
  predicate HandsOut(m: Mem, op: Op, id: Id) {
    op.DequeueOp? && m.Dequeued(op.now, op.timeout).1.Some? && m.Dequeued(op.now, op.timeout).1.value.id == id
  }

  lemma NotWaiting(m: Mem, id: Id, until: real)
    requires HeldUntil(m, id, until)
    ensures forall i :: 0 <= i < |m.pending| ==> m.pending[i].id != id
  {
    var k :| 0 <= k < |m.claims| && m.claims[k].entry.id == id && m.claims[k].expiresAt == until;
    assert ClaimIds(m.claims)[k] in multiset(ClaimIds(m.claims));
    forall i | 0 <= i < |m.pending| ensures m.pending[i].id != id {
      assert PendingIds(m.pending)[i] in multiset(PendingIds(m.pending));
    }
  }

  /** How often a task is queued after a claim. */
  lemma ClaimCounts(q: Mem, k: nat, expiresAt: real, id: Id)
    requires k < |q.pending| && Ids(q)[id] == 1
    ensures var m := Mem(Without(q.pending, k), Put(q.claims, Claim(q.pending[k], expiresAt)));
            Ids(m)[id] == 1
  {
    var pids, cids, e := PendingIds(q.pending), ClaimIds(q.claims), q.pending[k];
    assert PendingIds(Without(q.pending, k)) == Without(pids, k);
    MultisetWithout(pids, k);
    var c := Claim(e, expiresAt);
    var at := IndexOf(cids, e.id);
    if at.Some? {
      assert ClaimIds(q.claims[at.value := c]) == cids;
      assert cids[at.value] in multiset(cids) && pids[k] in multiset(pids);
    } else {
      assert ClaimIds(q.claims + [c]) == cids + [e.id];
    }
  }

  lemma ReclaimHolds(m: Mem, now: real, id: Id, until: real)
    requires HeldUntil(m, id, until) && now < until
    ensures HeldUntil(m.Reclaimed(now), id, until)
  {
    ReclaimMovesIds(m, now);
    FilterMembers(m.claims, IsHeld(now));
    var k :| 0 <= k < |m.claims| && m.claims[k].entry.id == id && m.claims[k].expiresAt == until;
    assert m.claims[k] in m.Reclaimed(now).claims;
  }

  /** Whoever gets a task that is queued once holds it. */
  lemma HandOutHolds(m: Mem, op: Op, id: Id)
    requires HandsOut(m, op, id) && Ids(m)[id] <= 1
    ensures HeldUntil(op.Apply(m), id, op.now + op.timeout)
  {
    hide Mem.Reclaimed, Put, Ids;
    var q := m.Reclaimed(op.now);
    var k := Best(q.pending, op.now, |q.pending|).value;
    var c := Claim(q.pending[k], op.now + op.timeout);
    ReclaimMovesIds(m, op.now);
    WaitingCounts(q, k);
    ClaimCounts(q, k, op.now + op.timeout, id);
    PutAt(q.claims, c);
  }

  lemma WaitingCounts(q: Mem, k: nat)
    requires k < |q.pending|
    ensures Ids(q)[q.pending[k].id] >= 1
  {
    assert PendingIds(q.pending)[k] in multiset(PendingIds(q.pending));
  }

  lemma PutAt(claims: seq<Claim>, c: Claim)
    ensures c in Put(claims, c)
    ensures forall d | d in claims && d.entry.id != c.entry.id :: d in Put(claims, c)
  {
    var at := IndexOf(ClaimIds(claims), c.entry.id);
    assert Put(claims, c)[if at.Some? then at.value else |claims|] == c;
    forall d | d in claims && d.entry.id != c.entry.id ensures d in Put(claims, c) {
      var i :| 0 <= i < |claims| && claims[i] == d;
      assert Put(claims, c)[i] == d;
    }
  }

  lemma DequeueHolds(m: Mem, op: Op, id: Id, until: real)
    requires HeldUntil(m, id, until) && op.DequeueOp? && op.now < until
    ensures HeldUntil(op.Apply(m), id, until) && !HandsOut(m, op, id)
  {
    hide Mem.Reclaimed, Put, Ids;
    var q := m.Reclaimed(op.now);
    ReclaimHolds(m, op.now, id, until);
    NotWaiting(q, id, until);
    var best := Best(q.pending, op.now, |q.pending|);
    if best.Some? {
      var c := Claim(q.pending[best.value], op.now + op.timeout);
      ClaimCounts(q, best.value, op.now + op.timeout, id);
      PutAt(q.claims, c);
      var k :| 0 <= k < |q.claims| && q.claims[k].entry.id == id && q.claims[k].expiresAt == until;
      assert q.claims[k] in Put(q.claims, c);
    }
  }

  lemma PopHolds(m: Mem, id: Id, other: Id, until: real)
    requires HeldUntil(m, id, until) && other != id
    ensures HeldUntil(m.Acked(other), id, until)
  {
    hide Without;
    var k :| 0 <= k < |m.claims| && m.claims[k].entry.id == id && m.claims[k].expiresAt == until;
    var at := IndexOf(ClaimIds(m.claims), other);
    if at.Some? {
      PopRemovesId(m, other);
      WithoutAt(m.claims, at.value);
      assert m.Acked(other).claims[if k < at.value then k else k - 1] == m.claims[k];
    }
  }

  /** No operation but an ack, a nack or a new enqueue of the task touches an unexpired claim
      on it, and no dequeue hands it out. */
  lemma HeldStep(m: Mem, op: Op, id: Id, until: real)
    requires HeldUntil(m, id, until) && !Settles(op, id) && !(op.EnqueueOp? && op.entry.id == id)
    requires op.DequeueOp? ==> op.now < until
    ensures HeldUntil(op.Apply(m), id, until) && !HandsOut(m, op, id)
  {
    match op
    case DequeueOp(now, timeout) => DequeueHolds(m, op, id, until);
    case AckOp(other) => PopHolds(m, id, other, until);
    case EnqueueOp(e) => EnqueueAddsId(m, e);
    case NackOp(e, requeue) =>
      PopHolds(m, id, e.id, until);
      EnqueueAddsId(m.Acked(e.id), e);
    case ChangeOp(other, retries, at) =>
      ChangeKeepsIds(m, other, retries, at);
      var k :| 0 <= k < |m.claims| && m.claims[k].entry.id == id && m.claims[k].expiresAt == until;
      assert op.Apply(m).claims[k].entry.id == id && op.Apply(m).claims[k].expiresAt == until;
  }

  lemma {:induction false} HeldAlong(states: seq<Mem>, ops: seq<Op>, id: Id, j: nat, i: nat)
    requires IsMemRun(states, ops) && j < i < |states|
    requires HandsOut(states[j], ops[j], id) && Ids(states[j])[id] <= 1
    requires forall k :: j < k < i ==> !Settles(ops[k], id) && !(ops[k].EnqueueOp? && ops[k].entry.id == id)
    requires forall k :: j < k < i && ops[k].DequeueOp? ==> ops[k].now < ops[j].now + ops[j].timeout
    ensures HeldUntil(states[i], id, ops[j].now + ops[j].timeout)
    decreases i
  {
    if i == j + 1 {
      HandOutHolds(states[j], ops[j], id);
    } else {
      HeldAlong(states, ops, id, j, i - 1);
      HeldStep(states[i - 1], ops[i - 1], id, ops[j].now + ops[j].timeout);
    }
  }

  /** In all runs: if a task that was queued once is handed out, and handed out again before
      the first claim on it expires, then it was acked or nacked in between, by the holder or
      by somebody late. */
  lemma SharedOnlyAfterSettle(states: seq<Mem>, ops: seq<Op>, id: Id, j: nat, i: nat)
    requires IsMemRun(states, ops) && j < i < |ops|
    requires HandsOut(states[j], ops[j], id) && Ids(states[j])[id] <= 1
    requires forall k :: j < k < i ==> !(ops[k].EnqueueOp? && ops[k].entry.id == id)
    requires forall k :: j < k <= i && ops[k].DequeueOp? ==> ops[k].now < ops[j].now + ops[j].timeout
    requires HandsOut(states[i], ops[i], id)
    ensures exists k :: j < k < i && Settles(ops[k], id)
  {
    if forall k :: j < k < i ==> !Settles(ops[k], id) {
      HeldAlong(states, ops, id, j, i);
      HeldStep(states[i], ops[i], id, ops[j].now + ops[j].timeout);
    }
  }

  // --------------------------------------------------- what late settles do

  /** A late nack for retry, and only that, puts a held task back to waiting while it is held
      elsewhere; a late ack or dead letter drops it altogether, whatever becomes of the holder. */
  lemma LateSettleFreesIff(m: Mem, op: Op, id: Id, until: real)
    requires HeldUntil(m, id, until) && Settles(op, id)
    ensures Waiting(op.Apply(m), id) <==> op.NackOp? && op.requeue
    ensures IsActive(op.Apply(m), id) <==> op.NackOp? && op.requeue
    ensures !InFlight(op.Apply(m), id)
  {
    var k :| 0 <= k < |m.claims| && m.claims[k].entry.id == id && m.claims[k].expiresAt == until;
    assert ClaimIds(m.claims)[k] == id;
    NotWaiting(m, id, until);
    PopRemovesId(m, id);
    var popped := m.Acked(id);
    assert Ids(popped)[id] == 0;
    forall i | 0 <= i < |popped.claims| ensures popped.claims[i].entry.id != id {
      assert ClaimIds(popped.claims)[i] in multiset(ClaimIds(popped.claims));
    }
    if op.NackOp? && op.requeue {
      assert op.Apply(m).pending[|m.pending|].id == id;
    }
  }

  function Sample(): Entry { Entry(7, 0, 0.0, None, 0, 1) }

  /** The only task is handed out for a second, and after two seconds again for a hundred. */
  lemma Overtaken() returns (states: seq<Mem>, ops: seq<Op>)
    ensures IsMemRun(states, ops) && |ops| == 3 && states[0] == Mem([], [])
    ensures ops[2] == DequeueOp(2.0, 100.0) && HandsOut(states[2], ops[2], 7)
    ensures states[3] == Mem([], [Claim(Sample(), 102.0)])
  {
    hide Mem.Dequeued;
    var e := Sample();
    var m1, m2 := Mem([e], []), Mem([], [Claim(e, 1.0)]);
    OnlyOne(e, 0.0, 1.0);
    ReclaimedOne(e, 1.0, 2.0, 100.0);
    states := [Mem([], []), m1, m2, Mem([], [Claim(e, 102.0)])];
    ops := [EnqueueOp(e), DequeueOp(0.0, 1.0), DequeueOp(2.0, 100.0)];
  }

  lemma ReclaimedOne(e: Entry, until: real, now: real, timeout: real)
    requires e.Ready(now) && until <= now
    ensures Mem([], [Claim(e, until)]).Dequeued(now, timeout) == (Mem([], [Claim(e, now + timeout)]), Some(e))
  {
    hide Filter, Best, IndexOf;
    var m, c := Mem([], [Claim(e, until)]), Claim(e, until);
    FilterOne(c, IsExpired(now));
    FilterOne(c, IsHeld(now));
    assert m.Reclaimed(now) == Mem([e], []);
    ScanFindsFirstBest([e], now, 1);
    assert IsFirstBest([e], now, 1, 0);
    assert Without([e], 0) == [];
    PutFirst(Claim(e, now + timeout));
  }

  /** The first worker nacks late, and a third one gets the task that the second still holds. */
  lemma LateNackShares() returns (states: seq<Mem>, ops: seq<Op>)
    ensures IsMemRun(states, ops) && |ops| == 5 && states[0] == Mem([], [])
    ensures HandsOut(states[2], ops[2], 7) && HandsOut(states[4], ops[4], 7)
    ensures ops[4].now < ops[2].now + ops[2].timeout
  {
    hide Mem.Dequeued;
    states, ops := Overtaken();
    var e := Sample().(retries := 1);
    OnlyOne(e, 3.0, 100.0);
    PopOnly(Claim(Sample(), 102.0));
    states := states + [Mem([e], []), Mem([], [Claim(e, 103.0)])];
    ops := ops + [NackOp(e, true), DequeueOp(3.0, 100.0)];
  }

  /** Or it acks late, and the task that the second worker holds is gone from the queue. */
  lemma LateAckDrops() returns (states: seq<Mem>, ops: seq<Op>)
    ensures IsMemRun(states, ops) && |ops| == 4 && states[0] == Mem([], [])
    ensures HandsOut(states[2], ops[2], 7) && ops[2].now + ops[2].timeout == 102.0
    ensures ops[3] == AckOp(7) && states[4] == Mem([], [])
  {
    hide Mem.Dequeued;
    states, ops := Overtaken();
    PopOnly(Claim(Sample(), 102.0));
    states, ops := states + [Mem([], [])], ops + [AckOp(7)];
  }

  lemma PopOnly(c: Claim)
    ensures Pop([c], c.entry.id) == []
  {}
}
