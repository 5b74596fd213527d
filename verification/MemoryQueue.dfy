/** The in-memory queue (queue/memory.py): what its methods compute, and the class. */
module MemoryQueue {
  import opened Tasks
  import opened Sequences

  // ------------------------------------------------------------ the state

  /** The fields of a queued task that scheduling depends on. The queue itself never
      changes them; a worker may (Changed), in all places where its task object is queued. */
  datatype Entry = Entry(
    id: Id, priority: int, createdAt: real, availableAt: Option<real>, retries: int, maxRetries: int)
  {
    predicate Ready(now: real) { Reached(availableAt, now) }

    function Changed(id: Id, retries: int, availableAt: Option<real>): Entry {
      if this.id == id then this.(retries := retries, availableAt := availableAt) else this
    }

    /** Beats the other in the scan of dequeue. */
    predicate Outranks(other: Entry) {
      Rank(priority, createdAt).Beats(Rank(other.priority, other.createdAt))
    }
  }

  datatype Claim = Claim(entry: Entry, expiresAt: real)

  /** pending is the deque; claims is the dict, in insertion order. */
  datatype Mem = Mem(pending: seq<Entry>, claims: seq<Claim>) {
    /** Expired claims go to the back of the deque in the order they were made. */
    function Reclaimed(now: real): Mem {
      Mem(pending + EntriesOf(Filter(claims, IsExpired(now))), Filter(claims, IsHeld(now)))
    }

    /** One round of dequeue: reclaim, then claim the first of the best ready entries. */
    function Dequeued(now: real, timeout: real): (Mem, Option<Entry>) {
      var q := Reclaimed(now);
      match Best(q.pending, now, |q.pending|)
      case None => (q, None)
      case Some(k) =>
        (Mem(Without(q.pending, k), Put(q.claims, Claim(q.pending[k], now + timeout))), Some(q.pending[k]))
    }

    function Enqueued(e: Entry): Mem { this.(pending := pending + [e]) }

    function Acked(id: Id): Mem { this.(claims := Pop(claims, id)) }

    function Nacked(e: Entry, requeue: bool): Mem {
      if requeue then Acked(e.id).Enqueued(e) else Acked(e.id)
    }

    /** A worker writes the fields of a task object that the queue shares, wherever it is
        queued. */
    function Changed(id: Id, retries: int, availableAt: Option<real>): Mem {
      Mem(seq(|pending|, i requires 0 <= i < |pending| => pending[i].Changed(id, retries, availableAt)),
          seq(|claims|, i requires 0 <= i < |claims| =>
              claims[i].(entry := claims[i].entry.Changed(id, retries, availableAt))))
    }

    function Size(): nat { |pending| + |claims| }
  }

  /** The position of id among dict keys. */
  function IndexOf(ids: seq<Id>, id: Id): (k: Option<nat>)
    ensures k.Some? ==> k.value < |ids| && ids[k.value] == id
    ensures k == None <==> id !in ids
  {
    if ids == [] then None
    else if ids[0] == id then Some(0)
    else match IndexOf(ids[1..], id)
         case Some(k) => Some(k + 1)
         case None => None
  }

  function ClaimIds(claims: seq<Claim>): (ids: seq<Id>)
    ensures |ids| == |claims| && forall i :: 0 <= i < |ids| ==> ids[i] == claims[i].entry.id
  {
    seq(|claims|, i requires 0 <= i < |claims| => claims[i].entry.id)
  }

  function PendingIds(pending: seq<Entry>): (ids: seq<Id>)
    ensures |ids| == |pending| && forall i :: 0 <= i < |ids| ==> ids[i] == pending[i].id
  {
    seq(|pending|, i requires 0 <= i < |pending| => pending[i].id)
  }

  /** claimed[id] = c: an existing key keeps its place. */
  function Put(claims: seq<Claim>, c: Claim): seq<Claim> {
    match IndexOf(ClaimIds(claims), c.entry.id)
    case Some(k) => claims[k := c]
    case None => claims + [c]
  }

  /** The order of a Python dict: a new key comes last, an old one keeps its place, and no
      other claim moves. */
  lemma PutOrder(claims: seq<Claim>, c: Claim)
    ensures (forall i :: 0 <= i < |claims| ==> claims[i].entry.id != c.entry.id) ==> Put(claims, c) == claims + [c]
    ensures (exists i :: 0 <= i < |claims| && claims[i].entry.id == c.entry.id) ==>
              && |Put(claims, c)| == |claims|
              && forall i :: 0 <= i < |claims| && claims[i].entry.id != c.entry.id ==> Put(claims, c)[i] == claims[i]
  {
    var k := IndexOf(ClaimIds(claims), c.entry.id);
    if i :| 0 <= i < |claims| && claims[i].entry.id == c.entry.id { assert ClaimIds(claims)[i] == c.entry.id; }
  }

  /** claimed.pop(id, None). */
  function Pop(claims: seq<Claim>, id: Id): seq<Claim> {
    match IndexOf(ClaimIds(claims), id)
    case Some(k) => Without(claims, k)
    case None => claims
  }

  function IsExpired(now: real): Claim -> bool { (c: Claim) => c.expiresAt <= now }

  function IsHeld(now: real): Claim -> bool { (c: Claim) => c.expiresAt > now }

  function EntriesOf(claims: seq<Claim>): (es: seq<Entry>)
    ensures |es| == |claims| && forall i :: 0 <= i < |es| ==> es[i] == claims[i].entry
  {
    seq(|claims|, i requires 0 <= i < |claims| => claims[i].entry)
  }

  /** The scan of dequeue over the first n entries. */
  function Best(es: seq<Entry>, now: real, n: nat): (k: Option<nat>)
    requires n <= |es|
    ensures k.Some? ==> k.value < n
  {
    if n == 0 then None
    else
      var best := Best(es, now, n - 1);
      if !es[n - 1].Ready(now) then best
      else if best == None || es[n - 1].Outranks(es[best.value]) then Some(n - 1)
      else best
  }

  // ------------------------------------------------------------- operations

  /** Any operation, by anyone, at any time; ChangeOp is a worker's write to its task object. */
  datatype Op =
    | EnqueueOp(entry: Entry)
    | DequeueOp(now: real, timeout: real)
    | AckOp(id: Id)
    | NackOp(entry: Entry, requeue: bool)
    | ChangeOp(id: Id, retries: int, availableAt: Option<real>)
  {
    function Apply(m: Mem): Mem {
      match this
      case EnqueueOp(e) => m.Enqueued(e)
      case DequeueOp(now, timeout) => m.Dequeued(now, timeout).0
      case AckOp(id) => m.Acked(id)
      case NackOp(e, requeue) => m.Nacked(e, requeue)
      case ChangeOp(id, retries, availableAt) => m.Changed(id, retries, availableAt)
    }

    /** An ack or a dead-lettering nack of id. */
    predicate Removes(id: Id) {
      (AckOp? && this.id == id) || (NackOp? && !requeue && entry.id == id)
    }
  }

  function ApplyAll(m: Mem, ops: seq<Op>): Mem {
    if ops == [] then m else ops[|ops| - 1].Apply(ApplyAll(m, ops[..|ops| - 1]))
  }

  /** One round of a waiting dequeue: what other threads did since the round before, and the
      time. */
  datatype Round = Round(ops: seq<Op>, now: real)

  /** The queue that round k of a waiting dequeue meets, when all rounds before it came to
      nothing. */
  function Met(m: Mem, rounds: seq<Round>, k: nat): Mem
    requires k < |rounds|
  {
    ApplyAll(if k == 0 then m else Met(m, rounds, k - 1).Reclaimed(rounds[k - 1].now), rounds[k].ops)
  }

  /** The queue that rounds leave behind when they all came to nothing. */
  function LeftBy(m: Mem, rounds: seq<Round>): Mem {
    if rounds == [] then m else Met(m, rounds, |rounds| - 1).Reclaimed(rounds[|rounds| - 1].now)
  }

  /** The first n rounds come to nothing. */
  predicate AllIdle(m: Mem, rounds: seq<Round>, timeout: real, n: nat)
    requires n <= |rounds|
  {
    forall k :: 0 <= k < n ==> Met(m, rounds, k).Dequeued(rounds[k].now, timeout).1 == None
  }

  lemma {:induction false} MetPrefix(m: Mem, rounds: seq<Round>, next: Round, k: nat)
    requires k < |rounds|
    ensures Met(m, rounds + [next], k) == Met(m, rounds, k)
  {
    hide ApplyAll, Mem.Reclaimed;
    if k > 0 { MetPrefix(m, rounds, next, k - 1); }
  }

  lemma NoRounds(m: Mem, timeout: real)
    ensures AllIdle(m, [], timeout, 0) && LeftBy(m, []) == m
  {}

  /** One round more: what it meets, and what it leaves if it comes to nothing. */
  lemma NextRound(m: Mem, rounds: seq<Round>, next: Round, timeout: real)
    requires AllIdle(m, rounds, timeout, |rounds|)
    ensures AllIdle(m, rounds + [next], timeout, |rounds|)
    ensures Met(m, rounds + [next], |rounds|).Dequeued(next.now, timeout).1 == None ==>
              AllIdle(m, rounds + [next], timeout, |rounds| + 1)
    ensures var met := Met(m, rounds + [next], |rounds|);
            && met == ApplyAll(LeftBy(m, rounds), next.ops)
            && (met.Dequeued(next.now, timeout).1 == None ==>
                  met.Dequeued(next.now, timeout).0 == LeftBy(m, rounds + [next]))
  {
    forall k | 0 <= k < |rounds| ensures Met(m, rounds + [next], k) == Met(m, rounds, k) {
      MetPrefix(m, rounds, next, k);
    }
  }

  // ------------------------------------------------------- what the scan finds

  /** Entry k is ready; every ready entry has a lower priority, or the same and is no older;
      and a ready entry before it that has the same priority is younger. */
  predicate IsFirstBest(es: seq<Entry>, now: real, n: nat, k: nat)
    requires n <= |es|
  {
    && k < n && es[k].Ready(now)
    && (forall j :: 0 <= j < n && es[j].Ready(now) ==>
          es[j].priority < es[k].priority
          || (es[j].priority == es[k].priority && es[k].createdAt <= es[j].createdAt))
    && (forall j :: 0 <= j < k && es[j].Ready(now) ==>
          es[j].priority < es[k].priority
          || (es[j].priority == es[k].priority && es[k].createdAt < es[j].createdAt))
  }

  lemma ReadyIff(e: Entry, now: real)
    ensures e.Ready(now) <==> e.availableAt == None || e.availableAt.value <= now
  {}

  /** The scan finds the first of the best ready entries, and nothing if none is ready. */
  lemma {:induction false} ScanFindsFirstBest(es: seq<Entry>, now: real, n: nat)
    requires n <= |es|
    ensures Best(es, now, n) == None <==> forall j :: 0 <= j < n ==> !es[j].Ready(now)
    ensures Best(es, now, n).Some? ==> IsFirstBest(es, now, n, Best(es, now, n).value)
    ensures forall k: nat :: IsFirstBest(es, now, n, k) ==> Best(es, now, n) == Some(k)
  {
    if n > 0 { ScanFindsFirstBest(es, now, n - 1); }
  }

  // ---------------------------------------------------------------- the class

  function EntryOf(t: Task): Entry
    reads t`availableAt, t`retries
  {
    Entry(t.id, t.priority, t.createdAt, t.availableAt, t.retries, t.maxRetries)
  }

  datatype Claimed = Claimed(task: Task, expiresAt: real)

  ghost function TasksOf(pending: seq<Task>, claimed: seq<Claimed>): set<Task> {
    (set t | t in pending) + (set c | c in claimed :: c.task)
  }

  ghost function PendingModel(pending: seq<Task>): (es: seq<Entry>)
    reads (set t | t in pending)`availableAt, (set t | t in pending)`retries
    ensures |es| == |pending| && forall i :: 0 <= i < |es| ==> es[i] == EntryOf(pending[i])
  {
    if pending == [] then [] else PendingModel(pending[..|pending| - 1]) + [EntryOf(pending[|pending| - 1])]
  }

  ghost function ClaimModel(claimed: seq<Claimed>): (cs: seq<Claim>)
    reads (set c | c in claimed :: c.task)`availableAt, (set c | c in claimed :: c.task)`retries
    ensures |cs| == |claimed|
    ensures forall i :: 0 <= i < |cs| ==> cs[i] == Claim(EntryOf(claimed[i].task), claimed[i].expiresAt)
  {
    if claimed == [] then []
    else
      var c := claimed[|claimed| - 1];
      ClaimModel(claimed[..|claimed| - 1]) + [Claim(EntryOf(c.task), c.expiresAt)]
  }

  function Keys(claimed: seq<Claimed>): (ids: seq<Id>)
    ensures |ids| == |claimed| && forall i :: 0 <= i < |ids| ==> ids[i] == claimed[i].task.id
  {
    seq(|claimed|, i requires 0 <= i < |claimed| => claimed[i].task.id)
  }

  /** Where a key is found. */
  lemma KeyAt(claimed: seq<Claimed>, id: Id)
    ensures IndexOf(Keys(claimed), id) == None <==> forall c | c in claimed :: c.task.id != id
    ensures Distinct(Keys(claimed)) ==>
              forall k :: 0 <= k < |claimed| && claimed[k].task.id == id ==> IndexOf(Keys(claimed), id) == Some(k)
  {
    forall k | 0 <= k < |claimed| && claimed[k].task.id == id ensures IndexOf(Keys(claimed), id).Some? {
      assert Keys(claimed)[k] == id;
    }
    forall c | c in claimed && IndexOf(Keys(claimed), id) == None ensures c.task.id != id {
      var k :| 0 <= k < |claimed| && claimed[k] == c;
      assert Keys(claimed)[k] == c.task.id;
    }
  }

  /** The same dict operations on the claims that hold task objects. */
  function PopKey(claimed: seq<Claimed>, id: Id): seq<Claimed> {
    match IndexOf(Keys(claimed), id)
    case Some(k) => Without(claimed, k)
    case None => claimed
  }

  function PutKey(claimed: seq<Claimed>, c: Claimed): seq<Claimed> {
    match IndexOf(Keys(claimed), c.task.id)
    case Some(k) => claimed[k := c]
    case None => claimed + [c]
  }

  function Overdue(now: real): Claimed -> bool { (c: Claimed) => c.expiresAt <= now }

  function Current(now: real): Claimed -> bool { (c: Claimed) => c.expiresAt > now }

  function TaskSeq(claimed: seq<Claimed>): (ts: seq<Task>)
    ensures |ts| == |claimed| && forall i :: 0 <= i < |ts| ==> ts[i] == claimed[i].task
  {
    seq(|claimed|, i requires 0 <= i < |claimed| => claimed[i].task)
  }

  lemma {:induction false} ModelOfFilter(claimed: seq<Claimed>, now: real)
    ensures ClaimModel(Filter(claimed, Overdue(now))) == Filter(ClaimModel(claimed), IsExpired(now))
    ensures ClaimModel(Filter(claimed, Current(now))) == Filter(ClaimModel(claimed), IsHeld(now))
  {
    if claimed != [] {
      var n := |claimed| - 1;
      ModelOfFilter(claimed[..n], now);
      assert ClaimModel(claimed)[..n] == ClaimModel(claimed[..n]);
    }
  }

  ghost function OverdueTasks(claimed: seq<Claimed>, now: real): set<Task> {
    set c | c in claimed && c.expiresAt <= now :: c.task
  }

  /** The deque after the reclaim of a dequeue. */
  function Lined(pending: seq<Task>, claimed: seq<Claimed>, now: real): seq<Task> {
    pending + TaskSeq(Filter(claimed, Overdue(now)))
  }

  lemma LinedAre(pending: seq<Task>, claimed: seq<Claimed>, now: real)
    ensures forall t :: t in Lined(pending, claimed, now) <==> t in pending || t in OverdueTasks(claimed, now)
  {
    var overdue := Filter(claimed, Overdue(now));
    FilterMembers(claimed, Overdue(now));
    forall t | t in OverdueTasks(claimed, now) ensures t in TaskSeq(overdue) {
      var c :| c in claimed && c.expiresAt <= now && c.task == t;
      var i :| 0 <= i < |overdue| && overdue[i] == c;
      assert TaskSeq(overdue)[i] == t;
    }
    forall t | t in TaskSeq(overdue) ensures t in OverdueTasks(claimed, now) {
      var i :| 0 <= i < |overdue| && TaskSeq(overdue)[i] == t;
      assert overdue[i] in overdue;
    }
  }

  /** The first of the best ready ones. */
  ghost function Picked(pending: seq<Task>, claimed: seq<Claimed>, now: real): Option<Task>
    reads TasksOf(pending, claimed)`availableAt, TasksOf(pending, claimed)`retries
  {
    HeldAfterReclaim(pending, claimed, now);
    var es := PendingModel(Lined(pending, claimed, now));
    match Best(es, now, |es|)
    case Some(k) => Some(Lined(pending, claimed, now)[k])
    case None => None
  }

  /** A call that another thread makes while this one waits; Writing stands for a worker that
      changes the task object it holds. */
  datatype Call =
    | Enqueuing(task: Task)
    | Dequeuing(now: real, timeout: real)
    | Acking(task: Task)
    | Nacking(task: Task, requeue: bool)
    | Writing(task: Task, retries: int, availableAt: Option<real>)
  {
    ghost function Objects(): set<Task> { if Dequeuing? then {} else {task} }

    /** The operation is this call, with the task's entry at that moment. */
    predicate Does(op: Op) {
      match this
      case Enqueuing(task) => op.EnqueueOp? && op.entry.id == task.id
      case Dequeuing(now, timeout) => op == DequeueOp(now, timeout)
      case Acking(task) => op == AckOp(task.id)
      case Nacking(task, requeue) => op.NackOp? && op.entry.id == task.id && op.requeue == requeue
      case Writing(task, retries, at) => op == ChangeOp(task.id, retries, at)
    }
  }

  datatype Poll = Poll(calls: seq<Call>, now: real)

  ghost predicate Serves(poll: Poll, round: Round) {
    && round.now == poll.now && |round.ops| == |poll.calls|
    && forall i :: 0 <= i < |poll.calls| ==> poll.calls[i].Does(round.ops[i])
  }

  lemma TasksOfPoll(polls: seq<Poll>, k: nat)
    requires k < |polls|
    ensures CallTasks(polls[k].calls) <= PollTasks(polls)
  {
    assert polls[k] in polls;
  }

  ghost function CallTasks(calls: seq<Call>): set<Task> { set c, t | c in calls && t in c.Objects() :: t }

  ghost function PollTasks(polls: seq<Poll>): set<Task> { set p, t | p in polls && t in CallTasks(p.calls) :: t }

  /** No two objects carry the same id. */
  ghost predicate OneEach(ts: set<Task>) { forall t, u | t in ts && u in ts :: t.id == u.id ==> t == u }

  lemma FewerObjects(ts: set<Task>, us: set<Task>)
    requires OneEach(us) && ts <= us
    ensures OneEach(ts)
  {}

  lemma PopMiddle(a: seq<Claimed>, c: Claimed, b: seq<Claimed>)
    requires Distinct(Keys(a + [c] + b))
    ensures PopKey(a + [c] + b, c.task.id) == a + b
  {
    var all := a + [c] + b;
    var k := IndexOf(Keys(all), c.task.id);
    assert Keys(all)[|a|] == c.task.id;
    assert k == Some(|a|);
    assert Without(all, |a|) == a + b;
  }

  /** The dict while the reclaim loop has looked at the first k claims of all. */
  function Sweeping(all: seq<Claimed>, k: nat, now: real): seq<Claimed>
    requires k <= |all|
  {
    Filter(all[..k], Current(now)) + all[k..]
  }

  lemma SweepStart(all: seq<Claimed>, now: real)
    ensures Sweeping(all, 0, now) == all && TaskSeq(Filter(all[..0], Overdue(now))) == []
  {
    assert all[..0] == [];
  }

  lemma SweepEnd(all: seq<Claimed>, now: real)
    ensures Sweeping(all, |all|, now) == Filter(all, Current(now)) && all[..|all|] == all
  {
    assert all[..|all|] == all;
  }

  /** One iteration of the reclaim loop on the dict and on the deque. */
  lemma SweepStep(all: seq<Claimed>, k: nat, now: real)
    requires k < |all| && Distinct(Keys(Sweeping(all, k, now)))
    ensures Sweeping(all, k + 1, now) ==
            if all[k].expiresAt <= now then PopKey(Sweeping(all, k, now), all[k].task.id) else Sweeping(all, k, now)
    ensures TaskSeq(Filter(all[..k + 1], Overdue(now))) ==
            TaskSeq(Filter(all[..k], Overdue(now))) + if all[k].expiresAt <= now then [all[k].task] else []
  {
    hide Filter, PopKey;
    assert all[..k + 1] == all[..k] + [all[k]];
    FilterConcat(all[..k], [all[k]], Current(now));
    FilterConcat(all[..k], [all[k]], Overdue(now));
    FilterOne(all[k], Current(now));
    FilterOne(all[k], Overdue(now));
    assert all[k..] == [all[k]] + all[k + 1..];
    var kept := Filter(all[..k], Current(now));
    assert Sweeping(all, k, now) == kept + [all[k]] + all[k + 1..];
    PopMiddle(kept, all[k], all[k + 1..]);
  }

  lemma ModelOfReclaim(pending: seq<Task>, claimed: seq<Claimed>, now: real)
    ensures Mem(PendingModel(Lined(pending, claimed, now)), ClaimModel(Filter(claimed, Current(now)))) ==
            Mem(PendingModel(pending), ClaimModel(claimed)).Reclaimed(now)
  {
    hide PendingModel, ClaimModel, Filter;
    ModelOfFilter(claimed, now);
    assert PendingModel(pending + TaskSeq(Filter(claimed, Overdue(now)))) ==
           PendingModel(pending) + EntriesOf(ClaimModel(Filter(claimed, Overdue(now))));
  }

  lemma ModelOfPop(claimed: seq<Claimed>, id: Id)
    ensures ClaimModel(PopKey(claimed, id)) == Pop(ClaimModel(claimed), id)
    ensures Distinct(Keys(claimed)) ==> Distinct(Keys(PopKey(claimed, id)))
  {
    hide ClaimModel, Distinct, Without;
    assert Keys(claimed) == ClaimIds(ClaimModel(claimed));
    var k := IndexOf(Keys(claimed), id);
    if k.Some? {
      ModelOfWithout(claimed, k.value);
      if Distinct(Keys(claimed)) { DistinctWithout(Keys(claimed), k.value); }
    }
  }

  lemma ModelOfWithout(claimed: seq<Claimed>, k: nat)
    requires k < |claimed|
    ensures ClaimModel(Without(claimed, k)) == Without(ClaimModel(claimed), k)
    ensures Keys(Without(claimed, k)) == Without(Keys(claimed), k)
  {
    hide ClaimModel, Without;
    WithoutAt(claimed, k);
    WithoutAt(ClaimModel(claimed), k);
    WithoutAt(Keys(claimed), k);
  }

  lemma ModelOfPut(claimed: seq<Claimed>, c: Claimed)
    ensures ClaimModel(PutKey(claimed, c)) == Put(ClaimModel(claimed), Claim(EntryOf(c.task), c.expiresAt))
    ensures Distinct(Keys(claimed)) ==> Distinct(Keys(PutKey(claimed, c)))
  {
    hide ClaimModel;
    assert Keys(claimed) == ClaimIds(ClaimModel(claimed));
  }

  lemma PutKeyKeeps(claimed: seq<Claimed>, c: Claimed)
    ensures IndexOf(Keys(claimed), c.task.id) == None ==> PutKey(claimed, c) == claimed + [c]
    ensures |PutKey(claimed, c)| >= |claimed|
    ensures forall i :: 0 <= i < |claimed| && claimed[i].task.id != c.task.id ==> PutKey(claimed, c)[i] == claimed[i]
  {}

  lemma ClaimTasks(pending: seq<Task>, claimed: seq<Claimed>, k: nat, c: Claimed)
    requires k < |pending| && c.task == pending[k]
    ensures TasksOf(Without(pending, k), PutKey(claimed, c)) <= TasksOf(pending, claimed)
    ensures c in PutKey(claimed, c) && c.task in TasksOf(pending, claimed)
  {
    var at := IndexOf(Keys(claimed), c.task.id);
    assert PutKey(claimed, c)[if at.Some? then at.value else |claimed|] == c;
  }

  lemma PushTasks(pending: seq<Task>, claimed: seq<Claimed>, task: Task)
    ensures TasksOf(pending + [task], claimed) == TasksOf(pending, claimed) + {task}
  {}

  /** Objects in the deque and in the dict are held. */
  lemma AllHeld(pending: seq<Task>, claimed: seq<Claimed>)
    ensures forall i :: 0 <= i < |pending| ==> pending[i] in TasksOf(pending, claimed)
    ensures forall i :: 0 <= i < |claimed| ==> claimed[i].task in TasksOf(pending, claimed)
  {}

  lemma PopTasks(pending: seq<Task>, claimed: seq<Claimed>, id: Id)
    ensures TasksOf(pending, PopKey(claimed, id)) <= TasksOf(pending, claimed)
  {}

  lemma ClaimIsHeld(pending: seq<Task>, claimed: seq<Claimed>, c: Claimed)
    requires c in claimed
    ensures c.task in TasksOf(pending, claimed)
  {}

  lemma HeldAfterReclaim(pending: seq<Task>, claimed: seq<Claimed>, now: real)
    ensures TasksOf(pending + TaskSeq(Filter(claimed, Overdue(now))), Filter(claimed, Current(now)))
            <= TasksOf(pending, claimed)
  {
    var overdue, current := Filter(claimed, Overdue(now)), Filter(claimed, Current(now));
    forall c | c in claimed ensures c.task in TasksOf(pending, claimed) { ClaimIsHeld(pending, claimed, c); }
    var now' := pending + TaskSeq(overdue);
    forall i | 0 <= i < |now'| ensures now'[i] in TasksOf(pending, claimed) {
      if i < |pending| {
        assert pending[i] in pending;
      } else {
        FilterMember(claimed, Overdue(now), overdue[i - |pending|]);
        assert now'[i] == overdue[i - |pending|].task;
      }
    }
    forall c | c in current ensures c.task in TasksOf(pending, claimed) {
      FilterMember(claimed, Current(now), c);
    }
  }

  class InMemoryQueue {
    var pending: seq<Task>
    var claimed: seq<Claimed>

    constructor ()
      ensures Valid() && Model() == Mem([], [])
    {
      pending, claimed := [], [];
    }

    /** The task objects the queue refers to. */
    ghost function Held(): set<Task>
      reads this
    {
      TasksOf(pending, claimed)
    }

    ghost function Model(): (m: Mem)
      reads this, Held()`availableAt, Held()`retries
    {
      Mem(PendingModel(pending), ClaimModel(claimed))
    }

    /** The object that a dequeue at this time picks. */
    ghost function Picks(now: real): Option<Task>
      reads this, Held()`availableAt, Held()`retries
    {
      Picked(pending, claimed, now)
    }

    /** What a dequeue at this time makes of an object's status: the object picked is running,
        overdue ones are pending, and no other object changes its status. */
    ghost function StatusAfter(t: Task, now: real): Status
      reads this, t, Held()`availableAt, Held()`retries
    {
      if Picks(now) == Some(t) then Running
      else if t in OverdueTasks(claimed, now) then Pending
      else t.status
    }

    /** Dict keys are unique. */
    ghost predicate Valid()
      reads this
    {
      Distinct(Keys(claimed))
    }

    method Enqueue(task: Task)
      requires Valid()
      modifies this`pending
      ensures Valid() && pending == old(pending) + [task] && Held() <= old(Held()) + {task}
      ensures Model() == old(Model()).Enqueued(EntryOf(task))
    {
      pending := pending + [task];
    }

    /** dict.pop(id, None). */
    method PopClaim(id: Id)
      requires Valid()
      modifies this`claimed
      ensures Valid()
      ensures Model() == old(Model()).Acked(id)
      ensures claimed == PopKey(old(claimed), id) && Held() <= old(Held())
      ensures forall k :: 0 <= k < |old(claimed)| && old(claimed)[k].task.id == id ==>
                claimed == old(claimed)[..k] + old(claimed)[k + 1..]
      ensures (forall c | c in old(claimed) :: c.task.id != id) ==> claimed == old(claimed)
    {
      hide PendingModel, ClaimModel, Pop, Distinct;
      ModelOfPop(claimed, id);
      PopTasks(pending, claimed, id);
      var k := IndexOf(Keys(claimed), id);
      KeyAt(claimed, id);
      if k.Some? { claimed := Without(claimed, k.value); }
    }

    method Ack(task: Task)
      requires Valid()
      modifies this`claimed
      ensures Valid() && Held() <= old(Held())
      ensures Model() == old(Model()).Acked(task.id)
    {
      PopClaim(task.id);
    }

    /** Drops the claim; a retry puts the same object back at the end of the deque. */
    method Nack(task: Task, requeue: bool)
      requires Valid()
      modifies this, task`status, task`startedAt
      ensures Valid() && Held() <= old(Held()) + {task}
      ensures Model() == old(Model()).Nacked(old(EntryOf(task)), requeue)
      ensures pending == old(pending) + if requeue then [task] else []
      ensures requeue ==> task.status == Pending && task.startedAt == None
      ensures requeue ==> task.Data() == old(task.Data()).AsPending()
      ensures !requeue ==> task.Data() == old(task.Data())
    {
      hide PendingModel, ClaimModel, Pop, TasksOf, PopKey, Keys, Distinct;
      PopClaim(task.id);
      if requeue {
        task.MarkPending();
        PushTasks(pending, claimed, task);
        pending := pending + [task];
      }
    }

    /** Moves one claimed task to the back of the deque and marks it pending. */
    method Release(task: Task)
      requires Valid()
      modifies this, task`status, task`startedAt
      ensures Valid()
      ensures claimed == PopKey(old(claimed), task.id) && pending == old(pending) + [task]
      ensures task.status == Pending && task.startedAt == None
    {
      hide PendingModel, ClaimModel, PopKey;
      PopClaim(task.id);
      task.MarkPending();
      pending := pending + [task];
    }

    /** Moves every expired claim to the back of the deque and marks its task pending. */
    method ReclaimExpired(now: real)
      requires Valid()
      modifies this, Held()`status, Held()`startedAt
      ensures Valid()
      ensures pending == old(pending) + TaskSeq(Filter(old(claimed), Overdue(now)))
      ensures claimed == Filter(old(claimed), Current(now))
      ensures Model() == old(Model()).Reclaimed(now)
      ensures forall t :: t in old(Held()) ==>
                t.status == (if t in OverdueTasks(old(claimed), now) then Pending else old(t.status))
    {
      hide PendingModel, ClaimModel, Filter, PopKey, Sweeping, Keys, Distinct, TaskSeq, Mem.Reclaimed;
      var all := claimed;
      ghost var overdue := OverdueTasks(all, now);
      SweepStart(all, now);
      for k := 0 to |all|
        invariant Valid()
        invariant claimed == Sweeping(all, k, now)
        invariant pending == old(pending) + TaskSeq(Filter(all[..k], Overdue(now)))
        invariant forall j :: 0 <= j < k && all[j].expiresAt <= now ==> all[j].task.status == Pending
        invariant forall t :: t in old(Held()) && t !in overdue ==> t.status == old(t.status)
      {
        var c := all[k];
        SweepStep(all, k, now);
        assert c in old(claimed);
        if c.expiresAt <= now {
          Release(c.task);
        }
      }
      SweepEnd(all, now);
      ModelOfReclaim(old(pending), all, now);
    }

    /** The scan over the deque for the best ready task. */
    method Scan(now: real) returns (best: Option<nat>)
      ensures best == Best(Model().pending, now, |Model().pending|)
      ensures best == None <==>
                forall t | t in pending :: t.availableAt.Some? && now < t.availableAt.value
      ensures best.Some? ==>
                && best.value < |pending|
                && var b := pending[best.value];
                   && (b.availableAt == None || b.availableAt.value <= now)
                   && (forall t | t in pending && (t.availableAt == None || t.availableAt.value <= now) ::
                         t.priority < b.priority || (t.priority == b.priority && b.createdAt <= t.createdAt))
                   && (forall j | 0 <= j < best.value
                                  && (pending[j].availableAt == None || pending[j].availableAt.value <= now) ::
                         pending[j].priority < b.priority
                         || (pending[j].priority == b.priority && b.createdAt < pending[j].createdAt))
    {
      best := None;
      var bestPriority: int := 0;
      var bestCreatedAt: real := 0.0;
      for i := 0 to |pending|
        invariant best == Best(PendingModel(pending), now, i)
        invariant best.Some? ==> bestPriority == pending[best.value].priority
                                 && bestCreatedAt == pending[best.value].createdAt
      {
        var task := pending[i];
        if task.availableAt.Some? && task.availableAt.value > now { continue; }
        if best == None || task.priority > bestPriority
           || (task.priority == bestPriority && task.createdAt < bestCreatedAt)
        {
          best, bestPriority, bestCreatedAt := Some(i), task.priority, task.createdAt;
        }
      }
      ScanFindsFirstBest(PendingModel(pending), now, |pending|);
    }

    /** Takes the k-th task out of the deque and claims it. */
    method ClaimAt(k: nat, now: real, timeout: real) returns (task: Task)
      requires Valid() && k < |pending|
      modifies this, {pending[k]}`status, {pending[k]}`startedAt
      ensures Valid() && task == old(pending[k])
      ensures pending == Without(old(pending), k)
      ensures claimed == PutKey(old(claimed), Claimed(task, now + timeout))
      ensures (forall c | c in old(claimed) :: c.task.id != task.id) ==>
                claimed == old(claimed) + [Claimed(task, now + timeout)]
      ensures forall i :: 0 <= i < |old(claimed)| && old(claimed)[i].task.id != task.id ==>
                i < |claimed| && claimed[i] == old(claimed)[i]
      ensures Claimed(task, now + timeout) in claimed && task in old(Held()) && Held() <= old(Held())
      ensures Model() == Mem(Without(old(Model()).pending, k),
                             Put(old(Model()).claims, Claim(old(Model()).pending[k], now + timeout)))
      ensures task.Data() == old(task.Data()).AsRunning(now)
    {
      hide PendingModel, ClaimModel, Put, PutKey, Keys, Distinct, Without, TasksOf;
      task := pending[k];
      WithoutAt(pending, k);
      WithoutAt(PendingModel(pending), k);
      ClaimTasks(pending, claimed, k, Claimed(task, now + timeout));
      AllHeld(pending, claimed);
      pending := Without(pending, k);
      task.MarkRunning(now);
      assert ClaimModel(claimed) == old(ClaimModel(claimed));
      ModelOfPut(claimed, Claimed(task, now + timeout));
      KeyAt(claimed, task.id);
      PutKeyKeeps(claimed, Claimed(task, now + timeout));
      claimed := PutKey(claimed, Claimed(task, now + timeout));
    }

    /** One round of dequeue: reclaim what has expired, then claim the best ready task, which
        is the shared object itself. The object returned is running, overdue ones are pending,
        and no other object changes its status. */
    method DequeueRound(now: real, timeout: real) returns (r: Option<Task>)
      requires Valid()
      modifies this, Held()`status, Held()`startedAt
      ensures Valid() && Held() <= old(Held())
      ensures (Model(), if r == None then None else Some(EntryOf(r.value))) == old(Model()).Dequeued(now, timeout)
      ensures r == old(Picks(now))
      ensures r.Some? ==> r.value in old(Held()) && r.value.status == Running && r.value.startedAt == Some(now)
      ensures r.Some? ==> Claimed(r.value, now + timeout) in claimed
      ensures r == None ==>
                forall t | t in old(pending) || t in OverdueTasks(old(claimed), now) ::
                  t.availableAt.Some? && now < t.availableAt.value
      ensures r.Some? ==>
                var b := r.value;
                && (b in old(pending) || b in OverdueTasks(old(claimed), now))
                && (b.availableAt == None || b.availableAt.value <= now)
                && forall t | (t in old(pending) || t in OverdueTasks(old(claimed), now))
                              && (t.availableAt == None || t.availableAt.value <= now) ::
                     t.priority < b.priority || (t.priority == b.priority && b.createdAt <= t.createdAt)
      ensures forall t: Task :: t in old(Held()) ==>
                t.status == old(StatusAfter(t, now))
    {
      hide PendingModel, ClaimModel, Filter, Put, PutKey, Best, Keys, Distinct, TaskSeq, Mem.Reclaimed;
      ReclaimExpired(now);
      HeldAfterReclaim(old(pending), old(claimed), now);
      LinedAre(old(pending), old(claimed), now);
      assert PendingModel(pending) == old(PendingModel(Lined(pending, claimed, now)));
      var best := Scan(now);
      if best == None { return None; }
      var task := ClaimAt(best.value, now, timeout);
      r := Some(task);
    }

    /** One call of another thread. */
    method Perform(call: Call) returns (ghost op: Op)
      requires Valid() && OneEach(Held() + call.Objects())
      modifies this, Held(), call.Objects()
      ensures Valid() && Held() <= old(Held()) + call.Objects()
      ensures call.Does(op) && Model() == op.Apply(old(Model()))
    {
      hide PendingModel, ClaimModel, TasksOf, Keys, Distinct, Put, Pop, Mem.Dequeued, Mem.Changed;
      match call {
        case Enqueuing(task) =>
          op := EnqueueOp(EntryOf(task));
          Enqueue(task);
        case Dequeuing(now, timeout) =>
          op := DequeueOp(now, timeout);
          var _ := DequeueRound(now, timeout);
        case Acking(task) =>
          op := AckOp(task.id);
          Ack(task);
        case Nacking(task, requeue) =>
          op := NackOp(EntryOf(task), requeue);
          Nack(task, requeue);
        case Writing(task, retries, availableAt) =>
          op := ChangeOp(task.id, retries, availableAt);
          Write(task, retries, availableAt);
      }
    }

    /** A worker changes the task object it holds, and with it every entry of that object. */
    method Write(task: Task, retries: int, availableAt: Option<real>)
      requires Valid() && OneEach(Held() + {task})
      modifies task`retries, task`availableAt
      ensures task.Data() == old(task.Data()).(retries := retries, availableAt := availableAt)
      ensures Model() == old(Model()).Changed(task.id, retries, availableAt)
    {
      hide PendingModel, ClaimModel, TasksOf;
      AllHeld(pending, claimed);
      task.retries := retries;
      task.availableAt := availableAt;
    }

    /** What other threads do while this one waits. */
    method Others(calls: seq<Call>) returns (ghost ops: seq<Op>)
      requires Valid() && OneEach(Held() + CallTasks(calls))
      modifies this, Held(), CallTasks(calls)
      ensures Valid() && Held() <= old(Held()) + CallTasks(calls)
      ensures |ops| == |calls| && forall i :: 0 <= i < |calls| ==> calls[i].Does(ops[i])
      ensures Model() == ApplyAll(old(Model()), ops)
    {
      hide PendingModel, ClaimModel, TasksOf, Keys, Distinct, Op.Apply, Call.Does;
      ops := [];
      for i := 0 to |calls|
        invariant Valid() && Held() <= old(Held()) + CallTasks(calls)
        invariant |ops| == i && forall k :: 0 <= k < i ==> calls[k].Does(ops[k])
        invariant Model() == ApplyAll(old(Model()), ops)
      {
        assert calls[i] in calls;
        var op := Perform(calls[i]);
        assert (ops + [op])[..i] == ops;
        ops := ops + [op];
      }
    }

    /** One round of a waiting dequeue, after what other threads did before it. */
    method WaitedRound(p: Poll, timeout: real) returns (r: Option<Task>, ghost round: Round)
      requires Valid() && OneEach(Held() + CallTasks(p.calls))
      modifies this, Held(), CallTasks(p.calls)
      ensures Valid() && Held() <= old(Held()) + CallTasks(p.calls)
      ensures Serves(p, round) && round.now == p.now
      ensures (Model(), if r == None then None else Some(EntryOf(r.value))) ==
              ApplyAll(old(Model()), round.ops).Dequeued(p.now, timeout)
      ensures r.Some? ==>
                && r.value in old(Held()) + CallTasks(p.calls) && r.value.status == Running
                && Claimed(r.value, p.now + timeout) in claimed
    {
      hide Best, Mem.Reclaimed, Mem.Dequeued, PendingModel, ClaimModel, TasksOf, Distinct, Filter, Put,
           CallTasks, ApplyAll, Picked, OneEach, Op.Apply, Call.Does, Lined, Keys, OverdueTasks;
      ghost var ops := Others(p.calls);
      round := Round(ops, p.now);
      r := DequeueRound(p.now, timeout);
    }

    /** dequeue as it waits, one round after the other, until a task is claimed or the
        deadline passes (at once if there is no deadline). Before each round other threads
        may have called the queue in any way. rounds are the rounds made. */
    method Dequeue(timeout: real, deadline: Option<real>, polls: seq<Poll>)
      returns (r: Option<Task>, ghost rounds: seq<Round>)
      requires Valid() && |polls| > 0 && Reached(deadline, polls[|polls| - 1].now)
      requires OneEach(Held() + PollTasks(polls))
      modifies this, Held(), PollTasks(polls)
      ensures Valid() && Held() <= old(Held()) + PollTasks(polls)
      ensures 0 < |rounds| <= |polls|
      ensures forall k :: 0 <= k < |rounds| ==> Serves(polls[k], rounds[k])
      ensures forall k :: 0 <= k < |rounds| - 1 ==> !Reached(deadline, rounds[k].now)
      ensures AllIdle(old(Model()), rounds, timeout, |rounds| - 1)
      ensures var n := |rounds| - 1;
              (Model(), if r == None then None else Some(EntryOf(r.value))) ==
              Met(old(Model()), rounds, n).Dequeued(rounds[n].now, timeout)
      ensures r == None ==> Reached(deadline, rounds[|rounds| - 1].now)
      ensures r.Some? ==>
                && r.value in old(Held()) + PollTasks(polls) && r.value.status == Running
                && Claimed(r.value, rounds[|rounds| - 1].now + timeout) in claimed
    {
      hide Best, Mem.Reclaimed, Mem.Dequeued, PendingModel, ClaimModel, TasksOf, Distinct, Filter, Put,
           CallTasks, PollTasks, Met, AllIdle, ApplyAll, Picked, Serves, Reached, OneEach, Op.Apply, Call.Does,
           Lined, Keys;
      rounds := [];
      var n := 0;
      NoRounds(Model(), timeout);
      while true
        invariant Valid() && Held() <= old(Held()) + PollTasks(polls)
        invariant |rounds| == n < |polls|
        invariant forall k :: 0 <= k < n ==> !Reached(deadline, rounds[k].now)
        invariant Model() == LeftBy(old(Model()), rounds)
        invariant forall k :: 0 <= k < n ==> Serves(polls[k], rounds[k])
        invariant AllIdle(old(Model()), rounds, timeout, n)
        decreases |polls| - n
      {
        var p := polls[n];
        TasksOfPoll(polls, n);
        FewerObjects(Held() + CallTasks(p.calls), old(Held()) + PollTasks(polls));
        ghost var round;
        r, round := WaitedRound(p, timeout);
        NextRound(old(Model()), rounds, round, timeout);
        rounds, n := rounds + [round], n + 1;
        if r.Some? || Reached(deadline, p.now) { return; }
      }
    }

    method Size() returns (n: nat)
      ensures n == Model().Size()
    {
      n := |pending| + |claimed|;
    }
  }
}
