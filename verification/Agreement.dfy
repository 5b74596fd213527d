/** How far the two queue backends agree: both refine one abstract queue, in which a task is
    waiting or claimed until a deadline, but the in-memory queue reclaims before every
    selection and the tasks table only when nothing is ready. */
module Agreement {
  import opened Tasks
  import T = TaskTable
  import D = Delivery
  import M = MemoryQueue
  import R = MemoryRuns
  import opened Sequences

  // ------------------------------------------------------- the abstract queue

  datatype Job = Job(priority: int, createdAt: real, availableAt: Option<real>, retries: int, maxRetries: int) {
    predicate Ready(now: real) { Reached(availableAt, now) }

    predicate Outranks(other: Job) {
      Rank(priority, createdAt).Beats(Rank(other.priority, other.createdAt))
    }

    predicate SameRank(other: Job) { priority == other.priority && createdAt == other.createdAt }
  }

  /** A waiting job has no deadline; a claimed job has the deadline of its claim. */
  datatype Slot = Slot(job: Job, deadline: Option<real>) {
    predicate Offered(now: real) { deadline == None && job.Ready(now) }

    predicate Expired(now: real) { deadline.Some? && deadline.value <= now }
  }

  type View = map<Id, Slot>

  /** Every expired claim released. */
  function Norm(v: View, now: real): View {
    map id | id in v :: if v[id].Expired(now) then Slot(v[id].job, None) else v[id]
  }

  predicate SomeOffered(v: View, now: real) { exists id | id in v :: v[id].Offered(now) }

  predicate IsBest(v: View, now: real, id: Id) {
    && id in v && v[id].Offered(now)
    && forall j | j in v && v[j].Offered(now) :: !v[j].job.Outranks(v[id].job)
  }

  /** What the tasks table selects from. */
  function Lazy(v: View, now: real): View { if SomeOffered(v, now) then v else Norm(v, now) }

  function ClaimIn(v: View, id: Id, until: real): View
    requires id in v
  {
    v[id := Slot(v[id].job, Some(until))]
  }

  /** No two jobs tie, so that the best job is unique. */
  predicate NoTies(v: View) {
    forall i, j | i in v && j in v && i != j :: !v[i].job.SameRank(v[j].job)
  }

  // ------------------------------------------------------ the table's view

  function RowJob(r: T.Row): Job { Job(r.priority, r.createdAt, r.availableAt, r.retries, r.maxRetries) }

  function RowSlot(r: T.Row): Slot { Slot(RowJob(r), if r.status == Running then r.claimedUntil else None) }

  function TableView(rows: T.Rows): View { map id | id in T.ActiveIds(rows) :: RowSlot(rows[id]) }

  /** Claims have deadlines (an invariant of all runs). */
  predicate Dated(rows: T.Rows) { forall id | id in rows && rows[id].status == Running :: rows[id].claimedUntil.Some? }

  lemma TableReclaims(rows: T.Rows, now: real)
    requires Dated(rows)
    ensures TableView(T.Reclaim(rows, now)) == Norm(TableView(rows), now) && Dated(T.Reclaim(rows, now))
    ensures T.NothingReady(rows, now) <==> !SomeOffered(TableView(rows), now)
    ensures TableView(D.Offered(rows, now)) == Lazy(TableView(rows), now) && Dated(D.Offered(rows, now))
  {
    var v := TableView(rows);
    if !T.NothingReady(rows, now) {
      var id :| id in rows && rows[id].Ready(now);
      assert id in v && v[id].Offered(now);
    }
    if SomeOffered(v, now) {
      var id :| id in v && v[id].Offered(now);
      assert rows[id].Ready(now);
    }
  }

  lemma TableBest(rows: T.Rows, now: real, id: Id)
    requires Dated(rows)
    ensures T.IsBest(rows, now, id) <==> IsBest(TableView(rows), now, id)
  {
    var v := TableView(rows);
    if IsBest(v, now, id) {
      forall j | j in rows && rows[j].Ready(now) ensures !rows[j].Outranks(rows[id]) {
        assert j in v && v[j].Offered(now);
      }
    }
  }

  /** The tasks table refines the abstract queue with lazy reclaim. */
  lemma TableDelivers(ser: Serializer, rows: T.Rows, now: real, timeout: real, id: Id, rows': T.Rows)
    requires Dated(rows) && D.Delivers(ser, rows, now, timeout, id, rows')
    ensures var v := Lazy(TableView(rows), now);
            IsBest(v, now, id) && TableView(rows') == ClaimIn(v, id, now + timeout)
    ensures Dated(rows')
  {
    TableReclaims(rows, now);
    TableBest(D.Offered(rows, now), now, id);
  }

  // ----------------------------------------------------- the deque's view

  function EntryJob(e: M.Entry): Job { Job(e.priority, e.createdAt, e.availableAt, e.retries, e.maxRetries) }

  /** v shows exactly what is in the deque and in the dict. */
  ghost predicate Shows(m: M.Mem, v: View) {
    && (forall id | id in v :: R.IsActive(m, id))
    && (forall i :: 0 <= i < |m.pending| ==>
          m.pending[i].id in v && v[m.pending[i].id] == Slot(EntryJob(m.pending[i]), None))
    && (forall i :: 0 <= i < |m.claims| ==>
          m.claims[i].entry.id in v
          && v[m.claims[i].entry.id] == Slot(EntryJob(m.claims[i].entry), Some(m.claims[i].expiresAt)))
  }

  lemma ShowsReclaimed(m: M.Mem, v: View, now: real)
    requires Shows(m, v)
    ensures Shows(m.Reclaimed(now), Norm(v, now))
  {
    var q, n := m.Reclaimed(now), Norm(v, now);
    var expired := Filter(m.claims, M.IsExpired(now));
    FilterMembers(m.claims, M.IsExpired(now));
    FilterMembers(m.claims, M.IsHeld(now));
    forall id | id in n ensures R.IsActive(q, id) { R.ReclaimKeeps(m, now, id); }
    forall i | 0 <= i < |q.pending|
      ensures q.pending[i].id in n && n[q.pending[i].id] == Slot(EntryJob(q.pending[i]), None)
    {
      if i >= |m.pending| {
        var c := expired[i - |m.pending|];
        assert c in expired;
        assert c in m.claims;
      }
    }
    forall i | 0 <= i < |q.claims|
      ensures q.claims[i].entry.id in n
              && n[q.claims[i].entry.id] == Slot(EntryJob(q.claims[i].entry), Some(q.claims[i].expiresAt))
    {
      assert q.claims[i] in q.claims;
      assert q.claims[i] in m.claims;
    }
  }

  /** The in-memory queue refines the abstract queue with eager reclaim. */
  lemma MemoryDelivers(m: M.Mem, v: View, now: real, timeout: real)
    requires R.Clean(m) && Shows(m, v)
    ensures var (m', r) := m.Dequeued(now, timeout);
            && (r == None <==> !SomeOffered(Norm(v, now), now))
            && (r == None ==> Shows(m', Norm(v, now)))
            && (r.Some? ==> IsBest(Norm(v, now), now, r.value.id)
                            && Shows(m', ClaimIn(Norm(v, now), r.value.id, now + timeout)))
  {
    hide Shows, M.Put, R.Ids, M.Mem.Reclaimed, Norm;
    ShowsReclaimed(m, v, now);
    R.ReclaimMovesIds(m, now);
    ScanDelivers(m.Reclaimed(now), Norm(v, now), now, now + timeout);
  }

  lemma ScanDelivers(q: M.Mem, n: View, now: real, until: real)
    requires R.Clean(q) && Shows(q, n)
    ensures var best := M.Best(q.pending, now, |q.pending|);
            && (best == None <==> !SomeOffered(n, now))
            && (best.Some? ==>
                  var e := q.pending[best.value];
                  IsBest(n, now, e.id)
                  && Shows(M.Mem(Without(q.pending, best.value), M.Put(q.claims, M.Claim(e, until))),
                           ClaimIn(n, e.id, until)))
  {
    M.ScanFindsFirstBest(q.pending, now, |q.pending|);
    var best := M.Best(q.pending, now, |q.pending|);
    forall id | id in n && n[id].Offered(now)
      ensures exists i :: 0 <= i < |q.pending| && q.pending[i].id == id && q.pending[i].Ready(now)
    {
      assert R.IsActive(q, id);
      if R.InFlight(q, id) { InFlightHasDeadline(q, n, id); }
      var i :| 0 <= i < |q.pending| && q.pending[i].id == id;
      assert n[id] == Slot(EntryJob(q.pending[i]), None);
    }
    if best.Some? {
      var k := best.value;
      assert n[q.pending[k].id].Offered(now);
      ClaimShows(q, n, k, until);
    }
  }

  lemma InFlightHasDeadline(q: M.Mem, n: View, id: Id)
    requires Shows(q, n) && R.InFlight(q, id)
    ensures id in n && n[id].deadline.Some?
  {
    var i :| 0 <= i < |q.claims| && q.claims[i].entry.id == id;
  }

  /** In a clean queue the k-th waiting task is queued nowhere else. */
  lemma OnlyThere(q: M.Mem, k: nat)
    requires R.Clean(q) && k < |q.pending|
    ensures forall j :: 0 <= j < |q.pending| && j != k ==> q.pending[j].id != q.pending[k].id
    ensures q.pending[k].id !in M.ClaimIds(q.claims)
  {
    var ids, id := M.PendingIds(q.pending), q.pending[k].id;
    assert R.Ids(q)[id] <= 1;
    forall j | 0 <= j < |q.pending| && j != k ensures ids[j] != ids[k] {
      TwiceInMultiset(ids, if j < k then j else k, if j < k then k else j);
    }
    assert ids[k] in multiset(ids);
  }

  lemma ClaimShows(q: M.Mem, n: View, k: nat, until: real)
    requires R.Clean(q) && Shows(q, n) && k < |q.pending|
    ensures var e := q.pending[k];
            && e.id in n
            && Shows(M.Mem(Without(q.pending, k), M.Put(q.claims, M.Claim(e, until))), ClaimIn(n, e.id, until))
  {
    OnlyThere(q, k);
    var e := q.pending[k];
    var c := M.Claim(e, until);
    assert M.Put(q.claims, c) == q.claims + [c];
    var q', n' := M.Mem(Without(q.pending, k), q.claims + [c]), ClaimIn(n, e.id, until);
    forall id | id in n' ensures R.IsActive(q', id) {
      if id == e.id {
        assert q'.claims[|q.claims|].entry.id == id;
      } else if R.Waiting(q, id) {
        var i :| 0 <= i < |q.pending| && q.pending[i].id == id;
        assert q'.pending[if i < k then i else i - 1].id == id;
      } else {
        assert R.IsActive(q, id);
        var i :| 0 <= i < |q.claims| && q.claims[i].entry.id == id;
        assert q'.claims[i].entry.id == id;
      }
    }
    forall i | 0 <= i < |q'.claims|
      ensures q'.claims[i].entry.id in n'
              && n'[q'.claims[i].entry.id] == Slot(EntryJob(q'.claims[i].entry), Some(q'.claims[i].expiresAt))
    {
      if i < |q.claims| { assert M.ClaimIds(q.claims)[i] == q.claims[i].entry.id; }
    }
  }

  // --------------------------------------------- the other calls, on each side

  lemma TableInserts(rows: T.Rows, t: TaskData, args: Blob, kwargs: Blob)
    requires t.id !in rows && t.status == Pending && Dated(rows)
    ensures var rows' := rows[t.id := T.Inserted(t, args, kwargs)];
            TableView(rows') == TableView(rows)[t.id := Slot(DataJob(t), None)] && Dated(rows')
  {}

  lemma TableSettles(rows: T.Rows, t: TaskData)
    requires t.id in rows && t.status.Terminal() && Dated(rows)
    ensures TableView(T.Settle(rows, t)) == TableView(rows) - {t.id} && Dated(T.Settle(rows, t))
  {}

  lemma TableRequeues(rows: T.Rows, t: TaskData)
    requires t.id in rows && IsCopy(t, rows[t.id]) && Dated(rows)
    ensures TableView(T.Requeue(rows, t)) == TableView(rows)[t.id := Slot(DataJob(t), None)]
    ensures Dated(T.Requeue(rows, t))
  {}

  function DataJob(t: TaskData): Job { Job(t.priority, t.createdAt, t.availableAt, t.retries, t.maxRetries) }

  function DataEntry(t: TaskData): M.Entry {
    M.Entry(t.id, t.priority, t.createdAt, t.availableAt, t.retries, t.maxRetries)
  }

  /** A worker's copy keeps the fields that never change. */
  predicate IsCopy(t: TaskData, r: T.Row) {
    t.priority == r.priority && t.createdAt == r.createdAt && t.maxRetries == r.maxRetries
  }

  lemma MemoryEnqueues(m: M.Mem, v: View, e: M.Entry)
    requires Shows(m, v) && e.id !in v
    ensures Shows(m.Enqueued(e), v[e.id := Slot(EntryJob(e), None)])
  {
    var m', v' := m.Enqueued(e), v[e.id := Slot(EntryJob(e), None)];
    forall id | id in v' ensures R.IsActive(m', id) {
      if id == e.id {
        assert m'.pending[|m.pending|].id == id;
      } else {
        R.ActiveStep(m, M.EnqueueOp(e), id);
      }
    }
  }

  lemma MemoryAcks(m: M.Mem, v: View, id: Id)
    requires Shows(m, v) && R.Clean(m) && id in M.ClaimIds(m.claims)
    ensures Shows(m.Acked(id), v - {id})
  {
    var m', v' := m.Acked(id), v - {id};
    forall x | x in v' ensures R.IsActive(m', x) { R.ActiveStep(m, M.AckOp(id), x); }
    R.PopRemovesId(m, id);
    var k := M.IndexOf(M.ClaimIds(m.claims), id).value;
    OnlyClaimedThere(m, k);
    forall i | 0 <= i < |m'.claims|
      ensures m'.claims[i].entry.id in v'
              && v'[m'.claims[i].entry.id] == Slot(EntryJob(m'.claims[i].entry), Some(m'.claims[i].expiresAt))
    {
      assert m'.claims[i] == m.claims[if i < k then i else i + 1];
    }
  }

  lemma OnlyClaimedThere(m: M.Mem, k: nat)
    requires R.Clean(m) && k < |m.claims|
    ensures forall j :: 0 <= j < |m.claims| && j != k ==> m.claims[j].entry.id != m.claims[k].entry.id
    ensures forall j :: 0 <= j < |m.pending| ==> m.pending[j].id != m.claims[k].entry.id
  {
    var ids, id := M.ClaimIds(m.claims), m.claims[k].entry.id;
    assert R.Ids(m)[id] <= 1;
    forall j | 0 <= j < |m.claims| && j != k ensures ids[j] != ids[k] {
      TwiceInMultiset(ids, if j < k then j else k, if j < k then k else j);
    }
    assert ids[k] in multiset(ids);
    forall j | 0 <= j < |m.pending| ensures m.pending[j].id != id {
      assert M.PendingIds(m.pending)[j] in multiset(M.PendingIds(m.pending));
    }
  }

  // ------------------------------------------------------------- agreement

  /** An expired claim, ready again, outranks everything that is offered without reclaim. */
  ghost predicate Overtaken(v: View, now: real) {
    && SomeOffered(v, now)
    && exists id | id in v && v[id].Expired(now) && v[id].job.Ready(now) ::
         forall j | j in v && v[j].Offered(now) :: v[id].job.Outranks(v[j].job)
  }

  lemma BestIsUnique(v: View, now: real, i: Id, j: Id)
    requires NoTies(v) && IsBest(v, now, i) && IsBest(v, now, j)
    ensures i == j
  {}

  /** Two queues that agree up to expired claims choose the same job exactly when the lazy
      one is not overtaken; otherwise the lazy queue returns the best job offered as it is,
      and the eager queue a better one whose claim has expired. */
  lemma SameChoiceIff(vm: View, vs: View, now: real, i: Id, j: Id)
    requires Norm(vm, now) == Norm(vs, now) && NoTies(vs)
    requires IsBest(Norm(vm, now), now, i) && IsBest(Lazy(vs, now), now, j)
    ensures i == j <==> !Overtaken(vs, now)
    ensures i != j ==> j in vs && vs[j].Offered(now) && i in vs && vs[i].Expired(now)
                       && vs[i].job.Outranks(vs[j].job)
  {
    var n := Norm(vs, now);
    if SomeOffered(vs, now) {
      assert n[j].Offered(now);
      if i != j {
        assert !vs[i].job.SameRank(vs[j].job);
        forall k | k in vs && vs[k].Offered(now) ensures vs[i].job.Outranks(vs[k].job) {
          assert n[k].Offered(now);
          assert k != i ==> !vs[i].job.SameRank(vs[k].job);
        }
      }
      if Overtaken(vs, now) {
        var x :| x in vs && vs[x].Expired(now) && vs[x].job.Ready(now)
                 && forall k | k in vs && vs[k].Offered(now) :: vs[x].job.Outranks(vs[k].job);
        assert n[x].Offered(now);
      }
    } else {
      BestIsUnique(n, now, i, j);
    }
  }

  lemma LazyOffersWhenNormDoes(v: View, now: real)
    ensures SomeOffered(Lazy(v, now), now) <==> SomeOffered(Norm(v, now), now)
  {
    if SomeOffered(v, now) {
      var id :| id in v && v[id].Offered(now);
      assert Norm(v, now)[id].Offered(now);
    }
  }

  lemma NormTwice(v: View, now: real, later: real)
    requires now <= later
    ensures Norm(Norm(v, now), later) == Norm(v, later)
  {}

  /** Claiming the same job keeps the two queues equal up to expired claims. */
  lemma AgreeAfterClaim(vm: View, vs: View, now: real, id: Id, until: real)
    requires Norm(vm, now) == Norm(vs, now) && id in vs && now < until
    ensures Norm(ClaimIn(Norm(vm, now), id, until), now) == Norm(ClaimIn(Lazy(vs, now), id, until), now)
  {}

  // ---------------------------------------------------------- paired runs

  /** Both backends, driven by the same calls at the same clock. */
  datatype Both = Both(mem: M.Mem, rows: T.Rows, now: real)

  datatype Call =
    | Enqueue(task: TaskData, args: Blob, kwargs: Blob)
    | Dequeue(timeout: real)
    | Done(task: TaskData)
    | Retry(task: TaskData)
    | Wait(elapsed: real)

  /** The task is claimed in both backends. */
  predicate ClaimedInBoth(b: Both, id: Id) {
    id in M.ClaimIds(b.mem.claims) && id in b.rows && b.rows[id].status == Running
  }

  /** What one call does on both sides, and the tasks that dequeue returns. New tasks tie
      with no active one; whatever is settled is claimed in both backends. */
  ghost predicate Calls(ser: Serializer, b: Both, call: Call, b': Both, rm: Option<Id>, rs: Option<Id>) {
    match call
    case Enqueue(t, args, kwargs) =>
      && t.id !in b.rows && t.status == Pending
      && (forall id | id in TableView(b.rows) :: !TableView(b.rows)[id].job.SameRank(DataJob(t)))
      && b' == Both(b.mem.Enqueued(DataEntry(t)), b.rows[t.id := T.Inserted(t, args, kwargs)], b.now)
      && rm == None && rs == None
    case Dequeue(timeout) =>
      && 0.0 < timeout && b'.now == b.now
      && var (mem', r) := b.mem.Dequeued(b.now, timeout);
      && b'.mem == mem'
      && rm == (if r == None then None else Some(r.value.id))
      && if rs.Some? then D.Delivers(ser, b.rows, b.now, timeout, rs.value, b'.rows)
         else T.NothingReady(D.Offered(b.rows, b.now), b.now) && b'.rows == T.Reclaim(b.rows, b.now)
    case Done(t) =>
      && ClaimedInBoth(b, t.id) && t.status.Terminal()
      && b' == Both(b.mem.Acked(t.id), T.Settle(b.rows, t), b.now)
      && rm == None && rs == None
    case Retry(t) =>
      && ClaimedInBoth(b, t.id) && IsCopy(t, b.rows[t.id])
      && b' == Both(b.mem.Nacked(DataEntry(t), true), T.Requeue(b.rows, t), b.now)
      && rm == None && rs == None
    case Wait(elapsed) =>
      && 0.0 <= elapsed && b' == b.(now := b.now + elapsed)
      && rm == None && rs == None
  }

  /** The two backends are equal up to claims that have expired. */
  ghost predicate Agree(b: Both, vm: View) {
    && R.Clean(b.mem) && Dated(b.rows) && NoTies(TableView(b.rows))
    && Shows(b.mem, vm)
    && Norm(vm, b.now) == Norm(TableView(b.rows), b.now)
  }

  /** Whether a call lets the table's lazy reclaim show. */
  ghost predicate Diverges(b: Both, call: Call) {
    call.Dequeue? && Overtaken(TableView(b.rows), b.now)
  }

  lemma DequeueAgrees(ser: Serializer, b: Both, vm: View, timeout: real, b': Both, rm: Option<Id>, rs: Option<Id>)
    returns (vm': View)
    requires Agree(b, vm) && Calls(ser, b, Dequeue(timeout), b', rm, rs)
    ensures rm == rs <==> !Diverges(b, Dequeue(timeout))
    ensures rm == rs ==> Agree(b', vm')
    ensures rm != rs ==> rm.Some? && rs.Some? && Beats(b.rows, b.now, rm.value, rs.value)
  {
    hide R.Clean, Shows, M.Mem.Dequeued, T.Reclaim, T.Claim, Norm, NoTies, TableView, Overtaken, D.Delivers;
    var vs, now := TableView(b.rows), b.now;
    MemoryDelivers(b.mem, vm, now, timeout);
    R.TimelyStep(b.mem, M.DequeueOp(now, timeout));
    TableReclaims(b.rows, now);
    LazyOffersWhenNormDoes(vs, now);
    NoTiesKept(vs, now);
    if rs == None {
      vm' := Norm(vm, now);
      IdleAgrees(b.rows, now);
    } else {
      TableDelivers(ser, b.rows, now, timeout, rs.value, b'.rows);
      SomeIsOffered(Lazy(vs, now), now, rs.value);
      SameChoiceIff(vm, vs, now, rm.value, rs.value);
      if rm != rs { BeatsInTable(b.rows, now, rm.value, rs.value); }
      vm' := ClaimIn(Norm(vm, now), rm.value, now + timeout);
      if rm == rs {
        AgreeAfterClaim(vm, vs, now, rs.value, now + timeout);
        ClaimKeepsRanks(Lazy(vs, now), rs.value, now + timeout);
      }
    }
  }

  /** Task i is claimed until a moment that has passed, and outranks the waiting task j. */
  predicate Beats(rows: T.Rows, now: real, i: Id, j: Id) {
    && i in rows && rows[i].status == Running && rows[i].claimedUntil.Some? && rows[i].claimedUntil.value <= now
    && j in rows && rows[j].Ready(now)
    && (rows[i].priority > rows[j].priority
        || (rows[i].priority == rows[j].priority && rows[i].createdAt < rows[j].createdAt))
  }

  lemma BeatsInTable(rows: T.Rows, now: real, i: Id, j: Id)
    requires var v := TableView(rows);
             i in v && j in v && v[i].Expired(now) && v[j].Offered(now) && v[i].job.Outranks(v[j].job)
    requires Dated(rows)
    ensures Beats(rows, now, i, j)
  {}

  lemma SomeIsOffered(v: View, now: real, id: Id)
    requires IsBest(v, now, id)
    ensures SomeOffered(v, now) && id in v
  {}

  lemma NoTiesKept(v: View, now: real)
    requires NoTies(v)
    ensures NoTies(Norm(v, now)) && NoTies(Lazy(v, now))
    ensures Lazy(v, now).Keys == v.Keys
  {}

  lemma ClaimKeepsRanks(v: View, id: Id, until: real)
    requires NoTies(v) && id in v
    ensures NoTies(ClaimIn(v, id, until))
  {}

  lemma IdleAgrees(rows: T.Rows, now: real)
    requires Dated(rows) && T.NothingReady(D.Offered(rows, now), now)
    ensures !SomeOffered(Lazy(TableView(rows), now), now) && !Overtaken(TableView(rows), now)
    ensures var n := Norm(TableView(rows), now);
            TableView(T.Reclaim(rows, now)) == n && Norm(n, now) == n && Dated(T.Reclaim(rows, now))
  {
    TableReclaims(rows, now);
    TableReclaims(D.Offered(rows, now), now);
  }

  lemma NormEdits(v: View, id: Id, job: Job, now: real)
    ensures Norm(v[id := Slot(job, None)], now) == Norm(v, now)[id := Slot(job, None)]
    ensures Norm(v - {id}, now) == Norm(v, now) - {id}
    ensures Norm(v, now).Keys == v.Keys
  {}

  /** Enqueue, settle, retry and the passing of time keep the backends in agreement. */
  lemma OtherCallsAgree(ser: Serializer, b: Both, vm: View, call: Call, b': Both, rm: Option<Id>, rs: Option<Id>)
    returns (vm': View)
    requires Agree(b, vm) && Calls(ser, b, call, b', rm, rs) && !call.Dequeue?
    ensures Agree(b', vm')
  {
    hide R.Clean, R.Ids, Shows, T.Requeue, T.Settle, Norm, TableView, Dated;
    var vs, now := TableView(b.rows), b.now;
    match call
    case Enqueue(t, args, kwargs) =>
      NormEdits(vm, t.id, DataJob(t), now);
      NormEdits(vs, t.id, DataJob(t), now);
      NotInTable(b.rows, t.id);
      NotQueued(b.mem, vm, t.id);
      MemoryEnqueues(b.mem, vm, DataEntry(t));
      R.TimelyStep(b.mem, M.EnqueueOp(DataEntry(t)));
      TableInserts(b.rows, t, args, kwargs);
      vm' := vm[t.id := Slot(DataJob(t), None)];
    case Done(t) =>
      NormEdits(vm, t.id, DataJob(t), now);
      NormEdits(vs, t.id, DataJob(t), now);
      MemoryAcks(b.mem, vm, t.id);
      R.TimelyStep(b.mem, M.AckOp(t.id));
      TableSettles(b.rows, t);
      vm' := vm - {t.id};
    case Retry(t) =>
      NormEdits(vm, t.id, DataJob(t), now);
      NormEdits(vs, t.id, DataJob(t), now);
      MemoryAcks(b.mem, vm, t.id);
      MemoryEnqueues(b.mem.Acked(t.id), vm - {t.id}, DataEntry(t));
      assert (vm - {t.id})[t.id := Slot(DataJob(t), None)] == vm[t.id := Slot(DataJob(t), None)];
      R.TimelyStep(b.mem, M.NackOp(DataEntry(t), true));
      TableRequeues(b.rows, t);
      CopyKeepsRanks(b.rows, t);
      vm' := vm[t.id := Slot(DataJob(t), None)];
    case Wait(elapsed) =>
      NormTwice(vm, now, now + elapsed);
      NormTwice(vs, now, now + elapsed);
      vm' := vm;
  }

  lemma NotInTable(rows: T.Rows, id: Id)
    requires id !in rows
    ensures id !in TableView(rows)
  {}

  lemma NotQueued(m: M.Mem, v: View, id: Id)
    requires Shows(m, v) && id !in v
    ensures id !in R.Ids(m)
  {}

  lemma CopyKeepsRanks(rows: T.Rows, t: TaskData)
    requires t.id in rows && rows[t.id].status == Running && IsCopy(t, rows[t.id]) && NoTies(TableView(rows))
    ensures NoTies(TableView(rows)[t.id := Slot(DataJob(t), None)])
  {
    var v := TableView(rows);
    assert t.id in v && v[t.id].job.SameRank(DataJob(t));
    forall i | i in v && i != t.id ensures !v[i].job.SameRank(DataJob(t)) {
      assert !v[i].job.SameRank(v[t.id].job);
    }
  }

  // ------------------------------------------------------------ whole runs

  ghost predicate IsPairedRun(ser: Serializer, states: seq<Both>, calls: seq<Call>,
                              rms: seq<Option<Id>>, rss: seq<Option<Id>>) {
    && |states| == |calls| + 1 && |rms| == |rss| == |calls|
    && states[0] == Both(M.Mem([], []), map[], states[0].now)
    && forall i :: 0 <= i < |calls| ==> Calls(ser, states[i], calls[i], states[i + 1], rms[i], rss[i])
  }

  lemma {:induction false} AgreeAlong(ser: Serializer, states: seq<Both>, calls: seq<Call>,
                                      rms: seq<Option<Id>>, rss: seq<Option<Id>>, i: nat)
    returns (vm: View)
    requires IsPairedRun(ser, states, calls, rms, rss) && i < |states|
    requires forall k :: 0 <= k < i ==> !Diverges(states[k], calls[k])
    ensures Agree(states[i], vm)
  {
    hide Agree, Calls, Diverges;
    if i == 0 {
      vm := map[];
      EmptyAgrees(states[0].now);
    } else {
      var before := AgreeAlong(ser, states, calls, rms, rss, i - 1);
      assert Calls(ser, states[i - 1], calls[i - 1], states[i], rms[i - 1], rss[i - 1]);
      if calls[i - 1].Dequeue? {
        vm := DequeueAgrees(ser, states[i - 1], before, calls[i - 1].timeout, states[i], rms[i - 1], rss[i - 1]);
      } else {
        vm := OtherCallsAgree(ser, states[i - 1], before, calls[i - 1], states[i], rms[i - 1], rss[i - 1]);
      }
    }
  }

  lemma EmptyAgrees(now: real)
    ensures Agree(Both(M.Mem([], []), map[], now), map[])
  {}

  /** Driven by the same timely calls, the two backends return the same tasks and report the
      same size() up to the first dequeue at which the table is overtaken. Exactly there they
      return different tasks: the table a waiting one, the deque a better one whose claim
      has expired. */
  lemma BackendsAgree(ser: Serializer, states: seq<Both>, calls: seq<Call>,
                      rms: seq<Option<Id>>, rss: seq<Option<Id>>, i: nat)
    requires IsPairedRun(ser, states, calls, rms, rss) && i < |calls|
    requires forall k :: 0 <= k < i ==> !Diverges(states[k], calls[k])
    ensures states[i].mem.Size() == |T.ActiveIds(states[i].rows)|
    ensures rms[i] == rss[i] <==> !Diverges(states[i], calls[i])
    ensures rms[i] != rss[i] ==>
              && rms[i].Some? && rss[i].Some?
              && Beats(states[i].rows, states[i].now, rms[i].value, rss[i].value)
  {
    var vm := AgreeAlong(ser, states, calls, rms, rss, i);
    SizesAgree(states[i], vm);
    assert Calls(ser, states[i], calls[i], states[i + 1], rms[i], rss[i]);
    if calls[i].Dequeue? {
      var _ := DequeueAgrees(ser, states[i], vm, calls[i].timeout, states[i + 1], rms[i], rss[i]);
    }
  }

  lemma SizesAgree(b: Both, vm: View)
    requires Agree(b, vm)
    ensures b.mem.Size() == |T.ActiveIds(b.rows)|
  {
    hide Shows;
    var ids := M.PendingIds(b.mem.pending) + M.ClaimIds(b.mem.claims);
    assert multiset(ids) == R.Ids(b.mem);
    DistinctFromMultiset(ids);
    DistinctSize(ids);
    QueuedAre(b.mem, vm, ids);
    assert Norm(vm, b.now).Keys == vm.Keys;
    assert Norm(TableView(b.rows), b.now).Keys == T.ActiveIds(b.rows);
  }

  lemma QueuedAre(m: M.Mem, v: View, ids: seq<Id>)
    requires Shows(m, v) && ids == M.PendingIds(m.pending) + M.ClaimIds(m.claims)
    ensures D.SetOf(ids) == v.Keys
  {
    forall id | id in v ensures id in ids {
      assert R.IsActive(m, id);
      if R.Waiting(m, id) {
        var k :| 0 <= k < |m.pending| && m.pending[k].id == id;
        assert ids[k] == id;
      } else {
        var k :| 0 <= k < |m.claims| && m.claims[k].entry.id == id;
        assert ids[|m.pending| + k] == id;
      }
    }
  }

  lemma {:induction false} DistinctSize(ids: seq<Id>)
    requires Distinct(ids)
    ensures |D.SetOf(ids)| == |ids|
  {
    if ids != [] {
      var n := |ids| - 1;
      DistinctSize(ids[..n]);
      assert ids == ids[..n] + [ids[n]];
      assert D.SetOf(ids) == D.SetOf(ids[..n]) + {ids[n]};
    }
  }
}
