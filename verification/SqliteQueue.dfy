/** The persistent queue (queue/sqlite.py) over a connection with explicit transactions
    (_sqlite.py): a transaction saves the table at BEGIN and restores it at ROLLBACK. */
module SqliteQueue {
  import opened Tasks
  import opened TaskTable
  import opened Delivery

  /** Where the database may be found locked during one transaction. A deferred BEGIN meets
      the lock only at the first write, with the same effect as at BEGIN: nothing changes. */
  datatype Fault = NoFault | LockedAtBegin | LockedAtCommit

  datatype Error = OperationalError | IntegrityError | SerializationError

  /** A returned value or a raised exception. */
  datatype Reply<+T> = Ok(value: T) | Err(error: Error)

  class Connection<T> {
    var table: T
    var saved: Option<T>

    constructor (table: T)
      ensures this.table == table && saved == None
    {
      this.table, saved := table, None;
    }

    method Begin(fault: Fault) returns (ok: bool)
      requires saved == None
      modifies this
      ensures table == old(table)
      ensures ok == (fault != LockedAtBegin)
      ensures saved == if ok then Some(table) else None
    {
      ok := fault != LockedAtBegin;
      if ok { saved := Some(table); }
    }

    /** Leaving the transaction block: COMMIT, and ROLLBACK if the body raised or COMMIT did. */
    method End(raised: bool, fault: Fault) returns (ok: bool)
      requires saved.Some?
      modifies this
      ensures saved == None
      ensures ok == (!raised && fault != LockedAtCommit)
      ensures table == if ok then old(table) else old(saved.value)
    {
      ok := !raised && fault != LockedAtCommit;
      if !ok { table := saved.value; }
      saved := None;
    }
  }

  class SQLiteQueue {
    const conn: Connection<Rows>
    const ser: Serializer

    constructor (conn: Connection<Rows>, ser: Serializer)
      ensures this.conn == conn && this.ser == ser
    {
      this.conn, this.ser := conn, ser;
    }

    /** No transaction is open. */
    predicate Valid()
      reads conn
    {
      conn.saved == None
    }

    function Table(): Rows
      reads conn
    {
      conn.table
    }

    /** Inserts the task, or raises and leaves the table alone. */
    method Enqueue(task: Task, fault: Fault) returns (r: Reply<()>)
      requires Valid()
      modifies conn
      ensures Valid()
      ensures r.Ok? <==> ser.serialize(task.args).Some? && ser.serialize(task.kwargs).Some?
                         && task.id !in old(Table()) && fault == NoFault
      ensures r.Ok? ==>
                Table() == old(Table())[task.id := Inserted(task.Data(), ser.serialize(task.args).value,
                                                            ser.serialize(task.kwargs).value)]
      ensures r.Ok? ==>
                var row := Table()[task.id];
                && row.funcPath == task.funcPath && row.status == task.status && row.retries == task.retries
                && row.maxRetries == task.maxRetries && row.priority == task.priority
                && row.createdAt == task.createdAt && row.availableAt == task.availableAt
                && row.startedAt == None && row.finishedAt == None && row.claimedUntil == None && row.error == None
      ensures r.Err? ==> Table() == old(Table())
      ensures r == Err(SerializationError) <==>
                ser.serialize(task.args) == None || ser.serialize(task.kwargs) == None
      ensures r == Err(IntegrityError) <==>
                ser.serialize(task.args).Some? && ser.serialize(task.kwargs).Some?
                && task.id in old(Table()) && fault != LockedAtBegin
    {
      var args := ser.serialize(task.args);
      var kwargs := ser.serialize(task.kwargs);
      if args == None || kwargs == None { return Err(SerializationError); }
      var open := conn.Begin(fault);
      if !open { return Err(OperationalError); }
      var duplicate := task.id in conn.table;
      if !duplicate {
        conn.table := conn.table[task.id := Inserted(task.Data(), args.value, kwargs.value)];
      }
      var ok := conn.End(duplicate, fault);
      if duplicate { return Err(IntegrityError); }
      r := if ok then Ok(()) else Err(OperationalError);
    }

    /** Either claims one best row and changes nothing else, or changes nothing at all:
        nothing ready, database locked, or a row that does not decode. */
    method TryClaim(timeout: real, now: real, fault: Fault) returns (r: Reply<Option<Task>>)
      requires Valid()
      modifies conn
      ensures Valid()
      ensures r.Ok? && r.value.Some? ==>
                && fault == NoFault && fresh(r.value.value)
                && ClaimsFrom(ser, old(Table()), now, timeout, r.value.value.Data(), Table())
      ensures r.Ok? && r.value.Some? ==>
                var id, rows := r.value.value.id, old(Table());
                && id in rows && rows[id].status == Pending
                && (rows[id].availableAt == None || rows[id].availableAt.value <= now)
                && (forall j | j in rows && rows[j].status == Pending
                               && (rows[j].availableAt == None || rows[j].availableAt.value <= now) ::
                      rows[j].priority < rows[id].priority
                      || (rows[j].priority == rows[id].priority && rows[id].createdAt <= rows[j].createdAt))
                && Table() == rows[id := rows[id].(status := Running, startedAt := Some(now),
                                                   claimedUntil := Some(now + timeout))]
                && r.value.value.status == Running && r.value.value.startedAt == Some(now)
      ensures r == Ok(None) && fault == NoFault ==>
                forall j | j in Table() && Table()[j].status == Pending ::
                  Table()[j].availableAt.Some? && now < Table()[j].availableAt.value
      ensures !(r.Ok? && r.value.Some?) ==> Table() == old(Table())
      ensures r == Ok(None) ==> fault != NoFault || NothingReady(old(Table()), now)
      ensures r.Err? ==> r.error == SerializationError && Undecodable(ser, old(Table()), now)
      ensures fault == LockedAtBegin || NothingReady(old(Table()), now) ==> r == Ok(None)
    {
      var open := conn.Begin(fault);
      if !open { return Ok(None); }
      if NothingReady(conn.table, now) {
        var _ := conn.End(false, fault);
        return Ok(None);
      }
      ghost var best := BestExists(conn.table, now);
      var id :| id in conn.table && IsBest(conn.table, now, id);
      BestIff(conn.table, now, id);
      var row := conn.table[id];
      conn.table := Claim(conn.table, id, now, timeout);
      var decoded := Decoded(ser, id, row);
      if decoded == None {
        var _ := conn.End(true, fault);
        return Err(SerializationError);
      }
      var task := new Task(decoded.value);
      task.MarkRunning(now);
      var ok := conn.End(false, fault);
      r := Ok(if ok then Some(task) else None);
    }

    /** Releases every expired claim; a lock error here is raised. */
    method ReclaimExpired(now: real, fault: Fault) returns (r: Reply<()>)
      requires Valid()
      modifies conn
      ensures Valid()
      ensures r == (if fault == NoFault then Ok(()) else Err(OperationalError))
      ensures Table() == if fault == NoFault then Reclaim(old(Table()), now) else old(Table())
      ensures Table().Keys == old(Table()).Keys
      ensures fault == NoFault ==>
                forall id | id in Table() ::
                  var row := old(Table())[id];
                  Table()[id] ==
                  if row.status == Running && row.claimedUntil.Some? && row.claimedUntil.value <= now
                  then row.(status := Pending, startedAt := None, claimedUntil := None)
                  else row
    {
      var open := conn.Begin(fault);
      if !open { return Err(OperationalError); }
      conn.table := Reclaim(conn.table, now);
      var ok := conn.End(false, fault);
      r := if ok then Ok(()) else Err(OperationalError);
    }

    /** One round of dequeue: claim; failing that, reclaim and claim again, with other workers
        changing the table in between. It claims from the table as it is when something is
        ready in it and no lock is met, and from the reclaimed table otherwise. A lock during
        the reclaim is always raised, unless the first claim has raised before. A smooth round
        is one delivery, or finds nothing, or raises because a best row does not decode. */
    method DequeueRound(timeout: real, p: Poll) returns (r: Reply<Option<Task>>)
      requires Valid()
      modifies conn
      ensures Valid()
      ensures r.Ok? && r.value.Some? ==>
                fresh(r.value.value) && RoundClaims(ser, old(Table()), p, timeout, r.value.value.Data(), Table())
      ensures r == Ok(None) ==> RoundIdles(old(Table()), p) && Table() == Swept(old(Table()), p)
      ensures r.Err? ==> RoundRaises(ser, old(Table()), p, r.error, Table())
      ensures r == Err(OperationalError) ==> LockRaises(old(Table()), p)
      ensures LockRaises(old(Table()), p) ==>
                || r == Err(OperationalError)
                || (r == Err(SerializationError) && p.first == LockedAtCommit && Undecodable(ser, old(Table()), p.now))
      ensures Smooth(old(Table()), p) ==>
                && (r == Ok(None) <==> NothingReady(Offered(old(Table()), p.now), p.now))
                && (r.Ok? && r.value.Some? ==>
                      Delivers(ser, old(Table()), p.now, timeout, r.value.value.id, Table()))
                && (r.Err? ==> Undecodable(ser, Offered(old(Table()), p.now), p.now))
    {
      r := TryClaim(timeout, p.now, p.first);
      if r.Err? || r.value.Some? { return; }
      conn.table := p.between(conn.table);
      var swept := ReclaimExpired(p.now, p.reclaim);
      if swept.Err? { return Err(swept.error); }
      conn.table := p.after(conn.table);
      r := TryClaim(timeout, p.now, p.second);
    }

    /** dequeue as it polls, one round after the other, until a task is claimed, a round
        raises, or the deadline passes (at once if there is no deadline). Before each round
        and between its transactions other workers may change the table in any way, and each
        transaction may meet a lock. n is the number of rounds made. */
    method Dequeue(timeout: real, deadline: Option<real>, polls: seq<Poll>) returns (r: Reply<Option<Task>>, n: nat)
      requires Valid() && |polls| > 0 && (deadline == None || deadline.value <= polls[|polls| - 1].now)
      modifies conn
      ensures Valid() && 0 < n <= |polls|
      ensures n > 1 ==> deadline.Some? && forall k :: 0 <= k < n - 1 ==> polls[k].now < deadline.value
      ensures AllIdle(old(Table()), polls, n - 1)
      ensures r.Ok? && r.value.Some? ==>
                && fresh(r.value.value)
                && RoundClaims(ser, Met(old(Table()), polls, n - 1), polls[n - 1], timeout,
                               r.value.value.Data(), Table())
      ensures r == Ok(None) ==>
                && RoundIdles(Met(old(Table()), polls, n - 1), polls[n - 1])
                && (deadline == None || deadline.value <= polls[n - 1].now)
                && Table() == Swept(Met(old(Table()), polls, n - 1), polls[n - 1])
      ensures r.Err? ==> RoundRaises(ser, Met(old(Table()), polls, n - 1), polls[n - 1], r.error, Table())
    {
      hide NothingReady, RoundClaims, RoundIdles, RoundRaises, LockRaises, Smooth, Undecodable, Delivers, Offered,
           Swept, Met;
      n := 0;
      while true
        invariant Valid() && n < |polls|
        invariant n > 0 ==> Table() == Swept(Met(old(Table()), polls, n - 1), polls[n - 1])
        invariant n == 0 ==> Table() == old(Table())
        invariant n > 0 ==> deadline.Some? && forall k :: 0 <= k < n ==> polls[k].now < deadline.value
        invariant AllIdle(old(Table()), polls, n)
        decreases |polls| - n
      {
        MetIs(old(Table()), polls, n);
        conn.table := polls[n].others(conn.table);
        n := n + 1;
        r := DequeueRound(timeout, polls[n - 1]);
        if r.Err? || r.value.Some? { return; }
        if deadline == None || deadline.value <= polls[n - 1].now { return; }
      }
    }

    /** Writes the outcome of the given copy, whoever holds the claim; raises on a lock. */
    method Ack(task: Task, fault: Fault) returns (r: Reply<()>)
      requires Valid()
      modifies conn
      ensures Valid()
      ensures r == (if fault == NoFault then Ok(()) else Err(OperationalError))
      ensures Table() == if fault == NoFault then Settle(old(Table()), task.Data()) else old(Table())
      ensures fault == NoFault ==>
                var rows, id := old(Table()), task.id;
                Table() == if id !in rows then rows
                           else rows[id := rows[id].(status := task.status, finishedAt := task.finishedAt,
                                                     error := task.error, claimedUntil := None)]
    {
      var open := conn.Begin(fault);
      if !open { return Err(OperationalError); }
      conn.table := Settle(conn.table, task.Data());
      var ok := conn.End(false, fault);
      r := if ok then Ok(()) else Err(OperationalError);
    }

    /** Puts the task back with the copy's retries and available_at, or dead-letters it. */
    method Nack(task: Task, requeue: bool, fault: Fault) returns (r: Reply<()>)
      requires Valid()
      modifies conn
      ensures Valid()
      ensures r == (if fault == NoFault then Ok(()) else Err(OperationalError))
      ensures Table() == if fault != NoFault then old(Table())
                         else if requeue then Requeue(old(Table()), task.Data())
                         else Settle(old(Table()), task.Data())
      ensures fault == NoFault ==>
                var rows, id := old(Table()), task.id;
                Table() == if id !in rows then rows
                           else if requeue
                           then rows[id := rows[id].(status := Pending, startedAt := None, claimedUntil := None,
                                                     retries := task.retries, availableAt := task.availableAt)]
                           else rows[id := rows[id].(status := task.status, finishedAt := task.finishedAt,
                                                     error := task.error, claimedUntil := None)]
    {
      var open := conn.Begin(fault);
      if !open { return Err(OperationalError); }
      if requeue {
        conn.table := Requeue(conn.table, task.Data());
      } else {
        conn.table := Settle(conn.table, task.Data());
      }
      var ok := conn.End(false, fault);
      r := if ok then Ok(()) else Err(OperationalError);
    }

    method Size() returns (n: nat)
      ensures n == |ActiveIds(Table())|
      ensures n == |set id | id in Table() && (Table()[id].status == Pending || Table()[id].status == Running)|
    {
      n := |ActiveIds(conn.table)|;
      assert ActiveIds(Table()) ==
             set id | id in Table() && (Table()[id].status == Pending || Table()[id].status == Running);
    }
  }

  /** The copy that a claim returns says exactly what its row says after the claim, although
      it is decoded from the row before. */
  lemma ClaimedCopyIsRow(ser: Serializer, rows: Rows, now: real, timeout: real, t: TaskData, rows': Rows)
    requires ClaimsFrom(ser, rows, now, timeout, t, rows')
    ensures t.id in rows' && Decoded(ser, t.id, rows'[t.id]) == Some(t)
    ensures rows'[t.id].claimedUntil == Some(now + timeout)
    ensures forall id | id in rows && id != t.id :: id in rows' && rows'[id] == rows[id]
  {}

  /** After a settle by the worker that holds the copy of a row, the row says again what the
      copy says, except that the table keeps no results; a retry is marked pending, as the
      in-memory queue marks its task object. All other rows stay. */
  lemma SettledRowIsCopy(ser: Serializer, rows: Rows, t: TaskData, value: Value, message: string, at: real, other: Id)
    requires t.id in rows && Decoded(ser, t.id, rows[t.id]) == Some(t)
    ensures var u := t.AsSuccess(value, at);
            var r := Settle(rows, u)[t.id];
            Decoded(ser, t.id, r) == Some(u.(result := Null)) && r.claimedUntil == None
    ensures var u := t.AsFailed(message, at);
            var r := Settle(rows, u)[t.id];
            Decoded(ser, t.id, r) == Some(u) && r.claimedUntil == None
    ensures var u := t.AsRetry(at);
            var r := Requeue(rows, u)[t.id];
            Decoded(ser, t.id, r) == Some(u.AsPending()) && r.claimedUntil == None
    ensures other in rows && other != t.id ==>
              && Settle(rows, t.AsSuccess(value, at))[other] == rows[other]
              && Settle(rows, t.AsFailed(message, at))[other] == rows[other]
              && Requeue(rows, t.AsRetry(at))[other] == rows[other]
  {}

  // --------------------------------------------------------------- polling

  /** One round of dequeue: its time, where its three transactions meet a lock, and what other
      workers do to the table before it (others), between the first claim and the reclaim, and
      after the reclaim. */
  datatype Poll = Poll(
    now: real,
    others: Rows -> Rows,
    first: Fault,
    between: Rows -> Rows,
    reclaim: Fault,
    after: Rows -> Rows,
    second: Fault)

  /** The first claim of a round comes to nothing (unless it raises). */
  predicate FirstFails(rows: Rows, p: Poll) { p.first != NoFault || NothingReady(rows, p.now) }

  /** The table that the second claim of a round meets. */
  function Swept(rows: Rows, p: Poll): Rows { p.after(Reclaim(p.between(rows), p.now)) }

  /** The table one round of dequeue claims from. */
  function RoundOffers(rows: Rows, p: Poll): Rows { if FirstFails(rows, p) then Swept(rows, p) else rows }

  /** The round gets to its reclaim, and the reclaim meets a lock. */
  predicate LockRaises(rows: Rows, p: Poll) { FirstFails(rows, p) && p.reclaim != NoFault }

  predicate RoundClaims(ser: Serializer, rows: Rows, p: Poll, timeout: real, t: TaskData, rows': Rows) {
    && (FirstFails(rows, p) ==> p.reclaim == p.second == NoFault)
    && ClaimsFrom(ser, RoundOffers(rows, p), p.now, timeout, t, rows')
  }

  /** A round may come to nothing: both its claims do, and the reclaim meets no lock. */
  predicate RoundIdles(rows: Rows, p: Poll) {
    && FirstFails(rows, p) && p.reclaim == NoFault
    && (p.second != NoFault || NothingReady(Swept(rows, p), p.now))
  }

  /** A round may raise: the reclaim meets a lock, or one of the claims a best row that does
      not decode. */
  predicate RoundRaises(ser: Serializer, rows: Rows, p: Poll, error: Error, rows': Rows) {
    match error
    case OperationalError => LockRaises(rows, p) && rows' == p.between(rows)
    case SerializationError =>
      || (p.first != LockedAtBegin && Undecodable(ser, rows, p.now) && rows' == rows)
      || (FirstFails(rows, p) && p.reclaim == NoFault && p.second != LockedAtBegin
          && Undecodable(ser, Swept(rows, p), p.now) && rows' == Swept(rows, p))
    case IntegrityError => false
  }

  /** No lock is met, and no other worker changes what the round reclaims. */
  predicate Smooth(rows: Rows, p: Poll) {
    p.first == p.reclaim == p.second == NoFault
    && p.between(rows) == rows && p.after(Reclaim(rows, p.now)) == Reclaim(rows, p.now)
  }

  /** The table that round k meets, when all rounds before it came to nothing. */
  function Met(rows: Rows, polls: seq<Poll>, k: nat): Rows
    requires k < |polls|
  {
    polls[k].others(if k == 0 then rows else Swept(Met(rows, polls, k - 1), polls[k - 1]))
  }

  /** The first n rounds come to nothing. */
  predicate AllIdle(rows: Rows, polls: seq<Poll>, n: nat)
    requires n <= |polls|
  {
    forall k :: 0 <= k < n ==> RoundIdles(Met(rows, polls, k), polls[k])
  }

  lemma MetIs(rows: Rows, polls: seq<Poll>, k: nat)
    requires k < |polls|
    ensures Met(rows, polls, k) ==
            polls[k].others(if k == 0 then rows else Swept(Met(rows, polls, k - 1), polls[k - 1]))
  {}

  /** No other worker changes the table during the round. */
  ghost predicate Undisturbed(p: Poll) {
    forall rows :: p.others(rows) == rows && p.between(rows) == rows && p.after(rows) == rows
  }

  /** No other worker changes the table, and time does not go back. */
  ghost predicate Alone(polls: seq<Poll>) {
    && (forall k :: 0 <= k < |polls| ==> Undisturbed(polls[k]))
    && (forall i, j :: 0 <= i < j < |polls| ==> polls[i].now <= polls[j].now)
  }

  /** Polling in vain at later and later times amounts to one reclaim at the last of them. */
  lemma {:induction false} PollingIsOneReclaim(rows: Rows, polls: seq<Poll>, k: nat)
    requires Alone(polls) && 0 < k < |polls|
    ensures Met(rows, polls, k) == Reclaim(rows, polls[k - 1].now)
  {
    assert Undisturbed(polls[k]) && Undisturbed(polls[k - 1]);
    if k > 1 {
      PollingIsOneReclaim(rows, polls, k - 1);
      assert polls[k - 2].now <= polls[k - 1].now;
    }
  }

  lemma BestExists(rows: Rows, now: real) returns (id: Id)
    requires !NothingReady(rows, now)
    ensures IsBest(rows, now, id)
  {
    var ready := set j | j in rows && rows[j].Ready(now);
    var x :| x in rows && rows[x].Ready(now);
    assert x in ready;
    id := SomeBest(rows, ready);
  }
}
