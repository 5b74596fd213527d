/** The persistent result backend (results.py) and AsyncResult.get (task.py) over it. */
module Results {
  import opened Tasks
  import T = TaskTable
  import opened SqliteQueue

  /** What a stored outcome tells a caller. */
  datatype Outcome = Outcome(
    id: Id, funcPath: string, status: Status, result: Value, error: Option<string>, finishedAt: Option<real>)

  /** The outcome of a finished task: a result only if it succeeded. */
  function OutcomeOf(t: TaskData): Outcome {
    Outcome(t.id, t.funcPath, t.status, if t.status == Success then t.result else Null, t.error, t.finishedAt)
  }

  /** _row_to_task of the result table; None stands for SerializationError. */
  function Reported(ser: Serializer, id: Id, r: T.ResultRow): Option<Outcome> {
    match r.resultJson
    case None => Some(Outcome(id, r.funcPath, r.status, Null, r.error, r.finishedAt))
    case Some(blob) =>
      match ser.deserialize(blob)
      case Some(value) => Some(Outcome(id, r.funcPath, r.status, value, r.error, r.finishedAt))
      case None => None
  }

  /** What is stored is read back. */
  lemma StoreRoundTrip(ser: Serializer, t: TaskData, now: real)
    requires ser.Invertible() && T.Stored(ser, t, now).Some?
    ensures Reported(ser, t.id, T.Stored(ser, t, now).value) == Some(OutcomeOf(t))
    ensures var o := OutcomeOf(t);
            && o.id == t.id && o.funcPath == t.funcPath && o.status == t.status && o.error == t.error
            && o.finishedAt == t.finishedAt && o.result == if t.status == Success then t.result else Null
  {
    if t.status == Success { assert ser.deserialize(ser.serialize(t.result).value) == Some(t.result); }
  }

  // ---------------------------------------------------- histories of stores

  /** One call of store, by any worker, at some time. */
  datatype Store = Store(task: TaskData, at: real)

  /** The result table after some stores; one that does not serialize changes nothing. */
  function After(ser: Serializer, table: T.Results, stores: seq<Store>): T.Results {
    if stores == [] then table
    else
      var last := stores[|stores| - 1];
      var before := After(ser, table, stores[..|stores| - 1]);
      match T.Stored(ser, last.task, last.at)
      case Some(row) => before[last.task.id := row]
      case None => before
  }

  /** The last store of id that went through. */
  function LastStored(ser: Serializer, stores: seq<Store>, id: Id): Option<TaskData> {
    if stores == [] then None
    else
      var last := stores[|stores| - 1];
      if last.task.id == id && T.Stored(ser, last.task, last.at).Some? then Some(last.task)
      else LastStored(ser, stores[..|stores| - 1], id)
  }

  /** One store more replaces the outcome of its task if it serializes, and no other. */
  lemma OneStoreMore(ser: Serializer, table: T.Results, stores: seq<Store>, s: Store, id: Id)
    ensures var before, after := After(ser, table, stores), After(ser, table, stores + [s]);
            var goes := s.task.status == Success ==> ser.serialize(s.task.result).Some?;
            && (goes && s.task.id == id ==>
                  id in after && LastStored(ser, stores + [s], id) == Some(s.task) && after[id].storedAt == s.at)
            && (!goes || s.task.id != id ==>
                  && LastStored(ser, stores + [s], id) == LastStored(ser, stores, id)
                  && (id in after <==> id in before) && (id in before ==> after[id] == before[id]))
  {
    assert (stores + [s])[..|stores|] == stores;
  }

  /** The table holds exactly the last outcome stored for each task. */
  lemma {:induction false} TableHoldsLastStored(ser: Serializer, stores: seq<Store>, id: Id)
    requires ser.Invertible()
    ensures var table := After(ser, map[], stores);
            match LastStored(ser, stores, id)
            case Some(t) => id in table && Reported(ser, id, table[id]) == Some(OutcomeOf(t))
            case None => id !in table
  {
    if stores != [] {
      var last := stores[|stores| - 1];
      TableHoldsLastStored(ser, stores[..|stores| - 1], id);
      if T.Stored(ser, last.task, last.at).Some? { StoreRoundTrip(ser, last.task, last.at); }
    }
  }

  lemma {:induction false} AfterConcat(ser: Serializer, table: T.Results, a: seq<Store>, b: seq<Store>)
    ensures After(ser, table, a + b) == After(ser, After(ser, table, a), b)
    decreases |b|
  {
    if b == [] {
      assert a + b == a;
    } else {
      var n := |b| - 1;
      assert (a + b)[..|a + b| - 1] == a + b[..n];
      AfterConcat(ser, table, a, b[..n]);
    }
  }

  // ------------------------------------------------------------- the classes

  /** One look at the table by wait: the stores of other workers since the look before, and
      the time of this one. */
  datatype Poll = Poll(stores: seq<Store>, now: real)

  function Arrived(polls: seq<Poll>): seq<Store> {
    if polls == [] then [] else Arrived(polls[..|polls| - 1]) + polls[|polls| - 1].stores
  }

  /** The table at the k-th look. */
  function Seen(ser: Serializer, table: T.Results, polls: seq<Poll>, k: nat): T.Results
    requires k <= |polls|
  {
    After(ser, table, Arrived(polls[..k]))
  }

  /** How wait ends: with an outcome, TaskTimeout, SerializationError, or not yet. */
  datatype Waited = Done(outcome: Outcome) | TimedOut | Undecodable | StillWaiting

  class SQLiteResultBackend {
    const conn: Connection<T.Results>
    const ser: Serializer

    constructor (conn: Connection<T.Results>, ser: Serializer)
      ensures this.conn == conn && this.ser == ser
    {
      this.conn, this.ser := conn, ser;
    }

    predicate Valid()
      reads conn
    {
      conn.saved == None
    }

    function Table(): T.Results
      reads conn
    {
      conn.table
    }

    /** Replaces the outcome of the task, or raises and changes nothing. */
    method Store(task: Task, now: real, fault: Fault) returns (r: Reply<()>)
      requires Valid()
      modifies conn
      ensures Valid()
      ensures r.Ok? <==> T.Stored(ser, task.Data(), now).Some? && fault == NoFault
      ensures Table() == if r.Ok? then old(Table())[task.id := T.Stored(ser, task.Data(), now).value] else old(Table())
      ensures r.Err? && r.error == SerializationError <==> T.Stored(ser, task.Data(), now) == None
      ensures r.Ok? <==> fault == NoFault && (task.status == Success ==> ser.serialize(task.result).Some?)
      ensures r.Ok? ==>
                var row := Table()[task.id];
                && row.funcPath == task.funcPath && row.status == task.status && row.error == task.error
                && row.finishedAt == task.finishedAt && row.storedAt == now
                && row.resultJson == if task.status == Success then ser.serialize(task.result) else None
    {
      var row := T.Stored(ser, task.Data(), now);
      if row == None { return Err(SerializationError); }
      var open := conn.Begin(fault);
      if !open { return Err(OperationalError); }
      conn.table := conn.table[task.id := row.value];
      var ok := conn.End(false, fault);
      r := if ok then Ok(()) else Err(OperationalError);
    }

    method Get(id: Id) returns (r: Reply<Option<Outcome>>)
      ensures r == if id !in Table() then Ok(None)
                   else match Reported(ser, id, Table()[id])
                        case Some(o) => Ok(Some(o))
                        case None => Err(SerializationError)
    {
      if id !in conn.table { return Ok(None); }
      var o := Reported(ser, id, conn.table[id]);
      r := if o == None then Err(SerializationError) else Ok(o);
    }

    /** Nothing at this point makes wait return: no outcome yet, or one that is not terminal. */
    predicate Unfinished(table: T.Results, id: Id) {
      id in table ==> Reported(ser, id, table[id]).Some? && !Reported(ser, id, table[id]).value.status.Terminal()
    }

    /** wait, polling until an outcome is terminal or the deadline passes. n is the number of
        looks; the stores of other workers arrive in between. */
    method Wait(id: Id, deadline: Option<real>, polls: seq<Poll>) returns (r: Waited, n: nat)
      requires Valid()
      modifies conn
      ensures Valid() && n <= |polls|
      ensures Table() == Seen(ser, old(Table()), polls, n)
      ensures forall k :: 0 < k < n ==> Unfinished(Seen(ser, old(Table()), polls, k), id)
      ensures forall k :: 0 <= k < n - 1 ==> deadline == None || polls[k].now < deadline.value
      ensures n > 0 ==> (r.Undecodable? <==> id in Table() && Reported(ser, id, Table()[id]) == None)
      ensures n > 0 ==>
                (r.Done? <==> id in Table() && Reported(ser, id, Table()[id]).Some?
                              && var status := Reported(ser, id, Table()[id]).value.status;
                                 status == Success || status == Failed)
      ensures r.Done? ==>
                r.outcome.status.Terminal() && id in Table() && Reported(ser, id, Table()[id]) == Some(r.outcome)
      ensures r.TimedOut? ==> n > 0 && Unfinished(Table(), id) && deadline.Some? && deadline.value <= polls[n - 1].now
      ensures r.Undecodable? ==> id in Table() && Reported(ser, id, Table()[id]) == None
      ensures r.StillWaiting? ==> n == |polls| && (n > 0 ==> Unfinished(Table(), id))
    {
      n := 0;
      while n < |polls|
        invariant Valid() && n <= |polls|
        invariant Table() == Seen(ser, old(Table()), polls, n)
        invariant forall k :: 0 < k <= n ==> Unfinished(Seen(ser, old(Table()), polls, k), id)
        invariant forall k :: 0 <= k < n ==> deadline == None || polls[k].now < deadline.value
      {
        AfterConcat(ser, old(Table()), Arrived(polls[..n]), polls[n].stores);
        assert polls[..n + 1][..n] == polls[..n];
        conn.table := After(ser, conn.table, polls[n].stores);
        n := n + 1;
        var got := Get(id);
        if got.Err? { return Undecodable, n; }
        if got.value.Some? && got.value.value.status.Terminal() { return Done(got.value.value), n; }
        if deadline.Some? && deadline.value <= polls[n - 1].now { return TimedOut, n; }
      }
      r := StillWaiting;
    }
  }

  class AsyncResult {
    const taskId: Id
    const backend: SQLiteResultBackend

    constructor (taskId: Id, backend: SQLiteResultBackend)
      ensures this.taskId == taskId && this.backend == backend
    {
      this.taskId, this.backend := taskId, backend;
    }

    /** By the k-th look the last outcome stored for the task is a success or a failure. */
    predicate FinishedBy(history: seq<Store>, polls: seq<Poll>, k: nat)
      requires k <= |polls|
    {
      var last := LastStored(backend.ser, history + Arrived(polls[..k]), taskId);
      last.Some? && (last.value.status == Success || last.value.status == Failed)
    }

    /** Whatever was stored before (history) and arrives meanwhile, get returns the result or
        raises the error of the last stored outcome at the first look at which that is a
        success or a failure, and times out at the first look past the deadline if there was
        none by then. It never finds an unexpected status or an outcome that does not decode. */
    method Get(deadline: Option<real>, polls: seq<Poll>, ghost history: seq<Store>) returns (r: Got, ghost n: nat)
      requires backend.Valid() && backend.ser.Invertible()
      requires backend.Table() == After(backend.ser, map[], history)
      modifies backend.conn
      ensures backend.Valid() && n <= |polls|
      ensures r != RaisedUnexpected && r != RaisedDecodeError
      ensures r.GotValue? || r.RaisedFailed? ==>
                var last := LastStored(backend.ser, history + Arrived(polls[..n]), taskId);
                && last.Some? && last.value.status.Terminal()
                && r == if last.value.status == Success then GotValue(last.value.result)
                        else RaisedFailed(last.value.error)
      ensures n > 0 ==> (r.GotValue? || r.RaisedFailed? <==> FinishedBy(history, polls, n))
      ensures forall k :: 0 < k < n ==>
                !FinishedBy(history, polls, k) && (deadline == None || polls[k - 1].now < deadline.value)
      ensures r.RaisedTimeout? ==> n > 0 && deadline.Some? && deadline.value <= polls[n - 1].now
      ensures r.NotYet? ==> n == |polls|
    {
      var w;
      w, n := backend.Wait(taskId, deadline, polls);
      ghost var all := history + Arrived(polls[..n]);
      AfterConcat(backend.ser, map[], history, Arrived(polls[..n]));
      TableHoldsLastStored(backend.ser, all, taskId);
      forall k | 0 < k < n ensures !FinishedBy(history, polls, k) {
        AfterConcat(backend.ser, map[], history, Arrived(polls[..k]));
        TableHoldsLastStored(backend.ser, history + Arrived(polls[..k]), taskId);
        assert backend.Unfinished(Seen(backend.ser, old(backend.Table()), polls, k), taskId);
      }
      match w
      case Done(o) =>
        r := if o.status == Success then GotValue(o.result)
             else if o.status == Failed then RaisedFailed(o.error)
             else RaisedUnexpected;
      case TimedOut => r := RaisedTimeout;
      case Undecodable => r := RaisedDecodeError;
      case StillWaiting => r := NotYet;
    }
  }
}
