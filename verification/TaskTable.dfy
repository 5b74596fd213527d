/** The tasks and task_results tables as maps, and each SQL statement as a function of the
    table: queue/sqlite.py, results.py and the updates of cli.py. */
module TaskTable {
  import opened Tasks

  datatype Row = Row(
    funcPath: string,
    args: Blob,
    kwargs: Blob,
    status: Status,
    retries: int,
    maxRetries: int,
    priority: int,
    createdAt: real,
    startedAt: Option<real>,
    finishedAt: Option<real>,
    availableAt: Option<real>,
    claimedUntil: Option<real>,
    error: Option<string>)
  {
    /** The WHERE clause of the claim query. */
    predicate Ready(now: real) { status == Pending && Reached(availableAt, now) }

    /** The WHERE clause of the reclaim update. */
    predicate Expired(now: real) {
      status == Running && claimedUntil.Some? && claimedUntil.value <= now
    }

    predicate Active() { status == Pending || status == Running }

    /** Strictly first under ORDER BY priority DESC, created_at ASC. */
    predicate Outranks(other: Row) {
      Rank(priority, createdAt).Beats(Rank(other.priority, other.createdAt))
    }

    function Claimed(now: real, timeout: real): Row {
      this.(status := Running, startedAt := Some(now), claimedUntil := Some(now + timeout))
    }

    function Released(): Row {
      this.(status := Pending, startedAt := None, claimedUntil := None)
    }
  }

  type Rows = map<Id, Row>

  /** INSERT: the columns enqueue writes; all others take their defaults. */
  function Inserted(t: TaskData, args: Blob, kwargs: Blob): Row {
    Row(t.funcPath, args, kwargs, t.status, t.retries, t.maxRetries, t.priority, t.createdAt,
        None, None, t.availableAt, None, None)
  }

  /** _row_to_task; None stands for SerializationError. */
  function Decoded(ser: Serializer, id: Id, r: Row): Option<TaskData> {
    match (ser.deserialize(r.args), ser.deserialize(r.kwargs))
    case (Some(args), Some(kwargs)) =>
      Some(TaskData(id, r.funcPath, args, kwargs, r.status, r.retries, r.maxRetries, r.priority,
                    r.createdAt, r.startedAt, r.finishedAt, r.availableAt, Null, r.error))
    case _ => None
  }

  /** What enqueue writes is read back as it was. */
  lemma EnqueueRoundTrip(ser: Serializer, t: TaskData)
    requires ser.Invertible() && ser.serialize(t.args).Some? && ser.serialize(t.kwargs).Some?
    requires t.startedAt == None && t.finishedAt == None && t.result == Null && t.error == None
    ensures Decoded(ser, t.id, Inserted(t, ser.serialize(t.args).value, ser.serialize(t.kwargs).value)) == Some(t)
  {
    assert ser.deserialize(ser.serialize(t.args).value) == Some(t.args);
    assert ser.deserialize(ser.serialize(t.kwargs).value) == Some(t.kwargs);
  }

  /** A row the claim query may return: ready, and outranked by no ready row. */
  predicate IsBest(rows: Rows, now: real, id: Id) {
    && id in rows
    && rows[id].Ready(now)
    && forall j | j in rows && rows[j].Ready(now) :: !rows[j].Outranks(rows[id])
  }

  /** The WHERE and ORDER BY of the claim query, column by column. */
  lemma BestIff(rows: Rows, now: real, id: Id)
    ensures IsBest(rows, now, id) <==>
              && id in rows && rows[id].status == Pending
              && (rows[id].availableAt == None || rows[id].availableAt.value <= now)
              && forall j | j in rows && rows[j].status == Pending
                            && (rows[j].availableAt == None || rows[j].availableAt.value <= now) ::
                   rows[j].priority < rows[id].priority
                   || (rows[j].priority == rows[id].priority && rows[id].createdAt <= rows[j].createdAt)
  {}

  predicate NothingReady(rows: Rows, now: real) {
    forall j | j in rows :: !rows[j].Ready(now)
  }

  function Claim(rows: Rows, id: Id, now: real, timeout: real): Rows
    requires id in rows
  {
    rows[id := rows[id].Claimed(now, timeout)]
  }

  /** t is the running copy of a best row of rows, and rows' differs from rows only in that
      row, which is claimed until now + timeout. */
  predicate ClaimsFrom(ser: Serializer, rows: Rows, now: real, timeout: real, t: TaskData, rows': Rows) {
    && IsBest(rows, now, t.id)
    && Decoded(ser, t.id, rows[t.id]).Some?
    && t == Decoded(ser, t.id, rows[t.id]).value.AsRunning(now)
    && rows' == Claim(rows, t.id, now, timeout)
  }

  /** Some best row has a payload that does not decode, so a dequeue may raise. */
  predicate Undecodable(ser: Serializer, rows: Rows, now: real) {
    exists id | id in rows :: IsBest(rows, now, id) && Decoded(ser, id, rows[id]) == None
  }

  /** Every active row decodes. */
  predicate Decodable(ser: Serializer, rows: Rows) {
    forall id | id in rows && rows[id].Active() :: Decoded(ser, id, rows[id]).Some?
  }

  function Reclaim(rows: Rows, now: real): Rows {
    map id | id in rows :: if rows[id].Expired(now) then rows[id].Released() else rows[id]
  }

  /** ack and nack(requeue=False) issue the same UPDATE, without an ownership check. */
  function Settle(rows: Rows, t: TaskData): Rows {
    if t.id !in rows then rows
    else rows[t.id := rows[t.id].(status := t.status, finishedAt := t.finishedAt,
                                  error := t.error, claimedUntil := None)]
  }

  /** nack(requeue=True), also without an ownership check. */
  function Requeue(rows: Rows, t: TaskData): Rows {
    if t.id !in rows then rows
    else rows[t.id := rows[t.id].Released().(retries := t.retries, availableAt := t.availableAt)]
  }

  /** The UPDATE of cmd_dlq_replay. */
  function Replay(rows: Rows, id: Id): Rows {
    if id !in rows || rows[id].status != Failed then rows
    else rows[id := rows[id].Released().(retries := 0, error := None, finishedAt := None,
                                         availableAt := None)]
  }

  function ActiveIds(rows: Rows): set<Id> {
    set id | id in rows && rows[id].Active()
  }

  // ------------------------------------------------------------- task_results

  datatype ResultRow = ResultRow(
    funcPath: string,
    status: Status,
    resultJson: Option<Blob>,
    error: Option<string>,
    finishedAt: Option<real>,
    storedAt: real)

  type Results = map<Id, ResultRow>

  /** The row that store writes; None when the result does not serialize. */
  function Stored(ser: Serializer, t: TaskData, now: real): Option<ResultRow> {
    if t.status != Success then Some(ResultRow(t.funcPath, t.status, None, t.error, t.finishedAt, now))
    else
      match ser.serialize(t.result)
      case Some(blob) => Some(ResultRow(t.funcPath, t.status, Some(blob), t.error, t.finishedAt, now))
      case None => None
  }

  /** The statuses that purge deletes. */
  predicate Purgeable(status: Status, includeFailed: bool) {
    status == Success || (includeFailed && status == Failed)
  }

  function PurgeRows(rows: Rows, cutoff: real, includeFailed: bool): Rows {
    map id | id in rows && !(Purgeable(rows[id].status, includeFailed)
                             && rows[id].finishedAt.Some? && rows[id].finishedAt.value <= cutoff)
      :: rows[id]
  }

  function PurgeResults(results: Results, cutoff: real, includeFailed: bool): Results {
    map id | id in results && !(Purgeable(results[id].status, includeFailed)
                                && results[id].storedAt <= cutoff)
      :: results[id]
  }
}
