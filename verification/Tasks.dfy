/** Tasks, their lifecycle states, and the serializer (task.py, serializers.py). */
module Tasks {
  datatype Option<+T> = None | Some(value: T)

  /** A task's UUID; only equality is used. */
  type Id = nat

  datatype Status = Pending | Running | Success | Failed {
    predicate Terminal() { Success? || Failed? }
  }

  /** A Python value; only None is told apart from the rest. */
  datatype Value = Null | Json(text: string)

  type Blob = string

  /** A task scheduled for some time, or for none, may start. */
  predicate Reached(at: Option<real>, now: real) { at == None || at.value <= now }

  /** Also used for deadlines, where None means at once. */
  lemma ReachedIff(at: Option<real>, now: real)
    ensures Reached(at, now) <==> at == None || at.value <= now
  {}

  /** The order in which both queues choose: higher priority first, then the older task. */
  datatype Rank = Rank(priority: int, createdAt: real) {
    predicate Beats(other: Rank) {
      priority > other.priority || (priority == other.priority && createdAt < other.createdAt)
    }
  }

  /** A serializer; None stands for SerializationError. */
  datatype Serializer = Serializer(serialize: Value -> Option<Blob>, deserialize: Blob -> Option<Value>) {
    /** What is written is read back as it was. */
    ghost predicate Invertible() {
      forall v :: serialize(v).Some? ==> deserialize(serialize(v).value) == Some(v)
    }
  }

  /** All fields of a task at one moment. */
  datatype TaskData = TaskData(
    id: Id,
    funcPath: string,
    args: Value,
    kwargs: Value,
    status: Status,
    retries: int,
    maxRetries: int,
    priority: int,
    createdAt: real,
    startedAt: Option<real>,
    finishedAt: Option<real>,
    availableAt: Option<real>,
    result: Value,
    error: Option<string>)
  {
    function AsRunning(now: real): TaskData { this.(status := Running, startedAt := Some(now)) }

    function AsSuccess(value: Value, now: real): TaskData {
      this.(status := Success, result := value, finishedAt := Some(now))
    }

    function AsFailed(message: string, now: real): TaskData {
      this.(status := Failed, error := Some(message), finishedAt := Some(now))
    }

    function AsPending(): TaskData { this.(status := Pending, startedAt := None) }

    function AsRetry(at: real): TaskData { this.(retries := retries + 1, availableAt := Some(at)) }
  }

  /** What AsyncResult.get does: return a value, raise TaskFailed, TaskTimeout,
      SerializationError or the RuntimeError for an unexpected status, or go on waiting. */
  datatype Got =
    | GotValue(value: Value)
    | RaisedFailed(error: Option<string>)
    | RaisedTimeout
    | RaisedDecodeError
    | RaisedUnexpected
    | NotYet

  /** The mutable task object that workers update and the in-memory queue shares. */
  class Task {
    const id: Id
    const funcPath: string
    const args: Value
    const kwargs: Value
    const maxRetries: int
    const priority: int
    const createdAt: real
    var status: Status
    var retries: int
    var startedAt: Option<real>
    var finishedAt: Option<real>
    var availableAt: Option<real>
    var result: Value
    var error: Option<string>

    constructor (d: TaskData)
      ensures Data() == d
    {
      id, funcPath, args, kwargs := d.id, d.funcPath, d.args, d.kwargs;
      maxRetries, priority, createdAt := d.maxRetries, d.priority, d.createdAt;
      status, retries := d.status, d.retries;
      startedAt, finishedAt, availableAt := d.startedAt, d.finishedAt, d.availableAt;
      result, error := d.result, d.error;
    }

    function Data(): TaskData
      reads this
    {
      TaskData(id, funcPath, args, kwargs, status, retries, maxRetries, priority, createdAt,
               startedAt, finishedAt, availableAt, result, error)
    }

    method MarkRunning(now: real)
      modifies this`status, this`startedAt
      ensures Data() == old(Data()).AsRunning(now)
      ensures status == Running && startedAt == Some(now)
    {
      status := Running;
      startedAt := Some(now);
    }

    method MarkSuccess(value: Value, now: real)
      modifies this`status, this`result, this`finishedAt
      ensures Data() == old(Data()).AsSuccess(value, now)
      ensures status == Success && result == value && finishedAt == Some(now)
    {
      status := Success;
      result := value;
      finishedAt := Some(now);
    }

    method MarkFailed(message: string, now: real)
      modifies this`status, this`error, this`finishedAt
      ensures Data() == old(Data()).AsFailed(message, now)
      ensures status == Failed && error == Some(message) && finishedAt == Some(now)
    {
      status := Failed;
      error := Some(message);
      finishedAt := Some(now);
    }

    method MarkPending()
      modifies this`status, this`startedAt
      ensures Data() == old(Data()).AsPending()
      ensures status == Pending && startedAt == None
    {
      status := Pending;
      startedAt := None;
    }
  }
}
