/** From the function to the caller: what a task's function came to is what get reports. */
module EndToEnd {
  import opened Tasks
  import T = TaskTable
  import opened RetryPolicies
  import opened Protocol
  import Q = SqliteQueue
  import RB = Results
  import W = Workers
  import M = MemoryQueue
  import MR = MemoryResults
  import MemoryRuns
  import MW = MemoryWorkers

  /** What get must report of an execution that is not retried. */
  function Report(exec: Execution): Got {
    match exec
    case Returned(value) => GotValue(value)
    case NotRegistered(message) => RaisedFailed(Some(message))
    case Raised(message, _) => RaisedFailed(Some(message))
  }

  /** The execution leads to another one. */
  predicate Retried(policy: Policy, t: TaskData, exec: Execution)
    requires Possible(policy, exec)
  {
    exec.Raised? && t.retries < t.maxRetries && !NextDelay(policy, t.retries + 1, exec.draws).Declined?
  }

  /** Somebody asks for the outcome of a task, and nobody stores another meanwhile. */
  method Ask(backend: RB.SQLiteResultBackend, taskId: Id, deadline: Option<real>, now: real, ghost all: seq<RB.Store>)
    returns (r: Got)
    requires backend.Valid() && backend.ser.Invertible() && backend.Table() == RB.After(backend.ser, map[], all)
    modifies backend.conn
    ensures var last := RB.LastStored(backend.ser, all, taskId);
            last.Some? && (last.value.status == Success || last.value.status == Failed) ==>
              r == if last.value.status == Success then GotValue(last.value.result) else RaisedFailed(last.value.error)
  {
    hide RB.After, RB.LastStored;
    var polls := [RB.Poll([], now)];
    NothingArrives(all, polls[0]);
    var get := new RB.AsyncResult(taskId, backend);
    ghost var n;
    r, n := get.Get(deadline, polls, all);
  }

  lemma NothingArrives(all: seq<RB.Store>, p: RB.Poll)
    requires p.stores == []
    ensures forall k :: 0 <= k <= 1 ==> all + RB.Arrived([p][..k]) == all
  {
    forall k | 0 <= k <= 1 ensures all + RB.Arrived([p][..k]) == all {
      if k == 1 { assert [p][..1] == [p] && [p][..0] == []; }
    }
  }

  /** A worker alone with its tables runs a task, and then somebody asks for its outcome. If
      the run met no lock and the execution was not retried, get returns the value that the
      function returned, or raises with the message of its failure. */
  method RunThenGet(worker: W.Worker, env: W.Env, taskId: Id, deadline: Option<real>, now: real,
                    ghost history: seq<RB.Store>)
    returns (ran: W.Ran, ghost t: Option<TaskData>, r: Got)
    requires worker.Valid() && env.Valid() && env.Alone() && Possible(worker.policy, env.exec)
    requires worker.queue.ser.Invertible() && env.store == env.settle == Q.NoFault
    requires env.exec.Returned? ==> worker.queue.ser.serialize(env.exec.value).Some?
    requires worker.results.Table() == RB.After(worker.results.ser, map[], history)
    modifies worker.queue.conn, worker.results.conn
    ensures t.Some? && t.value.id == taskId
            && (env.exec.Raised? ==>
                  t.value.retries >= t.value.maxRetries
                  || NextDelay(worker.policy, t.value.retries + 1, env.exec.draws).Declined?) ==>
              ran == W.Worked && r == Report(env.exec)
  {
    hide W.RunsOnce, RB.After, RB.LastStored, NextDelay, T.Stored, W.Env.Alone;
    ghost var n, claimed;
    ghost var before := worker.results.Table();
    ghost var rows := worker.queue.Table();
    ran, n, t, claimed := worker.RunOnce(env);
    ghost var all := RunFiles(worker.Setup(), worker.timeout, env, n, rows, before, ran, t, claimed,
                              worker.queue.Table(), worker.results.Table(), history);
    r := Ask(worker.results, taskId, deadline, now, all);
  }

  /** What a run_once of a lone worker adds to the history of stores. */
  lemma RunFiles(c: Config, timeout: real, env: W.Env, n: nat, rows: T.Rows, results: T.Results, ran: W.Ran,
                 t: Option<TaskData>, claimed: T.Rows, rows': T.Rows, results': T.Results, history: seq<RB.Store>)
    returns (all: seq<RB.Store>)
    requires Possible(c.policy, env.exec) && env.Alone() && env.store == env.settle == Q.NoFault
    requires env.exec.Returned? ==> c.ser.serialize(env.exec.value).Some?
    requires W.RunsOnce(c, timeout, env, n, rows, results, ran, t, claimed, rows', results')
    requires results == RB.After(c.ser, map[], history)
    ensures results' == RB.After(c.ser, map[], all)
    ensures t.Some? && !Retried(c.policy, t.value, env.exec) ==>
              ran == W.Worked && RB.LastStored(c.ser, all, t.value.id) == Some(Outcome(t.value, env.exec, env.doneAt))
  {
    hide RB.After, RB.LastStored, NextDelay, W.Handles, Q.RoundClaims, Q.RoundIdles, Q.RoundRaises, Q.Met;
    all := history;
    if t.Some? {
      W.HandlesMeans(c, t.value, env, env.meanwhile(claimed), env.meanwhileResults(results), ran, rows', results');
      if Retried(c.policy, t.value, env.exec) {
        RetriedStoresNothing(c, t.value, env, env.meanwhile(claimed), results, ran, rows', results');
      } else {
        var u := Outcome(t.value, env.exec, env.doneAt);
        StoreAppends(c.ser, history, u, env.doneAt);
        all := history + [RB.Store(u, env.doneAt)];
      }
    }
  }

  lemma RetriedStoresNothing(c: Config, t: TaskData, env: W.Env, rows: T.Rows, results: T.Results,
                             ran: W.Ran, rows': T.Rows, results': T.Results)
    requires Possible(c.policy, env.exec) && Retried(c.policy, t, env.exec)
    requires W.Handles(c, t, env, rows, results, ran, rows', results')
    ensures results' == results
  {
    hide NextDelay;
  }

  /** The copy that an execution that is not retried leaves. */
  function Outcome(t: TaskData, exec: Execution, at: real): TaskData {
    match exec
    case Returned(value) => t.(status := Success, result := value, finishedAt := Some(at))
    case NotRegistered(message) => t.(status := Failed, error := Some(message), finishedAt := Some(at))
    case Raised(message, _) => t.(status := Failed, error := Some(message), finishedAt := Some(at))
  }

  lemma StoreAppends(ser: Serializer, history: seq<RB.Store>, u: TaskData, at: real)
    requires T.Stored(ser, u, at).Some?
    ensures RB.After(ser, map[], history + [RB.Store(u, at)]) ==
            RB.After(ser, map[], history)[u.id := T.Stored(ser, u, at).value]
    ensures RB.LastStored(ser, history + [RB.Store(u, at)], u.id) == Some(u)
  {
    assert (history + [RB.Store(u, at)])[..|history|] == history;
  }

  // --------------------------------------------------------------- in memory

  /** Nobody stores or changes anything while wait takes its only look. */
  lemma OneQuietLook(results: map<Id, Task>, id: Id, p: MR.Poll)
    requires id in results && (results[id].status == Success || results[id].status == Failed)
    requires p.stored == [] && p.writes == []
    ensures MR.ReadyAt(results, [p], 1, id)
  {
    assert [p][..1] == [p] && [p][..0] == [];
    assert MR.StoredIn([p]) == [] && MR.WritesIn([p]) == [];
  }

  lemma FileAppends(history: seq<Task>, t: Task)
    ensures MR.Filed(map[], history + [t]) == MR.Filed(map[], history)[t.id := t]
  {
    assert (history + [t])[..|history|] == history;
  }

  /** Somebody asks for the outcome of a task whose object is filed and finished. */
  method AskInMemory(backend: MR.InMemoryResultBackend, id: Id, now: real, ghost history: seq<Task>) returns (r: Got)
    requires backend.results == MR.Filed(map[], history) && id in backend.results
    requires backend.results[id].status == Success || backend.results[id].status == Failed
    modifies backend
    ensures var t := old(backend.results[id]);
            r == if t.status == Success then GotValue(t.result) else RaisedFailed(t.error)
  {
    hide MR.Filed, MR.LastFiled;
    var look := MR.Poll([], [], now);
    var get := new MR.InMemoryAsyncResult(id, backend);
    OneQuietLook(backend.results, id, look);
    FiledIsLast(history, look, id);
    assert MR.WrittenIn([look]) == {} && MR.Written([]) == {};
    ghost var n: nat;
    ghost var t := backend.results[id];
    r, n := get.Get(None, [look], [], history);
    assert n == 1 && MR.LastFiled(history + MR.StoredIn([look][..n]), id) == Some(t);
    assert t.status == old(t.status) && t.result == old(t.result) && t.error == old(t.error);
  }

  lemma FiledIsLast(history: seq<Task>, p: MR.Poll, id: Id)
    requires p.stored == [] && id in MR.Filed(map[], history)
    ensures forall k :: 0 <= k <= 1 ==>
              MR.LastFiled(history + MR.StoredIn([p][..k]), id) == Some(MR.Filed(map[], history)[id])
  {
    MR.FiledHoldsLast(history, id);
    forall k | 0 <= k <= 1 ensures history + MR.StoredIn([p][..k]) == history {
      if k == 1 { assert [p][..1] == [p] && [p][..0] == []; }
    }
  }

  /** The same over the in-memory backends, whatever other threads do to the queue before the
      function ends. */
  method RunThenGetInMemory(worker: MW.MemoryWorker, deadline: Option<real>, polls: seq<M.Poll>, exec: Execution,
                            meanwhile: seq<M.Call>, doneAt: real, now: real, ghost history: seq<Task>)
    returns (ran: Option<(Id, bool)>, ghost e: Option<M.Entry>, r: Got)
    requires worker.queue.Valid() && Possible(worker.policy, exec) && worker.policy.Valid()
    requires M.OneEach(worker.queue.Held() + M.PollTasks(polls) + M.CallTasks(meanwhile))
    requires |polls| > 0 && Reached(deadline, polls[|polls| - 1].now)
    requires worker.results.results == MR.Filed(map[], history)
    modifies worker.queue, worker.queue.Held(), M.PollTasks(polls), M.CallTasks(meanwhile), worker.results
    ensures e.Some? && 0 <= e.value.retries
            && (exec.Raised? ==>
                  e.value.retries >= e.value.maxRetries
                  || NextDelay(worker.policy, e.value.retries + 1, exec.draws).Declined?) ==>
              ran == Some((e.value.id, true)) && r == Report(exec)
  {
    hide MR.Filed, NextDelay, M.OneEach, M.TasksOf, M.PollTasks, M.CallTasks, M.Met, M.ApplyAll, M.Serves,
         M.Mem.Dequeued, M.PendingModel, M.ClaimModel, M.Keys, MW.Processed, MW.MemoryRunOnce, MemoryRuns.Clean,
         MW.Quiet, M.Call.Does;
    ghost var rounds, ops;
    ran, rounds, ops, e := worker.RunOnce(deadline, polls, exec, meanwhile, doneAt);
    if ran == None || !ran.value.1 { return ran, e, NotYet; }
    var id := ran.value.0;
    ghost var t := worker.results.results[id];
    FileAppends(history, t);
    r := AskInMemory(worker.results, id, now, history + [t]);
  }
}
