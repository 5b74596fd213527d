/** The table updates of the command line (cli.py): dlq replay and purge. */
module Cli {
  import opened Tasks
  import T = TaskTable

  /** The database file: the tasks table, and the results table if it shares the file. */
  class Database {
    var tasks: T.Rows
    var results: Option<T.Results>

    constructor (tasks: T.Rows, results: Option<T.Results>)
      ensures this.tasks == tasks && this.results == results
    {
      this.tasks, this.results := tasks, results;
    }

    /** cmd_dlq_replay: exit code 0 and a fresh start for a failed task, or 1 and no change. */
    method Replay(id: Id) returns (code: int)
      modifies this`tasks
      ensures tasks == T.Replay(old(tasks), id)
      ensures code == 0 || code == 1
      ensures code == 1 ==> tasks == old(tasks)
      ensures code == 0 <==> id in old(tasks) && old(tasks)[id].status == Failed
      ensures code == 0 ==>
                && tasks.Keys == old(tasks).Keys
                && (forall now :: tasks[id].Ready(now)) && tasks[id].retries == 0
                && tasks[id].maxRetries == old(tasks)[id].maxRetries
                && (forall other | other in tasks && other != id :: tasks[other] == old(tasks)[other])
    {
      var affected := 0;
      if id in tasks && tasks[id].status == Failed {
        tasks := tasks[id := tasks[id].(status := Pending, retries := 0, error := None, finishedAt := None,
                                        startedAt := None, claimedUntil := None, availableAt := None)];
        affected := 1;
      }
      code := if affected == 0 then 1 else 0;
    }

    /** cmd_purge: deletes finished tasks, and independently of that stored results, that are
        older than the cutoff; returns how many of each. */
    method Purge(now: real, olderThan: real, includeFailed: bool) returns (tasksDeleted: nat, resultsDeleted: nat)
      modifies this
      ensures tasks == T.PurgeRows(old(tasks), now - olderThan, includeFailed)
      ensures results == if old(results) == None then None
                         else Some(T.PurgeResults(old(results).value, now - olderThan, includeFailed))
      ensures forall id | id in old(tasks) ::
                var r := old(tasks)[id];
                if (r.status == Success || (r.status == Failed && includeFailed))
                   && r.finishedAt.Some? && r.finishedAt.value + olderThan <= now
                then id !in tasks
                else id in tasks && tasks[id] == r
      ensures tasks.Keys <= old(tasks).Keys && tasksDeleted == |old(tasks)| - |tasks|
      ensures results.Some? <==> old(results).Some?
      ensures results == None ==> resultsDeleted == 0
      ensures results.Some? ==>
                && results.value.Keys <= old(results).value.Keys
                && resultsDeleted == |old(results).value| - |results.value|
                && forall id | id in old(results).value ::
                     var o := old(results).value[id];
                     if (o.status == Success || (o.status == Failed && includeFailed)) && o.storedAt + olderThan <= now
                     then id !in results.value
                     else id in results.value && results.value[id] == o
    {
      var cutoff := now - olderThan;
      var keptTasks := T.PurgeRows(tasks, cutoff, includeFailed);
      FewerKeys(keptTasks, tasks);
      tasksDeleted := |tasks| - |keptTasks|;
      tasks := keptTasks;
      resultsDeleted := 0;
      if results.Some? {
        var keptResults := T.PurgeResults(results.value, cutoff, includeFailed);
        FewerKeys(keptResults, results.value);
        resultsDeleted := |results.value| - |keptResults|;
        results := Some(keptResults);
      }
    }
  }

  lemma FewerKeys<K, V>(a: map<K, V>, b: map<K, V>)
    requires a.Keys <= b.Keys
    ensures |a| <= |b|
  {
    assert |b.Keys| == |a.Keys| + |b.Keys - a.Keys| by { assert b.Keys == a.Keys + (b.Keys - a.Keys); }
    assert |a| == |a.Keys| && |b| == |b.Keys|;
  }

  /** A replayed task can be claimed at once, at any time, with its whole retry budget; all
      other tasks, and tasks that have not failed, stay as they are. */
  lemma ReplayRevives(rows: T.Rows, id: Id, other: Id, now: real)
    requires other in rows
    ensures other in T.Replay(rows, id)
    ensures other != id || rows[id].status != Failed ==> T.Replay(rows, id)[other] == rows[other]
    ensures other == id && rows[id].status == Failed ==>
              var r := T.Replay(rows, id)[id];
              r.Ready(now) && r.retries == 0 && r.maxRetries == rows[id].maxRetries
              && r.priority == rows[id].priority && r.createdAt == rows[id].createdAt
              && r.startedAt == None && r.claimedUntil == None && r.error == None && r.finishedAt == None
  {}
}
