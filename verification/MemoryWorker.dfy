/** The worker (worker.py) over the in-memory queue and result backend, where it runs, marks
    and files the queue's own task objects. */
module MemoryWorkers {
  import opened Tasks
  import opened RetryPolicies
  import opened Protocol
  import M = MemoryQueue
  import R = MemoryRuns
  import RB = MemoryResults
  import opened Agreement

  /** The copy of an entry that run_once decides on. */
  function EntryData(e: M.Entry): TaskData {
    TaskData(e.id, "", Null, Null, Running, e.retries, e.maxRetries, e.priority, e.createdAt,
             None, None, e.availableAt, Null, None)
  }

  /** What get would make of each filed outcome. */
  type Filings = map<Id, Got>

  /** What run_once leaves: the queue, the filed outcomes and, if it returned True, the task
      and whether it was finished. */
  datatype Aftermath = Aftermath(queue: M.Mem, filed: Filings, did: Option<(Id, bool)>)

  /** run_once over the in-memory queue, after these rounds of its dequeue. */
  function MemoryRunOnce(m: M.Mem, filed: Filings, rounds: seq<M.Round>, timeout: real, policy: Policy,
                         exec: Execution, doneAt: real): Aftermath
    requires |rounds| > 0 && Possible(policy, exec)
  {
    match M.Met(m, rounds, |rounds| - 1).Dequeued(rounds[|rounds| - 1].now, timeout)
    case (m', None) => Aftermath(m', filed, None)
    case (m', Some(e)) => Processed(m', filed, e, policy, exec, doneAt)
  }

  /** What run_once does with a task it claimed. The write to the task object before the nack
      shows wherever the object is queued. */
  function Processed(m: M.Mem, filed: Filings, e: M.Entry, policy: Policy, exec: Execution, doneAt: real): Aftermath
    requires Possible(policy, exec)
  {
    match Decide(policy, EntryData(e), exec, doneAt)
    case Finish(u) =>
      Aftermath(m.Acked(e.id), filed[e.id := RB.GotOf(RB.Told(u.status, u.result, u.error))], Some((e.id, true)))
    case Retry(u) =>
      Aftermath(m.Changed(e.id, u.retries, u.availableAt).Nacked(DataEntry(u), true), filed, Some((e.id, false)))
    case PolicyError => Aftermath(m, filed, None)
  }

  /** The task is retried: its function raised, retries are left and the policy returns a delay. */
  predicate Retries(policy: Policy, e: M.Entry, exec: Execution)
    requires Possible(policy, exec)
  {
    && exec.Raised? && e.retries < e.maxRetries
    && NextDelay(policy, e.retries + 1, exec.draws).After?
  }

  /** What run_once makes of a claimed task, field by field: a retry goes to the end of the
      deque with one retry more and the policy's delay; any other task leaves the queue and its
      outcome is filed; and if the policy is valid that is all there is. */
  lemma ProcessedMeans(m: M.Mem, filed: Filings, e: M.Entry, policy: Policy, exec: Execution, doneAt: real)
    requires Possible(policy, exec)
    ensures var p := Processed(m, filed, e, policy, exec, doneAt);
            if exec.Raised? && e.retries < e.maxRetries
               && NextDelay(policy, e.retries + 1, exec.draws).After?
            then
              var at := doneAt + NextDelay(policy, e.retries + 1, exec.draws).seconds;
              var again := e.(retries := e.retries + 1, availableAt := Some(at));
              && p.did == Some((e.id, false)) && p.filed == filed
              && p.queue.pending == m.Changed(e.id, e.retries + 1, Some(at)).pending + [again]
            else if exec.Raised? && e.retries < e.maxRetries
                    && NextDelay(policy, e.retries + 1, exec.draws).ValueError?
            then p == Aftermath(m, filed, None)
            else
              && p.did == Some((e.id, true)) && p.queue == m.Acked(e.id)
              && p.filed == filed[e.id := if exec.Returned? then GotValue(exec.value)
                                          else RaisedFailed(Some(exec.message))]
    ensures policy.Valid() && 0 <= e.retries ==>
              Processed(m, filed, e, policy, exec, doneAt).did == Some((e.id, !Retries(policy, e, exec)))
  {
    hide NextDelay;
    DecideIff(policy, EntryData(e), exec, doneAt);
    if policy.Valid() && exec.Raised? { JitterComposition(policy, e.retries + 1, exec.draws); }
  }

  lemma ProcessedDid(m: M.Mem, filed: Filings, e: M.Entry, policy: Policy, exec: Execution, doneAt: real)
    requires Possible(policy, exec)
    ensures policy.Valid() && 0 <= e.retries ==>
              Processed(m, filed, e, policy, exec, doneAt).did == Some((e.id, !Retries(policy, e, exec)))
  {
    ProcessedMeans(m, filed, e, policy, exec, doneAt);
  }

  /** What is filed has no part in what becomes of the queue; a finished task leaves it. */
  lemma ProcessedIs(m: M.Mem, filed: Filings, other: Filings, e: M.Entry, policy: Policy, exec: Execution, doneAt: real)
    requires Possible(policy, exec)
    ensures var p, q := Processed(m, filed, e, policy, exec, doneAt), Processed(m, other, e, policy, exec, doneAt);
            && p.queue == q.queue && p.did == q.did
            && (if p.did == Some((e.id, true)) then
                  p.queue == m.Acked(e.id) && e.id in p.filed && p.filed == filed[e.id := p.filed[e.id]]
                else p.filed == filed && (p.did.Some? ==> !p.did.value.1))
  {
    hide Decide;
  }

  /** In a queue without duplicates the write shows nowhere but in the claim that is dropped. */
  lemma ChangedClaim(m: M.Mem, id: Id, retries: int, availableAt: Option<real>)
    requires R.Clean(m) && id in M.ClaimIds(m.claims)
    ensures m.Changed(id, retries, availableAt).Acked(id) == m.Acked(id)
  {
    var n, k := m.Changed(id, retries, availableAt), M.IndexOf(M.ClaimIds(m.claims), id).value;
    OnlyClaimedThere(m, k);
    assert M.ClaimIds(n.claims) == M.ClaimIds(m.claims);
    assert n.pending == m.pending;
    forall i | 0 <= i < |m.claims| && i != k ensures m.claims[i] == n.claims[i] {}
  }

  /** The object says what its function came to. */
  predicate CameTo(t: Task, exec: Execution, doneAt: real)
    reads t
  {
    && t.finishedAt == Some(doneAt)
    && match exec
       case Returned(value) => t.status == Success && t.result == value
       case NotRegistered(message) => t.status == Failed && t.error == Some(message)
       case Raised(message, _) => t.status == Failed && t.error == Some(message)
  }

  /** No other thread calls the queue. */
  ghost predicate Quiet(polls: seq<M.Poll>) { forall p | p in polls :: p.calls == [] }

  lemma QuietObjects(polls: seq<M.Poll>)
    requires Quiet(polls)
    ensures M.PollTasks(polls) == {}
  {}

  lemma {:induction false} QuietMet(m: M.Mem, polls: seq<M.Poll>, rounds: seq<M.Round>, k: nat)
    requires R.Clean(m) && Quiet(polls) && k < |rounds| <= |polls|
    requires forall i :: 0 <= i < |rounds| ==> M.Serves(polls[i], rounds[i])
    ensures R.Clean(M.Met(m, rounds, k))
  {
    hide M.Mem.Reclaimed;
    assert polls[k] in polls;
    assert rounds[k].ops == [];
    if k > 0 {
      QuietMet(m, polls, rounds, k - 1);
      R.ReclaimMovesIds(M.Met(m, rounds, k - 1), rounds[k - 1].now);
    }
  }

  /** Waiting alone does not queue anything twice. */
  lemma QuietDequeue(m: M.Mem, polls: seq<M.Poll>, rounds: seq<M.Round>, timeout: real)
    requires R.Clean(m) && Quiet(polls) && 0 < |rounds| <= |polls|
    requires forall i :: 0 <= i < |rounds| ==> M.Serves(polls[i], rounds[i])
    ensures R.Clean(M.Met(m, rounds, |rounds| - 1).Dequeued(rounds[|rounds| - 1].now, timeout).0)
  {
    hide R.Clean, R.Ids, M.Met, M.Mem.Dequeued, M.Serves;
    var n := |rounds| - 1;
    QuietMet(m, polls, rounds, n);
    R.TimelyStep(M.Met(m, rounds, n), M.DequeueOp(rounds[n].now, timeout));
  }

  /** An acked task is gone from a queue without duplicates. */
  lemma Gone(m: M.Mem, id: Id)
    requires R.Clean(m) && id in M.ClaimIds(m.claims)
    ensures id !in R.Ids(m.Acked(id))
  {
    R.PopRemovesId(m, id);
    assert R.Ids(m)[id] <= 1;
  }

  lemma HeldIsQueued(pending: seq<Task>, claimed: seq<M.Claimed>)
    ensures forall t | t in M.TasksOf(pending, claimed) ::
              t.id in R.Ids(M.Mem(M.PendingModel(pending), M.ClaimModel(claimed)))
  {
    var m := M.Mem(M.PendingModel(pending), M.ClaimModel(claimed));
    forall i | 0 <= i < |pending| ensures pending[i].id in R.Ids(m) {
      assert M.PendingIds(m.pending)[i] in multiset(M.PendingIds(m.pending));
    }
    forall i | 0 <= i < |claimed| ensures claimed[i].task.id in R.Ids(m) {
      assert M.ClaimIds(m.claims)[i] in multiset(M.ClaimIds(m.claims));
    }
  }

  class MemoryWorker {
    const queue: M.InMemoryQueue
    const results: RB.InMemoryResultBackend
    const policy: Policy
    const timeout: real

    constructor (queue: M.InMemoryQueue, results: RB.InMemoryResultBackend, policy: Policy, timeout: real)
      ensures this.queue == queue && this.results == results
      ensures this.policy == policy && this.timeout == timeout
    {
      this.queue, this.results, this.policy, this.timeout := queue, results, policy, timeout;
    }

    ghost function Filed(): Filings
      reads results, results.results.Values
    {
      map id | id in results.results :: RB.GotOf(RB.Says(results.results[id]))
    }

    /** No filed object is still in the queue. */
    ghost predicate Apart()
      reads results, queue
    {
      forall id | id in results.results :: results.results[id] !in queue.Held()
    }

    /** The k-th claim is on this task object. */
    ghost predicate Holds(k: nat, task: Task)
      reads queue
    {
      k < |queue.claimed| && queue.claimed[k].task == task
    }

    /** One run_once, whatever other threads do while it waits and while the function runs, with
        tasks queued twice or not. e is the claimed task's entry when the function ends, by
        when its claim may be over. A finished task's own object is filed. Alone on a queue
        without duplicates, the worker leaves all outcomes filed before as they were. */
    method RunOnce(deadline: Option<real>, polls: seq<M.Poll>, exec: Execution, meanwhile: seq<M.Call>, doneAt: real)
      returns (r: Option<(Id, bool)>, ghost rounds: seq<M.Round>, ghost ops: seq<M.Op>, ghost e: Option<M.Entry>)
      requires queue.Valid() && Possible(policy, exec)
      requires M.OneEach(queue.Held() + M.PollTasks(polls) + M.CallTasks(meanwhile))
      requires |polls| > 0 && Reached(deadline, polls[|polls| - 1].now)
      modifies queue, queue.Held(), M.PollTasks(polls), M.CallTasks(meanwhile), results
      ensures queue.Valid() && 0 < |rounds| <= |polls|
      ensures forall k :: 0 <= k < |rounds| ==> M.Serves(polls[k], rounds[k])
      ensures var n := |rounds| - 1;
              var (m, claimed) := M.Met(old(queue.Model()), rounds, n).Dequeued(rounds[n].now, timeout);
              if claimed == None then e == None && r == None && queue.Model() == m
              else
                && e.Some? && e.value.id == claimed.value.id
                && |ops| == |meanwhile| && (forall i :: 0 <= i < |ops| ==> meanwhile[i].Does(ops[i]))
                && (meanwhile == [] ==> e == claimed)
                && var after := Processed(M.ApplyAll(m, ops), old(Filed()), e.value, policy, exec, doneAt);
                   queue.Model() == after.queue && r == after.did
      ensures Quiet(polls) && meanwhile == [] && R.Clean(old(queue.Model())) && old(Apart()) ==>
                && Apart()
                && Aftermath(queue.Model(), Filed(), r) ==
                   MemoryRunOnce(old(queue.Model()), old(Filed()), rounds, timeout, policy, exec, doneAt)
      ensures r.Some? && r.value.1 ==>
                && r.value.0 in results.results
                && results.results == old(results.results)[r.value.0 := results.results[r.value.0]]
                && results.results[r.value.0] in old(queue.Held()) + M.PollTasks(polls)
                && results.results[r.value.0].id == r.value.0
                && results.results[r.value.0].status.Terminal()
      ensures !(r.Some? && r.value.1) ==> results.results == old(results.results)
      ensures e.Some? && policy.Valid() && 0 <= e.value.retries ==>
                && r == Some((e.value.id, !Retries(policy, e.value, exec)))
                && (!Retries(policy, e.value, exec) ==> CameTo(results.results[e.value.id], exec, doneAt))
    {
      hide M.PendingModel, M.ClaimModel, M.TasksOf, M.Keys, M.Pop, M.OneEach, M.Mem.Dequeued, M.Met, M.PollTasks,
           M.CallTasks, M.Serves, M.Call.Does, Processed, R.Clean, CameTo, Retries, NextDelay;
      M.FewerObjects(queue.Held() + M.PollTasks(polls), queue.Held() + M.PollTasks(polls) + M.CallTasks(meanwhile));
      var got;
      got, rounds := Await(deadline, polls);
      ops, e := [], None;
      if got == None { return None, rounds, ops, e; }
      var task := got.value;
      ghost var k :| 0 <= k < |queue.claimed| && queue.claimed[k].task == task;
      ghost var all := old(queue.Held()) + M.PollTasks(polls) + M.CallTasks(meanwhile);
      if |meanwhile| > 0 {
        M.FewerObjects(queue.Held() + M.CallTasks(meanwhile), all);
        ops := queue.Others(meanwhile);
      }
      e := Some(M.EntryOf(task));
      ProcessedIs(queue.Model(), Filed(), old(Filed()), M.EntryOf(task), policy, exec, doneAt);
      M.FewerObjects(queue.Held() + {task}, all);
      ProcessedDid(queue.Model(), Filed(), M.EntryOf(task), policy, exec, doneAt);
      r := Process(task, exec, doneAt, k);
    }

    /** What run_once does with a task it claimed; its claim may still be the k-th. */
    method Process(task: Task, exec: Execution, doneAt: real, ghost k: nat) returns (r: Option<(Id, bool)>)
      requires queue.Valid() && M.OneEach(queue.Held() + {task}) && Possible(policy, exec)
      modifies queue, task, results
      ensures queue.Valid()
      ensures var after := Processed(old(queue.Model()), old(Filed()), old(M.EntryOf(task)), policy, exec, doneAt);
              && queue.Model() == after.queue && r == after.did
              && (old(Holds(k, task)) && R.Clean(old(queue.Model())) && old(Apart()) ==>
                    Filed() == after.filed && Apart())
      ensures r.Some? && r.value.1 ==>
                && results.results == old(results.results)[task.id := task]
                && r.value.0 == task.id && task.status.Terminal()
      ensures r.Some? && r.value.1 ==> CameTo(task, exec, doneAt)
      ensures !(r.Some? && r.value.1) ==> results.results == old(results.results)
    {
      hide M.PendingModel, M.ClaimModel, M.TasksOf, M.Keys, M.Pop, M.OneEach, Processed, R.Clean, R.Ids, M.Mem.Acked,
           RB.GotOf;
      ghost var before := queue.Model();
      ghost var holds := Holds(k, task);
      M.AllHeld(queue.pending, queue.claimed);
      ProcessedIs(before, Filed(), Filed(), M.EntryOf(task), policy, exec, doneAt);
      assert holds ==> before.claims[k].entry.id == task.id == M.ClaimIds(before.claims)[k];
      r := Handle(task, exec, doneAt);
      if holds && R.Clean(before) && old(Apart()) && r.Some? && r.value.1 {
        Gone(before, task.id);
        HeldIsQueued(queue.pending, queue.claimed);
        assert task !in queue.Held();
      }
    }

    /** The dequeue of run_once. */
    method Await(deadline: Option<real>, polls: seq<M.Poll>) returns (got: Option<Task>, ghost rounds: seq<M.Round>)
      requires queue.Valid() && M.OneEach(queue.Held() + M.PollTasks(polls))
      requires |polls| > 0 && Reached(deadline, polls[|polls| - 1].now)
      modifies queue, queue.Held(), M.PollTasks(polls)
      ensures queue.Valid() && queue.Held() <= old(queue.Held()) + M.PollTasks(polls)
      ensures 0 < |rounds| <= |polls|
      ensures forall k :: 0 <= k < |rounds| ==> M.Serves(polls[k], rounds[k])
      ensures var n := |rounds| - 1;
              (queue.Model(), if got == None then None else Some(M.EntryOf(got.value))) ==
              M.Met(old(queue.Model()), rounds, n).Dequeued(rounds[n].now, timeout)
      ensures got.Some? ==>
                && got.value in old(queue.Held()) + M.PollTasks(polls)
                && exists k :: 0 <= k < |queue.claimed| && queue.claimed[k].task == got.value
      ensures Quiet(polls) && R.Clean(old(queue.Model())) && old(Apart()) ==>
                Apart() && Filed() == old(Filed()) && R.Clean(queue.Model()) && M.PollTasks(polls) == {}
    {
      hide M.PendingModel, M.ClaimModel, M.TasksOf, M.Keys, M.Pop, M.OneEach, M.Mem.Dequeued, M.Met, M.Picked,
           M.PollTasks, M.Serves, R.Clean;
      got, rounds := queue.Dequeue(timeout, deadline, polls);
      if Quiet(polls) && R.Clean(old(queue.Model())) && old(Apart()) {
        QuietObjects(polls);
        QuietDequeue(old(queue.Model()), polls, rounds, timeout);
      }
    }

    method Handle(task: Task, exec: Execution, doneAt: real) returns (r: Option<(Id, bool)>)
      requires queue.Valid() && M.OneEach(queue.Held() + {task}) && Possible(policy, exec)
      modifies queue, task, results
      ensures queue.Valid() && queue.Held() <= old(queue.Held()) + {task}
      ensures var turned := Processed(old(queue.Model()), old(Filed()), old(M.EntryOf(task)), policy, exec, doneAt);
              && queue.Model() == turned.queue && r == turned.did
              && (r.Some? && r.value.1 ==> RB.GotOf(RB.Says(task)) == turned.filed[task.id])
      ensures r.Some? && r.value.1 ==>
                && results.results == old(results.results)[task.id := task]
                && r.value.0 == task.id && task.status.Terminal()
      ensures r.Some? && r.value.1 ==> CameTo(task, exec, doneAt)
      ensures !(r.Some? && r.value.1) ==> results.results == old(results.results)
    {
      hide M.PendingModel, M.ClaimModel, M.TasksOf, M.Keys, M.Pop, M.OneEach, M.Mem.Changed, NextDelay;
      match exec {
        case NotRegistered(message) =>
          DeadLetter(task, message, doneAt);
          r := Some((task.id, true));
        case Raised(message, draws) =>
          r := HandleFailure(task, message, draws, doneAt);
        case Returned(value) =>
          task.MarkSuccess(value, doneAt);
          results.Store(task);
          queue.Ack(task);
          r := Some((task.id, true));
      }
    }

    method HandleFailure(task: Task, message: string, draws: seq<real>, doneAt: real) returns (r: Option<(Id, bool)>)
      requires queue.Valid() && M.OneEach(queue.Held() + {task}) && Draws(policy, draws)
      modifies queue, task, results
      ensures queue.Valid() && queue.Held() <= old(queue.Held()) + {task}
      ensures match Decide(policy, old(task.Data()), Raised(message, draws), doneAt)
              case Finish(u) =>
                && queue.Model() == old(queue.Model()).Acked(task.id) && r == Some((task.id, true))
                && results.results == old(results.results)[task.id := task] && task.Data() == u
              case Retry(u) =>
                && queue.Model() ==
                   old(queue.Model()).Changed(task.id, u.retries, u.availableAt).Nacked(DataEntry(u), true)
                && r == Some((task.id, false)) && results.results == old(results.results)
              case PolicyError =>
                queue.Model() == old(queue.Model()) && r == None && results.results == old(results.results)
      ensures var d := NextDelay(policy, old(task.retries) + 1, draws);
              && (old(task.retries) < task.maxRetries && d.After? ==>
                    && r == Some((task.id, false)) && task.status == Pending
                    && task.retries == old(task.retries) + 1 && task.availableAt == Some(doneAt + d.seconds))
              && (old(task.retries) >= task.maxRetries || d == Declined ==>
                    && r == Some((task.id, true)) && task.status == Failed && task.error == Some(message)
                    && task.finishedAt == Some(doneAt) && task.retries == old(task.retries))
    {
      hide M.PendingModel, M.ClaimModel, M.TasksOf, M.Keys, M.Pop, M.OneEach, M.Mem.Changed, M.Mem.Nacked, NextDelay;
      if task.retries < task.maxRetries {
        var delay := NextDelay(policy, task.retries + 1, draws);
        if delay.ValueError? { return None; }
        if delay.After? {
          PutBack(task, doneAt + delay.seconds);
          return Some((task.id, false));
        }
      }
      DeadLetter(task, message, doneAt);
      r := Some((task.id, true));
    }

    /** Counts the failure and puts the object back for a later time. */
    method PutBack(task: Task, at: real)
      requires queue.Valid() && M.OneEach(queue.Held() + {task})
      modifies queue, task
      ensures queue.Valid() && queue.Held() <= old(queue.Held()) + {task}
      ensures var u := old(task.Data()).AsRetry(at);
              queue.Model() == old(queue.Model()).Changed(task.id, u.retries, u.availableAt).Nacked(DataEntry(u), true)
      ensures task.status == Pending && task.retries == old(task.retries) + 1 && task.availableAt == Some(at)
    {
      hide M.PendingModel, M.ClaimModel, M.TasksOf, M.Keys, M.Pop, M.OneEach, M.Mem.Changed;
      ghost var u := task.Data().AsRetry(at);
      queue.Write(task, task.retries + 1, Some(at));
      assert M.EntryOf(task) == DataEntry(u);
      queue.Nack(task, true);
    }

    method DeadLetter(task: Task, message: string, doneAt: real)
      requires queue.Valid()
      modifies queue, task, results
      ensures queue.Valid() && queue.Model() == old(queue.Model()).Acked(task.id)
      ensures queue.Held() <= old(queue.Held()) + {task}
      ensures task.Data() == old(task.Data()).AsFailed(message, doneAt)
      ensures results.results == old(results.results)[task.id := task]
    {
      hide M.PendingModel, M.ClaimModel, M.TasksOf, M.Keys, M.Pop;
      task.MarkFailed(message, doneAt);
      results.Store(task);
      queue.Nack(task, false);
    }
  }
}
