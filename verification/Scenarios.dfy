/** Runs from the empty tables in which a promise fails, since ack, nack and purge ask no one
    whose claim is in force. */
module Scenarios {
  import opened Tasks
  import opened RetryPolicies
  import opened Protocol
  import opened Exclusion
  import opened Lifecycles
  import opened TimelyRuns
  import opened Outcomes
  import opened Delivery
  import T = TaskTable

  /** Retries come ten seconds later. */
  function Patient(): Config {
    Config(FixedDelay(10.0), Serializer(v => Some("null"), b => Some(Null)))
  }

  /** The only task; it may be retried once. */
  function Sample(): TaskData {
    TaskData(0, "f", Null, Null, Pending, 0, 1, 0, 0.0, None, None, None, Null, None)
  }

  /** Task 0 is the only task; it has this status and retry count. */
  predicate Only(s: State, status: Status, retries: int) {
    && s.rows.Keys == {0}
    && s.rows[0].status == status && s.rows[0].retries == retries && s.rows[0].maxRetries == 1
  }

  /** Worker w is running a copy of task 0 with this retry count, until this deadline. */
  predicate Runs(s: State, w: WorkerId, retries: int, deadline: real) {
    && At(s, w, Executing) && s.busy[w].deadline == deadline
    && s.busy[w].task.id == 0 && s.busy[w].task.retries == retries && s.busy[w].task.maxRetries == 1
  }

  lemma Do(states: seq<State>, steps: seq<Step>, step: Step) returns (states': seq<State>, steps': seq<Step>)
    requires IsRun(Patient(), states, steps) && Enabled(Patient(), Last(states), step)
    ensures IsRun(Patient(), states', steps')
    ensures states' == states + [Apply(Patient(), Last(states), step)] && steps' == steps + [step]
  {
    states', steps' := Extend(Patient(), states, steps, step);
  }

  /** Worker 1 claims the only task for one second. */
  lemma Started() returns (states: seq<State>, steps: seq<Step>)
    ensures IsRun(Patient(), states, steps) && NoRetries(steps)
    ensures var s := Last(states);
            && Only(s, Running, 0) && s.rows[0].claimedUntil == Some(1.0) && s.rows[0].availableAt == None
            && s.clock == 0.0 && s.busy.Keys == {1} && Runs(s, 1, 0, 1.0)
            && s.owner.Keys == {0} && s.busy[1].claim == 0 && s.claims == 1
  {
    states, steps := [Init(0.0)], [];
    states, steps := Do(states, steps, Enqueue(Sample()));
    assert Only(Last(states), Pending, 0);
    states, steps := Do(states, steps, TryClaim(1, 0, 1.0));
  }

  /** Its claim expires and is reclaimed. */
  lemma Reclaimed() returns (states: seq<State>, steps: seq<Step>)
    ensures IsRun(Patient(), states, steps) && NoRetries(steps)
    ensures var s := Last(states);
            && Only(s, Pending, 0) && s.rows[0].availableAt == None && s.clock == 2.0
            && s.busy.Keys == {1} && Runs(s, 1, 0, 1.0)
            && s.busy[1].claim == 0 && s.claims == 1 && s.owner.Keys == {}
  {
    states, steps := Started();
    states, steps := Do(states, steps, Tick(2.0));
    states, steps := Do(states, steps, ReclaimExpired);
  }

  /** Worker 2 claims the task for 100 seconds. */
  lemma Overtaken() returns (states: seq<State>, steps: seq<Step>)
    ensures IsRun(Patient(), states, steps) && NoRetries(steps)
    ensures var s := Last(states);
            && Only(s, Running, 0) && s.clock == 2.0 && s.busy.Keys == {1, 2}
            && Runs(s, 1, 0, 1.0) && Runs(s, 2, 0, 102.0)
            && s.owner == map[0 := 1] && s.busy[1].claim == 0 && s.busy[2].claim == 1
  {
    states, steps := Reclaimed();
    states, steps := Do(states, steps, TryClaim(2, 0, 100.0));
  }

  /** Worker 1 fails and nacks late. */
  lemma NackedLate() returns (states: seq<State>, steps: seq<Step>)
    ensures IsRun(Patient(), states, steps)
    ensures var s := Last(states);
            && Only(s, Pending, 1) && s.rows[0].availableAt == Some(12.0) && s.clock == 2.0
            && s.busy.Keys == {2} && Runs(s, 2, 0, 102.0)
  {
    states, steps := Overtaken();
    states, steps := Do(states, steps, Execute(1, Raised("boom", [])));
    states, steps := Do(states, steps, Requeueing(1));
  }

  /** Once the retry delay is over, worker 3 claims the task that worker 2 still holds. */
  lemma LateNackBreaksExclusion() returns (states: seq<State>, steps: seq<Step>)
    ensures IsRun(Patient(), states, steps) && Shared(Last(states), 0)
  {
    states, steps := NackedLate();
    states, steps := Do(states, steps, Tick(10.0));
    assert Only(Last(states), Pending, 1);
    states, steps := Do(states, steps, TryClaim(3, 0, 100.0));
    assert HoldsUnexpired(Last(states), 2, 0) && HoldsUnexpired(Last(states), 3, 0);
  }

  /** No step is a nack for retry. */
  predicate NoRetries(steps: seq<Step>) { forall k :: 0 <= k < |steps| ==> !steps[k].Requeueing? }

  /** Worker 1 finds no function for the task and dead-letters it late. */
  lemma DeadLetteredLate() returns (states: seq<State>, steps: seq<Step>)
    ensures IsRun(Patient(), states, steps) && NoRetries(steps)
    ensures var s := Last(states);
            Only(s, Failed, 0) && s.clock == 2.0 && s.busy.Keys == {2} && Runs(s, 2, 0, 102.0)
  {
    states, steps := Overtaken();
    states, steps := Do(states, steps, Execute(1, NotRegistered("unknown")));
    assert Runs(Last(states), 2, 0, 102.0);
    states, steps := Do(states, steps, Store(1));
    states, steps := Do(states, steps, Settling(1));
  }

  /** It is replayed, and worker 3 claims the task that worker 2 still holds. */
  lemma LateDeadLetterBreaksExclusion() returns (states: seq<State>, steps: seq<Step>)
    ensures IsRun(Patient(), states, steps) && NoRetries(steps) && Shared(Last(states), 0)
  {
    states, steps := DeadLetteredLate();
    states, steps := Do(states, steps, ReplayFailed(0));
    assert Only(Last(states), Pending, 0);
    states, steps := Do(states, steps, TryClaim(3, 0, 100.0));
    assert HoldsUnexpired(Last(states), 2, 0) && HoldsUnexpired(Last(states), 3, 0);
  }

  /** Worker 2 has succeeded and is about to ack; worker 1 is still running. */
  lemma StoredByWorker2() returns (states: seq<State>, steps: seq<Step>)
    ensures IsRun(Patient(), states, steps)
    ensures var s := Last(states);
            && Only(s, Running, 0) && s.clock == 2.0 && Runs(s, 1, 0, 1.0) && At(s, 2, Storing)
            && s.busy[2].task.id == 0 && s.busy[2].task.status == Success && s.busy[2].task.finishedAt == Some(2.0)
  {
    states, steps := Overtaken();
    states, steps := Do(states, steps, Execute(2, Returned(Null)));
    assert Only(Last(states), Running, 0) && Runs(Last(states), 1, 0, 1.0);
    states, steps := Do(states, steps, Store(2));
  }

  /** Worker 2 acks. */
  lemma OvertakenThenAcked() returns (states: seq<State>, steps: seq<Step>)
    ensures IsRun(Patient(), states, steps)
    ensures var s := Last(states);
            && Only(s, Success, 0) && s.rows[0].finishedAt == Some(2.0) && s.clock == 2.0 && Runs(s, 1, 0, 1.0)
  {
    states, steps := StoredByWorker2();
    states, steps := Do(states, steps, Settling(2));
  }

  /** Then worker 1 fails and nacks late, and the finished task is waiting again. */
  lemma LateNackResurrects() returns (states: seq<State>, steps: seq<Step>, i: nat)
    ensures IsRun(Patient(), states, steps) && i + 1 < |states|
    ensures Only(states[i], Success, 0) && Only(states[i + 1], Pending, 1)
    ensures !KeepsLifecycle(states[i], steps[i], 0, states[i + 1])
  {
    states, steps := OvertakenThenAcked();
    states, steps := Do(states, steps, Execute(1, Raised("boom", [])));
    i := |states| - 1;
    states, steps := Do(states, steps, Requeueing(1));
  }

  /** Or worker 1 succeeds too, a second later. */
  lemma ReturnedLate() returns (states: seq<State>, steps: seq<Step>)
    ensures IsRun(Patient(), states, steps)
    ensures var s := Last(states);
            && Only(s, Success, 0) && s.rows[0].finishedAt == Some(2.0) && At(s, 1, Finished)
            && s.busy[1].task.id == 0 && s.busy[1].task.status == Success && s.busy[1].task.finishedAt == Some(3.0)
  {
    states, steps := OvertakenThenAcked();
    states, steps := Do(states, steps, Tick(1.0));
    states, steps := Do(states, steps, Execute(1, Returned(Null)));
  }

  /** Its ack overwrites the finished row. */
  lemma LateAckRewrites() returns (states: seq<State>, steps: seq<Step>, i: nat)
    ensures IsRun(Patient(), states, steps) && i + 1 < |states|
    ensures Only(states[i], Success, 0) && states[i].rows[0].finishedAt == Some(2.0)
    ensures Only(states[i + 1], Success, 0) && states[i + 1].rows[0].finishedAt == Some(3.0)
    ensures !KeepsLifecycle(states[i], steps[i], 0, states[i + 1])
  {
    states, steps := ReturnedLate();
    states, steps := Do(states, steps, Store(1));
    i := |states| - 1;
    states, steps := Do(states, steps, Settling(1));
  }

  /** Or worker 1 finds no function and stores that, late: the row says success, its outcome
      failure. Nothing was purged. */
  lemma LateStoreContradicts() returns (states: seq<State>, steps: seq<Step>)
    ensures IsRun(Patient(), states, steps)
    ensures var s := Last(states);
            && Only(s, Success, 0) && 0 in s.results && s.results[0].status == Failed && !Story(s, 0)
  {
    states, steps := OvertakenThenAcked();
    states, steps := Do(states, steps, Execute(1, NotRegistered("unknown")));
    assert Only(Last(states), Success, 0);
    states, steps := Do(states, steps, Store(1));
  }

  /** Worker 1 stores late, while worker 2 holds the claim in force. */
  lemma StoredLate() returns (states: seq<State>, steps: seq<Step>)
    ensures IsRun(Patient(), states, steps)
    ensures var s := Last(states);
            && Only(s, Running, 0) && s.clock == 2.0 && At(s, 1, Storing) && Runs(s, 2, 0, 102.0)
            && s.busy.Keys == {1, 2} && s.busy[1].task.id == 0 && s.busy[1].task.status == Failed
            && s.owner == map[0 := s.busy[2].claim] && s.busy[1].claim != s.busy[2].claim
            && 0 in s.results && s.results[0].status == Failed && s.results[0].storedAt == 2.0
  {
    states, steps := Overtaken();
    states, steps := Do(states, steps, Execute(1, NotRegistered("unknown")));
    assert Only(Last(states), Running, 0) && Runs(Last(states), 2, 0, 102.0);
    states, steps := Do(states, steps, Store(1));
  }

  /** A purge deletes that outcome; it spares every worker whose claim is in force. Then worker
      1 settles, and the failed row has no outcome. */
  lemma SparingPurgeLosesOutcome() returns (states: seq<State>, steps: seq<Step>)
    ensures IsRun(Patient(), states, steps) && |steps| >= 2
    ensures var i := |steps| - 2;
            steps[i] == PurgeOld(0.0, true, true) && PurgeSpares(states[i], steps[i])
    ensures Only(Last(states), Failed, 0) && 0 !in Last(states).results
  {
    states, steps := StoredLate();
    states, steps := Do(states, steps, PurgeOld(0.0, true, true));
    assert Only(Last(states), Running, 0) && 0 !in Last(states).results;
    states, steps := Do(states, steps, Settling(1));
  }

  /** A serializer that cannot read back what it wrote: the only task is never delivered, and
      blocks the queue for ever. */
  lemma UndecodableBlocks(now: real, timeout: real)
    returns (c: Config, states: seq<State>, steps: seq<Step>)
    requires 0.0 <= now && 0.0 < timeout
    ensures IsRun(c, states, steps) && Only(Last(states), Pending, 0)
    ensures !CanDrain(c.ser, Last(states).rows, now, timeout)
    ensures T.Undecodable(c.ser, Offered(Last(states).rows, now), now)
    ensures !exists id, rows' :: Delivers(c.ser, Last(states).rows, now, timeout, id, rows')
  {
    c := Config(NoRetry, Serializer(v => Some("null"), b => None));
    states, steps := Extend(c, [Init(0.0)], [], Enqueue(Sample()));
    var rows := Last(states).rows;
    assert rows[0].Ready(now) && Offered(rows, now) == rows;
    assert T.IsBest(rows, now, 0);
    CanDrainIff(c.ser, rows, now, timeout);
  }

  // ---------------------------------------------------- a timely run

  lemma DoTimely(states: seq<State>, steps: seq<Step>, step: Step) returns (states': seq<State>, steps': seq<Step>)
    requires IsTimelyRun(Patient(), states, steps) && Enabled(Patient(), Last(states), step)
    requires Timely(Last(states), step)
    ensures IsTimelyRun(Patient(), states', steps')
    ensures states' == states + [Apply(Patient(), Last(states), step)] && steps' == steps + [step]
  {
    hide Timely, Enabled, Apply;
    states', steps' := Do(states, steps, step);
    forall i | 0 <= i < |steps'| ensures Timely(states'[i], steps'[i]) {
      if i < |steps| { assert Timely(states[i], steps[i]); }
    }
  }

  /** Worker 1, all alone, has stored its outcome and holds its claim. */
  lemma StoredInTime() returns (states: seq<State>, steps: seq<Step>)
    ensures IsTimelyRun(Patient(), states, steps)
    ensures var s := Last(states);
            && Only(s, Running, 0) && s.clock == 0.0 && At(s, 1, Storing) && Owns(s, s.busy[1])
            && s.busy[1].task.id == 0 && s.busy[1].task.status == Success
            && 0 in s.results && s.results[0].status == Success && s.results[0].storedAt == 0.0
  {
    states, steps := [Init(0.0)], [];
    states, steps := DoTimely(states, steps, Enqueue(Sample()));
    assert Only(Last(states), Pending, 0);
    states, steps := DoTimely(states, steps, TryClaim(1, 0, 1.0));
    assert Only(Last(states), Running, 0) && Runs(Last(states), 1, 0, 1.0) && Owns(Last(states), Last(states).busy[1]);
    states, steps := DoTimely(states, steps, Execute(1, Returned(Null)));
    assert Only(Last(states), Running, 0) && Owns(Last(states), Last(states).busy[1]);
    states, steps := DoTimely(states, steps, Store(1));
  }

  /** A purge of everything finished falls between store and ack: the task has succeeded and
      its outcome is gone. */
  lemma PurgeLosesOutcome() returns (states: seq<State>, steps: seq<Step>)
    ensures IsTimelyRun(Patient(), states, steps)
    ensures Only(Last(states), Success, 0) && 0 !in Last(states).results
  {
    states, steps := StoredInTime();
    states, steps := DoTimely(states, steps, PurgeOld(0.0, false, true));
    assert Only(Last(states), Running, 0) && 0 !in Last(states).results;
    states, steps := DoTimely(states, steps, Settling(1));
  }
}
