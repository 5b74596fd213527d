/** What holds in every run of the protocol: any number of workers, crashes anywhere, and
    settles by workers whose claims have long expired. */
module AllRuns {
  import opened Tasks
  import opened TaskTable
  import opened RetryPolicies
  import opened Protocol

  lemma {:induction false} SafeAlways(c: Config, states: seq<State>, steps: seq<Step>, i: nat)
    requires IsRun(c, states, steps) && i < |states|
    ensures Safe(c, states[i])
  {
    if i > 0 {
      SafeAlways(c, states, steps, i - 1);
      assert StepsTo(c, states[i - 1], steps[i - 1], states[i]);
      SafeStep(c, states[i - 1], steps[i - 1]);
    }
  }

  /** An enqueue is remembered for ever, unchanged. */
  lemma {:induction false} BirthKept(c: Config, states: seq<State>, steps: seq<Step>, j: nat, i: nat)
    requires IsRun(c, states, steps) && j < i < |states| && steps[j].Enqueue?
    ensures var t := steps[j].task;
            && t.id in states[i].born
            && states[i].born[t.id] == Birth(states[j].clock, t.availableAt, t.maxRetries)
    decreases i
  {
    assert StepsTo(c, states[i - 1], steps[i - 1], states[i]);
    if j < i - 1 { BirthKept(c, states, steps, j, i - 1); }
  }

  /** No claim of a task, first or repeated, starts before the time it was scheduled for. */
  lemma NeverEarly(c: Config, states: seq<State>, steps: seq<Step>, j: nat, i: nat)
    requires IsRun(c, states, steps) && j < i < |steps|
    requires steps[j].Enqueue? && steps[i].TryClaim? && steps[i].id == steps[j].task.id
    ensures steps[j].task.availableAt.Some? ==> steps[j].task.availableAt.value <= states[i].clock
  {
    SafeAlways(c, states, steps, i);
    BirthKept(c, states, steps, j, i);
    assert StepsTo(c, states[i], steps[i], states[i + 1]);
  }

  /** A claim of a task that has been retried r times starts no earlier than its enqueue
      plus the least delays the policy allows before retries 1 to r. */
  lemma BackoffRespected(c: Config, states: seq<State>, steps: seq<Step>, j: nat, i: nat)
    requires IsRun(c, states, steps) && j < i < |steps|
    requires steps[j].Enqueue? && steps[i].TryClaim? && steps[i].id == steps[j].task.id
    ensures steps[i].id in states[i].rows
    ensures states[j].clock + LeastTotal(c.policy, states[i].rows[steps[i].id].retries) <= states[i].clock
  {
    hide LeastTotal;
    LeastTotalZero(c.policy);
    SafeAlways(c, states, steps, i);
    BirthKept(c, states, steps, j, i);
    assert StepsTo(c, states[i], steps[i], states[i + 1]);
  }

  /** Neither a row nor any worker's copy, current or stale, exceeds the retry budget that
      the task was enqueued with. */
  lemma RetryBudget(c: Config, states: seq<State>, steps: seq<Step>, j: nat, i: nat)
    requires IsRun(c, states, steps) && j < i < |states| && steps[j].Enqueue?
    ensures var t := steps[j].task;
            && (t.id in states[i].rows ==>
                  0 <= states[i].rows[t.id].retries <= states[i].rows[t.id].maxRetries == t.maxRetries)
            && (forall w | w in states[i].busy && states[i].busy[w].task.id == t.id ::
                  0 <= states[i].busy[w].task.retries <= states[i].busy[w].task.maxRetries == t.maxRetries)
  {
    SafeAlways(c, states, steps, i);
    BirthKept(c, states, steps, j, i);
    forall w | w in states[i].busy ensures HeldSafe(c, states[i], states[i].busy[w]) {}
  }

  // ----------------------------------------------------- payloads survive

  /** The columns that no statement after the INSERT writes. */
  predicate SamePayload(r: Row, q: Row) {
    && r.funcPath == q.funcPath && r.args == q.args && r.kwargs == q.kwargs
    && r.maxRetries == q.maxRetries && r.priority == q.priority && r.createdAt == q.createdAt
  }

  lemma PayloadStep(c: Config, s: State, step: Step, id: Id)
    requires Enabled(c, s, step)
    requires id in s.rows && id in s.born && id in Apply(c, s, step).rows
    ensures SamePayload(s.rows[id], Apply(c, s, step).rows[id])
  {
    hide Decide, Decoded, Stored, LeastTotal;
    if step.Execute? { ExecuteKeepsRows(c, s, step.w, step.exec); }
  }

  lemma ExecuteKeepsRows(c: Config, s: State, w: WorkerId, exec: Execution)
    requires Enabled(c, s, Execute(w, exec))
    ensures Apply(c, s, Execute(w, exec)).rows == s.rows
  {
    hide Decide;
  }

  lemma {:induction false} PayloadKept(c: Config, states: seq<State>, steps: seq<Step>, j: nat, i: nat)
    requires IsRun(c, states, steps) && j < i < |states| && steps[j].Enqueue?
    requires steps[j].task.id in states[i].rows
    ensures var t := steps[j].task;
            && c.ser.serialize(t.args).Some? && c.ser.serialize(t.kwargs).Some?
            && SamePayload(states[i].rows[t.id],
                           Inserted(t, c.ser.serialize(t.args).value, c.ser.serialize(t.kwargs).value))
    decreases i
  {
    hide Apply, Enabled, Inserted, SamePayload;
    var id := steps[j].task.id;
    assert StepsTo(c, states[i - 1], steps[i - 1], states[i]);
    if j == i - 1 {
      InsertedPayload(c, states[j], steps[j]);
    } else {
      BirthKept(c, states, steps, j, i - 1);
      RowsStay(c, states[i - 1], steps[i - 1], id);
      PayloadKept(c, states, steps, j, i - 1);
      PayloadStep(c, states[i - 1], steps[i - 1], id);
      SamePayloadTrans(steps[j].task, c.ser, states[i].rows[id], states[i - 1].rows[id]);
    }
  }

  lemma InsertedPayload(c: Config, s: State, step: Step)
    requires Enabled(c, s, step) && step.Enqueue?
    ensures var t := step.task;
            && c.ser.serialize(t.args).Some? && c.ser.serialize(t.kwargs).Some?
            && t.id in Apply(c, s, step).rows
            && SamePayload(Apply(c, s, step).rows[t.id],
                           Inserted(t, c.ser.serialize(t.args).value, c.ser.serialize(t.kwargs).value))
  {}

  lemma SamePayloadTrans(t: TaskData, ser: Serializer, r: Row, q: Row)
    requires SamePayload(q, r) && ser.serialize(t.args).Some? && ser.serialize(t.kwargs).Some?
    requires SamePayload(q, Inserted(t, ser.serialize(t.args).value, ser.serialize(t.kwargs).value))
    ensures SamePayload(r, Inserted(t, ser.serialize(t.args).value, ser.serialize(t.kwargs).value))
  {}

  /** A known task that has a row after a step had it before. */
  lemma RowsStay(c: Config, s: State, step: Step, id: Id)
    requires Enabled(c, s, step) && id in s.born && id in Apply(c, s, step).rows
    ensures id in s.rows
  {
    hide Decide, Decoded, Stored, LeastTotal;
    if step.Execute? { ExecuteKeepsRows(c, s, step.w, step.exec); }
  }

  /** Every claim, first or repeated, hands the worker the very function, arguments, budget,
      priority and age that the task was enqueued with; no row ever fails to decode. */
  lemma PayloadRoundTrip(c: Config, states: seq<State>, steps: seq<Step>, j: nat, i: nat)
    requires IsRun(c, states, steps) && j < i < |states| && steps[j].Enqueue? && c.ser.Invertible()
    requires steps[j].task.id in states[i].rows
    ensures var t := steps[j].task;
            && Decoded(c.ser, t.id, states[i].rows[t.id]).Some?
            && var copy := Decoded(c.ser, t.id, states[i].rows[t.id]).value;
               && copy.id == t.id && copy.funcPath == t.funcPath && copy.args == t.args && copy.kwargs == t.kwargs
               && copy.maxRetries == t.maxRetries && copy.priority == t.priority && copy.createdAt == t.createdAt
  {
    PayloadKept(c, states, steps, j, i);
    var t := steps[j].task;
    assert c.ser.deserialize(c.ser.serialize(t.args).value) == Some(t.args);
    assert c.ser.deserialize(c.ser.serialize(t.kwargs).value) == Some(t.kwargs);
  }

  // ------------------------------------------------------- nothing is lost

  /** Every task ever enqueued still has its row, terminal rows have a terminal outcome in
      the result store, and so do the tasks that workers are about to settle. */
  ghost predicate Recorded(s: State) {
    && s.born.Keys <= s.rows.Keys
    && (forall id | id in s.results :: s.results[id].status.Terminal())
    && (forall id | id in s.rows && s.rows[id].status.Terminal() :: id in s.results)
    && (forall w | w in s.busy && s.busy[w].stage == Storing :: s.busy[w].task.id in s.results)
  }

  lemma RecordedStep(c: Config, s: State, step: Step)
    requires c.Valid() && Safe(c, s) && Enabled(c, s, step) && !step.PurgeOld?
    requires Recorded(s)
    ensures Recorded(Apply(c, s, step))
  {
    if step.Execute? {
      var stage, t := ExecuteTurns(c, s, step.w, step.exec);
    } else if BySettle(step) {
      RecordedAfterSettle(c, s, step);
    } else {
      RecordedOtherStep(c, s, step);
    }
  }

  lemma RecordedAfterSettle(c: Config, s: State, step: Step)
    requires Enabled(c, s, step) && BySettle(step) && Recorded(s)
    ensures Recorded(Apply(c, s, step))
  {
    hide Decide;
  }

  lemma RecordedOtherStep(c: Config, s: State, step: Step)
    requires c.Valid() && Safe(c, s) && Enabled(c, s, step)
    requires !step.PurgeOld? && !step.Execute? && !BySettle(step)
    requires Recorded(s)
    ensures Recorded(Apply(c, s, step))
  {
    hide Decide, LeastTotal, RowSafe, Decoded;
    if step.Store? { assert HeldSafe(c, s, s.busy[step.w]); }
  }

  lemma {:induction false} RecordedAlways(c: Config, states: seq<State>, steps: seq<Step>, i: nat)
    requires IsRun(c, states, steps) && i < |states|
    requires forall k :: 0 <= k < |steps| ==> !steps[k].PurgeOld?
    ensures Recorded(states[i])
  {
    if i > 0 {
      RecordedAlways(c, states, steps, i - 1);
      SafeAlways(c, states, steps, i - 1);
      assert StepsTo(c, states[i - 1], steps[i - 1], states[i]);
      RecordedStep(c, states[i - 1], steps[i - 1]);
    }
  }

  /** Where a task can be: waiting, claimed with a deadline, or done with its outcome kept. */
  predicate Accounted(s: State, id: Id) {
    && id in s.rows
    && match s.rows[id].status
       case Pending => true
       case Running => s.rows[id].claimedUntil.Some?
       case _ => id in s.results && s.results[id].status.Terminal()
  }

  /** Without purge no task is ever lost, however workers crash or settle late. */
  lemma NothingLost(c: Config, states: seq<State>, steps: seq<Step>, j: nat, i: nat)
    requires IsRun(c, states, steps) && j < i < |states| && steps[j].Enqueue?
    requires forall k :: 0 <= k < |steps| ==> !steps[k].PurgeOld?
    ensures Accounted(states[i], steps[j].task.id)
  {
    BirthKept(c, states, steps, j, i);
    SafeAlways(c, states, steps, i);
    RecordedAlways(c, states, steps, i);
  }

  /** A row disappears exactly when a purge of its terminal status finds it finished by the
      cutoff, and a stored outcome exactly when such a purge finds it stored by the cutoff. */
  lemma DisappearsIff(c: Config, s: State, step: Step, id: Id)
    requires c.Valid() && Safe(c, s) && Enabled(c, s, step)
    ensures id in s.rows ==>
              var r := s.rows[id];
              id !in Apply(c, s, step).rows <==>
                && step.PurgeOld? && (r.status == Success || (r.status == Failed && step.includeFailed))
                && r.finishedAt.Some? && r.finishedAt.value + step.olderThan <= s.clock
    ensures id in s.results ==>
              var o := s.results[id];
              id !in Apply(c, s, step).results <==>
                && step.PurgeOld? && step.shared && (o.status == Success || (o.status == Failed && step.includeFailed))
                && o.storedAt + step.olderThan <= s.clock
  {
    hide Decide;
    if step.Execute? { var stage, t := ExecuteTurns(c, s, step.w, step.exec); }
  }
}
