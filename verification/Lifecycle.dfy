/** The lifecycle of a row in all runs: exactly which steps move it as they should. */
module Lifecycles {
  import opened Tasks
  import opened TaskTable
  import opened RetryPolicies
  import opened Protocol
  import opened AllRuns
  import opened Exclusion

  /** The step that moves a row from one status to another: claim, reclaim, nack for a
      retry, ack or dead-letter, replay. */
  predicate LegalMove(s: State, step: Step, id: Id, was: Status, now: Status) {
    match (was, now)
    case (Pending, Running) => step.TryClaim? && step.id == id
    case (Running, Pending) => step == ReclaimExpired || RequeuesId(s, step, id)
    case (Running, Success) => SettlesId(s, step, id)
    case (Running, Failed) => SettlesId(s, step, id)
    case (Failed, Pending) => step == ReplayFailed(id)
    case _ => was == now
  }

  predicate SettlesId(s: State, step: Step, id: Id) {
    step.Settling? && step.w in s.busy && s.busy[step.w].task.id == id
  }

  predicate RequeuesId(s: State, step: Step, id: Id) {
    step.Requeueing? && step.w in s.busy && s.busy[step.w].task.id == id
  }

  /** The row moves along a legal edge, and if it was terminal it changes only by replay. */
  predicate KeepsLifecycle(s: State, step: Step, id: Id, s': State)
    requires id in s.rows && id in s'.rows
  {
    && LegalMove(s, step, id, s.rows[id].status, s'.rows[id].status)
    && (s.rows[id].status.Terminal() && step != ReplayFailed(id) ==> s'.rows[id] == s.rows[id])
  }

  /** What the worker is about to write is what the row says already. */
  predicate Repeats(r: Row, t: TaskData) {
    t.status == r.status && t.finishedAt == r.finishedAt && t.error == r.error
  }

  /** An ack or dead letter meets its row RUNNING or repeats it; a nack for retry meets its
      row RUNNING or waiting. */
  predicate Harmless(s: State, step: Step, id: Id)
    requires id in s.rows
  {
    && (SettlesId(s, step, id) ==> s.rows[id].status == Running || Repeats(s.rows[id], s.busy[step.w].task))
    && (RequeuesId(s, step, id) ==> s.rows[id].status == Running || s.rows[id].status == Pending)
  }

  lemma LifecycleStepIff(c: Config, s: State, step: Step, id: Id)
    requires c.Valid() && Safe(c, s) && Claimed(s) && Enabled(c, s, step)
    requires id in s.rows && id in Apply(c, s, step).rows
    ensures KeepsLifecycle(s, step, id, Apply(c, s, step)) <==> Harmless(s, step, id)
  {
    if step.Execute? { var stage, t := ExecuteTurns(c, s, step.w, step.exec); }
    else if BySettle(step) { LifecycleAfterSettle(c, s, step, id); }
    else { LifecycleOtherStep(c, s, step, id); }
  }

  lemma LifecycleAfterSettle(c: Config, s: State, step: Step, id: Id)
    requires Safe(c, s) && Claimed(s) && Enabled(c, s, step) && BySettle(step) && id in s.rows
    ensures id in Apply(c, s, step).rows
    ensures KeepsLifecycle(s, step, id, Apply(c, s, step)) <==> Harmless(s, step, id)
  {
    hide LeastTotal, Decide;
    assert HeldSafe(c, s, s.busy[step.w]);
    assert RowClaimed(s, id);
  }

  lemma LifecycleOtherStep(c: Config, s: State, step: Step, id: Id)
    requires Safe(c, s) && Enabled(c, s, step) && !step.Execute? && !BySettle(step)
    requires id in s.rows && id in Apply(c, s, step).rows
    ensures KeepsLifecycle(s, step, id, Apply(c, s, step))
  {
    hide LeastTotal, Stored, PurgeResults, Decoded, Decide, RowSafe, HoldSafe;
  }

  /** In all runs, at every step: a row keeps to its lifecycle exactly when the step is no
      settle of it or a harmless one. */
  lemma LifecycleIff(c: Config, states: seq<State>, steps: seq<Step>, i: nat, id: Id)
    requires IsRun(c, states, steps) && i < |steps|
    requires id in states[i].rows && id in states[i + 1].rows
    ensures KeepsLifecycle(states[i], steps[i], id, states[i + 1]) <==> Harmless(states[i], steps[i], id)
  {
    SafeAlways(c, states, steps, i);
    ClaimedAlways(c, states, steps, i);
    assert StepsTo(c, states[i], steps[i], states[i + 1]);
    LifecycleStepIff(c, states[i], steps[i], id);
  }
}
