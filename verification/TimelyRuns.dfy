/** What holds in timely runs: crashes may happen anywhere, but whoever stores, acks or
    nacks holds the latest claim on the task, not reclaimed and not settled. */
module TimelyRuns {
  import opened Tasks
  import opened TaskTable
  import opened RetryPolicies
  import opened Protocol
  import opened AllRuns
  import opened Exclusion
  import opened Lifecycles

  predicate Timely(s: State, step: Step) {
    match step
    case Store(w) => w in s.busy && Owns(s, s.busy[w])
    case Settling(w) => w in s.busy && Owns(s, s.busy[w])
    case Requeueing(w) => w in s.busy && Owns(s, s.busy[w])
    case _ => true
  }

  ghost predicate IsTimelyRun(c: Config, states: seq<State>, steps: seq<Step>) {
    IsRun(c, states, steps) && forall i :: 0 <= i < |steps| ==> Timely(states[i], steps[i])
  }

  // --------------------------------------------------- the ownership invariant

  /** A row's retries are the failed executions settled since it was enqueued or replayed. */
  predicate RowCounted(s: State, id: Id)
    requires id in s.rows
  {
    && id in s.settled
    && s.settled[id] == s.rows[id].retries + if s.rows[id].status.Terminal() then 1 else 0
  }

  /** The holder of the claim in force has the row's retry count, and a claim that has not
      expired is in force. */
  predicate HoldOwned(s: State, h: Hold) {
    && (Owns(s, h) ==> h.task.id in s.rows && h.task.retries == s.rows[h.task.id].retries + RetryBump(h))
    && (s.clock < h.deadline ==> Owns(s, h))
  }

  /** A copy about to be retried has counted one failure that its row has not. */
  function RetryBump(h: Hold): int { if h.stage == Retrying then 1 else 0 }

  ghost predicate Owned(s: State) {
    && Claimed(s)
    && (forall id | id in s.rows :: RowCounted(s, id))
    && (forall w | w in s.busy :: HoldOwned(s, s.busy[w]))
  }

  lemma RowCountedAfterSettle(c: Config, s: State, step: Step, id: Id)
    requires Safe(c, s) && Owned(s)
    requires Enabled(c, s, step) && Timely(s, step) && BySettle(step) && id in s.rows
    ensures id in Apply(c, s, step).rows && RowCounted(Apply(c, s, step), id)
  {
    hide LeastTotal, Decide;
    assert RowCounted(s, id);
    assert RowClaimed(s, id);
    assert HoldOwned(s, s.busy[step.w]);
    assert HeldSafe(c, s, s.busy[step.w]);
  }

  lemma RowCountedStep(c: Config, s: State, step: Step, id: Id)
    requires Safe(c, s) && Owned(s)
    requires Enabled(c, s, step) && !BySettle(step) && !step.Execute?
    requires id in Apply(c, s, step).rows
    ensures RowCounted(Apply(c, s, step), id)
  {
    hide LeastTotal, Decide, Stored, PurgeResults, Decoded, RowSafe, HoldSafe, RowClaimed, HoldClaimed;
    if id in s.rows { assert RowCounted(s, id); }
  }

  lemma HoldOwnedAfterSettle(c: Config, s: State, step: Step, w: WorkerId)
    requires Owned(s) && Enabled(c, s, step) && Timely(s, step) && BySettle(step)
    requires w in s.busy && w != step.w
    ensures HoldOwned(Apply(c, s, step), s.busy[w])
  {
    hide Decide;
    assert HoldOwned(s, s.busy[w]);
    assert s.busy[w].claim != s.busy[step.w].claim;
  }

  lemma HoldOwnedAfterClaim(c: Config, s: State, step: Step, w: WorkerId)
    requires Owned(s) && Enabled(c, s, step) && step.TryClaim?
    requires w in Apply(c, s, step).busy
    ensures HoldOwned(Apply(c, s, step), Apply(c, s, step).busy[w])
  {
    hide Decide;
    assert RowClaimed(s, step.id);
    if w != step.w {
      assert HoldOwned(s, s.busy[w]);
      assert HoldClaimed(s, s.busy[w]);
    }
  }

  /** Purge and reclaim. */
  lemma HoldOwnedAfterSweep(c: Config, s: State, step: Step, w: WorkerId)
    requires Owned(s) && (step.PurgeOld? || step == ReclaimExpired) && w in s.busy
    ensures HoldOwned(Apply(c, s, step), s.busy[w])
  {
    hide PurgeResults;
    var h := s.busy[w];
    assert HoldOwned(s, h);
    assert HoldClaimed(s, h);
    if h.task.id in s.rows { assert RowClaimed(s, h.task.id); }
  }

  lemma HoldOwnedStep(c: Config, s: State, step: Step, w: WorkerId)
    requires Safe(c, s) && Owned(s)
    requires Enabled(c, s, step) && !BySettle(step) && !step.TryClaim? && !step.Execute?
    requires !step.PurgeOld? && step != ReclaimExpired
    requires w in Apply(c, s, step).busy
    ensures HoldOwned(Apply(c, s, step), Apply(c, s, step).busy[w])
  {
    hide Decide, Stored, PurgeRows, PurgeResults, RowSafe, HoldSafe, Decoded, Inserted, IsBest;
    var h := s.busy[w];
    assert HoldOwned(s, h);
    assert HoldClaimed(s, h);
    if h.task.id in s.rows { assert RowClaimed(s, h.task.id); }
  }

  lemma OwnedStep(c: Config, s: State, step: Step)
    requires c.Valid() && Safe(c, s) && Owned(s) && Enabled(c, s, step) && Timely(s, step)
    ensures Owned(Apply(c, s, step))
  {
    ClaimedStep(c, s, step);
    if step.Execute? {
      var stage, t := ExecuteTurns(c, s, step.w, step.exec);
      OwnedTurned(s, step.w, stage, t);
    } else {
      OwnedOtherStep(c, s, step);
    }
  }

  lemma OwnedTurned(s: State, w: WorkerId, stage: Stage, t: TaskData)
    requires Owned(s) && At(s, w, Executing) && Claimed(Turned(s, w, stage, t))
    requires t.id == s.busy[w].task.id
    requires stage == Finished || stage == Retrying
    requires t.retries == s.busy[w].task.retries + if stage == Retrying then 1 else 0
    ensures Owned(Turned(s, w, stage, t))
  {
    hide Claimed;
    var s' := Turned(s, w, stage, t);
    forall id | id in s'.rows ensures RowCounted(s', id) { assert RowCounted(s, id); }
    forall v | v in s'.busy ensures HoldOwned(s', s'.busy[v]) { assert HoldOwned(s, s.busy[v]); }
  }

  lemma OwnedOtherStep(c: Config, s: State, step: Step)
    requires c.Valid() && Safe(c, s) && Owned(s) && Enabled(c, s, step) && Timely(s, step)
    requires !step.Execute? && Claimed(Apply(c, s, step))
    ensures Owned(Apply(c, s, step))
  {
    hide Claimed, RowCounted, HoldOwned, RowSafe, HoldSafe, Inserted, Decoded, Stored, PurgeRows, PurgeResults;
    var s' := Apply(c, s, step);
    forall id | id in s'.rows ensures RowCounted(s', id) {
      if BySettle(step) { RowCountedAfterSettle(c, s, step, id); } else { RowCountedStep(c, s, step, id); }
    }
    forall w | w in s'.busy ensures HoldOwned(s', s'.busy[w]) {
      if BySettle(step) { HoldOwnedAfterSettle(c, s, step, w); }
      else if step.TryClaim? { HoldOwnedAfterClaim(c, s, step, w); }
      else if step.PurgeOld? || step == ReclaimExpired { HoldOwnedAfterSweep(c, s, step, w); }
      else { HoldOwnedStep(c, s, step, w); }
    }
  }

  lemma {:induction false} OwnedAlways(c: Config, states: seq<State>, steps: seq<Step>, i: nat)
    requires IsTimelyRun(c, states, steps) && i < |states|
    ensures Owned(states[i])
  {
    if i > 0 {
      OwnedAlways(c, states, steps, i - 1);
      SafeAlways(c, states, steps, i - 1);
      assert StepsTo(c, states[i - 1], steps[i - 1], states[i]);
      OwnedStep(c, states[i - 1], steps[i - 1]);
    }
  }

  // ------------------------------------------------------ mutual exclusion

  /** A timely settle dispossesses no one. */
  lemma TimelyDispossessesNone(s: State, step: Step, v: WorkerId)
    requires Claimed(s) && Timely(s, step)
    ensures !Dispossesses(s, step, v)
  {
    if BySettle(step) && step.w in s.busy && v in s.busy && v != step.w {
      assert s.busy[v].claim != s.busy[step.w].claim;
    }
  }

  /** Two workers never hold unexpired claims on one task. */
  lemma MutualExclusion(c: Config, states: seq<State>, steps: seq<Step>, i: nat, v: WorkerId, w: WorkerId)
    requires IsTimelyRun(c, states, steps) && i < |states|
    requires v in states[i].busy && w in states[i].busy && v != w
    requires states[i].busy[v].task.id == states[i].busy[w].task.id
    ensures states[i].busy[v].deadline <= states[i].clock || states[i].busy[w].deadline <= states[i].clock
  {
    hide Dispossesses, Claimed;
    var s, id := states[i], states[i].busy[v].task.id;
    forall j, x | 0 <= j < i ensures !Dispossesses(states[j], steps[j], x) {
      ClaimedAlways(c, states, steps, j);
      TimelyDispossessesNone(states[j], steps[j], x);
    }
    ExclusionUnlessDispossessed(c, states, steps, i, id);
    assert !(HoldsUnexpired(s, v, id) && HoldsUnexpired(s, w, id));
  }

  /** A task is claimed only when every earlier claim on it has expired or is over. */
  lemma ClaimIsExclusive(c: Config, states: seq<State>, steps: seq<Step>, i: nat, v: WorkerId)
    requires IsTimelyRun(c, states, steps) && i < |steps| && steps[i].TryClaim?
    requires v in states[i].busy && states[i].busy[v].task.id == steps[i].id
    ensures states[i].busy[v].deadline <= states[i].clock
  {
    OwnedAlways(c, states, steps, i);
    assert StepsTo(c, states[i], steps[i], states[i + 1]);
    assert HoldOwned(states[i], states[i].busy[v]);
    assert RowClaimed(states[i], steps[i].id);
  }

  // ------------------------------------------------------------- lifecycle

  /** Statuses only move along the legal edges, and a terminal row never changes except by
      replay (or disappears by purge). */
  lemma Lifecycle(c: Config, states: seq<State>, steps: seq<Step>, i: nat, id: Id)
    requires IsTimelyRun(c, states, steps) && i < |steps|
    requires id in states[i].rows && id in states[i + 1].rows
    ensures LegalMove(states[i], steps[i], id, states[i].rows[id].status, states[i + 1].rows[id].status)
    ensures states[i].rows[id].status.Terminal() && steps[i] != ReplayFailed(id) ==>
              states[i + 1].rows[id] == states[i].rows[id]
  {
    LifecycleIff(c, states, steps, i, id);
    OwnedAlways(c, states, steps, i);
    assert Timely(states[i], steps[i]);
    assert RowClaimed(states[i], id);
  }

  // ---------------------------------------------------------- retry counts

  predicate Restarts(s: State, step: Step, id: Id) {
    (step.Enqueue? && step.task.id == id)
    || (step == ReplayFailed(id) && id in s.rows && s.rows[id].status == Failed)
  }

  /** How many executions of a task were settled (acked or nacked) by the first i steps of a
      run, counting from its enqueue or its last replay. */
  function Executions(states: seq<State>, steps: seq<Step>, id: Id, i: nat): nat
    requires i <= |steps| == |states| - 1
  {
    if i == 0 || Restarts(states[i - 1], steps[i - 1], id) then 0
    else
      Executions(states, steps, id, i - 1) +
      if SettlesId(states[i - 1], steps[i - 1], id) || RequeuesId(states[i - 1], steps[i - 1], id) then 1 else 0
  }

  lemma {:induction false} SettledCountsExecutions(c: Config, states: seq<State>, steps: seq<Step>, i: nat, id: Id)
    requires IsRun(c, states, steps) && i < |states|
    ensures id in states[i].settled <==> id in states[i].born
    ensures id in states[i].born ==> states[i].settled[id] == Executions(states, steps, id, i)
  {
    if i > 0 {
      SettledCountsExecutions(c, states, steps, i - 1, id);
      SafeAlways(c, states, steps, i - 1);
      assert StepsTo(c, states[i - 1], steps[i - 1], states[i]);
      SettledStep(c, states[i - 1], steps[i - 1], id);
    }
  }

  function ExecutionsAfter(s: State, step: Step, id: Id): nat {
    if Restarts(s, step, id) || id !in s.settled then 0
    else if SettlesId(s, step, id) || RequeuesId(s, step, id) then s.settled[id] + 1
    else s.settled[id]
  }

  lemma SettledStep(c: Config, s: State, step: Step, id: Id)
    requires c.Valid() && Safe(c, s) && Enabled(c, s, step)
    requires id in s.settled <==> id in s.born
    ensures id in Apply(c, s, step).born && !Restarts(s, step, id) ==> id in s.born
    ensures var s' := Apply(c, s, step);
            && (id in s'.settled <==> id in s'.born)
            && (id in s'.born ==> s'.settled[id] == ExecutionsAfter(s, step, id))
  {
    hide Decide, LeastTotal, RowSafe, HoldSafe, Decoded, Stored, Inserted, PurgeRows, PurgeResults, IsBest;
    if step.Execute? { var stage, t := ExecuteTurns(c, s, step.w, step.exec); }
    else if BySettle(step) { SettledAfterSettle(c, s, step, id); }
  }

  lemma SettledAfterSettle(c: Config, s: State, step: Step, id: Id)
    requires Safe(c, s) && Enabled(c, s, step) && BySettle(step)
    requires id in s.settled <==> id in s.born
    ensures var s' := Apply(c, s, step);
            && s'.born == s.born && (id in s'.settled <==> id in s'.born)
            && (id in s'.born ==> s'.settled[id] == ExecutionsAfter(s, step, id))
  {
    hide Decide, LeastTotal, RowSafe, HoldSafe, Settle, Requeue;
    assert HeldSafe(c, s, s.busy[step.w]);
  }

  /** The retries of an active row are exactly its failed executions, so no task completes
      more than max_retries + 1 executions between two replays. */
  lemma RetriesCountExecutions(c: Config, states: seq<State>, steps: seq<Step>, i: nat, id: Id)
    requires IsTimelyRun(c, states, steps) && i < |states| && id in states[i].rows
    ensures var r := states[i].rows[id];
            Executions(states, steps, id, i) == r.retries + (if r.status.Terminal() then 1 else 0) <= r.maxRetries + 1
  {
    SafeAlways(c, states, steps, i);
    OwnedAlways(c, states, steps, i);
    SettledCountsExecutions(c, states, steps, i, id);
    assert RowCounted(states[i], id);
  }

  // ------------------------------------------------------------------ size()

  /** What a step does to the number of active tasks. */
  function SizeChange(s: State, step: Step): int {
    match step
    case Enqueue(_) => 1
    case Settling(_) => -1
    case ReplayFailed(id) => if id in s.rows && s.rows[id].status == Failed then 1 else 0
    case _ => 0
  }

  /** Enqueues and replays less acks and dead letters, over the first i steps. */
  function Balance(states: seq<State>, steps: seq<Step>, i: nat): int
    requires i <= |steps| == |states| - 1
  {
    if i == 0 then 0 else Balance(states, steps, i - 1) + SizeChange(states[i - 1], steps[i - 1])
  }

  lemma ActiveIdsStep(c: Config, s: State, step: Step)
    requires c.Valid() && Safe(c, s) && Owned(s) && Enabled(c, s, step) && Timely(s, step)
    ensures var before, after := ActiveIds(s.rows), ActiveIds(Apply(c, s, step).rows);
            match step
            case Enqueue(t) => t.id !in before && after == before + {t.id}
            case Settling(w) => s.busy[w].task.id in before && after == before - {s.busy[w].task.id}
            case ReplayFailed(id) =>
              if id in s.rows && s.rows[id].status == Failed then id !in before && after == before + {id}
              else after == before
            case _ => after == before
  {
    if step.Execute? { ExecuteKeepsRows(c, s, step.w, step.exec); }
    else if BySettle(step) { ActiveIdsAfterSettle(c, s, step); }
    else { ActiveIdsOtherStep(c, s, step); }
  }

  lemma ActiveIdsAfterSettle(c: Config, s: State, step: Step)
    requires Safe(c, s) && Owned(s) && Enabled(c, s, step) && Timely(s, step) && BySettle(step)
    ensures var before, after, id := ActiveIds(s.rows), ActiveIds(Apply(c, s, step).rows), s.busy[step.w].task.id;
            id in before && after == if step.Settling? then before - {id} else before
  {
    hide Decide, LeastTotal;
    var h := s.busy[step.w];
    assert HeldSafe(c, s, h);
    assert HoldOwned(s, h);
    assert RowClaimed(s, h.task.id);
  }

  lemma ActiveIdsOtherStep(c: Config, s: State, step: Step)
    requires Safe(c, s) && Enabled(c, s, step) && !step.Execute? && !BySettle(step)
    ensures var before, after := ActiveIds(s.rows), ActiveIds(Apply(c, s, step).rows);
            match step
            case Enqueue(t) => t.id !in before && after == before + {t.id}
            case ReplayFailed(id) =>
              if id in s.rows && s.rows[id].status == Failed then id !in before && after == before + {id}
              else after == before
            case _ => after == before
  {
    hide Decide, LeastTotal, Stored, PurgeResults, Decoded, RowSafe, HoldSafe;
  }

  /** In timely runs size() is the number of enqueues and replays less the number of acks and
      dead letters; purge does not change it. */
  lemma {:induction false} SizeCounts(c: Config, states: seq<State>, steps: seq<Step>, i: nat)
    requires IsTimelyRun(c, states, steps) && i < |states|
    ensures |ActiveIds(states[i].rows)| == Balance(states, steps, i)
  {
    hide Apply, Enabled, Owned, Safe, Timely;
    if i == 0 {
      assert ActiveIds(states[0].rows) == {};
    } else {
      SizeCounts(c, states, steps, i - 1);
      SafeAlways(c, states, steps, i - 1);
      OwnedAlways(c, states, steps, i - 1);
      assert StepsTo(c, states[i - 1], steps[i - 1], states[i]);
      ActiveIdsStep(c, states[i - 1], steps[i - 1]);
    }
  }
}
