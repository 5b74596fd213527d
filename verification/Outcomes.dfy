/** Coherence of the two stores: a terminal row and its stored outcome tell the same story.
    In all runs, exactly which steps keep it so; in timely runs, what purge has to spare. */
module Outcomes {
  import opened Tasks
  import opened TaskTable
  import opened RetryPolicies
  import opened Protocol
  import opened AllRuns
  import opened Exclusion
  import opened Lifecycles
  import opened TimelyRuns

  /** The stored outcome has this status, error and finish time, and was stored afterwards. */
  predicate Tells(o: ResultRow, status: Status, finishedAt: Option<real>, error: Option<string>) {
    && o.status == status && o.error == error
    && o.finishedAt == finishedAt && finishedAt.Some? && finishedAt.value <= o.storedAt
  }

  /** The outcome stored for the worker's task is that of its own copy. */
  predicate Told(s: State, h: Hold) {
    && h.task.id in s.results
    && Tells(s.results[h.task.id], h.task.status, h.task.finishedAt, h.task.error)
  }

  /** If the row is terminal, its stored outcome tells the same. */
  predicate Story(s: State, id: Id) {
    id in s.rows && s.rows[id].status.Terminal() ==>
      id in s.results && Tells(s.results[id], s.rows[id].status, s.rows[id].finishedAt, s.rows[id].error)
  }

  // --------------------------------------------------------------- all runs

  /** A store of a task whose row is terminal repeats the row, and an ack or dead letter
      finds the outcome of its own copy stored. */
  predicate KeepsStory(s: State, step: Step, id: Id) {
    match step
    case Store(w) =>
      w in s.busy && s.busy[w].task.id == id && id in s.rows && s.rows[id].status.Terminal() ==>
        Repeats(s.rows[id], s.busy[w].task)
    case Settling(w) =>
      w in s.busy && s.busy[w].task.id == id && id in s.rows ==> Told(s, s.busy[w])
    case _ => true
  }

  lemma StoryStepIff(c: Config, s: State, step: Step, id: Id)
    requires c.Valid() && Safe(c, s) && Enabled(c, s, step) && Story(s, id)
    ensures Story(Apply(c, s, step), id) <==> KeepsStory(s, step, id)
  {
    if step.Execute? { var stage, t := ExecuteTurns(c, s, step.w, step.exec); }
    else if BySettle(step) { StoryAfterSettle(c, s, step, id); }
    else if step.Store? { StoryAfterStore(c, s, step, id); }
    else { StoryOtherStep(c, s, step, id); }
  }

  lemma StoryAfterSettle(c: Config, s: State, step: Step, id: Id)
    requires Safe(c, s) && Enabled(c, s, step) && BySettle(step) && Story(s, id)
    ensures Story(Apply(c, s, step), id) <==> KeepsStory(s, step, id)
  {
    hide Decide, LeastTotal;
    assert HeldSafe(c, s, s.busy[step.w]);
  }

  lemma StoryAfterStore(c: Config, s: State, step: Step, id: Id)
    requires Safe(c, s) && Enabled(c, s, step) && step.Store? && Story(s, id)
    ensures Story(Apply(c, s, step), id) <==> KeepsStory(s, step, id)
  {
    hide LeastTotal;
    assert HeldSafe(c, s, s.busy[step.w]);
  }

  lemma StoryOtherStep(c: Config, s: State, step: Step, id: Id)
    requires Safe(c, s) && Enabled(c, s, step) && Story(s, id)
    requires !step.Execute? && !BySettle(step) && !step.Store?
    ensures Story(Apply(c, s, step), id)
  {
    hide LeastTotal, Decoded, HoldSafe;
  }

  /** In all runs, late stores and settles and purges included: the row of a task and its
      outcome never disagree exactly when every store and every settle keeps the story. */
  lemma StoryIff(c: Config, states: seq<State>, steps: seq<Step>, id: Id)
    requires IsRun(c, states, steps)
    ensures (forall i :: 0 <= i < |states| ==> Story(states[i], id))
            <==> (forall k :: 0 <= k < |steps| ==> KeepsStory(states[k], steps[k], id))
  {
    hide KeepsStory, Story;
    if forall k :: 0 <= k < |steps| ==> KeepsStory(states[k], steps[k], id) {
      forall i | 0 <= i < |states| ensures Story(states[i], id) { StoryAlong(c, states, steps, i, id); }
    }
    if forall i :: 0 <= i < |states| ==> Story(states[i], id) {
      forall k | 0 <= k < |steps| ensures KeepsStory(states[k], steps[k], id) {
        SafeAlways(c, states, steps, k);
        assert StepsTo(c, states[k], steps[k], states[k + 1]);
        StoryStepIff(c, states[k], steps[k], id);
        assert Story(states[k + 1], id);
      }
    }
  }

  lemma {:induction false} StoryAlong(c: Config, states: seq<State>, steps: seq<Step>, i: nat, id: Id)
    requires IsRun(c, states, steps) && i < |states|
    requires forall k :: 0 <= k < i ==> KeepsStory(states[k], steps[k], id)
    ensures Story(states[i], id)
  {
    hide KeepsStory;
    if i > 0 {
      StoryAlong(c, states, steps, i - 1, id);
      SafeAlways(c, states, steps, i - 1);
      assert StepsTo(c, states[i - 1], steps[i - 1], states[i]);
      StoryStepIff(c, states[i - 1], steps[i - 1], id);
    }
  }

  /** A purge deletes the outcome that a worker, whether its claim is in force or not, has
      stored and not yet settled. */
  predicate Deletes(s: State, purge: Step, h: Hold)
    requires purge.PurgeOld?
  {
    && purge.shared && h.task.id in s.results
    && Purgeable(s.results[h.task.id].status, purge.includeFailed)
    && s.results[h.task.id].storedAt <= s.clock - purge.olderThan
  }

  /** In all states, for any worker between its store and its settle, timely or late: if a
      purge comes in between, the settle leaves a coherent row exactly when the row was
      purged as well, or the outcome stored is the worker's own and the purge spares it. */
  lemma PurgeThenSettleIff(c: Config, s: State, purge: Step, w: WorkerId)
    requires c.Valid() && Safe(c, s) && purge.PurgeOld? && At(s, w, Storing) && Story(s, s.busy[w].task.id)
    ensures var id, purged := s.busy[w].task.id, Apply(c, s, purge);
            && Enabled(c, purged, Settling(w))
            && (Story(Apply(c, purged, Settling(w)), id)
                <==> id !in purged.rows || (Told(s, s.busy[w]) && !Deletes(s, purge, s.busy[w])))
  {
    var purged := Apply(c, s, purge);
    SafeStep(c, s, purge);
    StoryStepIff(c, s, purge, s.busy[w].task.id);
    StoryStepIff(c, purged, Settling(w), s.busy[w].task.id);
  }

  /** Then the row is terminal without any outcome. */
  lemma DeletedOutcomeIsLost(c: Config, s: State, purge: Step, w: WorkerId)
    requires c.Valid() && Safe(c, s) && purge.PurgeOld? && At(s, w, Storing) && Deletes(s, purge, s.busy[w])
    ensures var id, purged := s.busy[w].task.id, Apply(c, s, purge);
            && Enabled(c, purged, Settling(w))
            && var after := Apply(c, purged, Settling(w));
               && id !in after.results
               && (id in purged.rows ==> id in after.rows && after.rows[id].status.Terminal())
  {
    hide Decide, LeastTotal, RowSafe;
    assert HeldSafe(c, s, s.busy[w]);
  }

  // ------------------------------------------------------------ timely runs

  /** A worker whose claim is in force and that has stored its outcome still finds it. */
  predicate HoldTold(s: State, h: Hold) { h.stage == Storing && Owns(s, h) ==> Told(s, h) }

  ghost predicate Coherent(s: State) {
    && (forall id | id in s.rows :: Story(s, id))
    && (forall w | w in s.busy :: HoldTold(s, s.busy[w]))
  }

  /** The purge deletes no outcome of a worker whose claim is in force. */
  ghost predicate PurgeSpares(s: State, step: Step)
    requires step.PurgeOld?
  {
    forall w | w in s.busy :: s.busy[w].stage == Storing && Owns(s, s.busy[w]) ==> !Deletes(s, step, s.busy[w])
  }

  /** In a coherent state a timely step keeps the story of every task. */
  lemma TimelyKeepsStory(s: State, step: Step, id: Id)
    requires Owned(s) && Coherent(s) && Timely(s, step) && (step.Settling? ==> At(s, step.w, Storing))
    ensures KeepsStory(s, step, id)
  {
    if id in s.rows { assert RowClaimed(s, id); }
    if step.Settling? { assert HoldTold(s, s.busy[step.w]); }
  }

  lemma HoldToldStep(c: Config, s: State, step: Step, w: WorkerId)
    requires Safe(c, s) && Owned(s) && Coherent(s)
    requires Enabled(c, s, step) && Timely(s, step) && !step.Execute? && !step.PurgeOld?
    requires w in Apply(c, s, step).busy
    ensures HoldTold(Apply(c, s, step), Apply(c, s, step).busy[w])
  {
    hide Decide, LeastTotal, Decoded, RowSafe, RowClaimed, RowCounted, HoldOwned, Story;
    if w in s.busy {
      assert HoldTold(s, s.busy[w]);
      if step.Store? {
        assert HeldSafe(c, s, s.busy[step.w]);
      }
    }
  }

  lemma HoldToldTurned(s: State, w: WorkerId, stage: Stage, t: TaskData)
    requires Coherent(s) && At(s, w, Executing) && (stage == Finished || stage == Retrying)
    ensures var s' := Turned(s, w, stage, t);
            forall v | v in s'.busy :: HoldTold(s', s'.busy[v])
  {
    var s' := Turned(s, w, stage, t);
    forall v | v in s'.busy ensures HoldTold(s', s'.busy[v]) { assert HoldTold(s, s.busy[v]); }
  }

  lemma CoherentStep(c: Config, s: State, step: Step)
    requires c.Valid() && Safe(c, s) && Owned(s) && Coherent(s)
    requires Enabled(c, s, step) && Timely(s, step) && !step.PurgeOld?
    ensures Coherent(Apply(c, s, step))
  {
    hide Story, KeepsStory, HoldTold;
    var s' := Apply(c, s, step);
    forall id | id in s'.rows ensures Story(s', id) {
      TimelyKeepsStory(s, step, id);
      EmptyStory(s, id);
      StoryStepIff(c, s, step, id);
    }
    if step.Execute? {
      var stage, t := ExecuteTurns(c, s, step.w, step.exec);
      HoldToldTurned(s, step.w, stage, t);
    } else {
      forall w | w in s'.busy ensures HoldTold(s', s'.busy[w]) { HoldToldStep(c, s, step, w); }
    }
  }

  lemma EmptyStory(s: State, id: Id)
    ensures id !in s.rows ==> Story(s, id)
  {}

  /** In timely runs purge's two independent deletes keep the stores coherent exactly when no
      outcome that a worker with a claim in force has yet to settle is deleted. */
  lemma PurgeKeepsCoherentIff(c: Config, s: State, step: Step)
    requires c.Valid() && Safe(c, s) && Coherent(s) && step.PurgeOld?
    ensures Coherent(Apply(c, s, step)) <==> PurgeSpares(s, step)
  {
    var s' := Apply(c, s, step);
    forall id | id in s'.rows ensures Story(s', id) { StoryStepIff(c, s, step, id); }
    forall w | w in s.busy
      ensures HoldTold(s', s.busy[w]) <==>
                (s.busy[w].stage == Storing && Owns(s, s.busy[w]) ==> !Deletes(s, step, s.busy[w]))
    {
      assert HoldTold(s, s.busy[w]);
    }
  }

  /** A timely run whose purges spare what is still to be settled. */
  ghost predicate IsSparingRun(c: Config, states: seq<State>, steps: seq<Step>) {
    && IsTimelyRun(c, states, steps)
    && forall i :: 0 <= i < |steps| && steps[i].PurgeOld? ==> PurgeSpares(states[i], steps[i])
  }

  lemma {:induction false} CoherentAlways(c: Config, states: seq<State>, steps: seq<Step>, i: nat)
    requires IsSparingRun(c, states, steps) && i < |states|
    ensures Coherent(states[i])
  {
    hide Coherent, Owned, Safe, PurgeSpares, Timely;
    if i == 0 {
      NothingYet(states[0]);
    } else {
      CoherentAlways(c, states, steps, i - 1);
      OwnedAlways(c, states, steps, i - 1);
      SafeAlways(c, states, steps, i - 1);
      var s, step := states[i - 1], steps[i - 1];
      assert StepsTo(c, s, step, states[i]);
      if step.PurgeOld? { PurgeKeepsCoherentIff(c, s, step); } else { CoherentStep(c, s, step); }
    }
  }

  lemma NothingYet(s: State)
    requires s.rows == map[] && s.busy == map[]
    ensures Coherent(s)
  {}

  /** So in such runs every terminal row has its outcome: same status, same error, same finish
      time, stored no earlier than that. */
  lemma OutcomeCoherence(c: Config, states: seq<State>, steps: seq<Step>, i: nat, id: Id)
    requires IsSparingRun(c, states, steps) && i < |states|
    requires id in states[i].rows && states[i].rows[id].status.Terminal()
    ensures id in states[i].results
    ensures var r, o := states[i].rows[id], states[i].results[id];
            Tells(o, r.status, r.finishedAt, r.error)
  {
    hide KeepsStory, Coherent;
    forall k | 0 <= k < |steps| ensures KeepsStory(states[k], steps[k], id) {
      CoherentAlways(c, states, steps, k);
      OwnedAlways(c, states, steps, k);
      assert StepsTo(c, states[k], steps[k], states[k + 1]);
      TimelyKeepsStory(states[k], steps[k], id);
    }
    StoryIff(c, states, steps, id);
    assert Story(states[i], id);
  }
}
