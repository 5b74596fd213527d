/** Mutual exclusion in all runs: exactly when two workers come to hold unexpired claims on
    one task. */
module Exclusion {
  import opened Tasks
  import opened TaskTable
  import opened RetryPolicies
  import opened Protocol
  import opened AllRuns

  // ------------------------------------------- claims in force, in all runs

  /** A row is RUNNING, and has a deadline, exactly while a claim on it is in force. */
  predicate RowClaimed(s: State, id: Id)
    requires id in s.rows
  {
    && (s.rows[id].status == Running <==> id in s.owner)
    && (s.rows[id].status == Running <==> s.rows[id].claimedUntil.Some?)
    && (id in s.owner ==> s.owner[id] < s.claims)
  }

  /** The claim in force has the row's deadline. */
  predicate HoldClaimed(s: State, h: Hold) {
    && h.claim < s.claims
    && (Owns(s, h) ==> h.task.id in s.rows && s.rows[h.task.id].claimedUntil == Some(h.deadline))
  }

  predicate SeparateClaims(s: State) {
    forall v, w | v in s.busy && w in s.busy && v != w :: s.busy[v].claim != s.busy[w].claim
  }

  ghost predicate Claimed(s: State) {
    && s.owner.Keys <= s.rows.Keys
    && (forall id | id in s.rows :: RowClaimed(s, id))
    && (forall w | w in s.busy :: HoldClaimed(s, s.busy[w]))
    && SeparateClaims(s)
  }

  lemma RowClaimedStep(c: Config, s: State, step: Step, id: Id)
    requires c.Valid() && Safe(c, s) && Claimed(s) && Enabled(c, s, step) && id in Apply(c, s, step).rows
    ensures RowClaimed(Apply(c, s, step), id)
  {
    if step.Execute? { var stage, t := ExecuteTurns(c, s, step.w, step.exec); assert RowClaimed(s, id); }
    else if BySettle(step) { RowClaimedAfterSettle(c, s, step, id); }
    else { RowClaimedOtherStep(c, s, step, id); }
  }

  lemma RowClaimedAfterSettle(c: Config, s: State, step: Step, id: Id)
    requires Safe(c, s) && Claimed(s) && Enabled(c, s, step) && BySettle(step) && id in s.rows
    ensures id in Apply(c, s, step).rows && RowClaimed(Apply(c, s, step), id)
  {
    hide LeastTotal, Decide;
    assert RowClaimed(s, id);
    assert HeldSafe(c, s, s.busy[step.w]);
  }

  lemma RowClaimedOtherStep(c: Config, s: State, step: Step, id: Id)
    requires Safe(c, s) && Claimed(s) && Enabled(c, s, step) && !BySettle(step) && !step.Execute?
    requires id in Apply(c, s, step).rows
    ensures RowClaimed(Apply(c, s, step), id)
  {
    hide LeastTotal, Decide, Stored, PurgeResults, Decoded, HoldSafe, RowSafe;
    if id in s.rows { assert RowClaimed(s, id); }
  }

  lemma DecodedId(ser: Serializer, id: Id, r: Row)
    ensures Decoded(ser, id, r).Some? ==> Decoded(ser, id, r).value.id == id
  {}

  lemma HoldClaimedStep(c: Config, s: State, step: Step, w: WorkerId)
    requires c.Valid() && Safe(c, s) && Claimed(s) && Enabled(c, s, step) && w in Apply(c, s, step).busy
    ensures HoldClaimed(Apply(c, s, step), Apply(c, s, step).busy[w])
  {
    if step.Execute? {
      var stage, t := ExecuteTurns(c, s, step.w, step.exec);
      assert HoldClaimed(s, s.busy[w]);
    } else if step.TryClaim? {
      HoldClaimedAfterClaim(c, s, step, w);
    } else if BySettle(step) {
      HoldClaimedAfterSettle(c, s, step, w);
    } else if step.PurgeOld? {
      HoldClaimedAfterPurge(c, s, step, w);
    } else {
      HoldClaimedOtherStep(c, s, step, w);
    }
  }

  lemma HoldClaimedAfterClaim(c: Config, s: State, step: Step, w: WorkerId)
    requires Claimed(s) && Enabled(c, s, step) && step.TryClaim? && w in Apply(c, s, step).busy
    ensures HoldClaimed(Apply(c, s, step), Apply(c, s, step).busy[w])
  {
    hide Decide, Decoded;
    DecodedId(c.ser, step.id, s.rows[step.id]);
    assert RowClaimed(s, step.id);
    if w != step.w { assert HoldClaimed(s, s.busy[w]); }
  }

  lemma HoldClaimedAfterSettle(c: Config, s: State, step: Step, w: WorkerId)
    requires Claimed(s) && Enabled(c, s, step) && BySettle(step) && w in Apply(c, s, step).busy
    ensures HoldClaimed(Apply(c, s, step), Apply(c, s, step).busy[w])
  {
    hide Decide;
    assert HoldClaimed(s, s.busy[w]);
  }

  lemma HoldClaimedAfterPurge(c: Config, s: State, step: Step, w: WorkerId)
    requires Claimed(s) && Enabled(c, s, step) && step.PurgeOld? && w in s.busy
    ensures HoldClaimed(Apply(c, s, step), s.busy[w])
  {
    hide PurgeResults;
    var id := s.busy[w].task.id;
    assert HoldClaimed(s, s.busy[w]);
    if id in s.rows { assert RowClaimed(s, id); }
  }

  lemma HoldClaimedOtherStep(c: Config, s: State, step: Step, w: WorkerId)
    requires Safe(c, s) && Claimed(s) && Enabled(c, s, step)
    requires !step.Execute? && !step.TryClaim? && !BySettle(step) && !step.PurgeOld?
    requires w in Apply(c, s, step).busy
    ensures HoldClaimed(Apply(c, s, step), Apply(c, s, step).busy[w])
  {
    hide LeastTotal, Decide, Stored, PurgeResults, PurgeRows, Decoded, Inserted, HoldSafe, RowSafe, IsBest;
    var h := s.busy[w];
    assert HoldClaimed(s, h);
    if h.task.id in s.rows { assert RowClaimed(s, h.task.id); }
  }

  lemma KeysClaimedStep(c: Config, s: State, step: Step)
    requires c.Valid() && Safe(c, s) && Claimed(s) && Enabled(c, s, step)
    ensures Apply(c, s, step).owner.Keys <= Apply(c, s, step).rows.Keys
    ensures SeparateClaims(Apply(c, s, step))
  {
    if step.Execute? {
      var stage, t := ExecuteTurns(c, s, step.w, step.exec);
    } else {
      KeysClaimedOtherStep(c, s, step);
    }
  }

  lemma KeysClaimedOtherStep(c: Config, s: State, step: Step)
    requires Claimed(s) && Enabled(c, s, step) && !step.Execute?
    ensures Apply(c, s, step).owner.Keys <= Apply(c, s, step).rows.Keys
    ensures SeparateClaims(Apply(c, s, step))
  {
    hide Decide, Stored, PurgeResults, Decoded, LeastTotal;
    forall id | id in s.owner && step.PurgeOld? ensures id in Apply(c, s, step).rows {
      assert RowClaimed(s, id);
    }
    forall w | w in s.busy ensures s.busy[w].claim < s.claims { assert HoldClaimed(s, s.busy[w]); }
  }

  lemma ClaimedStep(c: Config, s: State, step: Step)
    requires c.Valid() && Safe(c, s) && Claimed(s) && Enabled(c, s, step)
    ensures Claimed(Apply(c, s, step))
  {
    hide RowClaimed, HoldClaimed, SeparateClaims, Apply, Enabled, Safe;
    var s' := Apply(c, s, step);
    KeysClaimedStep(c, s, step);
    forall id | id in s'.rows ensures RowClaimed(s', id) { RowClaimedStep(c, s, step, id); }
    forall w | w in s'.busy ensures HoldClaimed(s', s'.busy[w]) { HoldClaimedStep(c, s, step, w); }
  }

  lemma {:induction false} ClaimedAlways(c: Config, states: seq<State>, steps: seq<Step>, i: nat)
    requires IsRun(c, states, steps) && i < |states|
    ensures Claimed(states[i])
  {
    if i > 0 {
      ClaimedAlways(c, states, steps, i - 1);
      SafeAlways(c, states, steps, i - 1);
      assert StepsTo(c, states[i - 1], steps[i - 1], states[i]);
      ClaimedStep(c, states[i - 1], steps[i - 1]);
    }
  }

  // ------------------------------------------------------ dispossession

  /** The worker is busy with the task and its claim has not expired. */
  predicate HoldsUnexpired(s: State, v: WorkerId, id: Id) {
    v in s.busy && s.busy[v].task.id == id && s.clock < s.busy[v].deadline
  }

  /** The step is an ack or a nack of a task on which another live worker holds the claim in
      force, unexpired. */
  predicate Dispossesses(s: State, step: Step, v: WorkerId) {
    && BySettle(step) && step.w in s.busy && v != step.w
    && HoldsUnexpired(s, v, s.busy[step.w].task.id) && Owns(s, s.busy[v])
  }

  /** Some earlier step dispossessed the worker that made this claim. */
  ghost predicate Dispossessed(states: seq<State>, steps: seq<Step>, claim: nat, i: nat)
    requires i <= |steps| && |states| == |steps| + 1
  {
    exists j, v :: 0 <= j < i && Dispossesses(states[j], steps[j], v) && states[j].busy[v].claim == claim
  }

  /** An unexpired claim on a task was made by this step, or it was unexpired before and is
      still in force if it was, unless the step dispossesses its holder. */
  lemma UnexpiredStep(c: Config, s: State, step: Step, v: WorkerId, id: Id)
    requires c.Valid() && Safe(c, s) && Claimed(s) && Enabled(c, s, step)
    requires HoldsUnexpired(Apply(c, s, step), v, id)
    ensures var s' := Apply(c, s, step);
            if step.TryClaim? && step.w == v then step.id == id && 0.0 < step.timeout && Owns(s', s'.busy[v])
            else
              && HoldsUnexpired(s, v, id) && s.busy[v].claim == s'.busy[v].claim
              && (Owns(s, s.busy[v]) ==> Owns(s', s'.busy[v]) || Dispossesses(s, step, v))
  {
    if step.Execute? {
      var stage, t := ExecuteTurns(c, s, step.w, step.exec);
    } else if BySettle(step) {
      UnexpiredAfterSettle(c, s, step, v, id);
    } else if step.TryClaim? {
      UnexpiredAfterClaim(c, s, step, v, id);
    } else {
      UnexpiredOtherStep(c, s, step, v, id);
    }
  }

  lemma UnexpiredAfterSettle(c: Config, s: State, step: Step, v: WorkerId, id: Id)
    requires Enabled(c, s, step) && BySettle(step) && HoldsUnexpired(Apply(c, s, step), v, id)
    ensures var s' := Apply(c, s, step);
            && HoldsUnexpired(s, v, id) && s.busy[v] == s'.busy[v]
            && (Owns(s, s.busy[v]) ==> Owns(s', s'.busy[v]) || Dispossesses(s, step, v))
  {
    hide Decide, Settle, Requeue;
  }

  lemma UnexpiredAfterClaim(c: Config, s: State, step: Step, v: WorkerId, id: Id)
    requires Claimed(s) && Enabled(c, s, step) && step.TryClaim? && HoldsUnexpired(Apply(c, s, step), v, id)
    ensures var s' := Apply(c, s, step);
            if step.w == v then step.id == id && 0.0 < step.timeout && Owns(s', s'.busy[v])
            else HoldsUnexpired(s, v, id) && s.busy[v] == s'.busy[v] && (Owns(s, s.busy[v]) ==> Owns(s', s'.busy[v]))
  {
    hide Decide, Decoded;
    DecodedId(c.ser, step.id, s.rows[step.id]);
    assert RowClaimed(s, step.id);
  }

  lemma UnexpiredOtherStep(c: Config, s: State, step: Step, v: WorkerId, id: Id)
    requires Safe(c, s) && Claimed(s) && Enabled(c, s, step)
    requires !step.Execute? && !BySettle(step) && !step.TryClaim?
    requires HoldsUnexpired(Apply(c, s, step), v, id)
    ensures var s' := Apply(c, s, step);
            && HoldsUnexpired(s, v, id) && s.busy[v].claim == s'.busy[v].claim
            && (Owns(s, s.busy[v]) ==> Owns(s', s'.busy[v]))
  {
    hide LeastTotal, Decide, Stored, PurgeResults, Decoded, Inserted, PurgeRows, RowSafe, HoldSafe;
    assert HoldClaimed(s, s.busy[v]);
    if id in s.rows { assert RowClaimed(s, id); }
  }

  /** In all runs: an unexpired claim is the claim in force, or its holder was dispossessed. */
  lemma {:induction false} OwnsOrDispossessed(c: Config, states: seq<State>, steps: seq<Step>, i: nat,
                                              v: WorkerId, id: Id)
    requires IsRun(c, states, steps) && i < |states| && HoldsUnexpired(states[i], v, id)
    ensures Owns(states[i], states[i].busy[v]) || Dispossessed(states, steps, states[i].busy[v].claim, i)
  {
    hide Enabled, Apply, Safe, Claimed, Dispossesses, Owns;
    if i > 0 {
      var s, step := states[i - 1], steps[i - 1];
      SafeAlways(c, states, steps, i - 1);
      ClaimedAlways(c, states, steps, i - 1);
      assert StepsTo(c, s, step, states[i]);
      UnexpiredStep(c, s, step, v, id);
      if !(step.TryClaim? && step.w == v) { OwnsOrDispossessed(c, states, steps, i - 1, v, id); }
    }
  }

  // --------------------------------------------------- the exact condition

  /** Two workers hold unexpired claims on the task. */
  ghost predicate Shared(s: State, id: Id) {
    exists v, w :: v != w && HoldsUnexpired(s, v, id) && HoldsUnexpired(s, w, id)
  }

  /** In all runs, however late workers store and settle: if no step so far dispossessed a
      worker busy with the task, no two workers hold unexpired claims on it. */
  lemma ExclusionUnlessDispossessed(c: Config, states: seq<State>, steps: seq<Step>, i: nat, id: Id)
    requires IsRun(c, states, steps) && i < |states|
    requires forall v :: HoldsUnexpired(states[i], v, id) ==>
                           !Dispossessed(states, steps, states[i].busy[v].claim, i)
    ensures !Shared(states[i], id)
  {
    hide Claimed, Dispossessed;
    if Shared(states[i], id) {
      var v, w :| v != w && HoldsUnexpired(states[i], v, id) && HoldsUnexpired(states[i], w, id);
      OwnsOrDispossessed(c, states, steps, i, v, id);
      OwnsOrDispossessed(c, states, steps, i, w, id);
      ClaimedAlways(c, states, steps, i);
      OneOwner(states[i], v, w, id);
    }
  }

  lemma OneOwner(s: State, v: WorkerId, w: WorkerId, id: Id)
    requires Claimed(s) && HoldsUnexpired(s, v, id) && HoldsUnexpired(s, w, id)
    ensures Owns(s, s.busy[v]) && Owns(s, s.busy[w]) ==> v == w
  {
    assert v != w ==> s.busy[v].claim != s.busy[w].claim;
  }

  /** A worker was dispossessed of this task, is still busy with it, and its claim has not
      expired. */
  ghost predicate VictimAtWork(states: seq<State>, steps: seq<Step>, i: nat, v: WorkerId, id: Id)
    requires i < |states| == |steps| + 1
  {
    HoldsUnexpired(states[i], v, id) && Dispossessed(states, steps, states[i].busy[v].claim, i)
  }

  /** A claim, of whatever origin and after whatever delay, shares the task with another
      unexpired claim exactly when a victim is still at work on it. */
  lemma ClaimSharesIff(c: Config, states: seq<State>, steps: seq<Step>, i: nat, id: Id)
    requires IsRun(c, states, steps) && i < |steps|
    requires steps[i].TryClaim? && steps[i].id == id && 0.0 < steps[i].timeout
    ensures Shared(states[i + 1], id) <==> exists v :: VictimAtWork(states, steps, i, v, id)
  {
    hide Claimed, Safe, Dispossessed, Enabled, Apply;
    var s, s', u := states[i], states[i + 1], steps[i].w;
    assert StepsTo(c, s, steps[i], s');
    SafeAlways(c, states, steps, i);
    ClaimedAlways(c, states, steps, i);
    ClaimAdds(c, s, steps[i]);
    if Shared(s', id) {
      var v, w :| v != w && HoldsUnexpired(s', v, id) && HoldsUnexpired(s', w, id);
      var x := if v == u then w else v;
      assert HoldsUnexpired(s, x, id);
      OwnsOrDispossessed(c, states, steps, i, x, id);
      assert VictimAtWork(states, steps, i, x, id);
    }
    if v :| VictimAtWork(states, steps, i, v, id) {
      assert HoldsUnexpired(s', v, id) && HoldsUnexpired(s', u, id);
    }
  }

  /** What a claim does to the holders of the task; before it no claim was in force. */
  lemma ClaimAdds(c: Config, s: State, step: Step)
    requires Claimed(s) && Enabled(c, s, step) && step.TryClaim? && 0.0 < step.timeout
    ensures step.w !in s.busy && HoldsUnexpired(Apply(c, s, step), step.w, step.id)
    ensures forall v :: v != step.w ==>
              (HoldsUnexpired(s, v, step.id) <==> HoldsUnexpired(Apply(c, s, step), v, step.id))
    ensures forall v :: HoldsUnexpired(s, v, step.id) ==> !Owns(s, s.busy[v])
  {
    hide Decoded, Decide;
    DecodedId(c.ser, step.id, s.rows[step.id]);
    assert RowClaimed(s, step.id);
  }

  /** Step k claims the task while a victim is at work on it. */
  ghost predicate SharingClaim(states: seq<State>, steps: seq<Step>, k: nat, id: Id)
    requires k < |steps| && |states| == |steps| + 1
  {
    && steps[k].TryClaim? && steps[k].id == id && 0.0 < steps[k].timeout
    && exists v :: VictimAtWork(states, steps, k, v, id)
  }

  lemma {:induction false} SharedComesFromClaim(c: Config, states: seq<State>, steps: seq<Step>, i: nat, id: Id)
    returns (k: nat)
    requires IsRun(c, states, steps) && i < |states| && Shared(states[i], id)
    ensures k < i && SharingClaim(states, steps, k, id)
  {
    hide Claimed, Safe, Enabled, Apply, VictimAtWork, Dispossesses, Owns;
    var v, w :| v != w && HoldsUnexpired(states[i], v, id) && HoldsUnexpired(states[i], w, id);
    if i > 0 {
      var s, step := states[i - 1], steps[i - 1];
      assert StepsTo(c, s, step, states[i]);
      SafeAlways(c, states, steps, i - 1);
      ClaimedAlways(c, states, steps, i - 1);
      UnexpiredStep(c, s, step, v, id);
      UnexpiredStep(c, s, step, w, id);
      if Shared(s, id) {
        k := SharedComesFromClaim(c, states, steps, i - 1, id);
      } else {
        ClaimSharesIff(c, states, steps, i - 1, id);
        k := i - 1;
      }
    }
  }

  /** Mutual exclusion on a task fails in a run exactly when the run has a claim of it while a
      worker that was dispossessed of it, by whatever settle, is still at work on it. */
  lemma ExclusionFailsIff(c: Config, states: seq<State>, steps: seq<Step>, id: Id)
    requires IsRun(c, states, steps)
    ensures (exists i :: 0 <= i < |states| && Shared(states[i], id))
            <==> (exists k :: 0 <= k < |steps| && SharingClaim(states, steps, k, id))
  {
    hide Shared, VictimAtWork;
    if i :| 0 <= i < |states| && Shared(states[i], id) {
      var k := SharedComesFromClaim(c, states, steps, i, id);
    }
    if k :| 0 <= k < |steps| && SharingClaim(states, steps, k, id) {
      ClaimSharesIff(c, states, steps, k, id);
    }
  }
}
