/** At-least-once delivery: what the invariants of all runs and bounded delivery give
    together for any reachable state of the protocol. */
module AtLeastOnce {
  import opened Tasks
  import opened TaskTable
  import opened Delivery
  import opened RetryPolicies
  import opened Protocol
  import opened AllRuns
  import A = Agreement
  import W = Draining

  /** Whatever the protocol reaches satisfies what delivery, agreement and draining assume
      of a table. */
  lemma ReachableTables(c: Config, states: seq<State>, steps: seq<Step>, i: nat)
    requires IsRun(c, states, steps) && i < |states|
    ensures A.Dated(states[i].rows) && W.InBudget(A.TableView(states[i].rows))
  {
    hide RowSafe;
    SafeAlways(c, states, steps, i);
    forall id | id in states[i].rows
      ensures states[i].rows[id].status == Running ==> states[i].rows[id].claimedUntil.Some?
      ensures 0 <= states[i].rows[id].retries <= states[i].rows[id].maxRetries
    {
      RowSafeIsDated(c, states[i].born[id], states[i].clock, states[i].rows[id]);
    }
  }

  lemma RowSafeIsDated(c: Config, b: Birth, clock: real, r: Row)
    requires RowSafe(c, b, clock, r)
    ensures r.status == Running ==> r.claimedUntil.Some?
    ensures 0 <= r.retries <= r.maxRetries
  {}

  /** A moment by which the row is available and its claim has expired. */
  function DueTime(r: Row): real {
    var available := if r.availableAt.Some? then r.availableAt.value else 0.0;
    var expired := if r.claimedUntil.Some? then r.claimedUntil.value else 0.0;
    Max(available, expired)
  }

  /** If every claim has a deadline there is a moment from which everything active is due. */
  lemma {:induction false} EventuallyDue(rows: Rows, ids: set<Id>) returns (due: real)
    requires A.Dated(rows) && ids <= rows.Keys
    ensures forall id | id in ids :: DueTime(rows[id]) <= due
    decreases ids
  {
    if ids == {} { return 0.0; }
    var x :| x in ids;
    var rest := EventuallyDue(rows, ids - {x});
    due := Max(rest, DueTime(rows[x]));
  }

  lemma DueIsAllDue(rows: Rows, due: real, now: real)
    requires A.Dated(rows) && due <= now
    requires forall id | id in rows.Keys :: DueTime(rows[id]) <= due
    ensures AllDue(rows, now)
  {
    forall id | id in rows && rows[id].Active()
      ensures rows[id].availableAt == None || rows[id].availableAt.value <= now
      ensures rows[id].status == Running ==> rows[id].Expired(now)
    {
      assert DueTime(rows[id]) <= now;
    }
  }

  /** Only an enqueue makes a task known. */
  lemma {:induction false} BornByEnqueue(c: Config, states: seq<State>, steps: seq<Step>, i: nat, id: Id)
    returns (j: nat)
    requires IsRun(c, states, steps) && i < |states| && id in states[i].born
    ensures j < i && steps[j].Enqueue? && steps[j].task.id == id
  {
    hide Enabled, Apply;
    if i > 0 {
      assert StepsTo(c, states[i - 1], steps[i - 1], states[i]);
      OnlyEnqueueBears(c, states[i - 1], steps[i - 1]);
      if id in states[i - 1].born { j := BornByEnqueue(c, states, steps, i - 1, id); } else { j := i - 1; }
    }
  }

  lemma OnlyEnqueueBears(c: Config, s: State, step: Step)
    requires Enabled(c, s, step)
    ensures Apply(c, s, step).born.Keys == s.born.Keys + if step.Enqueue? then {step.task.id} else {}
  {
    hide Decide, Decoded, Stored;
  }

  /** With a serializer that reads back what it wrote, no reachable row fails to decode. */
  lemma ReachableDecodes(c: Config, states: seq<State>, steps: seq<Step>, i: nat)
    requires IsRun(c, states, steps) && i < |states| && c.ser.Invertible()
    ensures Decodable(c.ser, states[i].rows)
  {
    hide Decoded;
    SafeAlways(c, states, steps, i);
    forall id | id in states[i].rows ensures Decoded(c.ser, id, states[i].rows[id]).Some? {
      var j := BornByEnqueue(c, states, steps, i, id);
      PayloadRoundTrip(c, states, steps, j, i);
    }
  }

  /** From the given moment on, size() consecutive dequeues can always be made, and all of
      them deliver id, exactly once. */
  ghost predicate DeliveredFrom(ser: Serializer, rows: Rows, due: real, id: Id) {
    forall now, timeout | due <= now && 0.0 < timeout ::
      CanDrain(ser, rows, now, timeout) && AllDrainsDeliver(ser, rows, now, timeout, id)
  }

  ghost predicate AllDrainsDeliver(ser: Serializer, rows: Rows, now: real, timeout: real, id: Id) {
    forall tables, ids ::
      IsDrain(ser, now, timeout, tables, ids) && tables[0] == rows && |ids| == |ActiveIds(rows)|
      ==> id in ids && forall a, b :: 0 <= a < b < |ids| ==> ids[a] != ids[b]
  }

  lemma DrainsDeliver(ser: Serializer, rows: Rows, now: real, timeout: real, id: Id)
    requires AllDue(rows, now) && 0.0 < timeout && id in ActiveIds(rows)
    ensures AllDrainsDeliver(ser, rows, now, timeout, id)
  {
    forall tables, ids | IsDrain(ser, now, timeout, tables, ids) && tables[0] == rows && |ids| == |ActiveIds(rows)|
      ensures id in ids && forall a, b :: 0 <= a < b < |ids| ==> ids[a] != ids[b]
    {
      BoundedDelivery(ser, now, timeout, tables, ids);
      assert id in SetOf(ids);
      forall a, b | 0 <= a < b < |ids| ensures ids[a] != ids[b] { DrainOrder(ser, now, timeout, tables, ids, a, b); }
    }
  }

  /** However workers crashed and settled before (purge aside), a task that was enqueued
      either is finished with a terminal outcome in the result store, or there is a moment
      from which on size() consecutive dequeues are always possible and deliver it, exactly
      once. The serializer has to read back what it wrote: CanDrainIff says what happens
      otherwise. */
  lemma EveryTaskIsDelivered(c: Config, states: seq<State>, steps: seq<Step>, j: nat, i: nat) returns (due: real)
    requires IsRun(c, states, steps) && j < i < |states| && steps[j].Enqueue? && c.ser.Invertible()
    requires forall k :: 0 <= k < |steps| ==> !steps[k].PurgeOld?
    ensures var id, s := steps[j].task.id, states[i];
            if id in ActiveIds(s.rows) then DeliveredFrom(c.ser, s.rows, due, id)
            else id in s.rows && s.rows[id].status.Terminal() && id in s.results && s.results[id].status.Terminal()
  {
    hide CanDrain, AllDrainsDeliver;
    var id, s := steps[j].task.id, states[i];
    NothingLost(c, states, steps, j, i);
    ReachableTables(c, states, steps, i);
    ReachableDecodes(c, states, steps, i);
    due := EventuallyDue(s.rows, s.rows.Keys);
    if id in ActiveIds(s.rows) {
      forall now, timeout | due <= now && 0.0 < timeout
        ensures CanDrain(c.ser, s.rows, now, timeout) && AllDrainsDeliver(c.ser, s.rows, now, timeout, id)
      {
        DueIsAllDue(s.rows, due, now);
        CanDrainIff(c.ser, s.rows, now, timeout);
        DrainsDeliver(c.ser, s.rows, now, timeout, id);
      }
    }
  }
}
