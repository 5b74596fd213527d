/** The claim protocol of any number of workers over one tasks table and one task_results
    table (queue/sqlite.py, results.py, worker.py, cli.py). Every transaction is one atomic
    step; workers may crash between any two steps, and a worker whose claim has expired
    may still store, ack or nack. */
module Protocol {
  import opened Tasks
  import opened TaskTable
  import opened Products
  import opened RetryPolicies

  type WorkerId = nat

  /** One retry policy and one serializer shared by all workers. */
  datatype Config = Config(policy: Policy, ser: Serializer) {
    predicate Valid() { policy.Valid() }
  }

  // ---------------------------------------------- what a worker decides to do

  /** What running a task's function came to. */
  datatype Execution =
    | Returned(value: Value)
    | Raised(message: string, draws: seq<real>)
    | NotRegistered(message: string)

  /** What the worker does next: store and settle a finished copy, put a copy back for a
      retry, or raise out of run_once because the policy raised. */
  datatype Verdict = Finish(task: TaskData) | Retry(task: TaskData) | PolicyError

  predicate Possible(policy: Policy, exec: Execution) {
    exec.Raised? ==> Draws(policy, exec.draws)
  }

  function Decide(policy: Policy, t: TaskData, exec: Execution, now: real): Verdict
    requires Possible(policy, exec)
  {
    match exec
    case Returned(value) => Finish(t.AsSuccess(value, now))
    case NotRegistered(message) => Finish(t.AsFailed(message, now))
    case Raised(message, draws) =>
      if t.retries < t.maxRetries then
        match NextDelay(policy, t.retries + 1, draws)
        case After(delay) => Retry(t.AsRetry(now + delay))
        case Declined => Finish(t.AsFailed(message, now))
        case ValueError => PolicyError
      else Finish(t.AsFailed(message, now))
  }

  /** The verdict, field by field. A task whose function raised is retried exactly when it has
      retries left and the policy returns a delay, and then after that very delay. */
  lemma DecideIff(policy: Policy, t: TaskData, exec: Execution, now: real)
    requires Possible(policy, exec)
    ensures exec.Returned? ==>
              Decide(policy, t, exec, now) ==
              Finish(t.(status := Success, result := exec.value, finishedAt := Some(now)))
    ensures exec.NotRegistered? ==>
              Decide(policy, t, exec, now) ==
              Finish(t.(status := Failed, error := Some(exec.message), finishedAt := Some(now)))
    ensures exec.Raised? ==>
              var d, v := NextDelay(policy, t.retries + 1, exec.draws), Decide(policy, t, exec, now);
              && (v.Retry? <==> t.retries < t.maxRetries && d.After?)
              && (v.Retry? ==> v == Retry(t.(retries := t.retries + 1, availableAt := Some(now + d.seconds))))
              && (v.PolicyError? <==> t.retries < t.maxRetries && d.ValueError?)
              && (v.Finish? ==> v == Finish(t.(status := Failed, error := Some(exec.message), finishedAt := Some(now))))
  {
    hide NextDelay;
  }

  // ------------------------------------------------------- states and steps

  /** Where a worker is between its dequeue and its settle. */
  datatype Stage = Executing | Finished | Storing | Retrying

  /** A worker's private copy of the task it claimed, with the claim's number and deadline. */
  datatype Hold = Hold(stage: Stage, task: TaskData, claim: nat, deadline: real)

  /** How a task was enqueued. */
  datatype Birth = Birth(at: real, availableAt: Option<real>, maxRetries: int)

  /** busy holds the workers that are not idle. The last four fields are history: how each
      task was enqueued, how many claims were made, which claim on a task is the latest one
      neither reclaimed nor settled, and how many executions of a task were settled since
      it was enqueued or last replayed. */
  datatype State = State(
    rows: Rows,
    results: Results,
    clock: real,
    busy: map<WorkerId, Hold>,
    born: map<Id, Birth>,
    claims: nat,
    owner: map<Id, nat>,
    settled: map<Id, nat>)

  datatype Step =
    | Enqueue(task: TaskData)
    | TryClaim(w: WorkerId, id: Id, timeout: real)
    | ReclaimExpired
    | Execute(w: WorkerId, exec: Execution)
    | Store(w: WorkerId)
    | Settling(w: WorkerId)
    | Requeueing(w: WorkerId)
    | Crash(w: WorkerId)
    | Tick(elapsed: real)
    | ReplayFailed(id: Id)
    | PurgeOld(olderThan: real, includeFailed: bool, shared: bool)

  function Init(clock: real): State {
    State(map[], map[], clock, map[], map[], 0, map[], map[])
  }

  predicate At(s: State, w: WorkerId, stage: Stage) {
    w in s.busy && s.busy[w].stage == stage
  }

  /** The worker's claim is the latest one on its task and is still in force. */
  predicate Owns(s: State, h: Hold) {
    h.task.id in s.owner && s.owner[h.task.id] == h.claim
  }

  predicate Enabled(c: Config, s: State, step: Step) {
    match step
    case Enqueue(t) =>
      && t.id !in s.born && t.status == Pending && t.retries == 0 && 0 <= t.maxRetries
      && c.ser.serialize(t.args).Some? && c.ser.serialize(t.kwargs).Some?
    case TryClaim(w, id, _) =>
      && w !in s.busy && IsBest(s.rows, s.clock, id) && Decoded(c.ser, id, s.rows[id]).Some?
    case Execute(w, exec) => At(s, w, Executing) && Possible(c.policy, exec)
    case Store(w) => At(s, w, Finished) && Stored(c.ser, s.busy[w].task, s.clock).Some?
    case Settling(w) => At(s, w, Storing)
    case Requeueing(w) => At(s, w, Retrying)
    case Crash(w) => w in s.busy
    case Tick(elapsed) => 0.0 <= elapsed
    case ReclaimExpired => true
    case ReplayFailed(_) => true
    case PurgeOld(_, _, _) => true
  }

  function Apply(c: Config, s: State, step: Step): State
    requires Enabled(c, s, step)
  {
    match step
    case Enqueue(t) =>
      var row := Inserted(t, c.ser.serialize(t.args).value, c.ser.serialize(t.kwargs).value);
      s.(rows := s.rows[t.id := row],
         born := s.born[t.id := Birth(s.clock, t.availableAt, t.maxRetries)],
         settled := s.settled[t.id := 0])
    case TryClaim(w, id, timeout) =>
      var copy := Decoded(c.ser, id, s.rows[id]).value.AsRunning(s.clock);
      s.(rows := Claim(s.rows, id, s.clock, timeout),
         busy := s.busy[w := Hold(Executing, copy, s.claims, s.clock + timeout)],
         claims := s.claims + 1,
         owner := s.owner[id := s.claims])
    case ReclaimExpired =>
      s.(rows := Reclaim(s.rows, s.clock),
         owner := map id | id in s.owner && !(id in s.rows && s.rows[id].Expired(s.clock)) :: s.owner[id])
    case Execute(w, exec) =>
      (match Decide(c.policy, s.busy[w].task, exec, s.clock)
       case Finish(t) => Turned(s, w, Finished, t)
       case Retry(t) => Turned(s, w, Retrying, t)
       case PolicyError => s.(busy := s.busy - {w}))
    case Store(w) =>
      var h := s.busy[w];
      s.(results := s.results[h.task.id := Stored(c.ser, h.task, s.clock).value],
         busy := s.busy[w := h.(stage := Storing)])
    case Settling(w) =>
      var t := s.busy[w].task;
      Settled(s, w).(rows := Settle(s.rows, t))
    case Requeueing(w) =>
      var t := s.busy[w].task;
      Settled(s, w).(rows := Requeue(s.rows, t))
    case Crash(w) => s.(busy := s.busy - {w})
    case Tick(elapsed) => s.(clock := s.clock + elapsed)
    case ReplayFailed(id) =>
      if id in s.rows && s.rows[id].status == Failed then
        s.(rows := Replay(s.rows, id), settled := s.settled[id := 0])
      else s
    case PurgeOld(olderThan, includeFailed, shared) =>
      var cutoff := s.clock - olderThan;
      s.(rows := PurgeRows(s.rows, cutoff, includeFailed),
         results := if shared then PurgeResults(s.results, cutoff, includeFailed) else s.results)
  }

  /** The worker's copy and stage change, nothing else. */
  function Turned(s: State, w: WorkerId, stage: Stage, t: TaskData): State
    requires w in s.busy
  {
    s.(busy := s.busy[w := s.busy[w].(stage := stage, task := t)])
  }

  /** The history side of a settle: the worker is idle again and its claim is over. */
  function Settled(s: State, w: WorkerId): State
    requires w in s.busy
  {
    var id := s.busy[w].task.id;
    s.(busy := s.busy - {w},
       owner := s.owner - {id},
       settled := s.settled[id := if id in s.settled then s.settled[id] + 1 else 1])
  }

  // ---------------------------------------------------------------- runs

  /** steps[i] takes states[i] to states[i + 1]. */
  ghost predicate IsPath(c: Config, states: seq<State>, steps: seq<Step>) {
    && |states| == |steps| + 1
    && forall i :: 0 <= i < |steps| ==> StepsTo(c, states[i], steps[i], states[i + 1])
  }

  /** A path from the empty tables. */
  ghost predicate IsRun(c: Config, states: seq<State>, steps: seq<Step>) {
    c.Valid() && IsPath(c, states, steps) && states[0] == Init(states[0].clock)
  }

  function Last(states: seq<State>): State
    requires |states| > 0
  {
    states[|states| - 1]
  }

  /** A path goes on with any step that is enabled where it ends. */
  lemma Extend(c: Config, states: seq<State>, steps: seq<Step>, step: Step)
    returns (states': seq<State>, steps': seq<Step>)
    requires IsPath(c, states, steps) && Enabled(c, Last(states), step)
    ensures IsPath(c, states', steps')
    ensures states' == states + [Apply(c, Last(states), step)] && steps' == steps + [step]
  {
    hide Enabled, Apply;
    states', steps' := states + [Apply(c, Last(states), step)], steps + [step];
    forall i | 0 <= i < |steps'| ensures StepsTo(c, states'[i], steps'[i], states'[i + 1]) {
      if i < |steps| { assert StepsTo(c, states[i], steps[i], states[i + 1]); }
    }
  }

  ghost predicate StepsTo(c: Config, s: State, step: Step, s': State) {
    Enabled(c, s, step) && s' == Apply(c, s, step)
  }

  // --------------------------------------------- invariants of all runs

  /** retries never passes max_retries, which never changes. */
  predicate WithinBudget(b: Birth, retries: int, maxRetries: int) {
    0 <= retries <= maxRetries == b.maxRetries
  }

  /** at is no earlier than the enqueue plus the least delay of every retry so far. */
  predicate BackedOff(c: Config, b: Birth, retries: int, at: real) {
    b.at + LeastTotal(c.policy, retries) <= at
  }

  /** The time the task was scheduled for at its enqueue has come. */
  predicate Due(b: Birth, clock: real) {
    b.availableAt.Some? ==> b.availableAt.value <= clock
  }

  predicate RowSafe(c: Config, b: Birth, clock: real, r: Row) {
    && b.at <= clock
    && WithinBudget(b, r.retries, r.maxRetries)
    && (r.retries > 0 ==> r.availableAt.Some? && BackedOff(c, b, r.retries, r.availableAt.value))
    && (Due(b, clock) || (r.status == Pending && r.availableAt == b.availableAt))
    && (r.status == Running ==> r.claimedUntil.Some?)
    && (r.status.Terminal() ==> r.finishedAt.Some? && r.finishedAt.value <= clock)
  }

  predicate HoldSafe(c: Config, b: Birth, clock: real, h: Hold) {
    var t := h.task;
    && b.at <= clock
    && WithinBudget(b, t.retries, t.maxRetries)
    && Due(b, clock)
    && match h.stage
       case Executing => BackedOff(c, b, t.retries, clock)
       case Retrying => t.availableAt.Some? && BackedOff(c, b, t.retries, t.availableAt.value)
       case _ => t.status.Terminal() && t.finishedAt.Some? && t.finishedAt.value <= clock
  }

  ghost predicate Safe(c: Config, s: State) {
    && (forall id | id in s.rows :: id in s.born && RowSafe(c, s.born[id], s.clock, s.rows[id]))
    && (forall w | w in s.busy :: HeldSafe(c, s, s.busy[w]))
  }

  predicate HeldSafe(c: Config, s: State, h: Hold) {
    h.task.id in s.born && HoldSafe(c, s.born[h.task.id], s.clock, h)
  }

  /** The verdict on a safe copy is safe, and the policy never raises on it. */
  lemma DecideIsSafe(c: Config, b: Birth, t: TaskData, exec: Execution, now: real)
    requires c.Valid() && Possible(c.policy, exec)
    requires WithinBudget(b, t.retries, t.maxRetries) && BackedOff(c, b, t.retries, now)
    ensures match Decide(c.policy, t, exec, now)
            case Finish(u) => u.id == t.id && u.retries == t.retries && u.maxRetries == t.maxRetries
                              && u.status.Terminal() && u.finishedAt == Some(now)
            case Retry(u) => u.id == t.id && u.retries == t.retries + 1 && u.maxRetries == t.maxRetries
                             && WithinBudget(b, u.retries, u.maxRetries) && u.availableAt.Some?
                             && BackedOff(c, b, u.retries, u.availableAt.value)
            case PolicyError => false
  {
    hide Times;
    if exec.Raised? && t.retries < t.maxRetries {
      var k := t.retries + 1;
      JitterComposition(c.policy, k, exec.draws);
      if NextDelay(c.policy, k, exec.draws).After? {
        DelayAtLeastLeast(c.policy, k, exec.draws);
        assert LeastTotal(c.policy, k) == LeastTotal(c.policy, t.retries) + LeastDelay(c.policy, k);
      }
    }
  }

  /** What executing a safe copy does: the worker's copy turns Finished or Retrying and
      stays safe; nothing else changes. */
  lemma ExecuteTurns(c: Config, s: State, w: WorkerId, exec: Execution) returns (stage: Stage, t: TaskData)
    requires c.Valid() && Safe(c, s) && Enabled(c, s, Execute(w, exec))
    ensures Apply(c, s, Execute(w, exec)) == Turned(s, w, stage, t)
    ensures stage == Finished || stage == Retrying
    ensures HeldSafe(c, s, s.busy[w].(stage := stage, task := t))
    ensures t.id == s.busy[w].task.id
    ensures t.retries == s.busy[w].task.retries + (if stage == Retrying then 1 else 0)
  {
    var h := s.busy[w];
    assert HeldSafe(c, s, h);
    DecideIsSafe(c, s.born[h.task.id], h.task, exec, s.clock);
    var v := Decide(c.policy, h.task, exec, s.clock);
    stage := if v.Retry? then Retrying else Finished;
    t := v.task;
  }

  predicate BySettle(step: Step) { step.Settling? || step.Requeueing? }

  lemma RowSafeAfterSettle(c: Config, s: State, step: Step, id: Id)
    requires c.Valid() && Safe(c, s) && Enabled(c, s, step) && BySettle(step) && id in s.rows
    ensures var s' := Apply(c, s, step);
            s'.rows.Keys == s.rows.Keys && RowSafe(c, s.born[id], s.clock, s'.rows[id])
  {
    hide LeastTotal;
    assert HeldSafe(c, s, s.busy[step.w]);
  }

  lemma RowSafeStep(c: Config, s: State, step: Step, id: Id)
    requires c.Valid() && Safe(c, s) && Enabled(c, s, step) && !step.Execute? && !BySettle(step)
    requires id in Apply(c, s, step).rows
    ensures var s' := Apply(c, s, step);
            id in s'.born && RowSafe(c, s'.born[id], s'.clock, s'.rows[id])
  {
    hide Decide, LeastTotal;
    LeastTotalZero(c.policy);
  }

  lemma LeastTotalZero(p: Policy)
    ensures LeastTotal(p, 0) == 0.0
  {}

  lemma HoldSafeStep(c: Config, s: State, step: Step, w: WorkerId)
    requires c.Valid() && Safe(c, s) && Enabled(c, s, step) && !step.Execute?
    requires w in Apply(c, s, step).busy
    ensures var s' := Apply(c, s, step);
            HeldSafe(c, s', s'.busy[w])
  {
    hide Decide, LeastTotal;
    LeastTotalZero(c.policy);
    if w in s.busy { assert HeldSafe(c, s, s.busy[w]); }
  }

  /** Every step of every run keeps all of the above, whoever settles and whenever. */
  lemma SafeStep(c: Config, s: State, step: Step)
    requires c.Valid() && Safe(c, s) && Enabled(c, s, step)
    ensures Safe(c, Apply(c, s, step))
  {
    var s' := Apply(c, s, step);
    if step.Execute? {
      var stage, t := ExecuteTurns(c, s, step.w, step.exec);
    } else {
      forall id | id in s'.rows
        ensures id in s'.born && RowSafe(c, s'.born[id], s'.clock, s'.rows[id])
      {
        if BySettle(step) { RowSafeAfterSettle(c, s, step, id); } else { RowSafeStep(c, s, step, id); }
      }
      forall w | w in s'.busy ensures HeldSafe(c, s', s'.busy[w]) {
        HoldSafeStep(c, s, step, w);
      }
    }
  }
}
