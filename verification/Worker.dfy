/** The worker (worker.py) over the persistent queue and result backend, and the proof that
    each run_once is a path of the claim protocol, whatever faults it meets. */
module Workers {
  import opened Tasks
  import opened TaskTable
  import opened RetryPolicies
  import opened Protocol
  import opened SqliteQueue
  import Q = SqliteQueue
  import RB = Results

  /** Everything run_once depends on besides the two tables: the rounds of its dequeue; what
      other workers do to the tables while the function runs (meanwhile) and between the store
      and the settle (settling); when the function ends, what running it comes to, and where
      store and settle meet a lock. */
  datatype Env = Env(
    deadline: Option<real>,
    polls: seq<Poll>,
    meanwhile: Rows -> Rows,
    meanwhileResults: Results -> Results,
    doneAt: real,
    exec: Execution,
    store: Fault,
    settling: Rows -> Rows,
    settlingResults: Results -> Results,
    settle: Fault)
  {
    /** dequeue stops polling at its deadline. */
    predicate Valid() { |polls| > 0 && (deadline == None || deadline.value <= polls[|polls| - 1].now) }

    /** No other worker changes the tables. */
    ghost predicate Alone() {
      && Q.Alone(polls)
      && (forall rows :: meanwhile(rows) == settling(rows) == rows)
      && (forall results :: meanwhileResults(results) == settlingResults(results) == results)
    }
  }

  /** run_once returns False, returns True, or raises before or after it has claimed. */
  datatype Ran = Idle | Worked | RaisedBefore | RaisedAfter

  /** What run_once does with the copy t of a task it claimed, from tables (rows, results):
      store the outcome and only then settle; or put the task back; or raise, leaving the
      claim to expire. */
  predicate Handles(c: Config, t: TaskData, env: Env, rows: Rows, results: Results,
                    ran: Ran, rows': Rows, results': Results)
    requires Possible(c.policy, env.exec)
  {
    match Decide(c.policy, t, env.exec, env.doneAt)
    case Finish(u) =>
      var stored := Stored(c.ser, u, env.doneAt);
      if stored == None || env.store != NoFault then
        ran == RaisedAfter && rows' == rows && results' == results
      else
        && results' == env.settlingResults(results[u.id := stored.value])
        && if env.settle != NoFault then ran == RaisedAfter && rows' == env.settling(rows)
           else ran == Worked && rows' == Settle(env.settling(rows), u)
    case Retry(u) =>
      && results' == results
      && if env.settle != NoFault then ran == RaisedAfter && rows' == rows
         else ran == Worked && rows' == Requeue(rows, u)
    case PolicyError =>
      ran == RaisedAfter && rows' == rows && results' == results
  }

  /** What a whole run_once does from tables (rows, results): n rounds of dequeue, of which
      all but the last come to nothing, and then what Handles says if the last one claimed.
      t is the copy claimed, and claimed the tasks table right after the claim. */
  ghost predicate RunsOnce(c: Config, timeout: real, env: Env, n: nat, rows: Rows, results: Results,
                           ran: Ran, t: Option<TaskData>, claimed: Rows, rows': Rows, results': Results)
    requires Possible(c.policy, env.exec)
  {
    && 0 < n <= |env.polls|
    && (n > 1 ==> env.deadline.Some? && forall k :: 0 <= k < n - 1 ==> env.polls[k].now < env.deadline.value)
    && AllIdle(rows, env.polls, n - 1)
    && var met, p := Met(rows, env.polls, n - 1), env.polls[n - 1];
       match ran
       case Idle =>
         && t == None && RoundIdles(met, p) && (env.deadline == None || env.deadline.value <= p.now)
         && rows' == Swept(met, p) && results' == results
       case RaisedBefore =>
         t == None && (exists error :: RoundRaises(c.ser, met, p, error, rows')) && results' == results
       case _ =>
         && t.Some? && RoundClaims(c.ser, met, p, timeout, t.value, claimed)
         && Handles(c, t.value, env, env.meanwhile(claimed), env.meanwhileResults(results), ran, rows', results')
  }

  class Worker {
    const queue: SQLiteQueue
    const results: RB.SQLiteResultBackend
    const policy: Policy
    const timeout: real

    constructor (queue: SQLiteQueue, results: RB.SQLiteResultBackend, policy: Policy, timeout: real)
      ensures this.queue == queue && this.results == results
      ensures this.policy == policy && this.timeout == timeout
    {
      this.queue, this.results, this.policy, this.timeout := queue, results, policy, timeout;
    }

    /** No transaction is open, and queue and backend share a serializer but no connection. */
    ghost predicate Valid()
      reads queue.conn, results.conn
    {
      && queue.Valid() && results.Valid() && queue.ser == results.ser
      && (queue.conn as object) != results.conn
    }

    function Setup(): Config { Config(policy, queue.ser) }

    /** One run_once: dequeue, look up and run the function, store, settle. */
    method RunOnce(env: Env) returns (ran: Ran, ghost n: nat, ghost t: Option<TaskData>, ghost claimed: Rows)
      requires Valid() && env.Valid() && Possible(policy, env.exec)
      modifies queue.conn, results.conn
      ensures Valid()
      ensures RunsOnce(Setup(), timeout, env, n, old(queue.Table()), old(results.Table()),
                       ran, t, claimed, queue.Table(), results.Table())
      ensures t.Some? && NoFault == env.store == env.settle && policy.Valid() && 0 <= t.value.retries
              && (env.exec.Returned? ==> queue.ser.serialize(env.exec.value).Some?) ==>
                && ran == Worked
                && (t.value.id in queue.Table() ==>
                      var row := queue.Table()[t.value.id];
                      && row.claimedUntil == None
                      && match env.exec
                         case Returned(_) => row.status == Success && row.finishedAt == Some(env.doneAt)
                         case NotRegistered(message) => row.status == Failed && row.error == Some(message)
                         case Raised(message, draws) =>
                           var d := NextDelay(policy, t.value.retries + 1, draws);
                           if t.value.retries < t.value.maxRetries && d.After? then
                             && row.status == Pending && row.retries == t.value.retries + 1
                             && row.availableAt == Some(env.doneAt + d.seconds)
                           else row.status == Failed && row.error == Some(message))
    {
      hide AllIdle, RoundIdles, RoundRaises, RoundClaims, Met, Swept, Decide, Stored, Settle, Requeue;
      var got;
      t := None;
      got, n := queue.Dequeue(timeout, env.deadline, env.polls);
      claimed := queue.Table();
      if got.Err? {
        assert RoundRaises(queue.ser, Met(old(queue.Table()), env.polls, n - 1), env.polls[n - 1], got.error, claimed);
        return RaisedBefore, n, t, claimed;
      }
      if got.value == None { return Idle, n, t, claimed; }
      var task := got.value.value;
      t := Some(task.Data());
      queue.conn.table := env.meanwhile(queue.conn.table);
      results.conn.table := env.meanwhileResults(results.conn.table);
      ran := Process(task, env);
      HandlesMeans(Setup(), t.value, env, env.meanwhile(claimed), env.meanwhileResults(old(results.Table())),
                   ran, queue.Table(), results.Table());
    }

    /** What run_once does with a task it claimed. */
    method Process(task: Task, env: Env) returns (ran: Ran)
      requires Valid() && Possible(policy, env.exec)
      modifies task, queue.conn, results.conn
      ensures Valid() && (ran == Worked || ran == RaisedAfter)
      ensures Handles(Setup(), old(task.Data()), env, old(queue.Table()), old(results.Table()),
                      ran, queue.Table(), results.Table())
    {
      match env.exec {
        case NotRegistered(message) =>
          ran := DeadLetter(task, message, env);
        case Raised(message, draws) =>
          ran := HandleFailure(task, message, draws, env);
        case Returned(value) =>
          task.MarkSuccess(value, env.doneAt);
          var stored := results.Store(task, env.doneAt, env.store);
          if stored.Err? { return RaisedAfter; }
          Interlude(env);
          var acked := queue.Ack(task, env.settle);
          ran := if acked.Ok? then Worked else RaisedAfter;
      }
    }

    /** Schedules a retry after the policy's delay if retries are left and the policy returns
        one; dead-letters the task otherwise. */
    method HandleFailure(task: Task, message: string, draws: seq<real>, env: Env) returns (ran: Ran)
      requires Valid() && Draws(policy, draws)
      requires env.exec == Raised(message, draws)
      modifies task, queue.conn, results.conn
      ensures Valid() && (ran == Worked || ran == RaisedAfter)
      ensures Handles(Setup(), old(task.Data()), env, old(queue.Table()), old(results.Table()),
                      ran, queue.Table(), results.Table())
      ensures var d := NextDelay(policy, old(task.retries) + 1, draws);
              && (old(task.retries) < task.maxRetries && d.After? ==>
                    && task.retries == old(task.retries) + 1 && task.availableAt == Some(env.doneAt + d.seconds)
                    && task.status == old(task.status) && results.Table() == old(results.Table())
                    && (ran == Worked <==> env.settle == NoFault)
                    && (ran == Worked && task.id in queue.Table() ==>
                          && queue.Table()[task.id].status == Pending
                          && queue.Table()[task.id].retries == task.retries
                          && queue.Table()[task.id].availableAt == task.availableAt))
              && (old(task.retries) >= task.maxRetries || d == Declined ==>
                    && task.retries == old(task.retries) && task.status == Failed && task.error == Some(message)
                    && task.finishedAt == Some(env.doneAt))
    {
      if task.retries < task.maxRetries {
        var delay := NextDelay(policy, task.retries + 1, draws);
        if delay.ValueError? { return RaisedAfter; }
        if delay.After? {
          task.retries := task.retries + 1;
          task.availableAt := Some(env.doneAt + delay.seconds);
          var nacked := queue.Nack(task, true, env.settle);
          return if nacked.Ok? then Worked else RaisedAfter;
        }
      }
      ran := DeadLetter(task, message, env);
    }

    /** Marks the task failed, stores that, and only then takes it out of the queue. */
    method DeadLetter(task: Task, message: string, env: Env) returns (ran: Ran)
      requires Valid()
      modifies task, queue.conn, results.conn
      ensures Valid() && (ran == Worked || ran == RaisedAfter)
      ensures task.Data() == old(task.Data()).AsFailed(message, env.doneAt)
      ensures task.status == Failed && task.error == Some(message) && task.finishedAt == Some(env.doneAt)
      ensures var t := old(task.Data()).AsFailed(message, env.doneAt);
              var stored := Stored(queue.ser, t, env.doneAt);
              if stored == None || env.store != NoFault then
                ran == RaisedAfter && queue.Table() == old(queue.Table()) && results.Table() == old(results.Table())
              else
                && results.Table() == env.settlingResults(old(results.Table())[t.id := stored.value])
                && if env.settle != NoFault then ran == RaisedAfter && queue.Table() == env.settling(old(queue.Table()))
                   else ran == Worked && queue.Table() == Settle(env.settling(old(queue.Table())), t)
    {
      task.MarkFailed(message, env.doneAt);
      var stored := results.Store(task, env.doneAt, env.store);
      if stored.Err? { return RaisedAfter; }
      Interlude(env);
      var nacked := queue.Nack(task, false, env.settle);
      ran := if nacked.Ok? then Worked else RaisedAfter;
    }

    /** What other workers do between the store and the settle. */
    method Interlude(env: Env)
      requires Valid()
      modifies queue.conn, results.conn
      ensures Valid() && queue.Table() == env.settling(old(queue.Table()))
      ensures results.Table() == env.settlingResults(old(results.Table()))
    {
      queue.conn.table := env.settling(queue.conn.table);
      results.conn.table := env.settlingResults(results.conn.table);
    }
  }

  /** What run_once does with a claimed task, column by column. A finished task is stored and
      then settled, or nothing happens to it; a failed one with retries left goes back to
      waiting with the policy's delay; a lock at the settle leaves the row as others left it. */
  lemma HandlesMeans(c: Config, t: TaskData, env: Env, rows: Rows, results: Results,
                     ran: Ran, rows': Rows, results': Results)
    requires Possible(c.policy, env.exec) && Handles(c, t, env, rows, results, ran, rows', results')
    ensures env.exec.Returned? ==>
              FinishedAs(c, t, env, Success, c.ser.serialize(env.exec.value), t.error,
                         rows, results, ran, rows', results')
    ensures env.exec.NotRegistered?
            || (env.exec.Raised? && (t.retries >= t.maxRetries
                                     || NextDelay(c.policy, t.retries + 1, env.exec.draws).Declined?)) ==>
              FinishedAs(c, t, env, Failed, None, Some(env.exec.message), rows, results, ran, rows', results')
    ensures env.exec.Raised? && t.retries < t.maxRetries
            && NextDelay(c.policy, t.retries + 1, env.exec.draws).After? ==>
              var at := env.doneAt + NextDelay(c.policy, t.retries + 1, env.exec.draws).seconds;
              && results' == results
              && ran == (if env.settle == NoFault then Worked else RaisedAfter)
              && rows' == if env.settle != NoFault || t.id !in rows then rows
                          else rows[t.id := rows[t.id].(status := Pending, startedAt := None, claimedUntil := None,
                                                        retries := t.retries + 1, availableAt := Some(at))]
    ensures ran == Worked || ran == RaisedAfter
    ensures c.policy.Valid() && 0 <= t.retries && env.exec.Raised? ==>
              !NextDelay(c.policy, t.retries + 1, env.exec.draws).ValueError?
  {
    hide NextDelay;
    DecideIff(c.policy, t, env.exec, env.doneAt);
    if c.policy.Valid() && env.exec.Raised? { JitterComposition(c.policy, t.retries + 1, env.exec.draws); }
  }

  /** The task was finished with this status, stored result and error. */
  predicate FinishedAs(c: Config, t: TaskData, env: Env, status: Status, blob: Option<Blob>, error: Option<string>,
                       rows: Rows, results: Results, ran: Ran, rows': Rows, results': Results)
  {
    if env.store != NoFault || (status == Success && blob == None) then
      ran == RaisedAfter && rows' == rows && results' == results
    else
      && results' == env.settlingResults(
           results[t.id := ResultRow(t.funcPath, status, blob, error, Some(env.doneAt), env.doneAt)])
      && ran == (if env.settle == NoFault then Worked else RaisedAfter)
      && var met := env.settling(rows);
         rows' == if env.settle != NoFault || t.id !in met then met
                  else met[t.id := met[t.id].(status := status, finishedAt := Some(env.doneAt), error := error,
                                              claimedUntil := None)]
  }

  // ------------------------------------------- run_once as a protocol path

  predicate ByWorker(step: Step, w: WorkerId) {
    match step
    case TryClaim(x, _, _) => x == w
    case Execute(x, _) => x == w
    case Store(x) => x == w
    case Settling(x) => x == w
    case Requeueing(x) => x == w
    case Crash(x) => x == w
    case _ => false
  }

  /** A path from s to e. */
  ghost predicate Leads(c: Config, s: State, e: State, states: seq<State>, steps: seq<Step>) {
    IsPath(c, states, steps) && states[0] == s && Last(states) == e
  }

  ghost predicate Reaches(c: Config, s: State, e: State) { exists states, steps :: Leads(c, s, e, states, steps) }

  /** Others lead from s to e while worker w makes no step. */
  ghost predicate Moves(c: Config, w: WorkerId, s: State, e: State) {
    exists states, steps :: Leads(c, s, e, states, steps) && forall k :: 0 <= k < |steps| ==> !ByWorker(steps[k], w)
  }

  lemma ReachesOn(c: Config, s: State, m: State, e: State)
    requires Reaches(c, s, m) && Reaches(c, m, e)
    ensures Reaches(c, s, e)
  {
    hide StepsTo;
    var xs, us :| Leads(c, s, m, xs, us);
    var ys, vs :| Leads(c, m, e, ys, vs);
    var states, steps := xs + ys[1..], us + vs;
    forall i | 0 <= i < |steps| ensures StepsTo(c, states[i], steps[i], states[i + 1]) {
      if i < |us| {
        assert StepsTo(c, xs[i], us[i], xs[i + 1]);
      } else {
        assert StepsTo(c, ys[i - |us|], vs[i - |us|], ys[i - |us| + 1]);
      }
    }
    assert Leads(c, s, e, states, steps);
  }

  lemma StepReaches(c: Config, s: State, step: Step)
    requires Enabled(c, s, step)
    ensures Reaches(c, s, Apply(c, s, step))
  {
    hide Enabled, Apply;
    var states, steps := [s, Apply(c, s, step)], [step];
    assert StepsTo(c, states[0], steps[0], states[1]);
    assert Leads(c, s, Apply(c, s, step), states, steps);
  }

  /** Nobody but the worker itself changes what it holds. */
  lemma OthersKeepHold(c: Config, s: State, step: Step, w: WorkerId)
    requires Enabled(c, s, step) && !ByWorker(step, w)
    ensures var e := Apply(c, s, step);
            (w in e.busy <==> w in s.busy) && (w in s.busy ==> e.busy[w] == s.busy[w])
  {
    if step.Execute? { OtherExecutes(c, s, step.w, step.exec); } else { OtherSteps(c, s, step, w); }
  }

  lemma OtherExecutes(c: Config, s: State, v: WorkerId, exec: Execution)
    requires Enabled(c, s, Execute(v, exec))
    ensures Apply(c, s, Execute(v, exec)).busy - {v} == s.busy - {v}
  {
    hide Decide;
  }

  lemma OtherSteps(c: Config, s: State, step: Step, w: WorkerId)
    requires Enabled(c, s, step) && !ByWorker(step, w) && !step.Execute?
    ensures var e := Apply(c, s, step);
            (w in e.busy <==> w in s.busy) && (w in s.busy ==> e.busy[w] == s.busy[w])
  {
    hide Decide, Decoded, Stored, IsBest, Reclaim, Claim, PurgeRows, PurgeResults, Settle, Requeue, Replay, Inserted;
  }

  lemma {:induction false} HoldAlong(c: Config, w: WorkerId, states: seq<State>, steps: seq<Step>, i: nat)
    requires IsPath(c, states, steps) && i < |states|
    requires forall k :: 0 <= k < |steps| ==> !ByWorker(steps[k], w)
    ensures (w in states[i].busy <==> w in states[0].busy)
    ensures w in states[0].busy ==> states[i].busy[w] == states[0].busy[w]
  {
    hide Enabled, Apply, ByWorker;
    if i > 0 {
      HoldAlong(c, w, states, steps, i - 1);
      assert StepsTo(c, states[i - 1], steps[i - 1], states[i]);
      OthersKeepHold(c, states[i - 1], steps[i - 1], w);
    }
  }

  lemma MovesKeepHold(c: Config, w: WorkerId, s: State, e: State)
    requires Moves(c, w, s, e)
    ensures Reaches(c, s, e)
    ensures (w in e.busy <==> w in s.busy) && (w in s.busy ==> e.busy[w] == s.busy[w])
  {
    hide StepsTo, ByWorker;
    var states, steps :| Leads(c, s, e, states, steps) && forall k :: 0 <= k < |steps| ==> !ByWorker(steps[k], w);
    HoldAlong(c, w, states, steps, |states| - 1);
  }

  /** Waiting while nobody does anything is a move; so a lone worker is a special case. */
  lemma WaitingMoves(c: Config, w: WorkerId, s: State, until: real)
    requires s.clock <= until
    ensures Moves(c, w, s, s.(clock := until))
  {
    var step := Tick(until - s.clock);
    var states, steps := [s, Apply(c, s, step)], [step];
    assert StepsTo(c, states[0], steps[0], states[1]);
    assert Leads(c, s, s.(clock := until), states, steps);
  }

  // ------------------------------------- what other workers do in between

  /** The states of the protocol in which the three transactions of a round take place. */
  datatype Mark = Mark(first: State, reclaim: State, second: State)

  /** Others lead from prev to the first claim of the round, and on to its reclaim and to its
      second claim if the round gets there, and do to the table what the round says. */
  ghost predicate Marked(c: Config, w: WorkerId, prev: State, p: Poll, m: Mark) {
    && Moves(c, w, prev, m.first) && m.first.clock == p.now && m.first.rows == p.others(prev.rows)
    && (FirstFails(m.first.rows, p) ==>
          && Moves(c, w, m.first, m.reclaim) && m.reclaim.clock == p.now && m.reclaim.rows == p.between(m.first.rows)
          && (p.reclaim == NoFault ==>
                var swept := Apply(c, m.reclaim, ReclaimExpired);
                && Moves(c, w, swept, m.second) && m.second.clock == p.now
                && m.second.rows == p.after(swept.rows)))
  }

  /** Where the round before round k ended. */
  function Prev(s: State, ms: seq<Mark>, k: nat): State
    requires k <= |ms|
  {
    if k == 0 then s else ms[k - 1].second
  }

  ghost predicate AllMarked(c: Config, w: WorkerId, s: State, polls: seq<Poll>, ms: seq<Mark>) {
    && |ms| <= |polls|
    && forall k :: 0 <= k < |ms| ==> Marked(c, w, Prev(s, ms, k), polls[k], ms[k])
  }

  /** Where the claim of a round takes place. */
  function ClaimState(p: Poll, m: Mark): State { if FirstFails(m.first.rows, p) then m.second else m.first }

  /** The round is reached, and the worker still idle. */
  predicate IdleAt(s: State, w: WorkerId, rows: Rows) { w !in s.busy && s.rows == rows }

  lemma RoundReaches(c: Config, w: WorkerId, prev: State, p: Poll, m: Mark)
    requires Marked(c, w, prev, p, m) && w !in prev.busy
    ensures Reaches(c, prev, m.first) && IdleAt(m.first, w, p.others(prev.rows))
    ensures FirstFails(m.first.rows, p) ==> Reaches(c, prev, m.reclaim) && IdleAt(m.reclaim, w, p.between(m.first.rows))
    ensures FirstFails(m.first.rows, p) && p.reclaim == NoFault ==>
              Reaches(c, prev, m.second) && IdleAt(m.second, w, Swept(m.first.rows, p))
  {
    hide Moves, Reaches, Apply, Enabled, FirstFails;
    MovesKeepHold(c, w, prev, m.first);
    if FirstFails(m.first.rows, p) {
      MovesKeepHold(c, w, m.first, m.reclaim);
      ReachesOn(c, prev, m.first, m.reclaim);
      if p.reclaim == NoFault {
        ReclaimIs(c, m.reclaim);
        var swept := Apply(c, m.reclaim, ReclaimExpired);
        StepReaches(c, m.reclaim, ReclaimExpired);
        MovesKeepHold(c, w, swept, m.second);
        ReachesOn(c, prev, m.reclaim, swept);
        ReachesOn(c, prev, swept, m.second);
      }
    }
  }

  lemma {:induction false} PollReaches(c: Config, w: WorkerId, s: State, polls: seq<Poll>, ms: seq<Mark>, k: nat)
    requires AllMarked(c, w, s, polls, ms) && w !in s.busy && k < |ms|
    requires forall i :: 0 <= i < k ==> RoundIdles(Met(s.rows, polls, i), polls[i])
    ensures var prev := Prev(s, ms, k);
            && Reaches(c, s, prev) && w !in prev.busy && Marked(c, w, prev, polls[k], ms[k])
            && polls[k].others(prev.rows) == Met(s.rows, polls, k)
  {
    hide Marked, Reaches, Swept, FirstFails, RoundIdles, Met;
    MetIs(s.rows, polls, k);
    assert Marked(c, w, Prev(s, ms, k), polls[k], ms[k]);
    if k == 0 {
      NoStepReaches(c, s);
    } else {
      PollReaches(c, w, s, polls, ms, k - 1);
      var prev := Prev(s, ms, k - 1);
      IdlesMeans(Met(s.rows, polls, k - 1), polls[k - 1]);
      MarkedFirst(c, w, prev, polls[k - 1], ms[k - 1]);
      RoundReaches(c, w, prev, polls[k - 1], ms[k - 1]);
      ReachesOn(c, s, prev, ms[k - 1].second);
    }
  }

  lemma MarkedFirst(c: Config, w: WorkerId, prev: State, p: Poll, m: Mark)
    requires Marked(c, w, prev, p, m)
    ensures m.first.rows == p.others(prev.rows) && m.first.clock == p.now
    ensures FirstFails(m.first.rows, p) ==>
              m.reclaim.clock == p.now && (p.reclaim == NoFault ==> m.second.clock == p.now)
  {}

  lemma IdlesMeans(rows: Rows, p: Poll)
    requires RoundIdles(rows, p)
    ensures FirstFails(rows, p) && p.reclaim == NoFault
  {}

  lemma NoStepReaches(c: Config, s: State)
    ensures Reaches(c, s, s)
  {
    assert Leads(c, s, s, [s], []);
  }

  lemma ReclaimIs(c: Config, s: State)
    ensures Enabled(c, s, ReclaimExpired) && Apply(c, s, ReclaimExpired).rows == Reclaim(s.rows, s.clock)
    ensures Apply(c, s, ReclaimExpired).busy == s.busy && Apply(c, s, ReclaimExpired).clock == s.clock
  {
    hide Reclaim;
  }

  lemma ClaimIs(c: Config, s: State, w: WorkerId, timeout: real, t: TaskData, claimed: Rows)
    requires w !in s.busy && ClaimsFrom(c.ser, s.rows, s.clock, timeout, t, claimed)
    ensures Enabled(c, s, TryClaim(w, t.id, timeout))
    ensures var e := Apply(c, s, TryClaim(w, t.id, timeout));
            e.rows == claimed && At(e, w, Executing) && e.busy[w].task == t
  {
    hide Decoded, IsBest, Claim;
  }

  lemma ExecuteIs(c: Config, s: State, w: WorkerId, exec: Execution)
    requires At(s, w, Executing) && Possible(c.policy, exec)
    ensures Enabled(c, s, Execute(w, exec))
    ensures var e := Apply(c, s, Execute(w, exec));
            && e.rows == s.rows && e.results == s.results && e.clock == s.clock
            && match Decide(c.policy, s.busy[w].task, exec, s.clock)
               case Finish(u) => At(e, w, Finished) && e.busy[w].task == u
               case Retry(u) => At(e, w, Retrying) && e.busy[w].task == u
               case PolicyError => w !in e.busy
  {
    hide Decide;
  }

  lemma StoreIs(c: Config, s: State, w: WorkerId)
    requires At(s, w, Finished) && Stored(c.ser, s.busy[w].task, s.clock).Some?
    ensures Enabled(c, s, Store(w))
    ensures var e, u := Apply(c, s, Store(w)), s.busy[w].task;
            && e.rows == s.rows && e.results == s.results[u.id := Stored(c.ser, u, s.clock).value]
            && At(e, w, Storing) && e.busy[w].task == u
  {
    hide Stored;
  }

  /** The last step of a worker that settles, or that raised and so is as good as crashed. */
  lemma LastStep(c: Config, s: State, w: WorkerId, settles: bool) returns (e: State)
    requires w in s.busy && (settles ==> At(s, w, Storing) || At(s, w, Retrying))
    ensures Reaches(c, s, e) && w !in e.busy && e.results == s.results
    ensures var u := s.busy[w].task;
            e.rows == if !settles then s.rows else if s.busy[w].stage == Storing then Settle(s.rows, u)
                      else Requeue(s.rows, u)
  {
    hide Reaches, Settle, Requeue;
    var step := if !settles then Crash(w) else if s.busy[w].stage == Storing then Settling(w) else Requeueing(w);
    StepReaches(c, s, step);
    e := Apply(c, s, step);
  }

  /** Others lead from the claim to the end of the function, and from the store, if the worker
      gets there, to the settle, and do to the tables what env says. */
  datatype Marks = Marks(rounds: seq<Mark>, run: State, settle: State)

  ghost predicate RunMarked(c: Config, w: WorkerId, s: State, claim: State, step: Step, env: Env, run: State) {
    && Enabled(c, claim, step)
    && Moves(c, w, Apply(c, claim, step), run) && run.clock == env.doneAt
    && run.rows == env.meanwhile(Apply(c, claim, step).rows) && run.results == env.meanwhileResults(s.results)
  }

  ghost predicate SettleMarked(c: Config, w: WorkerId, env: Env, ran: State, settle: State) {
    At(ran, w, Finished) && Stored(c.ser, ran.busy[w].task, ran.clock).Some? && env.store == NoFault ==>
      && Enabled(c, ran, Store(w))
      && var stored := Apply(c, ran, Store(w));
         && Moves(c, w, stored, settle)
         && settle.rows == env.settling(stored.rows) && settle.results == env.settlingResults(stored.results)
  }

  /** From the end of the function to the end of run_once. */
  lemma HandleReaches(c: Config, w: WorkerId, env: Env, run: State, t: TaskData, settle: State,
                      ran: Ran, rows': Rows, results': Results)
    returns (e: State)
    requires At(run, w, Executing) && run.busy[w].task == t && run.clock == env.doneAt && Possible(c.policy, env.exec)
    requires Enabled(c, run, Execute(w, env.exec))
    requires SettleMarked(c, w, env, Apply(c, run, Execute(w, env.exec)), settle)
    requires Handles(c, t, env, run.rows, run.results, ran, rows', results')
    ensures Reaches(c, run, e) && w !in e.busy && e.rows == rows' && e.results == results'
  {
    hide Reaches, Moves, Decide, Stored, Settle, Requeue, Apply, Enabled;
    ExecuteIs(c, run, w, env.exec);
    StepReaches(c, run, Execute(w, env.exec));
    var x := Apply(c, run, Execute(w, env.exec));
    match Decide(c.policy, t, env.exec, env.doneAt)
    case PolicyError => e := x;
    case Retry(u) =>
      e := LastStep(c, x, w, ran == Worked);
      ReachesOn(c, run, x, e);
    case Finish(u) =>
      if Stored(c.ser, u, env.doneAt) == None || env.store != NoFault {
        e := LastStep(c, x, w, false);
      } else {
        StoreIs(c, x, w);
        StepReaches(c, x, Store(w));
        MovesKeepHold(c, w, Apply(c, x, Store(w)), settle);
        ReachesOn(c, x, Apply(c, x, Store(w)), settle);
        e := LastStep(c, settle, w, ran == Worked);
        ReachesOn(c, x, settle, e);
      }
      ReachesOn(c, run, x, e);
  }

  /** A round that claims nothing ends at its second claim, or where it raised. */
  lemma NothingReaches(c: Config, w: WorkerId, prev: State, p: Poll, m: Mark, rows': Rows) returns (e: State)
    requires Marked(c, w, prev, p, m) && w !in prev.busy
    requires (RoundIdles(m.first.rows, p) && rows' == Swept(m.first.rows, p))
             || exists error :: RoundRaises(c.ser, m.first.rows, p, error, rows')
    ensures Reaches(c, prev, e) && IdleAt(e, w, rows')
  {
    hide Reaches, Marked, Swept, FirstFails, Undecodable;
    RoundReaches(c, w, prev, p, m);
    MarkedFirst(c, w, prev, p, m);
    if RoundIdles(m.first.rows, p) && rows' == Swept(m.first.rows, p) {
      e := m.second;
    } else {
      var error :| RoundRaises(c.ser, m.first.rows, p, error, rows');
      e := if error == OperationalError then m.reclaim else if rows' == m.first.rows then m.first else m.second;
    }
  }

  lemma ClaimReaches(c: Config, w: WorkerId, timeout: real, p: Poll, m: Mark, prev: State, t: TaskData, claimed: Rows)
    requires Marked(c, w, prev, p, m) && w !in prev.busy
    requires RoundClaims(c.ser, m.first.rows, p, timeout, t, claimed)
    ensures var claim, step := ClaimState(p, m), TryClaim(w, t.id, timeout);
            && Enabled(c, claim, step)
            && var e := Apply(c, claim, step);
               Reaches(c, prev, e) && e.rows == claimed && At(e, w, Executing) && e.busy[w].task == t
  {
    hide Reaches, Marked, Swept, FirstFails, ClaimsFrom, Apply, Enabled;
    var claim, step := ClaimState(p, m), TryClaim(w, t.id, timeout);
    RoundReaches(c, w, prev, p, m);
    MarkedFirst(c, w, prev, p, m);
    ClaimIs(c, claim, w, timeout, t, claimed);
    StepReaches(c, claim, step);
    ReachesOn(c, prev, claim, Apply(c, claim, step));
  }

  /** What others do while run_once works, as far as run_once gets. */
  ghost predicate Interleaves(c: Config, w: WorkerId, s: State, timeout: real, env: Env, n: nat, t: Option<TaskData>,
                              ms: Marks)
    requires 0 < n <= |env.polls|
  {
    && |ms.rounds| == n && AllMarked(c, w, s, env.polls, ms.rounds)
    && (t.Some? ==>
          && RunMarked(c, w, s, ClaimState(env.polls[n - 1], ms.rounds[n - 1]), TryClaim(w, t.value.id, timeout), env,
                       ms.run)
          && Enabled(c, ms.run, Execute(w, env.exec))
          && SettleMarked(c, w, env, Apply(c, ms.run, Execute(w, env.exec)), ms.settle))
  }

  /** Every run_once, with the steps of any other workers anywhere in between, is a path of
      the protocol from its tables to the ones it leaves, whether it claims, comes back
      empty-handed or raises, ending with the worker idle; where it raised after the claim,
      with the worker's crash. So everything proved of all runs holds for what workers do. */
  lemma RunOnceIsPath(c: Config, s: State, w: WorkerId, timeout: real, env: Env, n: nat, ran: Ran,
                      t: Option<TaskData>, claimed: Rows, rows': Rows, results': Results, ms: Marks)
    returns (states: seq<State>, steps: seq<Step>)
    requires w !in s.busy && Possible(c.policy, env.exec)
    requires RunsOnce(c, timeout, env, n, s.rows, s.results, ran, t, claimed, rows', results')
    requires Interleaves(c, w, s, timeout, env, n, t, ms)
    ensures IsPath(c, states, steps) && states[0] == s
    ensures var e := Last(states);
            e.rows == rows' && w !in e.busy && (t.Some? ==> e.results == results')
  {
    hide Reaches, Moves, Marked, AllMarked, Handles, RoundRaises, RoundIdles, RoundClaims, Met, Swept, FirstFails,
         Apply, Enabled, SettleMarked, Undecodable;
    var p, m, prev := env.polls[n - 1], ms.rounds[n - 1], Prev(s, ms.rounds, n - 1);
    var met := Met(s.rows, env.polls, n - 1);
    PollReaches(c, w, s, env.polls, ms.rounds, n - 1);
    MarkedFirst(c, w, prev, p, m);
    RoundReaches(c, w, prev, p, m);
    var e: State;
    if t == None {
      e := NothingReaches(c, w, prev, p, m, rows');
      ReachesOn(c, s, prev, e);
    } else {
      var claim := ClaimState(p, m);
      ClaimReaches(c, w, timeout, p, m, prev, t.value, claimed);
      var step := TryClaim(w, t.value.id, timeout);
      MovesKeepHold(c, w, Apply(c, claim, step), ms.run);
      ReachesOn(c, s, prev, Apply(c, claim, step));
      ReachesOn(c, s, Apply(c, claim, step), ms.run);
      e := HandleReaches(c, w, env, ms.run, t.value, ms.settle, ran, rows', results');
      ReachesOn(c, s, ms.run, e);
    }
    states, steps := PathTo(c, s, e);
  }

  lemma PathTo(c: Config, s: State, e: State) returns (states: seq<State>, steps: seq<Step>)
    requires Reaches(c, s, e)
    ensures Leads(c, s, e, states, steps)
  {
    states, steps :| Leads(c, s, e, states, steps);
  }

  // -------------------------------------------------- calls of others

  /** What clients and the command line do is a step of the protocol as well. */
  lemma EnqueueIsStep(c: Config, s: State, t: TaskData)
    requires t.id !in s.born && t.status == Pending && t.retries == 0 && 0 <= t.maxRetries
    requires c.ser.serialize(t.args).Some? && c.ser.serialize(t.kwargs).Some?
    ensures Enabled(c, s, Enqueue(t))
    ensures var e := Apply(c, s, Enqueue(t));
            && e.rows == s.rows[t.id := Inserted(t, c.ser.serialize(t.args).value, c.ser.serialize(t.kwargs).value)]
            && e.results == s.results && e.busy == s.busy && e.clock == s.clock
  {
    hide Inserted;
  }

  lemma ReplayIsStep(c: Config, s: State, id: Id)
    ensures Enabled(c, s, ReplayFailed(id))
    ensures var e := Apply(c, s, ReplayFailed(id));
            e.rows == Replay(s.rows, id) && e.results == s.results && e.busy == s.busy && e.clock == s.clock
  {}

  lemma PurgeIsStep(c: Config, s: State, olderThan: real, includeFailed: bool, shared: bool)
    ensures Enabled(c, s, PurgeOld(olderThan, includeFailed, shared))
    ensures var e, cutoff := Apply(c, s, PurgeOld(olderThan, includeFailed, shared)), s.clock - olderThan;
            && e.rows == PurgeRows(s.rows, cutoff, includeFailed) && e.busy == s.busy && e.clock == s.clock
            && e.results == if shared then PurgeResults(s.results, cutoff, includeFailed) else s.results
  {
    hide PurgeRows, PurgeResults;
  }

  // ------------------------------------------------------- a lone worker

  /** A lone worker finds each round as it left the one before. */
  lemma {:induction false} LoneRounds(c: Config, w: WorkerId, s: State, polls: seq<Poll>, k: nat)
    returns (ms: seq<Mark>)
    requires Alone(polls) && k <= |polls| && (k > 0 ==> s.clock <= polls[0].now)
    ensures |ms| == k && AllMarked(c, w, s, polls, ms)
    ensures k > 0 ==> ms[k - 1].first.results == ms[k - 1].second.results == s.results
    ensures k > 0 ==> ms[k - 1].first.clock == ms[k - 1].second.clock == polls[k - 1].now
  {
    hide Marked, Moves, Apply, Undisturbed, AllMarked;
    NoMarks(c, w, s, polls);
    ms := [];
    if k > 0 {
      ms := LoneRounds(c, w, s, polls, k - 1);
      var prev, p := Prev(s, ms, k - 1), polls[k - 1];
      assert k > 1 ==> polls[k - 2].now <= p.now;
      assert Undisturbed(p);
      var m := LoneRound(c, w, prev, p);
      OneMarkMore(c, w, s, polls, ms, m);
      ms := ms + [m];
    }
  }

  lemma NoMarks(c: Config, w: WorkerId, s: State, polls: seq<Poll>)
    ensures AllMarked(c, w, s, polls, [])
  {}

  lemma OneMarkMore(c: Config, w: WorkerId, s: State, polls: seq<Poll>, ms: seq<Mark>, m: Mark)
    requires AllMarked(c, w, s, polls, ms) && |ms| < |polls|
    requires Marked(c, w, Prev(s, ms, |ms|), polls[|ms|], m)
    ensures AllMarked(c, w, s, polls, ms + [m])
  {
    hide Marked;
    var ms' := ms + [m];
    forall i | 0 <= i < |ms'| ensures Marked(c, w, Prev(s, ms', i), polls[i], ms'[i]) {
      if i < |ms| { assert Marked(c, w, Prev(s, ms, i), polls[i], ms[i]); }
    }
  }

  lemma LoneRound(c: Config, w: WorkerId, prev: State, p: Poll) returns (m: Mark)
    requires prev.clock <= p.now && Undisturbed(p)
    ensures Marked(c, w, prev, p, m)
    ensures m.first.results == m.second.results == prev.results && m.first.clock == m.second.clock == p.now
  {
    hide Moves, Reclaim;
    var first := prev.(clock := p.now);
    m := Mark(first, first, Apply(c, first, ReclaimExpired));
    ReclaimIs(c, first);
    WaitingMoves(c, w, prev, p.now);
    WaitingMoves(c, w, first, p.now);
    WaitingMoves(c, w, m.second, p.now);
    assert first == first.(clock := p.now) && m.second == m.second.(clock := p.now);
  }

  /** So a lone run_once is a path of the worker's own steps and of time passing. */
  lemma LoneRunOnceIsPath(c: Config, s: State, w: WorkerId, timeout: real, env: Env, n: nat, ran: Ran,
                          t: Option<TaskData>, claimed: Rows, rows': Rows, results': Results)
    returns (states: seq<State>, steps: seq<Step>)
    requires w !in s.busy && Possible(c.policy, env.exec)
    requires RunsOnce(c, timeout, env, n, s.rows, s.results, ran, t, claimed, rows', results')
    requires env.Alone() && s.clock <= env.polls[0].now && env.polls[n - 1].now <= env.doneAt
    ensures IsPath(c, states, steps) && states[0] == s
    ensures var e := Last(states);
            e.rows == rows' && w !in e.busy && (t.Some? ==> e.results == results')
  {
    hide Moves, Marked, AllMarked, Handles, RoundRaises, RoundIdles, RoundClaims, Met, Apply, Enabled;
    var rounds := LoneRounds(c, w, s, env.polls, n);
    var ms := Marks(rounds, s, s);
    if t.Some? {
      var p, m := env.polls[n - 1], rounds[n - 1];
      var prev, claim, step := Prev(s, rounds, n - 1), ClaimState(p, m), TryClaim(w, t.value.id, timeout);
      PollReaches(c, w, s, env.polls, rounds, n - 1);
      MarkedFirst(c, w, prev, p, m);
      ClaimReaches(c, w, timeout, p, m, prev, t.value, claimed);
      var run, settle := LoneSettle(c, w, env, claim, step);
      ms := Marks(rounds, run, settle);
    }
    states, steps := RunOnceIsPath(c, s, w, timeout, env, n, ran, t, claimed, rows', results', ms);
  }

  lemma LoneSettle(c: Config, w: WorkerId, env: Env, claim: State, step: Step) returns (run: State, settle: State)
    requires step.TryClaim? && step.w == w && Enabled(c, claim, step) && env.Alone() && claim.clock <= env.doneAt
    requires Possible(c.policy, env.exec)
    ensures RunMarked(c, w, claim, claim, step, env, run) && Enabled(c, run, Execute(w, env.exec))
    ensures SettleMarked(c, w, env, Apply(c, run, Execute(w, env.exec)), settle)
  {
    hide Moves, Decide, Decoded, Stored, IsBest;
    var claimed := Apply(c, claim, step);
    run := claimed.(clock := env.doneAt);
    WaitingMoves(c, w, claimed, env.doneAt);
    var ran := Apply(c, run, Execute(w, env.exec));
    settle := ran;
    if Enabled(c, ran, Store(w)) {
      settle := Apply(c, ran, Store(w));
      WaitingMoves(c, w, settle, settle.clock);
      assert settle == settle.(clock := settle.clock);
    }
  }
}
