/** One worker draining the tasks table: every run_once that returns True uses up one
    execution of some task's budget, so the worker comes to an end, with every task finished
    once. */
module Draining {
  import opened Tasks
  import opened RetryPolicies
  import opened Protocol
  import T = TaskTable
  import D = Delivery
  import opened Sequences
  import opened Agreement
  import Q = SqliteQueue
  import W = Workers

  // ------------------------------------------------------ budgets

  /** How many more times each active task may be executed. */
  type Budget = map<Id, nat>

  ghost function Sum(m: Budget): nat
    decreases |m|
  {
    if m == map[] then 0 else var id :| id in m; m[id] + Sum(m - {id})
  }

  lemma {:induction false} SumWithout(m: Budget, x: Id)
    requires x in m
    ensures Sum(m) == m[x] + Sum(m - {x})
    decreases |m|
  {
    var id :| id in m && Sum(m) == m[id] + Sum(m - {id});
    if id != x {
      SumWithout(m - {id}, x);
      SumWithout(m - {x}, id);
      assert m - {id} - {x} == m - {x} - {id};
    }
  }

  /** One turn of a worker: the task is finished and leaves, or has one execution fewer. */
  predicate Turn(m: Budget, id: Id, finished: bool, m': Budget) {
    && id in m
    && if finished then m[id] > 0 && m' == m - {id} else m[id] > 1 && m' == m[id := m[id] - 1]
  }

  lemma TurnUsesBudget(m: Budget, id: Id, finished: bool, m': Budget)
    requires Turn(m, id, finished, m')
    ensures Sum(m') < Sum(m)
  {
    SumWithout(m, id);
    if !finished {
      SumWithout(m', id);
      assert m' - {id} == m - {id};
    }
  }

  /** What one run_once did to the budget: a turn if it returned True, nothing if it came back
      empty-handed or raised. */
  type Event = Option<(Id, bool)>

  predicate Goes(m: Budget, e: Event, m': Budget) {
    match e
    case Some((id, finished)) => Turn(m, id, finished, m')
    case None => m' == m
  }

  ghost predicate Calls(ms: seq<Budget>, es: seq<Event>) {
    |ms| == |es| + 1 && forall i :: 0 <= i < |es| ==> Goes(ms[i], es[i], ms[i + 1])
  }

  /** How many of the first i calls returned True. */
  function Turns(es: seq<Event>, i: nat): nat
    requires i <= |es|
  {
    if i == 0 then 0 else Turns(es, i - 1) + if es[i - 1].Some? then 1 else 0
  }

  /** How often a task was finished in the first i calls. */
  function Finishes(es: seq<Event>, x: Id, i: nat): nat
    requires i <= |es|
  {
    if i == 0 then 0 else Finishes(es, x, i - 1) + if es[i - 1] == Some((x, true)) then 1 else 0
  }

  /** There are no more turns than the budget allows, and a task has been finished exactly
      once if it has left and never if it has not. */
  lemma {:induction false} TurnsAreBounded(ms: seq<Budget>, es: seq<Event>, i: nat)
    requires Calls(ms, es) && i <= |es|
    ensures Turns(es, i) + Sum(ms[i]) <= Sum(ms[0])
    ensures ms[i].Keys <= ms[0].Keys
    ensures forall x :: x in ms[0] ==> Finishes(es, x, i) == if x in ms[i] then 0 else 1
  {
    if i > 0 {
      TurnsAreBounded(ms, es, i - 1);
      assert Goes(ms[i - 1], es[i - 1], ms[i]);
      if es[i - 1].Some? {
        TurnUsesBudget(ms[i - 1], es[i - 1].value.0, es[i - 1].value.1, ms[i]);
      }
    }
  }

  lemma {:induction false} FinishedAt(es: seq<Event>, x: Id, i: nat) returns (k: nat)
    requires i <= |es| && Finishes(es, x, i) > 0
    ensures k < i && es[k] == Some((x, true))
  {
    if es[i - 1] == Some((x, true)) { k := i - 1; } else { k := FinishedAt(es, x, i - 1); }
  }

  // ------------------------------------------------- budgets of the queues

  /** Every job has used between none and all of its retries. */
  predicate InBudget(v: View) {
    forall id | id in v :: 0 <= v[id].job.retries <= v[id].job.maxRetries
  }

  function Left(v: View): Budget
    requires InBudget(v)
  {
    map id | id in v :: v[id].job.maxRetries - v[id].job.retries + 1
  }

  predicate SameJobs(v: View, u: View) {
    v.Keys == u.Keys && forall id | id in v :: v[id].job == u[id].job
  }

  lemma SameBudget(v: View, u: View)
    requires SameJobs(v, u) && InBudget(v)
    ensures InBudget(u) && Left(u) == Left(v)
  {}

  /** The job that Decide retries has one retry more and another available_at. */
  lemma RetryTurn(v: View, id: Id, job: Job)
    requires InBudget(v) && id in v && v[id].job.retries < v[id].job.maxRetries
    requires job.retries == v[id].job.retries + 1 && job.maxRetries == v[id].job.maxRetries
    ensures InBudget(v[id := Slot(job, None)])
    ensures Turn(Left(v), id, false, Left(v[id := Slot(job, None)]))
  {}

  lemma FinishTurn(v: View, id: Id)
    requires InBudget(v) && id in v
    ensures InBudget(v - {id}) && Turn(Left(v), id, true, Left(v - {id}))
  {}

  /** What a decision does to the fields of the copy that matter here. */
  lemma DecideOnCopy(policy: Policy, t: TaskData, exec: Execution, now: real)
    requires Possible(policy, exec)
    ensures match Decide(policy, t, exec, now)
            case Finish(u) => u.id == t.id && u.status.Terminal()
            case Retry(u) => u.id == t.id && u.retries == t.retries + 1 && t.retries < t.maxRetries
                             && u.maxRetries == t.maxRetries && u.priority == t.priority && u.createdAt == t.createdAt
            case PolicyError => true
  {
    hide NextDelay;
  }

  // ------------------------------------------------------ the tasks table

  /** One run_once: its inputs, the rounds of its dequeue, how it ended, and what it claimed. */
  datatype Call = Call(env: W.Env, rounds: nat, ran: W.Ran, task: Option<TaskData>, claimed: T.Rows)

  /** A worker alone with its tables makes this call. */
  ghost predicate CallIs(c: Config, timeout: real, x: Call,
                         rows: T.Rows, results: T.Results, rows': T.Rows, results': T.Results)
  {
    && Possible(c.policy, x.env.exec) && x.env.Alone()
    && W.RunsOnce(c, timeout, x.env, x.rounds, rows, results, x.ran, x.task, x.claimed, rows', results')
  }

  /** What the call did to the budget: it returned True, and finished its task or not. */
  function EventOf(c: Config, x: Call): Event {
    if x.ran == W.Worked && x.task.Some? && Possible(c.policy, x.env.exec) then
      Some((x.task.value.id, Decide(c.policy, x.task.value, x.env.exec, x.env.doneAt).Finish?))
    else None
  }

  lemma ClaimedTable(rows: T.Rows, polls: seq<Q.Poll>, n: nat, ser: Serializer, timeout: real,
                     t: TaskData, claimed: T.Rows)
    requires Dated(rows) && Q.Alone(polls) && n < |polls|
    requires Q.RoundClaims(ser, Q.Met(rows, polls, n), polls[n], timeout, t, claimed)
    ensures Dated(claimed) && SameJobs(TableView(rows), TableView(claimed))
    ensures t.id in claimed && claimed[t.id].status == Running && IsCopy(t, claimed[t.id])
    ensures DataJob(t) == RowJob(claimed[t.id]) && t.id in TableView(claimed)
  {
    hide Q.Met, TableView, Dated, T.ClaimsFrom, Q.Swept, Q.FirstFails;
    MetJobs(rows, polls, n);
    ClaimedJobs(Q.RoundOffers(Q.Met(rows, polls, n), polls[n]), ser, polls[n].now, timeout, t, claimed);
  }

  /** What a round of a lone worker meets and leaves has the same jobs as the table at first. */
  lemma MetJobs(rows: T.Rows, polls: seq<Q.Poll>, n: nat)
    requires Dated(rows) && Q.Alone(polls) && n < |polls|
    ensures var met := Q.Met(rows, polls, n);
            && Dated(met) && SameJobs(TableView(rows), TableView(met))
            && Dated(Q.Swept(met, polls[n])) && SameJobs(TableView(rows), TableView(Q.Swept(met, polls[n])))
            && polls[n].between(met) == met
  {
    hide Q.Met, TableView, Dated, T.Reclaim;
    var met := Q.Met(rows, polls, n);
    assert Q.Undisturbed(polls[n]);
    if n == 0 {
      Q.MetIs(rows, polls, 0);
      assert met == rows;
    } else {
      Q.PollingIsOneReclaim(rows, polls, n);
      ReclaimedJobs(rows, polls[n - 1].now);
    }
    ReclaimedJobs(met, polls[n].now);
  }

  lemma NormJobs(v: View, now: real)
    ensures SameJobs(v, Norm(v, now))
  {}

  lemma ReclaimedJobs(rows: T.Rows, now: real)
    requires Dated(rows)
    ensures Dated(T.Reclaim(rows, now)) && SameJobs(TableView(rows), TableView(T.Reclaim(rows, now)))
  {
    TableReclaims(rows, now);
    NormJobs(TableView(rows), now);
  }

  lemma ClaimedJobs(offered: T.Rows, ser: Serializer, now: real, timeout: real, t: TaskData, claimed: T.Rows)
    requires Dated(offered) && T.ClaimsFrom(ser, offered, now, timeout, t, claimed)
    ensures Dated(claimed) && SameJobs(TableView(offered), TableView(claimed))
    ensures t.id in claimed && claimed[t.id].status == Running && IsCopy(t, claimed[t.id])
    ensures DataJob(t) == RowJob(claimed[t.id]) && t.id in TableView(claimed)
  {}

  /** Outcomes are added or replaced by terminal ones, never removed. */
  predicate OnlyTerminalNews(results: T.Results, results': T.Results) {
    forall x | x in results :: x in results' && (results'[x] == results[x] || results'[x].status.Terminal())
  }

  /** What one run_once leaves: the tables' invariants, outcomes only added or replaced by
      terminal ones, and a terminal outcome of a task it finished. */
  ghost predicate Leaves(e: Event, rows: T.Rows, results: T.Results, rows': T.Rows, results': T.Results)
    requires InBudget(TableView(rows))
  {
    && Dated(rows') && InBudget(TableView(rows')) && Goes(Left(TableView(rows)), e, Left(TableView(rows')))
    && OnlyTerminalNews(results, results')
    && (e.Some? && e.value.1 ==> e.value.0 in results' && results'[e.value.0].status.Terminal())
  }

  /** A run_once that returned True used one execution of its task's budget. */
  lemma TurnUsesOne(c: Config, timeout: real, x: Call,
                    rows: T.Rows, results: T.Results, rows': T.Rows, results': T.Results)
    requires CallIs(c, timeout, x, rows, results, rows', results') && x.ran == W.Worked
    requires Dated(rows) && InBudget(TableView(rows))
    ensures Leaves(EventOf(c, x), rows, results, rows', results')
  {
    hide Decide, TableView, Dated, T.Settle, T.Requeue, Q.Met, Q.RoundClaims, Q.RoundIdles;
    var env, t := x.env, x.task.value;
    ClaimedTable(rows, env.polls, x.rounds - 1, c.ser, timeout, t, x.claimed);
    var v := TableView(x.claimed);
    SameBudget(TableView(rows), v);
    DecideOnCopy(c.policy, t, env.exec, env.doneAt);
    match Decide(c.policy, t, env.exec, env.doneAt)
    case Finish(u) =>
      TableSettles(x.claimed, u);
      FinishTurn(v, t.id);
    case Retry(u) =>
      TableRequeues(x.claimed, u);
      JobInView(x.claimed, t.id);
      RetryTurn(v, t.id, DataJob(u));
  }

  /** One that came back empty-handed or raised used none. */
  lemma OtherCallUsesNone(c: Config, timeout: real, x: Call,
                          rows: T.Rows, results: T.Results, rows': T.Rows, results': T.Results)
    requires CallIs(c, timeout, x, rows, results, rows', results') && x.ran != W.Worked
    requires Dated(rows) && InBudget(TableView(rows))
    ensures Leaves(EventOf(c, x), rows, results, rows', results')
  {
    hide Decide, TableView, Dated, Q.Met, Q.Swept, Q.RoundClaims, Q.RoundIdles, Q.FirstFails, T.Undecodable;
    var n := x.rounds - 1;
    MetJobs(rows, x.env.polls, n);
    if x.ran == W.RaisedAfter {
      var t := x.task.value;
      ClaimedTable(rows, x.env.polls, n, c.ser, timeout, t, x.claimed);
      DecideOnCopy(c.policy, t, x.env.exec, x.env.doneAt);
      assert rows' == x.claimed;
    }
    SameBudget(TableView(rows), TableView(rows'));
  }

  lemma CallUsesBudget(c: Config, timeout: real, x: Call,
                       rows: T.Rows, results: T.Results, rows': T.Rows, results': T.Results)
    requires CallIs(c, timeout, x, rows, results, rows', results')
    requires Dated(rows) && InBudget(TableView(rows))
    ensures Leaves(EventOf(c, x), rows, results, rows', results')
  {
    hide Leaves, CallIs;
    if x.ran == W.Worked {
      TurnUsesOne(c, timeout, x, rows, results, rows', results');
    } else {
      OtherCallUsesNone(c, timeout, x, rows, results, rows', results');
    }
  }

  lemma JobInView(rows: T.Rows, id: Id)
    requires id in TableView(rows)
    ensures id in rows && TableView(rows)[id].job == RowJob(rows[id])
  {}

  /** A worker alone with its tables: call after call, some of which may come back
      empty-handed or raise. */
  ghost predicate TableCalls(c: Config, timeout: real, xs: seq<Call>, rows: seq<T.Rows>, results: seq<T.Results>) {
    && |rows| == |results| == |xs| + 1
    && forall i :: 0 <= i < |xs| ==> CallIs(c, timeout, xs[i], rows[i], results[i], rows[i + 1], results[i + 1])
  }

  function Events(c: Config, xs: seq<Call>): (es: seq<Event>)
    ensures |es| == |xs| && forall i :: 0 <= i < |es| ==> es[i] == EventOf(c, xs[i])
  {
    Images(xs, (x: Call) => EventOf(c, x))
  }

  lemma {:induction false} TablesAlong(c: Config, timeout: real, xs: seq<Call>,
                                       rows: seq<T.Rows>, results: seq<T.Results>, i: nat)
    requires TableCalls(c, timeout, xs, rows, results) && i <= |xs|
    requires Dated(rows[0]) && InBudget(TableView(rows[0]))
    ensures Dated(rows[i]) && InBudget(TableView(rows[i]))
    ensures forall k :: 0 <= k < i && EventOf(c, xs[k]).Some? && EventOf(c, xs[k]).value.1 ==>
              var id := EventOf(c, xs[k]).value.0;
              id in results[i] && results[i][id].status.Terminal()
  {
    hide TableView, Dated, InBudget, EventOf, CallIs, Goes;
    if i > 0 {
      TablesAlong(c, timeout, xs, rows, results, i - 1);
      CallUsesBudget(c, timeout, xs[i - 1], rows[i - 1], results[i - 1], rows[i], results[i]);
    }
  }

  ghost function Budgets(rows: seq<T.Rows>): (ms: seq<Budget>)
    requires forall i :: 0 <= i < |rows| ==> InBudget(TableView(rows[i]))
    ensures |ms| == |rows| && forall i :: 0 <= i < |ms| ==> ms[i] == Left(TableView(rows[i]))
  {
    seq(|rows|, i requires 0 <= i < |rows| => Left(TableView(rows[i])))
  }

  /** For any policy, any outcomes and any locks, of the calls of a worker alone with its
      tables at most as many return True as the active tasks have executions left. A task
      that is no longer active was finished exactly once and has a terminal outcome; so when
      size() reaches 0 that holds for all of them. */
  lemma WorkerDrains(c: Config, timeout: real, xs: seq<Call>, rows: seq<T.Rows>, results: seq<T.Results>)
    requires TableCalls(c, timeout, xs, rows, results)
    requires Dated(rows[0]) && InBudget(TableView(rows[0]))
    ensures Turns(Events(c, xs), |xs|) <= Sum(Left(TableView(rows[0])))
    ensures var n := |xs|;
            forall x :: x in T.ActiveIds(rows[0]) ==>
              if x in T.ActiveIds(rows[n]) then Finishes(Events(c, xs), x, n) == 0
              else Finishes(Events(c, xs), x, n) == 1 && x in results[n] && results[n][x].status.Terminal()
  {
    hide TableView, Dated, InBudget, Left, Goes, EventOf, CallIs;
    var n := |xs|;
    forall i | 0 <= i <= n ensures Dated(rows[i]) && InBudget(TableView(rows[i])) {
      TablesAlong(c, timeout, xs, rows, results, i);
    }
    TablesAlong(c, timeout, xs, rows, results, n);
    var es, ms := Events(c, xs), Budgets(rows);
    forall i | 0 <= i < n ensures Goes(ms[i], es[i], ms[i + 1]) {
      CallUsesBudget(c, timeout, xs[i], rows[i], results[i], rows[i + 1], results[i + 1]);
    }
    TurnsAreBounded(ms, es, n);
    BudgetKeys(rows[0]);
    BudgetKeys(rows[n]);
    forall x | x in T.ActiveIds(rows[0]) && x !in T.ActiveIds(rows[n])
      ensures x in results[n] && results[n][x].status.Terminal()
    {
      var k := FinishedAt(es, x, n);
    }
  }

  lemma BudgetKeys(rows: T.Rows)
    requires InBudget(TableView(rows))
    ensures Left(TableView(rows)).Keys == T.ActiveIds(rows)
  {}

  // -------------------------------------------------- the worker does finish

  lemma {:induction false} SumIsPositive(m: Budget)
    requires forall id | id in m :: m[id] > 0
    ensures m != map[] ==> Sum(m) > 0
  {
    if m != map[] {
      var id :| id in m;
      SumWithout(m, id);
    }
  }

  /** A call that claimed a task, met no lock after that and could store what it has to store
      returned True: it is a turn. */
  lemma ClaimIsTurn(c: Config, timeout: real, x: Call,
                    rows: T.Rows, results: T.Results, rows': T.Rows, results': T.Results)
    requires c.Valid() && Dated(rows) && InBudget(TableView(rows))
    requires CallIs(c, timeout, x, rows, results, rows', results') && x.task.Some?
    requires x.env.store == x.env.settle == Q.NoFault
    requires x.env.exec.Returned? ==> c.ser.serialize(x.env.exec.value).Some?
    ensures x.ran == W.Worked && EventOf(c, x).Some?
  {
    hide Decide, TableView, Dated, Q.Met, Q.RoundClaims, Q.RoundIdles, W.Handles;
    var env, t := x.env, x.task.value;
    ClaimedTable(rows, env.polls, x.rounds - 1, c.ser, timeout, t, x.claimed);
    SameBudget(TableView(rows), TableView(x.claimed));
    JobInView(x.claimed, t.id);
    W.HandlesMeans(c, t, env, env.meanwhile(x.claimed), env.meanwhileResults(results), x.ran, rows', results');
  }

  /** The call meets no lock and no row or result that does not decode or serialize, and comes
      when everything active is due. */
  ghost predicate Prompt(c: Config, x: Call, rows: T.Rows) {
    && x.env.store == x.env.settle == Q.NoFault
    && (forall k :: 0 <= k < |x.env.polls| ==>
          x.env.polls[k].first == x.env.polls[k].reclaim == x.env.polls[k].second == Q.NoFault)
    && (x.env.exec.Returned? ==> c.ser.serialize(x.env.exec.value).Some?)
    && T.Decodable(c.ser, rows)
    && (|x.env.polls| > 0 ==> D.AllDue(rows, x.env.polls[0].now))
  }

  /** While something is active such a call claims a task. */
  lemma PromptCallClaims(c: Config, timeout: real, x: Call,
                         rows: T.Rows, results: T.Results, rows': T.Rows, results': T.Results)
    requires CallIs(c, timeout, x, rows, results, rows', results') && Prompt(c, x, rows)
    requires T.ActiveIds(rows) != {}
    ensures x.task.Some?
  {
    var p := x.env.polls[0];
    assert Q.Undisturbed(p);
    Q.MetIs(rows, x.env.polls, 0);
    DueIsOffered(rows, p.now);
    assert !Q.RoundIdles(Q.Met(rows, x.env.polls, 0), p);
  }

  lemma DueIsOffered(rows: T.Rows, now: real)
    requires D.AllDue(rows, now) && T.ActiveIds(rows) != {}
    ensures !T.NothingReady(rows, now) || !T.NothingReady(T.Reclaim(rows, now), now)
  {
    var id :| id in T.ActiveIds(rows);
    assert rows[id].Ready(now) || T.Reclaim(rows, now)[id].Ready(now);
  }

  lemma {:induction false} TurnsOrEmpty(c: Config, timeout: real, xs: seq<Call>,
                                        rows: seq<T.Rows>, results: seq<T.Results>, i: nat)
    requires c.Valid() && TableCalls(c, timeout, xs, rows, results) && i <= |xs|
    requires Dated(rows[0]) && InBudget(TableView(rows[0]))
    requires forall k :: 0 <= k < |xs| ==> Prompt(c, xs[k], rows[k])
    ensures T.ActiveIds(rows[i]) == {} || Turns(Events(c, xs), i) == i
  {
    hide TableView, Dated, InBudget, EventOf, CallIs, Prompt, T.ActiveIds, Left;
    if i > 0 {
      var j := i - 1;
      TurnsOrEmpty(c, timeout, xs, rows, results, j);
      TablesAlong(c, timeout, xs, rows, results, j);
      TablesAlong(c, timeout, xs, rows, results, i);
      BudgetKeys(rows[j]);
      BudgetKeys(rows[i]);
      CallUsesBudget(c, timeout, xs[j], rows[j], results[j], rows[i], results[i]);
      if T.ActiveIds(rows[j]) != {} {
        assert Prompt(c, xs[j], rows[j]);
        PromptCallTurns(c, timeout, xs[j], rows[j], results[j], rows[i], results[i]);
      }
    }
  }

  lemma PromptCallTurns(c: Config, timeout: real, x: Call,
                        rows: T.Rows, results: T.Results, rows': T.Rows, results': T.Results)
    requires c.Valid() && Dated(rows) && InBudget(TableView(rows))
    requires CallIs(c, timeout, x, rows, results, rows', results') && Prompt(c, x, rows)
    requires T.ActiveIds(rows) != {}
    ensures EventOf(c, x).Some?
  {
    PromptCallClaims(c, timeout, x, rows, results, rows', results');
    ClaimIsTurn(c, timeout, x, rows, results, rows', results');
  }

  /** As many prompt calls as the active tasks have executions left finish every task: nothing
      is active any more, and each task was finished exactly once with a terminal outcome. */
  lemma WorkerFinishes(c: Config, timeout: real, xs: seq<Call>, rows: seq<T.Rows>, results: seq<T.Results>)
    requires c.Valid() && TableCalls(c, timeout, xs, rows, results)
    requires Dated(rows[0]) && InBudget(TableView(rows[0]))
    requires forall k :: 0 <= k < |xs| ==> Prompt(c, xs[k], rows[k])
    requires Sum(Left(TableView(rows[0]))) <= |xs|
    ensures T.ActiveIds(rows[|xs|]) == {}
    ensures forall x :: x in T.ActiveIds(rows[0]) ==>
              && Finishes(Events(c, xs), x, |xs|) == 1
              && x in results[|xs|] && results[|xs|][x].status.Terminal()
  {
    hide TableView, Dated, InBudget, Goes, EventOf, CallIs, Prompt, T.ActiveIds;
    var n := |xs|;
    TurnsOrEmpty(c, timeout, xs, rows, results, n);
    forall i | 0 <= i <= n ensures Dated(rows[i]) && InBudget(TableView(rows[i])) {
      TablesAlong(c, timeout, xs, rows, results, i);
    }
    var es, ms := Events(c, xs), Budgets(rows);
    forall i | 0 <= i < n ensures Goes(ms[i], es[i], ms[i + 1]) {
      CallUsesBudget(c, timeout, xs[i], rows[i], results[i], rows[i + 1], results[i + 1]);
    }
    TurnsAreBounded(ms, es, n);
    BudgetKeys(rows[n]);
    LeftIsPositive(TableView(rows[n]));
    SumIsPositive(ms[n]);
    WorkerDrains(c, timeout, xs, rows, results);
  }

  lemma LeftIsPositive(v: View)
    requires InBudget(v)
    ensures forall id | id in Left(v) :: Left(v)[id] > 0
  {}
}
