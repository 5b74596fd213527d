/** The same for one worker draining the in-memory queue. */
module MemoryDraining {
  import opened Tasks
  import opened RetryPolicies
  import opened Protocol
  import M = MemoryQueue
  import R = MemoryRuns
  import opened Agreement
  import opened Draining
  import opened MemoryWorkers

  /** The worker is alone: nothing happens between the rounds of its dequeue. */
  predicate Silent(rounds: seq<M.Round>) { forall k :: 0 <= k < |rounds| ==> rounds[k].ops == [] }

  /** What a round of a lone worker meets shows the same jobs. */
  lemma {:induction false} MetShows(m: M.Mem, v: View, rounds: seq<M.Round>, k: nat) returns (u: View)
    requires R.Clean(m) && Shows(m, v) && Silent(rounds) && k < |rounds|
    ensures R.Clean(M.Met(m, rounds, k)) && Shows(M.Met(m, rounds, k), u) && SameJobs(v, u)
  {
    hide R.Clean, R.Ids, Shows, M.Mem.Reclaimed;
    if k == 0 {
      u := v;
    } else {
      var w := MetShows(m, v, rounds, k - 1);
      var met, now := M.Met(m, rounds, k - 1), rounds[k - 1].now;
      assert rounds[k].ops == [];
      R.ReclaimMovesIds(met, now);
      SameIdsClean(met, met.Reclaimed(now));
      ShowsReclaimed(met, w, now);
      NormJobs(w, now);
      u := Norm(w, now);
    }
  }

  lemma SameIdsClean(m: M.Mem, n: M.Mem)
    requires R.Clean(m) && R.Ids(m) == R.Ids(n)
    ensures R.Clean(n)
  {}

  /** What get would find filed is an outcome. */
  predicate Settled(g: Got) { g.GotValue? || g.RaisedFailed? }

  /** A call files one outcome if it finishes its task, and none otherwise. */
  predicate Files(filed: Filings, e: Event, filed': Filings) {
    if e.Some? && e.value.1 then
      var id := e.value.0;
      id in filed' && Settled(filed'[id]) && filed' == filed[id := filed'[id]]
    else filed' == filed
  }

  /** The inputs of one run_once over the in-memory queue. */
  datatype Turning = Turning(rounds: seq<M.Round>, exec: Execution, doneAt: real)

  predicate Apt(policy: Policy, x: Turning) { |x.rounds| > 0 && Silent(x.rounds) && Possible(policy, x.exec) }

  /** What a call leaves: a clean queue that shows a view, with the budget it has used, and
      what it has filed. */
  ghost predicate MemoryLeaves(v: View, filed: Filings, t: Aftermath, v': View)
    requires InBudget(v)
  {
    && R.Clean(t.queue) && Shows(t.queue, v') && InBudget(v')
    && Goes(Left(v), t.did, Left(v')) && Files(filed, t.did, t.filed)
  }

  lemma MemoryCallUsesBudget(m: M.Mem, v: View, filed: Filings, timeout: real, policy: Policy, x: Turning)
    returns (v': View)
    requires R.Clean(m) && Shows(m, v) && InBudget(v) && Apt(policy, x)
    ensures MemoryLeaves(v, filed, MemoryRunOnce(m, filed, x.rounds, timeout, policy, x.exec, x.doneAt), v')
  {
    hide R.Clean, R.Ids, Shows, M.Mem.Dequeued, M.Met, Processed, IsBest, Left, Turn, Files, Norm;
    var n := |x.rounds| - 1;
    var met, now := M.Met(m, x.rounds, n), x.rounds[n].now;
    var u := MetShows(m, v, x.rounds, n);
    SameBudget(v, u);
    MemoryDelivers(met, u, now, timeout);
    R.TimelyStep(met, M.DequeueOp(now, timeout));
    NormJobs(u, now);
    var (m1, r1) := met.Dequeued(now, timeout);
    if r1 == None {
      v' := Norm(u, now);
      SameBudget(u, v');
      FilesNothing(filed);
    } else {
      var e := r1.value;
      BestIsThere(Norm(u, now), now, e.id);
      var v1 := ClaimIn(Norm(u, now), e.id, now + timeout);
      assert SameJobs(u, v1);
      SameBudget(u, v1);
      JustClaimed(met, now, timeout);
      EntryInView(met, u, now, timeout);
      v' := ProcessedLeaves(m1, v1, filed, e, policy, x.exec, x.doneAt);
    }
  }

  lemma FilesNothing(filed: Filings)
    ensures Files(filed, None, filed)
  {}

  lemma ProcessedLeaves(m: M.Mem, v: View, filed: Filings, e: M.Entry, policy: Policy, exec: Execution, doneAt: real)
    returns (v': View)
    requires R.Clean(m) && Shows(m, v) && InBudget(v) && Possible(policy, exec)
    requires e.id in M.ClaimIds(m.claims) && e.id in v && v[e.id].job == EntryJob(e)
    ensures MemoryLeaves(v, filed, Processed(m, filed, e, policy, exec, doneAt), v')
  {
    hide R.Clean, R.Ids, Shows, M.Pop, Decide, Left, M.Mem.Changed, M.Mem.Acked, M.Mem.Enqueued;
    MemoryAcks(m, v, e.id);
    DecideOnCopy(policy, EntryData(e), exec, doneAt);
    match Decide(policy, EntryData(e), exec, doneAt)
    case Finish(u) =>
      R.TimelyStep(m, M.AckOp(e.id));
      FinishTurn(v, e.id);
      v' := v - {e.id};
    case Retry(u) =>
      ChangedClaim(m, e.id, u.retries, u.availableAt);
      R.TimelyStep(m, M.NackOp(DataEntry(u), true));
      MemoryEnqueues(m.Acked(e.id), v - {e.id}, DataEntry(u));
      RetryTurn(v, e.id, DataJob(u));
      v' := v[e.id := Slot(DataJob(u), None)];
      assert (v - {e.id})[e.id := Slot(DataJob(u), None)] == v';
    case PolicyError =>
      v' := v;
  }

  lemma BestIsThere(v: View, now: real, id: Id)
    requires IsBest(v, now, id)
    ensures id in v
  {}

  lemma JustClaimed(m: M.Mem, now: real, timeout: real)
    requires m.Dequeued(now, timeout).1.Some?
    ensures m.Dequeued(now, timeout).1.value.id in M.ClaimIds(m.Dequeued(now, timeout).0.claims)
  {
    var q := m.Reclaimed(now);
    var e := m.Dequeued(now, timeout).1.value;
    R.PutKeeps(q.claims, M.Claim(e, now + timeout), e.id);
    var claims := m.Dequeued(now, timeout).0.claims;
    var i :| 0 <= i < |claims| && claims[i].entry.id == e.id;
    assert M.ClaimIds(claims)[i] == e.id;
  }

  /** The entry that dequeue returns is the job that the view shows under its id. */
  lemma EntryInView(m: M.Mem, v: View, now: real, timeout: real)
    requires Shows(m, v) && m.Dequeued(now, timeout).1.Some?
    ensures var e := m.Dequeued(now, timeout).1.value;
            e.id in v && v[e.id].job == EntryJob(e)
  {
    ShowsReclaimed(m, v, now);
  }

  // ---------------------------------------------------------- whole drains

  /** The queue and what is filed, after each call. */
  datatype Stand = Stand(queue: M.Mem, filed: Filings)

  /** A worker alone with the in-memory queue: call after call, some of which may come back
      empty-handed or raise. */
  ghost predicate MemoryCalls(policy: Policy, timeout: real, inputs: seq<Turning>, ss: seq<Stand>, es: seq<Event>) {
    && |inputs| == |es| && |ss| == |es| + 1
    && forall i :: 0 <= i < |es| ==> CallGoes(policy, timeout, inputs[i], ss[i], ss[i + 1], es[i])
  }

  predicate CallGoes(policy: Policy, timeout: real, x: Turning, s: Stand, s': Stand, e: Event) {
    && Apt(policy, x)
    && MemoryRunOnce(s.queue, s.filed, x.rounds, timeout, policy, x.exec, x.doneAt) == Aftermath(s'.queue, s'.filed, e)
  }

  lemma {:induction false} MemoryViews(policy: Policy, timeout: real, inputs: seq<Turning>, ss: seq<Stand>,
                                       es: seq<Event>, v: View, i: nat)
    returns (vs: seq<View>)
    requires MemoryCalls(policy, timeout, inputs, ss, es) && i <= |es|
    requires R.Clean(ss[0].queue) && Shows(ss[0].queue, v) && InBudget(v)
    ensures |vs| == i + 1 && vs[0] == v
    ensures forall k :: 0 <= k <= i ==> R.Clean(ss[k].queue) && Shows(ss[k].queue, vs[k]) && InBudget(vs[k])
    ensures forall k :: 0 <= k < i ==> Goes(Left(vs[k]), es[k], Left(vs[k + 1]))
    ensures forall k :: 0 <= k < i && es[k].Some? && es[k].value.1 ==>
              es[k].value.0 in ss[i].filed && Settled(ss[i].filed[es[k].value.0])
  {
    hide R.Clean, Shows, InBudget, Left, Goes, MemoryRunOnce, Apt;
    if i == 0 {
      vs := [v];
    } else {
      vs := MemoryViews(policy, timeout, inputs, ss, es, v, i - 1);
      assert CallGoes(policy, timeout, inputs[i - 1], ss[i - 1], ss[i], es[i - 1]);
      var v' := MemoryCallUsesBudget(ss[i - 1].queue, vs[i - 1], ss[i - 1].filed, timeout, policy, inputs[i - 1]);
      vs := vs + [v'];
    }
  }

  /** Of the calls of a worker alone with the in-memory queue at most as many return True as
      the queued tasks have executions left. When size() is 0 every task that was queued has
      been finished, and its outcome filed, exactly once, and an outcome is what is filed. */
  lemma MemoryWorkerDrains(policy: Policy, timeout: real, inputs: seq<Turning>, ss: seq<Stand>,
                           es: seq<Event>, v: View)
    requires MemoryCalls(policy, timeout, inputs, ss, es)
    requires R.Clean(ss[0].queue) && Shows(ss[0].queue, v) && InBudget(v)
    ensures Turns(es, |es|) <= Sum(Left(v))
    ensures var n := |es|;
            ss[n].queue.Size() == 0 ==>
              forall x :: x in v ==> Finishes(es, x, n) == 1 && x in ss[n].filed && Settled(ss[n].filed[x])
  {
    hide R.Clean, Goes, CallGoes;
    var n := |es|;
    var vs := MemoryViews(policy, timeout, inputs, ss, es, v, n);
    var budgets := seq(n + 1, i requires 0 <= i < n + 1 => Left(vs[i]));
    TurnsAreBounded(budgets, es, n);
    EmptyShowsNothing(ss[n].queue, vs[n]);
    if ss[n].queue.Size() == 0 {
      forall x | x in v ensures x in ss[n].filed && Settled(ss[n].filed[x]) {
        assert Finishes(es, x, n) == 1;
        var k := FinishedAt(es, x, n);
      }
    }
  }

  lemma EmptyShowsNothing(m: M.Mem, v: View)
    requires Shows(m, v)
    ensures m.Size() == 0 ==> v == map[]
  {
    if v != map[] {
      var id :| id in v;
      assert R.IsActive(m, id);
      assert m.Size() > 0;
    }
  }

  // -------------------------------------------------- the worker does finish

  /** The call comes when everything queued is due, and its dequeue stops at its first round
      that finds something. */
  ghost predicate Prompt(policy: Policy, timeout: real, x: Turning, m: M.Mem) {
    && |x.rounds| > 0 && Silent(x.rounds) && M.AllIdle(m, x.rounds, timeout, |x.rounds| - 1)
    && R.AllDue(m, x.rounds[0].now)
  }

  lemma DueIsHandedOut(m: M.Mem, now: real, timeout: real)
    requires R.AllDue(m, now) && m.Size() > 0
    ensures m.Dequeued(now, timeout).1.Some?
  {
    R.AllDueAfterReclaim(m, now);
    var es := m.Reclaimed(now).pending;
    assert es[0].Ready(now);
    M.ScanFindsFirstBest(es, now, |es|);
  }

  /** While something is queued such a call is a turn. */
  lemma PromptCallTurns(m: M.Mem, v: View, filed: Filings, timeout: real, policy: Policy, x: Turning)
    requires R.Clean(m) && Shows(m, v) && InBudget(v) && Apt(policy, x) && policy.Valid()
    requires Prompt(policy, timeout, x, m) && m.Size() > 0
    ensures MemoryRunOnce(m, filed, x.rounds, timeout, policy, x.exec, x.doneAt).did.Some?
  {
    hide M.Mem.Dequeued, Processed, R.Clean, Shows, R.AllDue;
    var now := x.rounds[0].now;
    assert M.Met(m, x.rounds, 0) == m;
    DueIsHandedOut(m, now, timeout);
    assert |x.rounds| == 1;
    var (m1, r1) := m.Dequeued(now, timeout);
    EntryInView(m, v, now, timeout);
    ProcessedMeans(m1, filed, r1.value, policy, x.exec, x.doneAt);
  }

  lemma {:induction false} TurnsOrEmpty(policy: Policy, timeout: real, inputs: seq<Turning>, ss: seq<Stand>,
                                        es: seq<Event>, vs: seq<View>, i: nat)
    requires policy.Valid() && MemoryCalls(policy, timeout, inputs, ss, es) && i <= |es| < |vs|
    requires forall k :: 0 <= k <= |es| ==> R.Clean(ss[k].queue) && Shows(ss[k].queue, vs[k]) && InBudget(vs[k])
    requires forall k :: 0 <= k < |es| ==> Goes(Left(vs[k]), es[k], Left(vs[k + 1]))
    requires forall k :: 0 <= k < |es| ==> Prompt(policy, timeout, inputs[k], ss[k].queue)
    ensures ss[i].queue.Size() == 0 || Turns(es, i) == i
  {
    hide R.Clean, Shows, InBudget, Left, MemoryRunOnce, Apt, Prompt, M.Mem.Size;
    if i > 0 {
      var j := i - 1;
      TurnsOrEmpty(policy, timeout, inputs, ss, es, vs, j);
      assert CallGoes(policy, timeout, inputs[j], ss[j], ss[i], es[j]);
      assert Goes(Left(vs[j]), es[j], Left(vs[i]));
      if ss[j].queue.Size() > 0 {
        assert Prompt(policy, timeout, inputs[j], ss[j].queue);
        PromptCallTurns(ss[j].queue, vs[j], ss[j].filed, timeout, policy, inputs[j]);
      } else {
        EmptyShowsNothing(ss[j].queue, vs[j]);
        NothingLeft(ss[j].queue, vs[j], es[j], ss[i].queue, vs[i]);
      }
    }
  }

  lemma NothingLeft(m: M.Mem, v: View, e: Event, m': M.Mem, v': View)
    requires v == map[] && InBudget(v) && InBudget(v') && Goes(Left(v), e, Left(v')) && Shows(m', v')
    ensures m'.Size() == 0
  {
    assert v'.Keys == Left(v').Keys == {};
    QueuedIsShown(m', v');
  }

  lemma QueuedIsShown(m: M.Mem, v: View)
    requires Shows(m, v)
    ensures m.Size() > 0 ==> v != map[]
  {
    if m.pending != [] {
      assert m.pending[0].id in v;
    } else if m.claims != [] {
      assert m.claims[0].entry.id in v;
    }
  }

  /** As many prompt calls as the queued tasks have executions left empty the queue. */
  lemma MemoryWorkerFinishes(policy: Policy, timeout: real, inputs: seq<Turning>, ss: seq<Stand>,
                             es: seq<Event>, v: View)
    requires policy.Valid() && MemoryCalls(policy, timeout, inputs, ss, es)
    requires R.Clean(ss[0].queue) && Shows(ss[0].queue, v) && InBudget(v)
    requires forall k :: 0 <= k < |es| ==> Prompt(policy, timeout, inputs[k], ss[k].queue)
    requires Sum(Left(v)) <= |es|
    ensures ss[|es|].queue.Size() == 0
    ensures forall x :: x in v ==>
              Finishes(es, x, |es|) == 1 && x in ss[|es|].filed && Settled(ss[|es|].filed[x])
  {
    hide R.Clean, Goes, CallGoes, Prompt, Shows, InBudget, Left;
    var n := |es|;
    var vs := MemoryViews(policy, timeout, inputs, ss, es, v, n);
    var budgets := seq(n + 1, i requires 0 <= i < n + 1 => Left(vs[i]));
    TurnsAreBounded(budgets, es, n);
    TurnsOrEmpty(policy, timeout, inputs, ss, es, vs, n);
    LeftIsPositive(vs[n]);
    SumIsPositive(Left(vs[n]));
    EmptyIffNoneLeft(ss[n].queue, vs[n]);
    MemoryWorkerDrains(policy, timeout, inputs, ss, es, v);
  }

  lemma EmptyIffNoneLeft(m: M.Mem, v: View)
    requires Shows(m, v) && InBudget(v)
    ensures Left(v) == map[] ==> m.Size() == 0
  {
    if Left(v) == map[] { NothingLeft(m, map[], None, m, v) by { assert v.Keys == Left(v).Keys; } }
  }
}
