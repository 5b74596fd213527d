/** The in-memory result backend (results.py) and AsyncResult.get (task.py) over it. The
    backend files task objects that other threads may go on changing. */
module MemoryResults {
  import opened Tasks

  /** What a task object tells a caller of get. */
  datatype Told = Told(status: Status, result: Value, error: Option<string>)

  function Says(t: Task): Told
    reads t
  {
    Told(t.status, t.result, t.error)
  }

  /** Another thread changes a task object. */
  datatype Write = Write(task: Task, told: Told)

  /** What an object says after some writes, if it said was before. */
  function Later(was: Told, t: Task, writes: seq<Write>): Told {
    if writes == [] then was
    else if writes[|writes| - 1].task == t then writes[|writes| - 1].told
    else Later(was, t, writes[..|writes| - 1])
  }

  lemma {:induction false} LaterConcat(was: Told, t: Task, a: seq<Write>, b: seq<Write>)
    ensures Later(was, t, a + b) == Later(Later(was, t, a), t, b)
    decreases |b|
  {
    if b == [] {
      assert a + b == a;
    } else {
      assert (a + b)[..|a + b| - 1] == a + b[..|b| - 1];
      LaterConcat(was, t, a, b[..|b| - 1]);
    }
  }

  predicate Untouched(t: Task, writes: seq<Write>) { forall i :: 0 <= i < |writes| ==> writes[i].task != t }

  lemma {:induction false} LaterUntouched(was: Told, t: Task, writes: seq<Write>)
    requires Untouched(t, writes)
    ensures Later(was, t, writes) == was
  {
    if writes != [] { LaterUntouched(was, t, writes[..|writes| - 1]); }
  }

  // ------------------------------------------------------ what is filed

  function Filed(results: map<Id, Task>, stored: seq<Task>): map<Id, Task> {
    if stored == [] then results
    else Filed(results, stored[..|stored| - 1])[stored[|stored| - 1].id := stored[|stored| - 1]]
  }

  /** The object last stored for id. */
  function LastFiled(stored: seq<Task>, id: Id): Option<Task> {
    if stored == [] then None
    else if stored[|stored| - 1].id == id then Some(stored[|stored| - 1])
    else LastFiled(stored[..|stored| - 1], id)
  }

  /** Under each id lies exactly the object last stored for it. */
  lemma {:induction false} FiledHoldsLast(stored: seq<Task>, id: Id)
    ensures var results := Filed(map[], stored);
            match LastFiled(stored, id)
            case Some(t) => id in results && results[id] == t && t.id == id && t in stored
            case None => id !in results
  {
    if stored != [] { FiledHoldsLast(stored[..|stored| - 1], id); }
  }

  lemma {:induction false} FiledConcat(results: map<Id, Task>, a: seq<Task>, b: seq<Task>)
    ensures Filed(results, a + b) == Filed(Filed(results, a), b)
    decreases |b|
  {
    if b == [] {
      assert a + b == a;
    } else {
      assert (a + b)[..|a + b| - 1] == a + b[..|b| - 1];
      FiledConcat(results, a, b[..|b| - 1]);
    }
  }

  // -------------------------------------------------------- looks of wait

  /** What other threads stored and changed since the look before, and the time of this one. */
  datatype Poll = Poll(stored: seq<Task>, writes: seq<Write>, now: real)

  function StoredIn(polls: seq<Poll>): seq<Task> {
    if polls == [] then [] else StoredIn(polls[..|polls| - 1]) + polls[|polls| - 1].stored
  }

  function WritesIn(polls: seq<Poll>): seq<Write> {
    if polls == [] then [] else WritesIn(polls[..|polls| - 1]) + polls[|polls| - 1].writes
  }

  lemma NextLook(polls: seq<Poll>, n: nat)
    requires n < |polls|
    ensures StoredIn(polls[..n + 1]) == StoredIn(polls[..n]) + polls[n].stored
    ensures WritesIn(polls[..n + 1]) == WritesIn(polls[..n]) + polls[n].writes
  {
    assert polls[..n + 1][..n] == polls[..n];
  }

  ghost function Written(writes: seq<Write>): set<Task> { set w | w in writes :: w.task }

  ghost function WrittenIn(polls: seq<Poll>): set<Task> { set p, t | p in polls && t in Written(p.writes) :: t }

  /** The objects that can be filed while wait looks. */
  ghost function Known(results: map<Id, Task>, polls: seq<Poll>): set<Task> {
    results.Values + (set p, t | p in polls && t in p.stored :: t)
  }

  /** What get reads of id if the k-th look is the one that finds it, with the writes made
      since, judged from the objects as they are now. */
  function ToldAt(results: map<Id, Task>, polls: seq<Poll>, k: nat, since: seq<Write>, id: Id): Option<Told>
    requires k <= |polls|
    reads Filed(results, StoredIn(polls[..k])).Values
  {
    var filed := Filed(results, StoredIn(polls[..k]));
    if id in filed then Some(Later(Says(filed[id]), filed[id], WritesIn(polls[..k]) + since)) else None
  }

  /** The k-th look finds a terminal outcome. */
  predicate ReadyAt(results: map<Id, Task>, polls: seq<Poll>, k: nat, id: Id)
    requires k <= |polls|
    reads Filed(results, StoredIn(polls[..k])).Values
  {
    && ToldAt(results, polls, k, [], id).Some?
    && var status := ToldAt(results, polls, k, [], id).value.status; status == Success || status == Failed
  }

  lemma {:induction false} FiledAreKnown(results: map<Id, Task>, polls: seq<Poll>, k: nat)
    requires k <= |polls|
    ensures Filed(results, StoredIn(polls[..k])).Values <= Known(results, polls)
  {
    if k > 0 {
      NextLook(polls, k - 1);
      FiledAreKnown(results, polls, k - 1);
      FiledConcat(results, StoredIn(polls[..k - 1]), polls[k - 1].stored);
      FiledValues(Filed(results, StoredIn(polls[..k - 1])), polls[k - 1].stored);
      assert polls[k - 1] in polls;
    }
  }

  lemma {:induction false} FiledValues(results: map<Id, Task>, stored: seq<Task>)
    ensures Filed(results, stored).Values <= results.Values + set t | t in stored
  {
    if stored != [] {
      FiledValues(results, stored[..|stored| - 1]);
      var before, last := Filed(results, stored[..|stored| - 1]), stored[|stored| - 1];
      assert before[last.id := last].Values <= before.Values + {last};
    }
  }

  lemma NoLookYet(results: map<Id, Task>, polls: seq<Poll>)
    ensures StoredIn(polls[..0]) == [] && WritesIn(polls[..0]) == [] && Filed(results, []) == results
    ensures forall was, t :: Later(was, t, []) == was
  {}

  lemma WrittenInPoll(polls: seq<Poll>, n: nat)
    requires n < |polls|
    ensures Written(polls[n].writes) <= WrittenIn(polls)
  {
    assert polls[n] in polls;
  }

  /** Other threads' writes take effect. */
  method Perform(writes: seq<Write>)
    modifies Written(writes)`status, Written(writes)`result, Written(writes)`error
    ensures forall t: Task :: old(allocated(t)) ==> Says(t) == Later(old(Says(t)), t, writes)
  {
    for i := 0 to |writes|
      invariant forall t: Task :: old(allocated(t)) ==> Says(t) == Later(old(Says(t)), t, writes[..i])
    {
      assert writes[..i + 1][..i] == writes[..i];
      var w := writes[i];
      assert w in writes;
      w.task.status, w.task.result, w.task.error := w.told.status, w.told.result, w.told.error;
    }
    assert writes[..|writes|] == writes;
  }

  class InMemoryResultBackend {
    var results: map<Id, Task>

    constructor ()
      ensures results == map[]
    {
      results := map[];
    }

    /** Files the task object itself, not a copy. */
    method Store(task: Task)
      modifies this
      ensures results == old(results)[task.id := task]
    {
      results := results[task.id := task];
    }

    method Get(id: Id) returns (r: Option<Task>)
      ensures r == if id in results then Some(results[id]) else None
    {
      r := if id in results then Some(results[id]) else None;
    }

    /** What other threads do between two looks. */
    method Others(p: Poll)
      modifies this, Written(p.writes)`status, Written(p.writes)`result, Written(p.writes)`error
      ensures results == Filed(old(results), p.stored)
      ensures forall t: Task :: old(allocated(t)) ==> Says(t) == Later(old(Says(t)), t, p.writes)
    {
      for i := 0 to |p.stored|
        invariant results == Filed(old(results), p.stored[..i])
        invariant forall t: Task :: old(allocated(t)) ==> Says(t) == old(Says(t))
      {
        assert p.stored[..i + 1][..i] == p.stored[..i];
        Store(p.stored[i]);
      }
      assert p.stored[..|p.stored|] == p.stored;
      Perform(p.writes);
    }

    /** wait: the object filed under id at the first look at which its status is terminal, or
        None for TaskTimeout (expired) or for going on waiting. n is the number of looks. */
    method Wait(id: Id, deadline: Option<real>, polls: seq<Poll>) returns (r: Option<Task>, expired: bool, n: nat)
      modifies this, WrittenIn(polls)`status, WrittenIn(polls)`result, WrittenIn(polls)`error
      ensures n <= |polls| && results == Filed(old(results), StoredIn(polls[..n]))
      ensures forall t: Task :: old(allocated(t)) ==> Says(t) == Later(old(Says(t)), t, WritesIn(polls[..n]))
      ensures forall k :: 0 < k < n ==> !old(ReadyAt(results, polls, k, id))
      ensures forall k :: 0 <= k < n - 1 ==> deadline == None || polls[k].now < deadline.value
      ensures r.Some? ==> n > 0 && !expired && id in results && r.value == results[id]
      ensures r.Some? ==> r.value.status == Success || r.value.status == Failed
      ensures n > 0 ==> (r.Some? <==> old(ReadyAt(results, polls, n, id)))
      ensures expired ==> n > 0 && deadline.Some? && deadline.value <= polls[n - 1].now
      ensures r == None && !expired ==> n == |polls|
    {
      hide Filed, StoredIn, WritesIn, Later, Written, WrittenIn;
      n, r, expired := 0, None, false;
      NoLookYet(results, polls);
      while n < |polls|
        invariant n <= |polls| && r == None && !expired
        invariant results == Filed(old(results), StoredIn(polls[..n]))
        invariant forall t: Task :: old(allocated(t)) ==> Says(t) == Later(old(Says(t)), t, WritesIn(polls[..n]))
        invariant forall k :: 0 < k <= n ==> !old(ReadyAt(results, polls, k, id))
        invariant forall k :: 0 <= k < n ==> deadline == None || polls[k].now < deadline.value
      {
        NextLook(polls, n);
        FiledConcat(old(results), StoredIn(polls[..n]), polls[n].stored);
        ghost var was := WritesIn(polls[..n]);
        WrittenInPoll(polls, n);
        Others(polls[n]);
        forall t: Task | old(allocated(t)) ensures Says(t) == Later(old(Says(t)), t, was + polls[n].writes) {
          LaterConcat(old(Says(t)), t, was, polls[n].writes);
        }
        n := n + 1;
        FiledAreKnown(old(results), polls, n);
        if id in results {
          ghost var filed := results[id];
          assert filed in Known(old(results), polls);
          assert old(allocated(filed));
          assert Says(filed) == Later(old(Says(filed)), filed, WritesIn(polls[..n]));
        }
        assert WritesIn(polls[..n]) + [] == WritesIn(polls[..n]);
        r := Get(id);
        if r.Some? && r.value.status.Terminal() { return r, false, n; }
        r := None;
        if deadline.Some? && deadline.value <= polls[n - 1].now { return None, true, n; }
      }
    }
  }

  /** What get makes of a task that wait returned. */
  function GotOf(told: Told): Got {
    match told.status
    case Success => GotValue(told.result)
    case Failed => RaisedFailed(told.error)
    case _ => RaisedUnexpected
  }

  class InMemoryAsyncResult {
    const taskId: Id
    const backend: InMemoryResultBackend

    constructor (taskId: Id, backend: InMemoryResultBackend)
      ensures this.taskId == taskId && this.backend == backend
    {
      this.taskId, this.backend := taskId, backend;
    }

    /** get, with the writes that other threads make between the return of wait and the test
        of the status (since). It reports what the object last stored for the id says by then:
        its value or its error, or the unexpected-status error exactly when such a write has
        made its status non-terminal again. */
    method Get(deadline: Option<real>, polls: seq<Poll>, since: seq<Write>, ghost history: seq<Task>)
      returns (r: Got, ghost n: nat)
      requires backend.results == Filed(map[], history)
      modifies backend, WrittenIn(polls)`status, WrittenIn(polls)`result, WrittenIn(polls)`error
      modifies Written(since)`status, Written(since)`result, Written(since)`error
      ensures n <= |polls|
      ensures r == RaisedTimeout || r == NotYet <==> n == 0 || !old(ReadyAt(backend.results, polls, n, taskId))
      ensures r != RaisedTimeout && r != NotYet ==>
                var stored := LastFiled(history + StoredIn(polls[..n]), taskId);
                && stored.Some? && old(ToldAt(backend.results, polls, n, since, taskId)).Some?
                && r == GotOf(old(ToldAt(backend.results, polls, n, since, taskId)).value)
                && r == GotOf(Says(stored.value))
                && r == (match stored.value.status
                         case Success => GotValue(stored.value.result)
                         case Failed => RaisedFailed(stored.value.error)
                         case _ => RaisedUnexpected)
                && (Untouched(stored.value, since) ==> r != RaisedUnexpected)
      ensures r == RaisedTimeout ==> n > 0 && deadline.Some? && deadline.value <= polls[n - 1].now
      ensures forall k :: 0 < k < n ==>
                && !old(ReadyAt(backend.results, polls, k, taskId))
                && (deadline == None || polls[k - 1].now < deadline.value)
      ensures r == NotYet ==> n == |polls|
    {
      hide Filed, StoredIn, WritesIn, Later, Written, WrittenIn, LastFiled;
      var w, expired;
      w, expired, n := backend.Wait(taskId, deadline, polls);
      if w == None { return if expired then RaisedTimeout else NotYet, n; }
      ghost var all := history + StoredIn(polls[..n]);
      FiledConcat(map[], history, StoredIn(polls[..n]));
      FiledHoldsLast(all, taskId);
      var t := w.value;
      ghost var looked := Says(t);
      FiledAreKnown(old(backend.results), polls, n);
      assert t in Known(old(backend.results), polls);
      LaterConcat(old(Says(t)), t, WritesIn(polls[..n]), since);
      assert WritesIn(polls[..n]) + [] == WritesIn(polls[..n]);
      Perform(since);
      if Untouched(t, since) { LaterUntouched(looked, t, since); }
      r := if t.status == Success then GotValue(t.result)
           else if t.status == Failed then RaisedFailed(t.error)
           else RaisedUnexpected;
    }
  }
}
