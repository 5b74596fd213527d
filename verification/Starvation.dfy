/** Lazy reclaim over the tasks table: a task whose claim has expired is not delivered again
    for as long as every dequeue finds something ready, however urgent the task is. */
module Starvation {
  import opened Tasks
  import opened TaskTable
  import opened Delivery

  /** An enqueue, an ack or dead letter, or a dequeue without locks and what it returns. */
  datatype Act =
    | Insert(id: Id, row: Row)
    | Finish(task: TaskData)
    | Take(now: real, timeout: real, got: Option<Id>)

  predicate Does(ser: Serializer, rows: Rows, a: Act, rows': Rows) {
    match a
    case Insert(id, row) => id !in rows && rows' == rows[id := row]
    case Finish(t) => rows' == Settle(rows, t)
    case Take(now, timeout, Some(id)) => Delivers(ser, rows, now, timeout, id, rows')
    case Take(now, timeout, None) => NothingReady(Offered(rows, now), now) && rows' == Reclaim(rows, now)
  }

  ghost predicate IsHistory(ser: Serializer, tables: seq<Rows>, acts: seq<Act>) {
    |tables| == |acts| + 1 && forall i :: 0 <= i < |acts| ==> Does(ser, tables[i], acts[i], tables[i + 1])
  }

  /** The dequeue finds nothing ready, and so reclaims. */
  predicate FindsNothing(rows: Rows, a: Act) { a.Take? && NothingReady(rows, a.now) }

  lemma RunningStays(ser: Serializer, rows: Rows, a: Act, rows': Rows, x: Id)
    requires Does(ser, rows, a, rows') && x in rows && rows[x].status == Running
    requires !FindsNothing(rows, a) && !(a.Finish? && a.task.id == x)
    ensures x in rows' && rows'[x] == rows[x] && !(a.Take? && a.got == Some(x))
  {}

  /** While every dequeue finds something ready, a claimed task that nobody settles keeps its
      row, whether its claim has expired or not. */
  lemma {:induction false} StaysClaimed(ser: Serializer, tables: seq<Rows>, acts: seq<Act>, x: Id, j: nat, i: nat)
    requires IsHistory(ser, tables, acts) && j <= i < |tables|
    requires x in tables[j] && tables[j][x].status == Running
    requires forall k :: j <= k < i ==> !FindsNothing(tables[k], acts[k]) && !(acts[k].Finish? && acts[k].task.id == x)
    ensures x in tables[i] && tables[i][x] == tables[j][x]
    decreases i
  {
    if i > j {
      StaysClaimed(ser, tables, acts, x, j, i - 1);
      assert Does(ser, tables[i - 1], acts[i - 1], tables[i]);
      RunningStays(ser, tables[i - 1], acts[i - 1], tables[i], x);
    }
  }

  /** A claimed task that nobody settles is delivered again only by or after a dequeue that
      finds nothing ready. */
  lemma RedeliveredOnlyWhenIdle(ser: Serializer, tables: seq<Rows>, acts: seq<Act>, x: Id, j: nat, i: nat)
    requires IsHistory(ser, tables, acts) && j <= i < |acts|
    requires x in tables[j] && tables[j][x].status == Running
    requires forall k :: j <= k < i ==> !(acts[k].Finish? && acts[k].task.id == x)
    requires acts[i].Take? && acts[i].got == Some(x)
    ensures exists k :: j <= k <= i && FindsNothing(tables[k], acts[k])
  {
    if forall k :: j <= k < i ==> !FindsNothing(tables[k], acts[k]) {
      StaysClaimed(ser, tables, acts, x, j, i);
      assert Does(ser, tables[i], acts[i], tables[i + 1]);
      if !FindsNothing(tables[i], acts[i]) {
        RunningStays(ser, tables[i], acts[i], tables[i + 1], x);
      }
    }
  }

  /** The row has a higher priority than r, or the same and is no younger. */
  predicate GoesFirst(q: Row, r: Row) {
    r.priority < q.priority || (r.priority == q.priority && q.createdAt <= r.createdAt)
  }

  lemma ReadyStays(ser: Serializer, rows: Rows, a: Act, rows': Rows, x: Id, now: real)
    requires Does(ser, rows, a, rows') && x in rows && rows[x].Ready(now) && (a.Take? ==> now <= a.now)
    requires !(a.Finish? && a.task.id == x) && !(a.Take? && a.got == Some(x))
    ensures x in rows' && rows'[x] == rows[x]
    ensures a.Take? ==> a.got.Some? && a.got.value in rows && GoesFirst(rows[a.got.value], rows[x])
  {
    if a.Take? { assert rows[x].Ready(a.now); }
  }

  /** Once a task is ready (as every expired claim is after an idle dequeue, if the task is
      available) it waits only for tasks that it does not outrank: whatever is enqueued and
      settled meanwhile, every dequeue delivers it or one of those. */
  lemma {:induction false} OnlyUrgentGoFirst(ser: Serializer, tables: seq<Rows>, acts: seq<Act>, x: Id, now: real,
                                             j: nat, i: nat)
    requires IsHistory(ser, tables, acts) && j <= i < |acts|
    requires x in tables[j] && tables[j][x].Ready(now)
    requires forall k :: j <= k <= i ==>
               && !(acts[k].Finish? && acts[k].task.id == x)
               && (acts[k].Take? ==> now <= acts[k].now && acts[k].got != Some(x))
    ensures x in tables[i + 1] && tables[i + 1][x] == tables[j][x]
    ensures acts[i].Take? ==>
              && acts[i].got.Some? && acts[i].got.value in tables[i]
              && GoesFirst(tables[i][acts[i].got.value], tables[j][x])
    decreases i
  {
    if i > j { OnlyUrgentGoFirst(ser, tables, acts, x, now, j, i - 1); }
    assert Does(ser, tables[i], acts[i], tables[i + 1]);
    ReadyStays(ser, tables[i], acts[i], tables[i + 1], x, now);
  }

  // ------------------------------------------------- histories that starve

  function Ser(): Serializer { Serializer(v => Some("null"), b => Some(Null)) }

  function Fresh(priority: int): Row {
    Row("f", "null", "null", Pending, 0, 0, priority, 0.0, None, None, None, None, None)
  }

  /** Task 0, the most urgent, is claimed until 1; all others are claimed until 102. */
  predicate Starving(rows: Rows, n: nat) {
    && 0 in rows && rows[0] == Fresh(1).Claimed(0.0, 1.0)
    && forall id | id in rows && id != 0 :: id <= n && rows[id] == Fresh(0).Claimed(2.0, 100.0)
  }

  lemma {:induction false} Starves(n: nat) returns (tables: seq<Rows>, acts: seq<Act>)
    ensures IsHistory(Ser(), tables, acts) && |acts| == 2 * n + 2 && tables[0] == map[]
    ensures acts[1] == Take(0.0, 1.0, Some(0))
    ensures forall k :: 1 <= k <= n ==> acts[2 * k + 1] == Take(2.0, 100.0, Some(k))
    ensures Starving(tables[2 * n + 2], n)
  {
    hide Delivers, Starving;
    if n == 0 {
      FirstClaim();
      tables := [map[], map[0 := Fresh(1)], map[0 := Fresh(1).Claimed(0.0, 1.0)]];
      acts := [Insert(0, Fresh(1)), Take(0.0, 1.0, Some(0))];
    } else {
      tables, acts := Starves(n - 1);
      var rows := tables[2 * n];
      var rows' := NextClaim(rows, n);
      var tables' := tables + [rows[n := Fresh(0)], rows'];
      var acts' := acts + [Insert(n, Fresh(0)), Take(2.0, 100.0, Some(n))];
      forall i | 0 <= i < |acts'| ensures Does(Ser(), tables'[i], acts'[i], tables'[i + 1]) {
        if i < |acts| { assert Does(Ser(), tables[i], acts[i], tables[i + 1]); }
      }
      tables, acts := tables', acts';
    }
  }

  lemma FirstClaim()
    ensures Delivers(Ser(), map[0 := Fresh(1)], 0.0, 1.0, 0, map[0 := Fresh(1).Claimed(0.0, 1.0)])
    ensures Starving(map[0 := Fresh(1).Claimed(0.0, 1.0)], 0)
  {
    var rows: Rows := map[0 := Fresh(1)];
    assert rows[0].Ready(0.0);
    assert Claim(rows, 0, 0.0, 1.0) == map[0 := Fresh(1).Claimed(0.0, 1.0)];
  }

  lemma NextClaim(rows: Rows, n: nat) returns (rows': Rows)
    requires n > 0 && Starving(rows, n - 1)
    ensures n !in rows && Delivers(Ser(), rows[n := Fresh(0)], 2.0, 100.0, n, rows') && Starving(rows', n)
  {
    var offered := rows[n := Fresh(0)];
    assert offered[n].Ready(2.0);
    rows' := Claim(offered, n, 2.0, 100.0);
  }

  /** For any number of dequeues there is a history from the empty table in which the most
      urgent task's claim has long expired and every one of them delivers another task. */
  lemma ExpiredClaimStarves(n: nat) returns (tables: seq<Rows>, acts: seq<Act>)
    ensures IsHistory(Ser(), tables, acts) && |acts| == 2 * n + 2 && tables[0] == map[]
    ensures acts[1] == Take(0.0, 1.0, Some(0))
    ensures forall k :: 1 <= k <= n ==> acts[2 * k + 1] == Take(2.0, 100.0, Some(k))
    ensures var last := tables[2 * n + 2];
            && 0 in last && last[0].status == Running && last[0].claimedUntil == Some(1.0)
            && forall id | id in last && id != 0 :: last[0].priority > last[id].priority
  {
    tables, acts := Starves(n);
  }
}
