/** Bounded delivery from the tasks table: once every active task is available and every
    claim has expired, size() dequeues deliver every active task exactly once. */
module Delivery {
  import opened Tasks
  import opened TaskTable

  /** The table a dequeue selects from: reclaim runs only when no row is ready. */
  function Offered(rows: Rows, now: real): Rows {
    if NothingReady(rows, now) then Reclaim(rows, now) else rows
  }

  /** One dequeue at one moment delivers id: it claims from the offered table. SQLite breaks
      ties as it likes. */
  predicate Delivers(ser: Serializer, rows: Rows, now: real, timeout: real, id: Id, rows': Rows) {
    var q := Offered(rows, now);
    && id in q && Decoded(ser, id, q[id]).Some?
    && ClaimsFrom(ser, q, now, timeout, Decoded(ser, id, q[id]).value.AsRunning(now), rows')
  }

  /** Which task a dequeue delivers, column by column: the best of the waiting ones that are
      available; if there is none, the best of the available ones whose claim has expired; and
      none if there is none of those either. */
  lemma DeliversTheBest(ser: Serializer, rows: Rows, now: real, timeout: real, id: Id, rows': Rows)
    requires Delivers(ser, rows, now, timeout, id, rows')
    ensures id in rows && (rows[id].availableAt == None || rows[id].availableAt.value <= now)
    ensures rows[id].status == Pending
            || (rows[id].status == Running && rows[id].claimedUntil.Some? && rows[id].claimedUntil.value <= now)
    ensures forall j | j in rows && rows[j].status == Pending
                       && (rows[j].availableAt == None || rows[j].availableAt.value <= now) ::
              && rows[id].status == Pending
              && (rows[j].priority < rows[id].priority
                  || (rows[j].priority == rows[id].priority && rows[id].createdAt <= rows[j].createdAt))
    ensures rows[id].status == Running ==>
              forall j | j in rows && rows[j].status == Running && rows[j].claimedUntil.Some?
                         && rows[j].claimedUntil.value <= now
                         && (rows[j].availableAt == None || rows[j].availableAt.value <= now) ::
                rows[j].priority < rows[id].priority
                || (rows[j].priority == rows[id].priority && rows[id].createdAt <= rows[j].createdAt)
    ensures id in rows' && rows'[id].status == Running && rows'[id].claimedUntil == Some(now + timeout)
  {
    var q := Offered(rows, now);
    BestIff(q, now, id);
    if NothingReady(rows, now) {
      forall j | j in rows && rows[j].status == Pending ensures !rows[j].Ready(now) {}
    }
    forall j | j in rows && rows[j].Expired(now) && NothingReady(rows, now) ensures q[j] == rows[j].Released() {}
  }

  lemma NothingToDeliver(rows: Rows, now: real)
    ensures NothingReady(Offered(rows, now), now) <==>
              forall j | j in rows && (rows[j].availableAt == None || rows[j].availableAt.value <= now) ::
                !(rows[j].status == Pending)
                && !(rows[j].status == Running && rows[j].claimedUntil.Some? && rows[j].claimedUntil.value <= now)
  {
    if NothingReady(rows, now) {
      forall j | j in rows
        ensures Offered(rows, now)[j].Ready(now) <==> rows[j].Expired(now) && rows[j].Released().Ready(now)
      {
        assert !rows[j].Ready(now);
      }
    } else {
      var j :| j in rows && rows[j].Ready(now);
    }
  }

  /** Among a nonempty set of rows some row is outranked by none. */
  lemma {:induction false} SomeBest(rows: Rows, ids: set<Id>) returns (best: Id)
    requires ids != {} && ids <= rows.Keys
    ensures best in ids && forall j | j in ids :: !rows[j].Outranks(rows[best])
    decreases ids
  {
    var x :| x in ids;
    best := x;
    if ids != {x} {
      var y := SomeBest(rows, ids - {x});
      if !rows[x].Outranks(rows[y]) { best := y; }
    }
  }

  /** A dequeue delivers, or it raises because a best row does not decode, or nothing is
      ready; where every active row decodes it delivers whenever something is ready. */
  lemma DeliversUnlessEmpty(ser: Serializer, rows: Rows, now: real, timeout: real)
    ensures var q := Offered(rows, now);
            var delivers := exists id, rows' :: Delivers(ser, rows, now, timeout, id, rows');
            && (delivers || Undecodable(ser, q, now) <==> !NothingReady(q, now))
            && (Decodable(ser, rows) ==> !Undecodable(ser, q, now))
  {
    var q := Offered(rows, now);
    if !NothingReady(q, now) {
      var ready := set id | id in q && q[id].Ready(now);
      var x :| x in q && q[x].Ready(now);
      assert x in ready;
      var best := SomeBest(q, ready);
      if Decoded(ser, best, q[best]).Some? {
        assert Delivers(ser, rows, now, timeout, best, Claim(q, best, now, timeout));
      }
    }
  }

  /** Every active task is available and every claim has expired. */
  predicate AllDue(rows: Rows, now: real) {
    forall id | id in rows && rows[id].Active() ::
      && (rows[id].availableAt == None || rows[id].availableAt.value <= now)
      && (rows[id].status == Running ==> rows[id].Expired(now))
  }

  function PendingIds(rows: Rows): set<Id> { set id | id in rows && rows[id].status == Pending }

  function RunningIds(rows: Rows): set<Id> { set id | id in rows && rows[id].status == Running }

  /** What the table looks like once the tasks in done were delivered: those are claimed
      until now + timeout; expired claims are released once some of them was delivered;
      nothing else changed. */
  predicate Delivered(rows0: Rows, now: real, timeout: real, done: set<Id>, rows: Rows) {
    && done <= ActiveIds(rows0)
    && (done <= PendingIds(rows0) || PendingIds(rows0) <= done)
    && rows.Keys == rows0.Keys
    && forall k | k in rows0 :: RowDelivered(rows0[k], now, timeout, k in done, !(done <= PendingIds(rows0)), rows[k])
  }

  predicate RowDelivered(r0: Row, now: real, timeout: real, claimed: bool, released: bool, r: Row) {
    if claimed then
      && r.status == Running && r.claimedUntil == Some(now + timeout)
      && r.priority == r0.priority && r.createdAt == r0.createdAt
    else r == if released && r0.status == Running then r0.Released() else r0
  }

  /** The tasks the next dequeue chooses from: first the waiting ones, then the expired. */
  function Candidates(rows0: Rows, done: set<Id>): set<Id> {
    if PendingIds(rows0) <= done then RunningIds(rows0) - done else PendingIds(rows0) - done
  }

  lemma OfferedAre(rows0: Rows, now: real, timeout: real, done: set<Id>, rows: Rows)
    requires AllDue(rows0, now) && 0.0 < timeout && Delivered(rows0, now, timeout, done, rows)
    ensures var q := Offered(rows, now);
            && q.Keys == rows0.Keys
            && (forall k | k in q :: q[k].Ready(now) <==> k in Candidates(rows0, done))
            && (forall k | k in Candidates(rows0, done) ::
                  q[k] == if rows0[k].status == Running then rows0[k].Released() else rows0[k])
            && (forall k | k in done :: q[k] == rows[k])
            && (forall k | k in q && k !in done && k !in Candidates(rows0, done) :: q[k] == rows0[k])
  {
    var released := !(done <= PendingIds(rows0));
    forall k | k in rows ensures RowDelivered(rows0[k], now, timeout, k in done, released, rows[k]) {}
    if PendingIds(rows0) <= done && done <= PendingIds(rows0) {
      assert NothingReady(rows, now);
    } else if !(PendingIds(rows0) <= done) {
      var p :| p in PendingIds(rows0) && p !in done;
      assert rows[p].Ready(now);
    }
  }

  lemma DeliverStep(ser: Serializer, rows0: Rows, now: real, timeout: real, done: set<Id>, rows: Rows,
                    id: Id, rows': Rows)
    requires AllDue(rows0, now) && 0.0 < timeout && Delivered(rows0, now, timeout, done, rows)
    requires Delivers(ser, rows, now, timeout, id, rows')
    ensures Decoded(ser, id, rows0[id]).Some?
    ensures id in Candidates(rows0, done) && id !in done
    ensures forall j | j in Candidates(rows0, done) :: !rows0[j].Outranks(rows0[id])
    ensures Delivered(rows0, now, timeout, done + {id}, rows')
  {
    OfferedAre(rows0, now, timeout, done, rows);
    var done' := done + {id};
    forall k | k in rows0
      ensures RowDelivered(rows0[k], now, timeout, k in done', !(done' <= PendingIds(rows0)), rows'[k])
    {}
  }

  // ------------------------------------------------------- whole drains

  /** Consecutive dequeues at one clock: ids[i] is delivered from tables[i]. */
  ghost predicate IsDrain(ser: Serializer, now: real, timeout: real, tables: seq<Rows>, ids: seq<Id>) {
    && |tables| == |ids| + 1
    && forall i :: 0 <= i < |ids| ==> Delivers(ser, tables[i], now, timeout, ids[i], tables[i + 1])
  }

  function SetOf(ids: seq<Id>): set<Id> { set x | x in ids }

  lemma {:induction false} DrainInvariant(ser: Serializer, now: real, timeout: real,
                                          tables: seq<Rows>, ids: seq<Id>, i: nat)
    requires IsDrain(ser, now, timeout, tables, ids) && i <= |ids|
    requires AllDue(tables[0], now) && 0.0 < timeout
    ensures Delivered(tables[0], now, timeout, SetOf(ids[..i]), tables[i])
    ensures |SetOf(ids[..i])| == i
  {
    hide Delivered, Delivers, AllDue, Candidates;
    if i == 0 {
      assert SetOf(ids[..0]) == {};
      NothingDelivered(tables[0], now, timeout);
    } else {
      DrainInvariant(ser, now, timeout, tables, ids, i - 1);
      assert Delivers(ser, tables[i - 1], now, timeout, ids[i - 1], tables[i]);
      DeliverStep(ser, tables[0], now, timeout, SetOf(ids[..i - 1]), tables[i - 1], ids[i - 1], tables[i]);
      SetGrows(ids, i);
    }
  }

  lemma SetGrows(ids: seq<Id>, i: nat)
    requires 0 < i <= |ids|
    ensures SetOf(ids[..i]) == SetOf(ids[..i - 1]) + {ids[i - 1]}
  {
    assert ids[..i] == ids[..i - 1] + [ids[i - 1]];
  }

  lemma NothingDelivered(rows0: Rows, now: real, timeout: real)
    ensures Delivered(rows0, now, timeout, {}, rows0)
  {}

  /** Where the i-th delivery comes from, and what it outranks. */
  lemma DrainChoice(ser: Serializer, now: real, timeout: real, tables: seq<Rows>, ids: seq<Id>, i: nat)
    requires IsDrain(ser, now, timeout, tables, ids) && i < |ids|
    requires AllDue(tables[0], now) && 0.0 < timeout
    ensures var c := Candidates(tables[0], SetOf(ids[..i]));
            ids[i] in c && forall j | j in c :: !tables[0][j].Outranks(tables[0][ids[i]])
    ensures Decoded(ser, ids[i], tables[0][ids[i]]).Some?
  {
    DrainInvariant(ser, now, timeout, tables, ids, i);
    assert Delivers(ser, tables[i], now, timeout, ids[i], tables[i + 1]);
    DeliverStep(ser, tables[0], now, timeout, SetOf(ids[..i]), tables[i], ids[i], tables[i + 1]);
  }

  /** Successive dequeues never repeat a task. They deliver the waiting tasks first, then
      the expired ones, each group by priority and then by age. */
  lemma DrainOrder(ser: Serializer, now: real, timeout: real, tables: seq<Rows>, ids: seq<Id>, i: nat, j: nat)
    requires IsDrain(ser, now, timeout, tables, ids) && i < j < |ids|
    requires AllDue(tables[0], now) && 0.0 < timeout
    ensures ids[i] in ActiveIds(tables[0]) && ids[j] in ActiveIds(tables[0])
    ensures ids[i] != ids[j]
    ensures ids[j] in PendingIds(tables[0]) ==> ids[i] in PendingIds(tables[0])
    ensures var r, q := tables[0][ids[i]], tables[0][ids[j]];
            r.status == q.status ==>
              q.priority < r.priority || (q.priority == r.priority && r.createdAt <= q.createdAt)
  {
    DrainChoice(ser, now, timeout, tables, ids, i);
    DrainChoice(ser, now, timeout, tables, ids, j);
    assert ids[..j][i] == ids[i];
    assert SetOf(ids[..i]) <= SetOf(ids[..j]) by {
      forall x | x in ids[..i] ensures x in ids[..j] {
        var k :| 0 <= k < i && ids[..i][k] == x;
        assert ids[..j][k] == x;
      }
    }
  }

  /** No more than size() tasks are delivered, and size() deliveries are all of them. Where
      every active row decodes, the next dequeue delivers as long as there were fewer than
      size(), and then returns None. */
  lemma BoundedDelivery(ser: Serializer, now: real, timeout: real, tables: seq<Rows>, ids: seq<Id>)
    requires IsDrain(ser, now, timeout, tables, ids)
    requires AllDue(tables[0], now) && 0.0 < timeout
    ensures |ids| <= |ActiveIds(tables[0])|
    ensures |ids| == |ActiveIds(tables[0])| <==> SetOf(ids) == ActiveIds(tables[0])
    ensures |ids| == |ActiveIds(tables[0])| <==> NothingReady(Offered(tables[|ids|], now), now)
    ensures Decodable(ser, tables[0]) ==>
              ((exists id, rows' :: Delivers(ser, tables[|ids|], now, timeout, id, rows'))
               <==> |ids| < |ActiveIds(tables[0])|)
  {
    var n, active := |ids|, ActiveIds(tables[0]);
    DrainInvariant(ser, now, timeout, tables, ids, n);
    assert ids[..n] == ids;
    var done := SetOf(ids);
    SubsetSize(done, active);
    OfferedAre(tables[0], now, timeout, done, tables[n]);
    DeliversUnlessEmpty(ser, tables[n], now, timeout);
    SomeCandidate(tables[0], done);
    if done != active {
      var x :| x in Candidates(tables[0], done);
      assert Offered(tables[n], now)[x].Ready(now);
    } else {
      assert NothingReady(Offered(tables[n], now), now);
    }
    if Decodable(ser, tables[0]) { StillDecodable(ser, tables[0], now, timeout, done, tables[n]); }
  }

  lemma SomeCandidate(rows0: Rows, done: set<Id>)
    requires done <= ActiveIds(rows0)
    ensures done != ActiveIds(rows0) <==> Candidates(rows0, done) != {}
  {
    if done != ActiveIds(rows0) {
      var x :| x in ActiveIds(rows0) && x !in done;
      if x !in PendingIds(rows0) && !(PendingIds(rows0) <= done) {
        var p :| p in PendingIds(rows0) && p !in done;
        assert p in Candidates(rows0, done);
      } else {
        assert x in Candidates(rows0, done);
      }
    }
  }

  /** Where every row decoded at first, no best row can make a later dequeue raise. */
  lemma StillDecodable(ser: Serializer, rows0: Rows, now: real, timeout: real, done: set<Id>, rows: Rows)
    requires AllDue(rows0, now) && 0.0 < timeout && Delivered(rows0, now, timeout, done, rows)
    requires Decodable(ser, rows0)
    ensures !Undecodable(ser, Offered(rows, now), now)
  {
    OfferedAre(rows0, now, timeout, done, rows);
  }

  /** Any number of dequeues up to size() can be made, whatever ties SQLite breaks how. */
  lemma {:induction false} DrainExists(ser: Serializer, rows: Rows, now: real, timeout: real, n: nat)
    returns (tables: seq<Rows>, ids: seq<Id>)
    requires AllDue(rows, now) && 0.0 < timeout && Decodable(ser, rows) && n <= |ActiveIds(rows)|
    ensures IsDrain(ser, now, timeout, tables, ids) && tables[0] == rows && |ids| == n
  {
    hide Delivers, Decodable;
    if n == 0 {
      tables, ids := [rows], [];
    } else {
      tables, ids := DrainExists(ser, rows, now, timeout, n - 1);
      BoundedDelivery(ser, now, timeout, tables, ids);
      var id, rows' :| Delivers(ser, tables[n - 1], now, timeout, id, rows');
      tables, ids := tables + [rows'], ids + [id];
    }
  }

  ghost predicate CanDrain(ser: Serializer, rows: Rows, now: real, timeout: real) {
    exists tables, ids :: IsDrain(ser, now, timeout, tables, ids) && tables[0] == rows && |ids| == |ActiveIds(rows)|
  }

  /** size() dequeues can deliver everything exactly when every active row decodes: one row
      that does not decode makes dequeue raise and blocks what it outranks. */
  lemma CanDrainIff(ser: Serializer, rows: Rows, now: real, timeout: real)
    requires AllDue(rows, now) && 0.0 < timeout
    ensures CanDrain(ser, rows, now, timeout) <==> Decodable(ser, rows)
  {
    if Decodable(ser, rows) {
      var tables, ids := DrainExists(ser, rows, now, timeout, |ActiveIds(rows)|);
    }
    if CanDrain(ser, rows, now, timeout) {
      var tables, ids :| IsDrain(ser, now, timeout, tables, ids) && tables[0] == rows && |ids| == |ActiveIds(rows)|;
      BoundedDelivery(ser, now, timeout, tables, ids);
      forall id | id in rows && rows[id].Active() ensures Decoded(ser, id, rows[id]).Some? {
        assert id in SetOf(ids);
        var k :| 0 <= k < |ids| && ids[k] == id;
        DrainChoice(ser, now, timeout, tables, ids, k);
      }
    }
  }

  lemma {:induction false} SubsetSize<T>(a: set<T>, b: set<T>)
    requires a <= b
    ensures |a| <= |b|
    ensures |a| == |b| ==> a == b
  {
    assert b == a + (b - a);
    assert |b| == |a| + |b - a|;
  }
}
