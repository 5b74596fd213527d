/** A run in which the two queue backends return different tasks. */
module Divergence {
  import opened Tasks
  import T = TaskTable
  import D = Delivery
  import M = MemoryQueue
  import opened Sequences
  import opened Agreement

  function Ser(): Serializer { Serializer(v => Some("null"), b => Some(Null)) }

  function Sample(id: Id, priority: int): TaskData {
    TaskData(id, "f", Null, Null, Pending, 0, 0, priority, 0.0, None, None, None, Null, None)
  }

  function SampleRow(id: Id, priority: int): T.Row { T.Inserted(Sample(id, priority), "null", "null") }

  /** The urgent task is claimed for one second in both backends. */
  function Claimed(): Both {
    Both(M.Mem([], [M.Claim(DataEntry(Sample(1, 1)), 1.0)]), map[1 := SampleRow(1, 1).Claimed(0.0, 1.0)], 0.0)
  }

  lemma FirstDequeue()
    ensures var b := Both(M.Mem([DataEntry(Sample(1, 1))], []), map[1 := SampleRow(1, 1)], 0.0);
            Calls(Ser(), b, Dequeue(1.0), Claimed(), Some(1), Some(1))
  {
    hide Filter, M.Best, M.IndexOf;
    var e := DataEntry(Sample(1, 1));
    FilterNone([], M.IsExpired(0.0));
    FilterNone([], M.IsHeld(0.0));
    assert M.Mem([e], []).Reclaimed(0.0) == M.Mem([e], []);
    M.ScanFindsFirstBest([e], 0.0, 1);
    assert M.IsFirstBest([e], 0.0, 1, 0);
    assert Without([e], 0) == [];
    var rows: T.Rows := map[1 := SampleRow(1, 1)];
    assert rows[1].Ready(0.0);
    assert T.Claim(rows, 1, 0.0, 1.0) == Claimed().rows;
  }

  /** The other task is enqueued, and two seconds pass. */
  function Overtaken(): Both {
    Both(M.Mem([DataEntry(Sample(2, 0))], Claimed().mem.claims), Claimed().rows[2 := SampleRow(2, 0)], 2.0)
  }

  lemma SecondDequeue() returns (b': Both)
    ensures Calls(Ser(), Overtaken(), Dequeue(1.0), b', Some(1), Some(2))
  {
    hide Filter, M.Best, M.IndexOf;
    var low, high := DataEntry(Sample(2, 0)), DataEntry(Sample(1, 1));
    var c := M.Claim(high, 1.0);
    FilterOne(c, M.IsExpired(2.0));
    FilterOne(c, M.IsHeld(2.0));
    var m, es := Overtaken().mem, [low, high];
    assert m.Reclaimed(2.0) == M.Mem(es, []);
    M.ScanFindsFirstBest(es, 2.0, 2);
    assert M.IsFirstBest(es, 2.0, 2, 1);
    var rows := Overtaken().rows;
    assert rows[2].Ready(2.0) && !rows[1].Ready(2.0);
    b' := Both(m.Dequeued(2.0, 1.0).0, T.Claim(rows, 2, 2.0, 1.0), 2.0);
  }

  /** The urgent task is claimed for a second, the other one is enqueued, two seconds later the
      in-memory queue returns the urgent task again and the table the other one. */
  lemma BackendsDiffer() returns (states: seq<Both>, calls: seq<Call>, rms: seq<Option<Id>>, rss: seq<Option<Id>>)
    ensures IsPairedRun(Ser(), states, calls, rms, rss) && |calls| == 5
    ensures rms[4] == Some(1) && rss[4] == Some(2)
  {
    hide M.Mem.Dequeued, D.Delivers;
    var high, low := Sample(1, 1), Sample(2, 0);
    var s0 := Both(M.Mem([], []), map[], 0.0);
    var s1 := Both(M.Mem([DataEntry(high)], []), map[1 := SampleRow(1, 1)], 0.0);
    var s3 := Overtaken().(now := 0.0);
    FirstDequeue();
    var s5 := SecondDequeue();
    states := [s0, s1, Claimed(), s3, Overtaken(), s5];
    calls := [Enqueue(high, "null", "null"), Dequeue(1.0), Enqueue(low, "null", "null"), Wait(2.0), Dequeue(1.0)];
    rms, rss := [None, Some(1), None, None, Some(1)], [None, Some(1), None, None, Some(2)];
    assert Calls(Ser(), s0, calls[0], s1, None, None);
    assert Calls(Ser(), Claimed(), calls[2], s3, None, None);
    assert Calls(Ser(), s3, calls[3], Overtaken(), None, None);
  }
}
