/**
 The outbox worker: rows are polled in id order, published one by one, and each is marked
 only after the broker confirmed it.  Polling, publishing and marking can fail at any point,
 a failed call may still have taken effect, and the hub's transactions add rows between any
 two calls of the worker.  One action below is one call.
 */
module Outbox {
  const BATCH_SIZE: nat := 100

  datatype Row = Row(id: int, routingKey: string, payload: string)

  /** What the worker has in hand: a batch whose first row is to be published, or was just
      confirmed and is to be marked. */
  datatype Phase = Idle | Ready(batch: seq<Row>) | Confirmed(batch: seq<Row>)

  datatype State = State(
    rows: seq<Row>,       // the table in id order
    marked: set<int>,
    log: seq<Row>,        // what reached the broker, in order
    phase: Phase)

  datatype Action =
    | Insert(r: Row)                        // a transaction of the hub becomes visible
    | Poll(ok: bool)
    | Publish(ok: bool, delivered: bool)    // `delivered`: a failed call reached the broker all the same
    | Mark(ok: bool, applied: bool)

  const INIT: State := State([], {}, [], Idle)

  predicate Ordered(rows: seq<Row>) {
    forall j, k :: 0 <= j < k < |rows| ==> rows[j].id < rows[k].id
  }

  function Ids(rows: seq<Row>): set<int> { set r | r in rows :: r.id }

  function Hand(s: State): seq<Row> { if s.phase.Idle? then [] else s.phase.batch }

  /** The unmarked rows in id order. */
  function Pending(rows: seq<Row>, marked: set<int>): seq<Row> {
    if |rows| == 0 then []
    else (if rows[0].id in marked then [] else [rows[0]]) + Pending(rows[1..], marked)
  }

  function Take(rows: seq<Row>, n: nat): seq<Row> { if |rows| <= n then rows else rows[..n] }

  function Inserted(rows: seq<Row>, r: Row): seq<Row> {
    if |rows| == 0 || r.id < rows[0].id then [r] + rows else [rows[0]] + Inserted(rows[1..], r)
  }

  function Having(batch: seq<Row>): Phase { if |batch| == 0 then Idle else Ready(batch) }

  predicate Enabled(s: State, a: Action) {
    match a
    case Insert(r) => r.id !in Ids(s.rows)
    case Poll(_) => s.phase.Idle?
    case Publish(_, _) => s.phase.Ready? && |s.phase.batch| > 0
    case Mark(_, _) => s.phase.Confirmed? && |s.phase.batch| > 0
  }

  function Step(s: State, a: Action): State
    requires Enabled(s, a)
  {
    match a
    case Insert(r) => s.(rows := Inserted(s.rows, r))
    case Poll(ok) => if ok then s.(phase := Having(Take(Pending(s.rows, s.marked), BATCH_SIZE))) else s
    case Publish(ok, delivered) =>
      s.(log := if ok || delivered then s.log + [s.phase.batch[0]] else s.log,
         phase := if ok then Confirmed(s.phase.batch) else Idle)
    case Mark(ok, applied) =>
      s.(marked := if ok || applied then s.marked + {s.phase.batch[0].id} else s.marked,
         phase := if ok then Having(s.phase.batch[1..]) else Idle)
  }

  predicate ValidRun(s: State, run: seq<Action>)
    decreases |run|
  {
    |run| == 0 || (Enabled(s, run[0]) && ValidRun(Step(s, run[0]), run[1..]))
  }

  function Exec(s: State, run: seq<Action>): State
    requires ValidRun(s, run)
    decreases |run|
  {
    if |run| == 0 then s else Exec(Step(s, run[0]), run[1..])
  }

  lemma FirstStep(s: State, a: Action, rest: seq<Action>)
    requires Enabled(s, a) && ValidRun(Step(s, a), rest)
    ensures ValidRun(s, [a] + rest) && Exec(s, [a] + rest) == Exec(Step(s, a), rest)
  {
    assert ([a] + rest)[1..] == rest;
  }

  lemma {:induction false} AppendRun(s: State, run: seq<Action>, more: seq<Action>)
    requires ValidRun(s, run) && ValidRun(Exec(s, run), more)
    ensures ValidRun(s, run + more) && Exec(s, run + more) == Exec(Exec(s, run), more)
    decreases |run|
  {
    if |run| == 0 {
      assert run + more == more;
    } else {
      assert (run + more)[1..] == run[1..] + more;
      AppendRun(Step(s, run[0]), run[1..], more);
    }
  }

  lemma LastStep(s: State, run: seq<Action>, a: Action)
    requires ValidRun(s, run) && Enabled(Exec(s, run), a)
    ensures ValidRun(s, run + [a]) && Exec(s, run + [a]) == Step(Exec(s, run), a)
  {
    FirstStep(Exec(s, run), a, []);
    assert [a] + [] == [a];
    AppendRun(s, run, [a]);
  }

  // ---- rows ----------------------------------------------------------------

  lemma {:induction false} InsertedMembers(rows: seq<Row>, r: Row)
    ensures |Inserted(rows, r)| == |rows| + 1
    ensures forall q :: q in Inserted(rows, r) <==> q in rows || q == r
    decreases |rows|
  {
    if |rows| > 0 && r.id >= rows[0].id {
      InsertedMembers(rows[1..], r);
      assert rows == [rows[0]] + rows[1..];
    }
  }

  lemma {:induction false} InsertedOrdered(rows: seq<Row>, r: Row)
    requires Ordered(rows) && r.id !in Ids(rows)
    ensures Ordered(Inserted(rows, r))
    decreases |rows|
  {
    if |rows| > 0 && r.id >= rows[0].id {
      assert rows[0] in rows && forall q <- rows[1..] :: q in rows;
      InsertedOrdered(rows[1..], r);
      InsertedMembers(rows[1..], r);
      ConsOrdered(rows[0], Inserted(rows[1..], r));
    } else {
      assert forall q <- rows :: r.id < q.id;
      ConsOrdered(r, rows);
    }
  }

  lemma ConsOrdered(x: Row, rest: seq<Row>)
    requires Ordered(rest) && forall q <- rest :: x.id < q.id
    ensures Ordered([x] + rest)
  {
    forall k | 0 <= k < |rest|
      ensures x.id < rest[k].id
    {
      assert rest[k] in rest;
    }
  }

  lemma InsertedIs(rows: seq<Row>, r: Row)
    requires Ordered(rows) && r.id !in Ids(rows)
    ensures Ordered(Inserted(rows, r)) && |Inserted(rows, r)| == |rows| + 1
    ensures forall q :: q in Inserted(rows, r) <==> q in rows || q == r
  {
    InsertedMembers(rows, r);
    InsertedOrdered(rows, r);
  }

  lemma {:induction false} PendingIs(rows: seq<Row>, marked: set<int>)
    requires Ordered(rows)
    ensures Ordered(Pending(rows, marked))
    ensures forall q :: q in Pending(rows, marked) <==> q in rows && q.id !in marked
    decreases |rows|
  {
    if |rows| > 0 {
      PendingIs(rows[1..], marked);
      var rest := Pending(rows[1..], marked);
      forall k | 0 <= k < |rest|
        ensures rows[0].id < rest[k].id
      {
        assert rest[k] in rest;
      }
      assert rows == [rows[0]] + rows[1..];
    }
  }

  // ---- at least once, whatever is inserted ---------------------------------

  ghost predicate Sound(s: State) {
    && Ordered(s.rows) && s.marked <= Ids(s.rows)
    && (forall r <- s.log :: r in s.rows)
    && (forall r <- s.rows :: r.id in s.marked ==> r in s.log)
    && HandSound(s)
  }

  ghost predicate HandSound(s: State) {
    && (!s.phase.Idle? ==> |s.phase.batch| > 0)
    && Ordered(Hand(s))
    && (forall r <- Hand(s) :: r in s.rows && r.id !in s.marked)
    && (s.phase.Confirmed? ==> s.phase.batch[0] in s.log)
  }

  lemma SameRow(rows: seq<Row>, r: Row, q: Row)
    requires Ordered(rows) && r in rows && q in rows && r.id == q.id
    ensures r == q
  {
  }

  lemma SoundInsert(s: State, r: Row)
    requires Sound(s) && Enabled(s, Insert(r))
    ensures Sound(Step(s, Insert(r)))
  {
    InsertedIs(s.rows, r);
    assert forall q <- s.rows :: q in Inserted(s.rows, r);
  }

  lemma SoundPoll(s: State, ok: bool)
    requires Sound(s) && Enabled(s, Poll(ok))
    ensures Sound(Step(s, Poll(ok)))
  {
    PendingIs(s.rows, s.marked);
    var batch := Take(Pending(s.rows, s.marked), BATCH_SIZE);
    assert forall r <- batch :: r in Pending(s.rows, s.marked);
  }

  lemma SoundPublish(s: State, ok: bool, delivered: bool)
    requires Sound(s) && Enabled(s, Publish(ok, delivered))
    ensures Sound(Step(s, Publish(ok, delivered)))
  {
    assert s.phase.batch[0] in Hand(s);
  }

  lemma SoundMark(s: State, ok: bool, applied: bool)
    requires Sound(s) && Enabled(s, Mark(ok, applied))
    ensures Sound(Step(s, Mark(ok, applied)))
  {
    var first, rest := s.phase.batch[0], s.phase.batch[1..];
    assert first in Hand(s);
    forall r <- rest
      ensures r in s.rows && r.id !in s.marked + {first.id}
    {
      assert r in Hand(s);
    }
    forall r <- s.rows | r.id in s.marked + {first.id}
      ensures r in s.log
    {
      if r.id == first.id {
        SameRow(s.rows, r, first);
      }
    }
  }

  lemma SoundStep(s: State, a: Action)
    requires Sound(s) && Enabled(s, a)
    ensures Sound(Step(s, a))
  {
    match a
    case Insert(r) => SoundInsert(s, r);
    case Poll(ok) => SoundPoll(s, ok);
    case Publish(ok, delivered) => SoundPublish(s, ok, delivered);
    case Mark(ok, applied) => SoundMark(s, ok, applied);
  }

  lemma {:induction false} SoundRun(s: State, run: seq<Action>)
    requires Sound(s) && ValidRun(s, run)
    ensures Sound(Exec(s, run))
    decreases |run|
  {
    if |run| > 0 {
      SoundStep(s, run[0]);
      SoundRun(Step(s, run[0]), run[1..]);
    }
  }

  /** In every run, with failures and inserts anywhere: a marked row was published, and
      nothing is published that is not a row. */
  lemma AtLeastOnce(run: seq<Action>)
    requires ValidRun(INIT, run)
    ensures var s := Exec(INIT, run);
            && (forall r <- s.rows :: r.id in s.marked ==> r in s.log)
            && (forall r <- s.log :: r in s.rows)
  {
    SoundRun(INIT, run);
  }

  // ---- at most one row published and unmarked ------------------------------

  ghost predicate Loose(s: State, r: Row) { r in s.log && r.id !in s.marked }

  /** A row that becomes visible above everything in hand and every row whose mark is due. */
  ghost predicate Clear(s: State, r: Row) {
    && (forall q <- Hand(s) :: q.id < r.id)
    && (forall q :: Loose(s, q) ==> q.id < r.id)
  }

  /** The batch is the lowest unmarked rows, and a published unmarked row is the lowest. */
  ghost predicate Lowest(s: State) {
    && (forall r <- s.rows, h <- Hand(s) :: r.id !in s.marked && r.id < h.id ==> r in Hand(s))
    && (forall q, r :: Loose(s, q) && r in s.rows && r.id !in s.marked ==> q.id <= r.id)
  }

  ghost predicate AtMostOneLoose(s: State) { forall q, r :: Loose(s, q) && Loose(s, r) ==> q == r }

  lemma LowestInsert(s: State, r: Row)
    requires Sound(s) && Lowest(s) && Enabled(s, Insert(r)) && Clear(s, r)
    ensures Lowest(Step(s, Insert(r)))
  {
    InsertedIs(s.rows, r);
  }

  lemma LowestPoll(s: State, ok: bool)
    requires Sound(s) && Lowest(s) && Enabled(s, Poll(ok))
    ensures Lowest(Step(s, Poll(ok)))
  {
    PendingIs(s.rows, s.marked);
    var all := Pending(s.rows, s.marked);
    var batch := Take(all, BATCH_SIZE);
    forall r <- s.rows, h <- batch | r.id !in s.marked && r.id < h.id
      ensures r in batch
    {
      var j :| 0 <= j < |all| && all[j] == r;
      var k :| 0 <= k < |batch| && batch[k] == h;
      assert all[k] == h;
      assert batch[j] == r;
    }
  }

  lemma FirstIsLowest(s: State, r: Row)
    requires Sound(s) && Lowest(s) && |Hand(s)| > 0 && r in s.rows && r.id !in s.marked
    ensures Hand(s)[0].id <= r.id
  {
    assert Hand(s)[0] in Hand(s);
    assert r.id < Hand(s)[0].id ==> r in Hand(s);
  }

  lemma LowestPublish(s: State, ok: bool, delivered: bool)
    requires Sound(s) && Lowest(s) && Enabled(s, Publish(ok, delivered))
    ensures Lowest(Step(s, Publish(ok, delivered)))
  {
    forall r <- s.rows | r.id !in s.marked
      ensures s.phase.batch[0].id <= r.id
    {
      FirstIsLowest(s, r);
    }
  }

  lemma LowestMark(s: State, ok: bool, applied: bool)
    requires Sound(s) && Lowest(s) && Enabled(s, Mark(ok, applied))
    ensures Lowest(Step(s, Mark(ok, applied)))
  {
    var s', first, rest := Step(s, Mark(ok, applied)), s.phase.batch[0], s.phase.batch[1..];
    assert s.phase.batch == [first] + rest;
    forall r <- s.rows, h <- Hand(s') | r.id !in s'.marked && r.id < h.id
      ensures r in Hand(s')
    {
      assert h in Hand(s) && r in Hand(s);
    }
  }

  lemma LowestStep(s: State, a: Action)
    requires Sound(s) && Lowest(s) && Enabled(s, a) && (a.Insert? ==> Clear(s, a.r))
    ensures Lowest(Step(s, a))
  {
    match a
    case Insert(r) => LowestInsert(s, r);
    case Poll(ok) => LowestPoll(s, ok);
    case Publish(ok, delivered) => LowestPublish(s, ok, delivered);
    case Mark(ok, applied) => LowestMark(s, ok, applied);
  }

  lemma LowestMeansOne(s: State)
    requires Sound(s) && Lowest(s)
    ensures AtMostOneLoose(s)
  {
    forall q, r | Loose(s, q) && Loose(s, r)
      ensures q == r
    {
      SameRow(s.rows, q, if q.id == r.id then r else q);
    }
  }

  ghost predicate ClearRun(s: State, run: seq<Action>)
    requires ValidRun(s, run)
    decreases |run|
  {
    |run| == 0 || ((run[0].Insert? ==> Clear(s, run[0].r)) && ClearRun(Step(s, run[0]), run[1..]))
  }

  lemma {:induction false} LowestRun(s: State, run: seq<Action>)
    requires Sound(s) && Lowest(s) && ValidRun(s, run) && ClearRun(s, run)
    ensures Sound(Exec(s, run)) && Lowest(Exec(s, run))
    decreases |run|
  {
    if |run| > 0 {
      SoundStep(s, run[0]);
      LowestStep(s, run[0]);
      LowestRun(Step(s, run[0]), run[1..]);
    }
  }

  // ---- publication in id order ---------------------------------------------

  /** A row that becomes visible above everything published and everything in hand. */
  ghost predicate Timely(s: State, r: Row) {
    && (forall q <- Hand(s) :: q.id < r.id)
    && (forall q <- s.log :: q.id < r.id)
  }

  ghost predicate Ascending(log: seq<Row>) {
    forall j, k :: 0 <= j <= k < |log| ==> log[j].id <= log[k].id
  }

  /** The publication log without immediate repeats. */
  function Squeeze(log: seq<Row>): seq<Row> {
    if |log| == 0 then []
    else
      var s := Squeeze(log[..|log| - 1]);
      if |log| > 1 && log[|log| - 2] == log[|log| - 1] then s else s + [log[|log| - 1]]
  }

  /** Marked rows lie below unmarked ones, everything below a published row is published,
      and the log ascends. */
  ghost predicate InOrder(s: State) {
    && (forall r <- s.rows, q <- s.rows :: r.id in s.marked && q.id !in s.marked ==> r.id < q.id)
    && (forall r <- s.log, q <- s.rows :: q.id < r.id ==> q in s.log)
    && Ascending(s.log)
  }

  lemma OrderInsert(s: State, r: Row)
    requires Sound(s) && InOrder(s) && Enabled(s, Insert(r)) && Timely(s, r)
    ensures InOrder(Step(s, Insert(r)))
  {
    InsertedIs(s.rows, r);
    forall q <- s.marked
      ensures q < r.id
    {
      var p :| p in s.rows && p.id == q;
      assert p in s.log;
    }
  }

  lemma AscendingSnoc(log: seq<Row>, r: Row)
    requires Ascending(log) && forall q <- log :: q.id <= r.id
    ensures Ascending(log + [r])
  {
  }

  lemma NothingAbove(s: State, r: Row)
    requires Sound(s) && Lowest(s) && InOrder(s) && |Hand(s)| > 0 && r in s.log
    ensures r.id <= Hand(s)[0].id
  {
    assert Hand(s)[0] in Hand(s);
  }

  lemma OrderPublish(s: State, ok: bool, delivered: bool)
    requires Sound(s) && Lowest(s) && InOrder(s) && Enabled(s, Publish(ok, delivered))
    ensures InOrder(Step(s, Publish(ok, delivered)))
  {
    var first := s.phase.batch[0];
    assert first in Hand(s);
    forall r <- s.log
      ensures r.id <= first.id
    {
      NothingAbove(s, r);
    }
    AscendingSnoc(s.log, first);
    forall q <- s.rows | q.id < first.id
      ensures q in s.log
    {
      if q.id !in s.marked {
        FirstIsLowest(s, q);
      }
    }
  }

  lemma OrderMark(s: State, ok: bool, applied: bool)
    requires Sound(s) && Lowest(s) && InOrder(s) && Enabled(s, Mark(ok, applied))
    ensures InOrder(Step(s, Mark(ok, applied)))
  {
    var first := s.phase.batch[0];
    assert first in Hand(s);
    forall q <- s.rows | q.id !in s.marked && q.id != first.id
      ensures first.id < q.id
    {
      FirstIsLowest(s, q);
    }
  }

  lemma OrderStep(s: State, a: Action)
    requires Sound(s) && Lowest(s) && InOrder(s) && Enabled(s, a) && (a.Insert? ==> Timely(s, a.r))
    ensures InOrder(Step(s, a)) && Lowest(Step(s, a))
  {
    LowestStep(s, a);
    match a
    case Insert(r) => OrderInsert(s, r);
    case Poll(ok) =>
    case Publish(ok, delivered) => OrderPublish(s, ok, delivered);
    case Mark(ok, applied) => OrderMark(s, ok, applied);
  }

  ghost predicate TimelyRun(s: State, run: seq<Action>)
    requires ValidRun(s, run)
    decreases |run|
  {
    |run| == 0 || ((run[0].Insert? ==> Timely(s, run[0].r)) && TimelyRun(Step(s, run[0]), run[1..]))
  }

  lemma {:induction false} OrderRun(s: State, run: seq<Action>)
    requires Sound(s) && Lowest(s) && InOrder(s) && ValidRun(s, run) && TimelyRun(s, run)
    ensures Sound(Exec(s, run)) && Lowest(Exec(s, run)) && InOrder(Exec(s, run))
    decreases |run|
  {
    if |run| > 0 {
      SoundStep(s, run[0]);
      OrderStep(s, run[0]);
      OrderRun(Step(s, run[0]), run[1..]);
    }
  }

  // ---- what the order means ------------------------------------------------

  lemma {:induction false} SqueezeLast(log: seq<Row>)
    requires |log| > 0
    ensures |Squeeze(log)| > 0 && Squeeze(log)[|Squeeze(log)| - 1] == log[|log| - 1]
    decreases |log|
  {
    if |log| > 1 {
      SqueezeLast(log[..|log| - 1]);
    }
  }

  lemma {:induction false} SqueezeMembers(log: seq<Row>)
    ensures forall r :: r in Squeeze(log) <==> r in log
    decreases |log|
  {
    if |log| > 0 {
      var k := |log| - 1;
      SqueezeMembers(log[..k]);
      assert log == log[..k] + [log[k]];
      if k > 0 {
        assert log[k - 1] in log[..k];
      }
    }
  }

  /** Without repeats, an ascending log of rows with distinct ids ascends strictly. */
  lemma {:induction false} SqueezeOrdered(rows: seq<Row>, log: seq<Row>)
    requires Ordered(rows) && Ascending(log) && forall r <- log :: r in rows
    ensures Ordered(Squeeze(log))
    decreases |log|
  {
    if |log| > 0 {
      var k := |log| - 1;
      assert forall r <- log[..k] :: r in log;
      SqueezeOrdered(rows, log[..k]);
      if k > 0 && log[k - 1] != log[k] {
        assert log[k - 1] in log && log[k] in log;
        SqueezeLast(log[..k]);
        OrderedSnoc(Squeeze(log[..k]), log[k]);
      }
    }
  }

  lemma OrderedSnoc(rows: seq<Row>, r: Row)
    requires Ordered(rows) && |rows| > 0 && rows[|rows| - 1].id < r.id
    ensures Ordered(rows + [r])
  {
  }

  /** Rows in order that are closed downwards in the table are its beginning. */
  lemma {:induction false} ClosedIsPrefix(rows: seq<Row>, a: seq<Row>)
    requires Ordered(rows) && Ordered(a) && forall r <- a :: r in rows
    requires forall r <- a, q <- rows :: q.id < r.id ==> q in a
    ensures |a| <= |rows| && a == rows[..|a|]
    decreases |a|
  {
    if |a| > 0 {
      var n := |a| - 1;
      ClosedFront(rows, a, n);
      ClosedIsPrefix(rows, a[..n]);
      assert a[n] in a;
      var j :| 0 <= j < |rows| && rows[j] == a[n];
      PlaceOfLast(rows, a, n, j);
      PrefixSnoc(rows, a, n);
    }
  }

  lemma ClosedFront(rows: seq<Row>, a: seq<Row>, n: nat)
    requires Ordered(a) && |a| == n + 1 && forall r <- a :: r in rows
    requires forall r <- a, q <- rows :: q.id < r.id ==> q in a
    ensures forall r <- a[..n] :: r in rows
    ensures forall r <- a[..n], q <- rows :: q.id < r.id ==> q in a[..n]
  {
    assert forall r <- a[..n] :: r in a;
    forall r <- a[..n], q <- rows | q.id < r.id
      ensures q in a[..n]
    {
      var k :| 0 <= k < |a| && a[k] == q;
      assert a[k] == a[..n][k];
    }
  }

  lemma PlaceOfLast(rows: seq<Row>, a: seq<Row>, n: nat, j: nat)
    requires Ordered(rows) && Ordered(a) && |a| == n + 1 && j < |rows| && rows[j] == a[n]
    requires n <= |rows| && a[..n] == rows[..n]
    requires forall r <- a, q <- rows :: q.id < r.id ==> q in a
    ensures j == n
  {
    assert forall k :: 0 <= k < n ==> a[..n][k] == rows[..n][k];
    assert a[n] in a && j >= n;
    var q := rows[n];
    assert q.id < a[n].id ==> q in a;
  }

  lemma PrefixSnoc(rows: seq<Row>, a: seq<Row>, n: nat)
    requires |a| == n + 1 && n < |rows| && a[..n] == rows[..n] && a[n] == rows[n]
    ensures a == rows[..n + 1]
  {
    assert a == a[..n] + [a[n]];
  }

  /** In every run whose inserts are timely, with failures anywhere: published ids never
      decrease, the log without repeats is a prefix of the rows in id order, and at most one
      row is published but not marked. */
  lemma OrderedWhenTimely(run: seq<Action>)
    requires ValidRun(INIT, run) && TimelyRun(INIT, run)
    ensures var s := Exec(INIT, run);
            Ascending(s.log) && Squeeze(s.log) <= s.rows && AtMostOneLoose(s)
  {
    OrderRun(INIT, run);
    var s := Exec(INIT, run);
    LowestMeansOne(s);
    SqueezeMembers(s.log);
    SqueezeOrdered(s.rows, s.log);
    ClosedIsPrefix(s.rows, Squeeze(s.log));
  }

  /** In every run whose inserts are clear of the batch and of a due mark, at most one row is
      published but not marked. */
  lemma OneLooseWhenClear(run: seq<Action>)
    requires ValidRun(INIT, run) && ClearRun(INIT, run)
    ensures AtMostOneLoose(Exec(INIT, run))
  {
    LowestRun(INIT, run);
    LowestMeansOne(Exec(INIT, run));
  }

  // ---- and exactly then ----------------------------------------------------

  predicate WorkerOnly(run: seq<Action>) { forall a <- run :: !a.Insert? }

  lemma {:induction false} WorkerRunsAreTimely(s: State, run: seq<Action>)
    requires ValidRun(s, run) && WorkerOnly(run)
    ensures TimelyRun(s, run) && ClearRun(s, run)
    decreases |run|
  {
    if |run| > 0 {
      assert run[0] in run;
      WorkerRunsAreTimely(Step(s, run[0]), run[1..]);
    }
  }

  /** From `s` the worker went through its batch without failures up to `stop`, which it
      published, and lost that row's mark. */
  ghost predicate Worked(s: State, s': State, stop: Row) {
    && s'.phase.Idle? && s'.rows == s.rows && s.log <= s'.log
    && stop in s'.log && stop.id !in s'.marked && s.marked <= s'.marked
    && (forall r <- Hand(s) :: r.id < stop.id ==> r.id in s'.marked)
    && (forall id <- s'.marked :: id in s.marked || exists h <- Hand(s) :: h.id == id)
  }

  lemma WorkedLast(s: State, stop: Row)
    requires Sound(s) && s.phase.Confirmed? && s.phase.batch[0] == stop
    ensures Worked(s, Step(s, Mark(false, false)), stop)
  {
    LowerThanFirst(s.phase.batch);
    assert stop in Hand(s);
  }

  lemma WorkedMore(s: State, a: Action, s': State, stop: Row)
    requires Sound(s) && (a == Publish(true, true) || a == Mark(true, true)) && Enabled(s, a)
    requires Worked(Step(s, a), s', stop)
    ensures Worked(s, s', stop)
  {
    if a.Publish? {
      assert Hand(Step(s, a)) == Hand(s);
      assert s.log <= Step(s, a).log;
    } else {
      WorkedMarked(s, s', stop);
    }
  }

  lemma WorkedMarked(s: State, s': State, stop: Row)
    requires Sound(s) && Enabled(s, Mark(true, true)) && Worked(Step(s, Mark(true, true)), s', stop)
    ensures Worked(s, s', stop)
  {
    var s1, first := Step(s, Mark(true, true)), s.phase.batch[0];
    assert first in Hand(s) && first.id in s1.marked;
    assert Hand(s) == [first] + Hand(s1);
    forall id <- s'.marked
      ensures id in s.marked || exists h <- Hand(s) :: h.id == id
    {
      if id !in s1.marked {
        var h :| h in Hand(s1) && h.id == id;
        assert h in Hand(s);
      }
    }
  }

  lemma {:induction false} WorkTo(s: State, stop: Row) returns (run: seq<Action>)
    requires Sound(s) && stop in Hand(s)
    ensures WorkerOnly(run) && ValidRun(s, run) && Sound(Exec(s, run)) && Worked(s, Exec(s, run), stop)
    decreases |Hand(s)|, s.phase.Ready?
  {
    if s.phase.Confirmed? && s.phase.batch[0] == stop {
      run := LoseMark(s, stop);
    } else {
      var a := if s.phase.Ready? then Publish(true, true) else Mark(true, true);
      var s1 := WorkOn(s, a, stop);
      var rest := WorkTo(s1, stop);
      WorkedMore(s, a, Exec(s1, rest), stop);
      FirstStep(s, a, rest);
      run := [a] + rest;
    }
  }

  lemma LoseMark(s: State, stop: Row) returns (run: seq<Action>)
    requires Sound(s) && s.phase.Confirmed? && s.phase.batch[0] == stop
    ensures WorkerOnly(run) && ValidRun(s, run) && Sound(Exec(s, run)) && Worked(s, Exec(s, run), stop)
  {
    WorkedLast(s, stop);
    SoundStep(s, Mark(false, false));
    FirstStep(s, Mark(false, false), []);
    run := [Mark(false, false)] + [];
  }

  lemma WorkOn(s: State, a: Action, stop: Row) returns (s': State)
    requires Sound(s) && stop in Hand(s) && !(s.phase.Confirmed? && s.phase.batch[0] == stop)
    requires a == if s.phase.Ready? then Publish(true, true) else Mark(true, true)
    ensures Enabled(s, a) && s' == Step(s, a) && Sound(s') && stop in Hand(s')
    ensures |Hand(s')| < |Hand(s)| || (|Hand(s')| == |Hand(s)| && s.phase.Ready? && !s'.phase.Ready?)
  {
    InRest(s.phase.batch, stop);
    s' := Step(s, a);
    SoundStep(s, a);
  }

  lemma InRest(batch: seq<Row>, r: Row)
    requires r in batch
    ensures |batch| > 0 && (r == batch[0] || r in batch[1..])
  {
  }

  lemma LowerThanFirst(batch: seq<Row>)
    requires Ordered(batch) && |batch| > 0
    ensures forall r <- batch :: r.id >= batch[0].id
  {
  }

  /** The next poll starts with the lowest unmarked row. */
  lemma PollFinds(s: State, r: Row)
    requires Sound(s) && s.phase.Idle? && r in s.rows && r.id !in s.marked
    requires forall q <- s.rows :: q.id !in s.marked ==> r.id <= q.id
    ensures var s1 := Step(s, Poll(true));
            && Enabled(s1, Publish(true, true)) && s1.phase.batch[0] == r
            && var s2 := Step(s1, Publish(true, true));
               s2.rows == s.rows && s2.marked == s.marked && s2.log == s.log + [r]
  {
    PendingIs(s.rows, s.marked);
    var all := Pending(s.rows, s.marked);
    assert r in all && all[0] in all;
    SameRow(s.rows, all[0], r);
  }

  /** Everything below a row in hand or published is marked or in hand. */
  lemma LowerIsMarked(s: State, p: Row, q: Row)
    requires Sound(s) && Lowest(s) && q in s.rows && q.id < p.id
    requires p in Hand(s) || Loose(s, p) || (InOrder(s) && p in s.log)
    ensures q.id in s.marked || q in Hand(s)
  {
  }

  /** The row that came too late is published after `p`, which is unmarked if it was due. */
  ghost predicate LateAfter(s: State, s': State, r: Row, p: Row) {
    && |s'.log| > 0 && s'.log[|s'.log| - 1] == r && p in s'.log[..|s'.log| - 1]
    && r.id !in s'.marked && (p in Hand(s) || Loose(s, p) ==> p.id !in s'.marked)
  }

  /** The batch is done up to `p`; only the late row is left below it. */
  lemma ReachLate(s: State, r: Row, p: Row) returns (run: seq<Action>)
    requires Sound(s) && Lowest(s) && Enabled(s, Insert(r)) && r.id < p.id
    requires p in Hand(s) || (s.phase.Idle? && p in s.log && (Loose(s, p) || InOrder(s)))
    ensures var s1 := Step(s, Insert(r));
            && WorkerOnly(run) && ValidRun(s1, run)
            && var s2 := Exec(s1, run);
               && Sound(s2) && s2.phase.Idle? && s2.rows == s1.rows && p in s2.log && r.id !in s2.marked
               && (p in Hand(s) || Loose(s, p) ==> p.id !in s2.marked)
               && (forall q <- s2.rows :: q.id !in s2.marked ==> r.id <= q.id)
  {
    var s1 := Step(s, Insert(r));
    SoundStep(s, Insert(r));
    NewIsUnmarked(s, r);
    if p in Hand(s) {
      run := WorkTo(s1, p);
    } else {
      run := [];
    }
    var s2 := Exec(s1, run);
    InsertedIs(s.rows, r);
    forall q <- s2.rows | q.id !in s2.marked && q != r
      ensures r.id <= q.id
    {
      if q.id < p.id {
        LowerIsMarked(s, p, q);
      }
    }
  }

  lemma LateFollows(s: State, r: Row, p: Row) returns (more: seq<Action>)
    requires Sound(s) && Lowest(s) && Enabled(s, Insert(r)) && r.id < p.id
    requires p in Hand(s) || (s.phase.Idle? && p in s.log && (Loose(s, p) || InOrder(s)))
    ensures var s1 := Step(s, Insert(r));
            WorkerOnly(more) && ValidRun(s1, more) && LateAfter(s, Exec(s1, more), r, p)
  {
    var s1 := Step(s, Insert(r));
    var run := ReachLate(s, r, p);
    var s2 := Exec(s1, run);
    InsertedIs(s.rows, r);
    var last := PublishLowest(s2, r);
    AppendRun(s1, run, last);
    more := run + last;
    assert (s2.log + [r])[..|s2.log|] == s2.log;
  }

  lemma PublishLowest(s: State, r: Row) returns (run: seq<Action>)
    requires Sound(s) && s.phase.Idle? && r in s.rows && r.id !in s.marked
    requires forall q <- s.rows :: q.id !in s.marked ==> r.id <= q.id
    ensures WorkerOnly(run) && ValidRun(s, run)
    ensures Exec(s, run).log == s.log + [r] && Exec(s, run).marked == s.marked
  {
    PollFinds(s, r);
    TwoSteps(s, Poll(true), Publish(true, true));
    run := [Poll(true), Publish(true, true)];
  }

  /** A row that is not clear: the worker can be left with two published unmarked rows. */
  lemma LateLeavesTwo(s: State, r: Row) returns (more: seq<Action>)
    requires Sound(s) && Lowest(s) && Enabled(s, Insert(r)) && !Clear(s, r)
    ensures WorkerOnly(more) && ValidRun(Step(s, Insert(r)), more)
    ensures !AtMostOneLoose(Exec(Step(s, Insert(r)), more))
  {
    var p := NotClear(s, r);
    more := LateFollows(s, r, p);
    var s' := Exec(Step(s, Insert(r)), more);
    assert Loose(s', p) && Loose(s', r) && p != r;
  }

  lemma NotClear(s: State, r: Row) returns (p: Row)
    requires Sound(s) && Lowest(s) && Enabled(s, Insert(r)) && !Clear(s, r)
    ensures r.id < p.id && (p in Hand(s) || (s.phase.Idle? && Loose(s, p)))
  {
    assert s.phase.Idle? || Hand(s)[0] in Hand(s);
    if h :| h in Hand(s) && r.id <= h.id {
      p := h;
    } else {
      p :| Loose(s, p) && r.id <= p.id;
    }
    assert p in s.rows;
  }

  /** A row that is not timely: the worker can publish it after a higher one. */
  lemma LateBreaksOrder(s: State, r: Row) returns (more: seq<Action>)
    requires Sound(s) && Lowest(s) && InOrder(s) && Enabled(s, Insert(r)) && !Timely(s, r)
    ensures WorkerOnly(more) && ValidRun(Step(s, Insert(r)), more)
    ensures !Ascending(Exec(Step(s, Insert(r)), more).log)
  {
    var p := NotTimely(s, r);
    more := LateFollows(s, r, p);
    NotAscending(s, Exec(Step(s, Insert(r)), more), r, p);
  }

  lemma NotAscending(s: State, s': State, r: Row, p: Row)
    requires LateAfter(s, s', r, p) && r.id < p.id
    ensures !Ascending(s'.log)
  {
    var log := s'.log;
    var k :| 0 <= k < |log| - 1 && log[k] == p;
    assert log[k].id > log[|log| - 1].id;
  }

  lemma NotTimely(s: State, r: Row) returns (p: Row)
    requires Sound(s) && Lowest(s) && InOrder(s) && Enabled(s, Insert(r)) && !Timely(s, r)
    ensures r.id < p.id && (p in Hand(s) || (s.phase.Idle? && p in s.log))
  {
    if !s.phase.Idle? {
      assert Hand(s)[0] in Hand(s);
      forall q <- s.log
        ensures q.id <= Hand(s)[0].id
      {
        NothingAbove(s, q);
      }
    }
    if h :| h in Hand(s) && r.id <= h.id {
      p := h;
    } else {
      p :| p in s.log && r.id <= p.id;
    }
    assert p in s.rows;
  }

  /** The order holds exactly when rows become visible in time: after any timely run, a new
      row is above everything published and everything in hand if and only if no timely
      continuation publishes ids that decrease. */
  lemma TimelyExactly(run: seq<Action>, r: Row)
    requires ValidRun(INIT, run) && TimelyRun(INIT, run) && Enabled(Exec(INIT, run), Insert(r))
    ensures var s := Exec(INIT, run);
            Timely(s, r) <==> AlwaysAscending(Step(s, Insert(r)))
  {
    OrderRun(INIT, run);
    var s := Exec(INIT, run);
    if Timely(s, r) {
      SoundStep(s, Insert(r));
      OrderStep(s, Insert(r));
      StaysAscending(Step(s, Insert(r)));
    } else {
      var more := LateBreaksOrder(s, r);
      WorkerRunsAreTimely(Step(s, Insert(r)), more);
    }
  }

  ghost predicate AlwaysAscending(s: State) {
    forall more :: ValidRun(s, more) && TimelyRun(s, more) ==> Ascending(Exec(s, more).log)
  }

  lemma StaysAscending(s: State)
    requires Sound(s) && Lowest(s) && InOrder(s)
    ensures AlwaysAscending(s)
  {
    forall more | ValidRun(s, more) && TimelyRun(s, more)
      ensures Ascending(Exec(s, more).log)
    {
      OrderRun(s, more);
    }
  }

  /** ... and one row at most is published and unmarked exactly when new rows are clear of the
      batch in hand and of a due mark. */
  lemma ClearExactly(run: seq<Action>, r: Row)
    requires ValidRun(INIT, run) && ClearRun(INIT, run) && Enabled(Exec(INIT, run), Insert(r))
    ensures var s := Exec(INIT, run);
            Clear(s, r) <==> AlwaysOneLoose(Step(s, Insert(r)))
  {
    LowestRun(INIT, run);
    var s := Exec(INIT, run);
    if Clear(s, r) {
      SoundStep(s, Insert(r));
      LowestStep(s, Insert(r));
      StaysOneLoose(Step(s, Insert(r)));
    } else {
      var more := LateLeavesTwo(s, r);
      WorkerRunsAreTimely(Step(s, Insert(r)), more);
    }
  }

  ghost predicate AlwaysOneLoose(s: State) {
    forall more :: ValidRun(s, more) && ClearRun(s, more) ==> AtMostOneLoose(Exec(s, more))
  }

  lemma StaysOneLoose(s: State)
    requires Sound(s) && Lowest(s)
    ensures AlwaysOneLoose(s)
  {
    forall more | ValidRun(s, more) && ClearRun(s, more)
      ensures AtMostOneLoose(Exec(s, more))
    {
      LowestRun(s, more);
      LowestMeansOne(Exec(s, more));
    }
  }

  lemma NewIsUnmarked(s: State, r: Row)
    requires Sound(s) && Enabled(s, Insert(r))
    ensures r.id !in s.marked && r !in s.log && r !in Hand(s)
  {
  }

  lemma TwoSteps(s: State, a: Action, b: Action)
    requires Enabled(s, a) && Enabled(Step(s, a), b)
    ensures ValidRun(s, [a, b]) && Exec(s, [a, b]) == Step(Step(s, a), b)
  {
    FirstStep(Step(s, a), b, []);
    FirstStep(s, a, [b]);
    assert [a] + [b] == [a, b] && [b] + [] == [b];
  }

  // ---- two runs ------------------------------------------------------------

  /** Two rows are fetched; a third with an id between them becomes visible after the first is
      published, above everything published, and goes out last. */
  lemma LateRowGoesLast(a: Row, b: Row, c: Row) returns (run: seq<Action>)
    requires a.id < b.id < c.id
    ensures ValidRun(INIT, run) && Exec(INIT, run).log == [a, c, b]
  {
    var s1 := FirstPublished(a, c);
    var start := [Insert(a), Insert(c), Poll(true), Publish(true, true), Mark(true, true)];
    var end := ThenTheOthers(a, b, c);
    AppendRun(INIT, start, end);
    run := start + end;
  }

  lemma FirstPublished(a: Row, c: Row) returns (s': State)
    requires a.id < c.id
    ensures var run := [Insert(a), Insert(c), Poll(true), Publish(true, true), Mark(true, true)];
            ValidRun(INIT, run) && Exec(INIT, run) == s' == State([a, c], {a.id}, [a], Ready([c]))
  {
    var s1 := Step(INIT, Insert(a));
    assert [a][1..] == [] && Inserted([], c) == [c];
    var s2 := Step(s1, Insert(c));
    PendingTwo(a, c);
    var s3 := Step(s2, Poll(true));
    assert s3 == State([a, c], {}, [], Ready([a, c]));
    var s4 := Step(s3, Publish(true, true));
    assert [a, c][1..] == [c];
    s' := Step(s4, Mark(true, true));
    TwoSteps(s3, Publish(true, true), Mark(true, true));
    TwoSteps(s1, Insert(c), Poll(true));
    AppendRun(s1, [Insert(c), Poll(true)], [Publish(true, true), Mark(true, true)]);
    var rest := [Insert(c), Poll(true)] + [Publish(true, true), Mark(true, true)];
    FirstStep(INIT, Insert(a), rest);
    assert [Insert(a)] + rest == [Insert(a), Insert(c), Poll(true), Publish(true, true), Mark(true, true)];
  }

  lemma ThenTheOthers(a: Row, b: Row, c: Row) returns (run: seq<Action>)
    requires a.id < b.id < c.id
    ensures var s := State([a, c], {a.id}, [a], Ready([c]));
            ValidRun(s, run) && Exec(s, run).log == [a, c, b]
  {
    var s1 := Step(State([a, c], {a.id}, [a], Ready([c])), Insert(b));
    BetweenTwo(a, b, c);
    var s2 := Step(s1, Publish(true, true));
    var s3 := Step(s2, Mark(true, true));
    assert s3 == State([a, b, c], {a.id, c.id}, [a, c], Idle);
    LastPending(a, b, c);
    TwoSteps(s3, Poll(true), Publish(true, true));
    TwoSteps(s1, Publish(true, true), Mark(true, true));
    AppendRun(s1, [Publish(true, true), Mark(true, true)], [Poll(true), Publish(true, true)]);
    run := [Publish(true, true), Mark(true, true)] + [Poll(true), Publish(true, true)];
    FirstStep(State([a, c], {a.id}, [a], Ready([c])), Insert(b), run);
    run := [Insert(b)] + run;
  }

  /** A row is published and waits for its mark when one with a lower id becomes visible: two
      rows can be published and unmarked. */
  lemma TwoLoose(a: Row, b: Row) returns (run: seq<Action>)
    requires a.id < b.id
    ensures ValidRun(INIT, run) && Loose(Exec(INIT, run), a) && Loose(Exec(INIT, run), b)
  {
    var s1 := Step(INIT, Insert(b));
    PendingOne(b);
    var s2 := Step(s1, Poll(true));
    var s3 := Step(s2, Publish(true, true));
    TwoSteps(s1, Poll(true), Publish(true, true));
    FirstStep(INIT, Insert(b), [Poll(true), Publish(true, true)]);
    var start := [Insert(b)] + [Poll(true), Publish(true, true)];
    SoundRun(INIT, start);
    assert s3 == State([b], {}, [b], Confirmed([b])) && Lowest(s3);
    var more := LateFollows(s3, a, b);
    FirstStep(s3, Insert(a), more);
    AppendRun(INIT, start, [Insert(a)] + more);
    run := start + ([Insert(a)] + more);
  }

  lemma PendingOne(b: Row)
    ensures Pending([b], {}) == [b]
  {
    assert [b][1..] == [];
  }

  lemma PendingTwo(a: Row, c: Row)
    ensures Pending([a, c], {}) == [a, c]
  {
    assert [a, c][1..] == [c] && [c][1..] == [];
    assert Pending([c], {}) == [c];
  }

  lemma BetweenTwo(a: Row, b: Row, c: Row)
    requires a.id < b.id < c.id
    ensures Inserted([a, c], b) == [a, b, c]
  {
    assert [a, c][1..] == [c];
    assert Inserted([c], b) == [b, c];
  }

  lemma LastPending(a: Row, b: Row, c: Row)
    requires a.id < b.id < c.id
    ensures Pending([a, b, c], {a.id, c.id}) == [b]
  {
    assert [a, b, c][1..] == [b, c] && [b, c][1..] == [c] && [c][1..] == [];
    assert Pending([c], {a.id, c.id}) == [];
    assert Pending([b, c], {a.id, c.id}) == [b];
  }
}
