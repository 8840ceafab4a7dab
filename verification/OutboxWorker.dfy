/** The worker's loop over the table, while the hub's transactions add rows to it. */
module OutboxWorker {
  import opened Outbox
  import opened Sequences

  /** Rows, marks and publications are only ever added. */
  ghost predicate Grows(s: State, s': State) {
    s.marked <= s'.marked && s.log <= s'.log && forall r <- s.rows :: r in s'.rows
  }

  /** A call of the worker that came back with an error. */
  predicate Fails(a: Action) { !a.Insert? && !a.ok }

  ghost predicate Smooth(trace: seq<Action>, from: nat, to: nat) {
    forall j :: from <= j < to && j < |trace| ==> !Fails(trace[j])
  }

  /** The calls since `was` succeeded, all but the last one if `failed`. */
  ghost predicate Went(was: seq<Action>, trace: seq<Action>, failed: bool) {
    && was <= trace
    && (failed ==> |trace| > |was| && Fails(trace[|trace| - 1]))
    && Smooth(trace, |was|, if failed then |trace| - 1 else |trace|)
  }

  lemma OnAndOn(was: seq<Action>, mid: seq<Action>, trace: seq<Action>, failed: bool)
    requires Went(was, mid, false) && Went(mid, trace, failed)
    ensures Went(was, trace, failed)
  {
    forall j | |was| <= j < (if failed then |trace| - 1 else |trace|)
      ensures !Fails(trace[j])
    {
      assert j < |mid| ==> trace[j] == mid[j];
    }
  }

  class OutboxService {
    var rows: seq<Row>
    var marked: set<int>
    var log: seq<Row>
    var incoming: seq<Row>          // rows whose transactions are still to become visible

    ghost var phase: Phase
    ghost var trace: seq<Action>    // the calls so far, the hub's among them

    ghost function View(): State
      reads this
    {
      State(rows, marked, log, phase)
    }

    /** What the object does is a run of the protocol. */
    ghost predicate Valid()
      reads this
    {
      && ValidRun(INIT, trace) && Exec(INIT, trace) == View()
      && (forall r <- incoming :: r.id !in Ids(rows))
      && (forall j, k :: 0 <= j < k < |incoming| ==> incoming[j].id != incoming[k].id)
    }

    constructor (incoming: seq<Row>)
      requires forall j, k :: 0 <= j < k < |incoming| ==> incoming[j].id != incoming[k].id
      ensures Valid() && View() == INIT && trace == [] && this.incoming == incoming
    {
      rows, marked, log, this.incoming := [], {}, [], incoming;
      phase, trace := Idle, [];
    }

    /** The next transaction of the hub commits. */
    method Arrive()
      requires Valid() && |incoming| > 0
      modifies this`rows, this`incoming, this`trace
      ensures Valid() && View() == Step(old(View()), Insert(old(incoming)[0])) && incoming == old(incoming)[1..]
      ensures trace == old(trace) + [Insert(old(incoming)[0])]
      ensures |rows| == |old(rows)| + 1 && Grows(old(View()), View())
    {
      var r := incoming[0];
      LastStep(INIT, trace, Insert(r));
      InsertedMembers(rows, r);
      trace := trace + [Insert(r)];
      rows := Insertion(rows, r);
      incoming := incoming[1..];
    }

    /** Any number of transactions commit between two calls of the worker. */
    method Others()
      requires Valid()
      modifies this`rows, this`incoming, this`trace
      ensures Valid() && Went(old(trace), trace, false) && Grows(old(View()), View())
      ensures |rows| + |incoming| == |old(rows)| + |old(incoming)|
    {
      var n: nat :| n <= |incoming|;
      for k := 0 to n
        invariant Valid() && Went(old(trace), trace, false) && Grows(old(View()), View())
        invariant |incoming| >= n - k && |rows| + |incoming| == |old(rows)| + |old(incoming)|
      {
        Arrive();
      }
    }

    /** The smallest unpublished ids in order, up to a limit; the query itself may fail. */
    method Unpublished(limit: nat) returns (err: bool, batch: seq<Row>)
      ensures !err ==> batch == Take(Pending(rows, marked), limit)
    {
      err := *;
      batch := [];
      if err {
        return;
      }
      var k := 0;
      assert rows[0..] == rows;
      while k < |rows| && |batch| < limit
        invariant 0 <= k <= |rows| && |batch| <= limit
        invariant Pending(rows, marked) == batch + Pending(rows[k..], marked)
      {
        PendingNext(rows, marked, k);
        if rows[k].id !in marked {
          Associative(batch, [rows[k]], Pending(rows[k + 1..], marked));
          batch := batch + [rows[k]];
        }
        k := k + 1;
      }
    }

    /** Without an error the broker has the message; with one it may have it all the same. */
    method Publish(r: Row) returns (err: bool)
      requires Valid() && phase.Ready? && |phase.batch| > 0 && r == phase.batch[0]
      modifies this`log, this`phase, this`trace
      ensures Valid() && Went(old(trace), trace, err) && Grows(old(View()), View())
      ensures phase == if err then Idle else Confirmed(old(phase).batch)
      ensures !err ==> log == old(log) + [r]
    {
      err := *;
      var delivered: bool := *;
      LastStep(INIT, trace, Action.Publish(!err, delivered));
      trace := trace + [Action.Publish(!err, delivered)];
      if !err || delivered {
        log := log + [r];
      }
      phase := if err then Idle else Confirmed(phase.batch);
    }

    method MarkPublished(id: int) returns (err: bool)
      requires Valid() && phase.Confirmed? && |phase.batch| > 0 && id == phase.batch[0].id
      modifies this`marked, this`phase, this`trace
      ensures Valid() && Went(old(trace), trace, err) && Grows(old(View()), View())
      ensures phase == if err then Idle else Having(old(phase).batch[1..])
      ensures !err ==> marked == old(marked) + {id}
    {
      err := *;
      var applied: bool := *;
      LastStep(INIT, trace, Action.Mark(!err, applied));
      trace := trace + [Action.Mark(!err, applied)];
      if !err || applied {
        marked := marked + {id};
      }
      phase := if err then Idle else Having(phase.batch[1..]);
    }

    /** Publishes rows until a call fails or none is left, as a run of the protocol in which
        rows arrive at any time.  It terminates when finitely many do, fails exactly when one of
        its calls did, which is then the last, and otherwise leaves every row that was there at
        its start marked. */
    method Drain() returns (failed: bool)
      requires Valid() && phase.Idle?
      modifies this
      ensures Valid() && phase.Idle? && Went(old(trace), trace, failed) && Grows(old(View()), View())
      ensures failed <==> exists j :: |old(trace)| <= j < |trace| && Fails(trace[j])
      ensures !failed ==> forall r <- old(rows) :: r.id in marked
    {
      while true
        invariant Valid() && phase.Idle? && Went(old(trace), trace, false) && Grows(old(View()), View())
        invariant |rows| + |incoming| == |old(rows)| + |old(incoming)|
        decreases |rows| + |incoming| - |marked|
      {
        ghost var before := trace;
        var done;
        failed, done := Round();
        OnAndOn(old(trace), before, trace, failed);
        if failed || done {
          return;
        }
        Fits();
      }
    }

    /** One poll and, unless it came back empty, its batch; `done` when nothing more is due. */
    method Round() returns (failed: bool, done: bool)
      requires Valid() && phase.Idle?
      modifies this
      ensures Valid() && phase.Idle? && Went(old(trace), trace, failed) && Grows(old(View()), View())
      ensures |rows| + |incoming| == |old(rows)| + |old(incoming)|
      ensures !failed && done ==> forall r <- old(rows) :: r.id in marked
      ensures !failed && !done ==> |marked| > |old(marked)|
    {
      Others();
      ghost var before := trace;
      var err, batch := Poll();
      OnAndOn(old(trace), before, trace, err);
      if err {
        return true, true;
      }
      if |batch| == 0 {
        Exhausted(rows, marked, batch);
        return false, true;
      }
      ghost var polled, marks := rows, marked;
      before := trace;
      failed := PublishBatch(batch);
      OnAndOn(old(trace), before, trace, failed);
      done := failed || |batch| < BATCH_SIZE;
      if !failed && done {
        Exhausted(polled, marks, batch);
      }
    }

    method Poll() returns (err: bool, batch: seq<Row>)
      requires Valid() && phase.Idle?
      modifies this`phase, this`trace
      ensures Valid() && Went(old(trace), trace, err)
      ensures err ==> phase == Idle
      ensures !err ==> batch == Take(Pending(rows, marked), BATCH_SIZE) && phase == Having(batch)
      ensures !err ==> Sound(View())
    {
      err, batch := Unpublished(BATCH_SIZE);
      LastStep(INIT, trace, Action.Poll(!err));
      trace := trace + [Action.Poll(!err)];
      if !err {
        phase := Having(batch);
      }
      SoundRun(INIT, trace);
    }

    lemma Fits()
      requires Valid()
      ensures |marked| <= |rows|
    {
      SoundRun(INIT, trace);
      MarkedFits(rows, marked);
    }

    /** The inner loop over one batch. */
    method PublishBatch(batch: seq<Row>) returns (stop: bool)
      requires Valid() && phase == Ready(batch) && |batch| > 0
      modifies this
      ensures Valid() && phase.Idle? && Went(old(trace), trace, stop) && Grows(old(View()), View())
      ensures |rows| + |incoming| == |old(rows)| + |old(incoming)|
      ensures !stop ==> |marked| > |old(marked)| && forall r <- batch :: r.id in marked
    {
      for k := 0 to |batch|
        invariant Valid() && phase == Having(batch[k..])
        invariant Went(old(trace), trace, false) && Grows(old(View()), View())
        invariant |rows| + |incoming| == |old(rows)| + |old(incoming)|
        invariant forall j :: 0 <= j < k ==> batch[j].id in marked
        invariant |marked| >= |old(marked)| + k
      {
        assert batch[k..][1..] == batch[k + 1..];
        stop := PublishAndMark(batch[k], batch[k..]);
        if stop {
          return;
        }
      }
      stop := false;
    }

    /** The body of the inner loop. */
    method PublishAndMark(r: Row, ghost batch: seq<Row>) returns (stop: bool)
      requires Valid() && phase == Ready(batch) && |batch| > 0 && r == batch[0]
      modifies this
      ensures Valid() && Went(old(trace), trace, stop) && Grows(old(View()), View())
      ensures phase == if stop then Idle else Having(batch[1..])
      ensures |rows| + |incoming| == |old(rows)| + |old(incoming)|
      ensures !stop ==> r.id in marked && |marked| == |old(marked)| + 1
    {
      SoundRun(INIT, trace);
      assert r in Hand(View());
      Others();
      ghost var before := trace;
      var err := Publish(r);
      OnAndOn(old(trace), before, trace, err);
      if err {
        return true;
      }
      before := trace;
      Others();
      OnAndOn(old(trace), before, trace, false);
      before := trace;
      err := MarkPublished(r.id);
      OnAndOn(old(trace), before, trace, err);
      stop := err;
    }
  }

  /** A poll that was not cut off returned every unmarked row. */
  lemma Exhausted(rows: seq<Row>, marked: set<int>, batch: seq<Row>)
    requires Ordered(rows) && batch == Take(Pending(rows, marked), BATCH_SIZE) && |batch| < BATCH_SIZE
    ensures forall r <- rows :: r.id in marked || r in batch
  {
    PendingIs(rows, marked);
  }

  /** The table with one more row, in id order. */
  method Insertion(rows: seq<Row>, r: Row) returns (out: seq<Row>)
    ensures out == Inserted(rows, r)
  {
    var at := 0;
    assert rows[0..] == rows;
    while at < |rows| && r.id >= rows[at].id
      invariant 0 <= at <= |rows|
      invariant Inserted(rows, r) == rows[..at] + Inserted(rows[at..], r)
    {
      InsertedNext(rows, r, at);
      at := at + 1;
    }
    Associative(rows[..at], [r], rows[at..]);
    out := rows[..at] + [r] + rows[at..];
  }

  lemma InsertedNext(rows: seq<Row>, r: Row, at: nat)
    requires at < |rows| && r.id >= rows[at].id
    ensures rows[..at] + Inserted(rows[at..], r) == rows[..at + 1] + Inserted(rows[at + 1..], r)
  {
    var front, rest := rows[..at], rows[at..];
    assert rest[1..] == rows[at + 1..];
    assert front + [rows[at]] == rows[..at + 1];
    Associative(front, [rows[at]], Inserted(rows[at + 1..], r));
  }

  lemma PendingNext(rows: seq<Row>, marked: set<int>, k: nat)
    requires k < |rows|
    ensures rows[k].id in marked ==> Pending(rows[k..], marked) == Pending(rows[k + 1..], marked)
    ensures rows[k].id !in marked ==> Pending(rows[k..], marked) == [rows[k]] + Pending(rows[k + 1..], marked)
  {
    assert rows[k..][1..] == rows[k + 1..];
  }

  lemma {:induction false} IdsFit(rows: seq<Row>)
    ensures |Ids(rows)| <= |rows|
    decreases |rows|
  {
    if |rows| > 0 {
      IdsFit(rows[1..]);
      assert rows == [rows[0]] + rows[1..];
      assert Ids(rows) == {rows[0].id} + Ids(rows[1..]);
    }
  }

  lemma MarkedFits(rows: seq<Row>, marked: set<int>)
    requires marked <= Ids(rows)
    ensures |marked| <= |rows|
  {
    IdsFit(rows);
    assert Ids(rows) == marked + (Ids(rows) - marked);
  }
}
