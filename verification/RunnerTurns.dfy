/**
 When a turn runs on a row that its runner holds: as long as its object is listed or a stop
 still waits for the turn to end.  A turn that only waited for the lock when the stop took it
 starts afterwards, on a row that is gone.
 */
module RunnerTurns {
  import opened Common
  import opened HubStore
  import opened RunnerProtocol
  import opened RunnerInvariants
  import opened RunnerRuns
  import opened RunnerOwnership

  /** Orderly, and the hub leaves the row alone while a stop is pending too. */
  ghost predicate TurnOrderly(s: State, a: Action, r: RunnerId, i: InstanceId) {
    Orderly(s, a, r, i) && (a == DownByHub(i) ==> !StopPending(s, r, i))
  }

  ghost predicate TurnOrderlyRun(s: State, run: seq<Action>, r: RunnerId, i: InstanceId)
    requires ValidRun(s, run)
    decreases |run|
  {
    |run| == 0 || (TurnOrderly(s, run[0], r, i) && TurnOrderlyRun(Step(s, run[0]), run[1..], r, i))
  }

  /** A pending stop is the only one and its row is still there. */
  ghost predicate StopHolds(s: State, r: RunnerId, i: InstanceId) {
    && (StopPending(s, r, i) ==> CanRelease(s.rows, i, r))
    && (forall u <- s.tasks, v <- s.tasks :: Pending(s.tasks[u], r, i) && Pending(s.tasks[v], r, i) ==> u == v)
  }

  lemma PlainHolds(s: State, s': State, t: TaskId, r: RunnerId, i: InstanceId)
    requires StopHolds(s, r, i) && Plain(s, s', t)
    ensures StopHolds(s', r, i)
  {
    PlainKeeps(s, s', t, r, i);
    assert forall u <- s'.tasks :: Pending(s'.tasks[u], r, i) ==> Pending(s.tasks[u], r, i);
  }

  /** A step that starts no stop of the instance and leaves its row alone while one is pending. */
  lemma NoNewStop(s: State, s': State, r: RunnerId, i: InstanceId)
    requires StopHolds(s, r, i)
    requires forall u <- s'.tasks :: Pending(s'.tasks[u], r, i) ==> u in s.tasks && Pending(s.tasks[u], r, i)
    requires StopPending(s', r, i) ==> CanRelease(s'.rows, i, r)
    ensures StopHolds(s', r, i)
  {
  }

  lemma ClaimHolds(s: State, t: TaskId, r: RunnerId, i: InstanceId)
    requires StopHolds(s, r, i) && Known(s, t) && s.tasks[t].phase.AtClaim?
    requires WinsClaim(s, t, r, i) ==> !StopPending(s, r, i)
    ensures StopHolds(ClaimDb(s, t), r, i)
  {
    var s' := ClaimDb(s, t);
    assert forall u <- s'.tasks :: Pending(s'.tasks[u], r, i) ==> Pending(s.tasks[u], r, i);
    NoNewStop(s, s', r, i);
  }

  lemma ReleaseHolds(s: State, t: TaskId, r: RunnerId, i: InstanceId)
    requires StopHolds(s, r, i) && Known(s, t) && s.tasks[t].phase.AtRelease?
    ensures StopHolds(ReleaseDb(s, t, s.tasks[t].phase.obj), r, i)
  {
    var s' := ReleaseDb(s, t, s.tasks[t].phase.obj);
    assert forall u <- s'.tasks :: Pending(s'.tasks[u], r, i) ==> Pending(s.tasks[u], r, i) && u != t;
    assert For(s.tasks[t], r, i) ==> Pending(s.tasks[t], r, i);
    NoNewStop(s, s', r, i);
  }

  lemma InstallHolds(s: State, t: TaskId, r: RunnerId, i: InstanceId)
    requires StopHolds(s, r, i) && Known(s, t) && s.tasks[t].phase == ClaimReturned(true)
    ensures StopHolds(Install(s, t), r, i)
  {
    var s' := Install(s, t);
    assert forall u <- s'.tasks :: Pending(s'.tasks[u], r, i) ==> Pending(s.tasks[u], r, i);
    NoNewStop(s, s', r, i);
  }

  lemma PopHolds(s: State, t: TaskId, r: RunnerId, i: InstanceId)
    requires Owned(s, r, i) && StopHolds(s, r, i) && Known(s, t) && s.tasks[t].phase.Starting?
             && s.tasks[t].job.StopJob?
    requires s.tasks[t].inst in Me(s, t).instances
    ensures StopHolds(Pop(s, t), r, i)
  {
    var s' := Pop(s, t);
    assert forall u <- s'.tasks :: Pending(s'.tasks[u], r, i) ==> Pending(s.tasks[u], r, i) || (u == t && Has(s, r, i));
  }

  lemma AdvanceHolds(s: State, t: TaskId, good: bool, r: RunnerId, i: InstanceId)
    requires Structure(s) && Owned(s, r, i) && StopHolds(s, r, i)
    requires Enabled(s, Advance(t, good)) && Orderly(s, Advance(t, good), r, i)
    ensures StopHolds(Step(s, Advance(t, good)), r, i)
  {
    Ground(s, t);
    var p := s.tasks[t].phase;
    if p.AtClaim? {
      ClaimHolds(s, t, r, i);
    } else if p.AtRelease? {
      ReleaseHolds(s, t, r, i);
    } else if p == ClaimReturned(true) {
      InstallHolds(s, t, r, i);
    } else if ChangesDictionary(s, t) {
      PopHolds(s, t, r, i);
    } else {
      AdvancePlain(s, t, good);
      PlainHolds(s, AdvanceTask(s, t, good), t, r, i);
    }
  }

  lemma EnvironmentHolds(s: State, a: Action, r: RunnerId, i: InstanceId)
    requires StopHolds(s, r, i) && Enabled(s, a) && TurnOrderly(s, a, r, i) && !a.Advance? && !a.Abort?
    ensures StopHolds(Step(s, a), r, i)
  {
    var s' := Step(s, a);
    assert forall u <- s'.tasks :: Pending(s'.tasks[u], r, i) ==> u in s.tasks && Pending(s.tasks[u], r, i);
    NoNewStop(s, s', r, i);
  }

  lemma HoldsStep(s: State, a: Action, r: RunnerId, i: InstanceId)
    requires Structure(s) && Owned(s, r, i) && StopHolds(s, r, i) && Enabled(s, a) && TurnOrderly(s, a, r, i)
    ensures StopHolds(Step(s, a), r, i)
  {
    if a.Advance? {
      AdvanceHolds(s, a.t, a.good, r, i);
    } else if a.Abort? {
      Ground(s, a.t);
      AbortPlain(s, a.t);
      PlainHolds(s, AbortTask(s, a.t), a.t, r, i);
    } else {
      EnvironmentHolds(s, a, r, i);
    }
  }

  lemma {:induction false} RunHolds(s: State, run: seq<Action>, r: RunnerId, i: InstanceId)
    requires Structure(s) && Owned(s, r, i) && StopHolds(s, r, i) && ValidRun(s, run) && TurnOrderlyRun(s, run, r, i)
    ensures Structure(Exec(s, run)) && Owned(Exec(s, run), r, i) && StopHolds(Exec(s, run), r, i)
    decreases |run|
  {
    if |run| > 0 {
      StructureStep(s, run[0]);
      OwnedStep(s, run[0], r, i);
      HoldsStep(s, run[0], r, i);
      RunHolds(Step(s, run[0]), run[1..], r, i);
    }
  }

  ghost predicate Awaited(s: State, o: ObjId) { exists u <- s.tasks :: s.tasks[u].phase == WaitStop(o) }

  /** The object is in the dictionary, or a stop that took it out still waits for its turn to end. */
  ghost predicate Covered(s: State, o: ObjId) { Listed(s, o) || Awaited(s, o) }

  ghost predicate OnTurnAt(s: State, w: TaskId, o: ObjId) {
    w in s.tasks && OnTurn(s.tasks[w].phase) && s.tasks[w].phase.obj == o
  }

  lemma CoveredHolds(s: State, w: TaskId, o: ObjId, r: RunnerId, i: InstanceId)
    requires Structure(s) && Owned(s, r, i) && StopHolds(s, r, i) && Covered(s, o)
    requires OnTurnAt(s, w, o) && For(s.tasks[w], r, i)
    ensures CanRelease(s.rows, i, r)
  {
    Ground(s, w);
    if Awaited(s, o) {
      var u :| u in s.tasks && s.tasks[u].phase == WaitStop(o);
      Ground(s, u);
      assert Pending(s.tasks[u], r, i);
    }
  }

  /** In every orderly run a turn whose object is covered runs on a row that its runner holds. */
  lemma TurnHoldsRow(s0: State, run: seq<Action>, w: TaskId, o: ObjId)
    requires Init(s0) && ValidRun(s0, run) && OnTurnAt(Exec(s0, run), w, o) && Covered(Exec(s0, run), o)
    requires TurnOrderlyRun(s0, run, Exec(s0, run).tasks[w].runner, Exec(s0, run).tasks[w].inst)
    ensures var s := Exec(s0, run); CanRelease(s.rows, s.tasks[w].inst, s.tasks[w].runner)
  {
    var s := Exec(s0, run);
    StructureInit(s0);
    RunHolds(s0, run, s.tasks[w].runner, s.tasks[w].inst);
    CoveredHolds(s, w, o, s.tasks[w].runner, s.tasks[w].inst);
  }

  // ---- and otherwise -------------------------------------------------------

  /** A turn is under way on an object that is neither listed nor awaited, and its row is gone. */
  ghost predicate Rowless(s: State, w: TaskId, o: ObjId) {
    && w in s.tasks && s.tasks[w].phase == InTurn(o)
    && !Covered(s, o) && !CanRelease(s.rows, s.tasks[w].inst, s.tasks[w].runner)
  }

  /** A stop under its instance lock finishes and leaves the lock free. */
  lemma StopFinishes(s: State, u: TaskId, o: ObjId) returns (run: seq<Action>, s': State)
    requires Grounded(s, u) && s.tasks[u].phase == AtRelease(o)
    ensures Calmly(s, run, s') && s'.tasks == s.tasks[u := s.tasks[u].(phase := Finished)]
    ensures o in s.objs && s'.objs == s.objs[o := s.objs[o].(lock := None)]
    ensures s'.runners.Keys == s.runners.Keys
            && forall r <- s.runners :: s'.runners[r].instances == s.runners[r].instances
    ensures !CanRelease(s'.rows, s.tasks[u].inst, s.tasks[u].runner)
  {
    var s1 := Step(s, Advance(u, true));
    assert s1.tasks == s.tasks[u := s.tasks[u].(phase := ReleaseReturned(o))] && s1.objs == s.objs
           && s1.runners == s.runners;
    s' := Step(s1, Advance(u, true));
    CalmOne(s, Advance(u, true));
    CalmOne(s1, Advance(u, true));
    CalmChain(s, [Advance(u, true)], s1, [Advance(u, true)], s');
    run := [Advance(u, true)] + [Advance(u, true)];
  }

  lemma TurnStarts(s: State, w: TaskId, o: ObjId) returns (run: seq<Action>, s': State)
    requires Known(s, w) && s.tasks[w].phase == WaitTurn(o) && o in s.objs && s.objs[o].lock.None?
    ensures Calmly(s, run, s') && s'.tasks == s.tasks[w := s.tasks[w].(phase := InTurn(o))]
    ensures s'.runners == s.runners && s'.rows == s.rows && s'.objs == s.objs[o := s.objs[o].(lock := Some(w))]
  {
    var s1 := Step(s, Advance(w, true));
    assert s1.tasks == s.tasks[w := s.tasks[w].(phase := AtLoadContext(o))];
    s' := Step(s1, Advance(w, true));
    CalmOne(s, Advance(w, true));
    CalmOne(s1, Advance(w, true));
    CalmChain(s, [Advance(w, true)], s1, [Advance(w, true)], s');
    run := [Advance(w, true)] + [Advance(w, true)];
  }

  /** Whenever a stop has taken the lock and a turn waits for it, the turn can start after the
      row is released. */
  lemma WaitingTurnOutlivesRelease(s: State, u: TaskId, w: TaskId, o: ObjId) returns (run: seq<Action>)
    requires Reachable(s) && u in s.tasks && s.tasks[u].phase == AtRelease(o)
    requires w in s.tasks && s.tasks[w].phase == WaitTurn(o)
    ensures ValidRun(s, run) && Calm(s, run) && Rowless(Exec(s, run), w, o)
  {
    Footing(s, u);
    Footing(s, w);
    var stop, s1 := StopFinishes(s, u, o);
    var turn, s2 := TurnStarts(s1, w, o);
    CalmChain(s, stop, s1, turn, s2);
    run := stop + turn;
    NotCovered(s, u, o, s2, w);
  }

  lemma NotCovered(s: State, u: TaskId, o: ObjId, s': State, w: TaskId)
    requires Reachable(s) && u in s.tasks && s.tasks[u].phase == AtRelease(o) && o in s.objs && w in s.tasks && w != u
    requires s'.tasks == s.tasks[u := s.tasks[u].(phase := Finished)][w := s.tasks[w].(phase := InTurn(o))]
    requires s'.runners.Keys == s.runners.Keys
             && forall r <- s.runners :: s'.runners[r].instances == s.runners[r].instances
    requires o in s'.objs && s'.objs[o].runner == s.objs[o].runner && s'.objs[o].inst == s.objs[o].inst
    ensures !Covered(s', o)
  {
    ReachableStructure(s);
    assert !Listed(s, o);
  }

  /** That happens: from every initial state with a slot and a claimable instance. */
  lemma RowlessTurnIsReachable(s0: State, r: RunnerId, i: InstanceId) returns (run: seq<Action>)
    requires Init(s0) && r in s0.runners && s0.runners[r].slots > 0 && CanClaim(s0.rows, i, r)
    ensures ValidRun(s0, run) && Rowless(Exec(s0, run), 0, s0.nextObj)
  {
    var o := s0.nextObj;
    run := NewToRaised(s0, 0, r, i, ChatJob);
    var s1 := Fresh(s0, 0, r, i, ChatJob);
    var stop, s2 := StopTakesLock(s1, 1, r, i, o);
    Chain(s0, run, s1, stop, s2);
    run := run + stop;
    ReachableBy(s0, run);
    var more := WaitingTurnOutlivesRelease(s2, 1, 0, o);
    AppendRun(s0, run, more);
    run := run + more;
  }

  lemma StopTakesLock(s: State, u: TaskId, r: RunnerId, i: InstanceId, o: ObjId) returns (run: seq<Action>, s': State)
    requires u !in s.tasks && Has(s, r, i) && s.runners[r].instances[i] == o && o in s.objs && s.objs[o].lock.None?
    ensures Reaches(s, run, s') && s'.tasks == s.tasks[u := Task(r, i, StopJob, AtRelease(o))]
  {
    var s1, s2 := PopStep(s, u, r, i);
    s' := Step(s2, Advance(u, true));
    OneStep(s2, Advance(u, true));
    Chain(s, [Spawn(u, r, i, StopJob), Advance(u, true)], s2, [Advance(u, true)], s');
    run := [Spawn(u, r, i, StopJob), Advance(u, true)] + [Advance(u, true)];
  }

  lemma PopStep(s: State, u: TaskId, r: RunnerId, i: InstanceId) returns (s1: State, s2: State)
    requires u !in s.tasks && Has(s, r, i)
    ensures Reaches(s, [Spawn(u, r, i, StopJob), Advance(u, true)], s2)
    ensures s2.tasks == s.tasks[u := Task(r, i, StopJob, WaitStop(s.runners[r].instances[i]))]
    ensures s2.runners == s.runners[r := s.runners[r].(instances := s.runners[r].instances - {i})]
    ensures s2.objs == s.objs && s2.rows == s.rows && s2.nextObj == s.nextObj
  {
    s1 := Step(s, Spawn(u, r, i, StopJob));
    s2 := Step(s1, Advance(u, true));
    TwoSteps(s, Spawn(u, r, i, StopJob), Advance(u, true));
  }

  // ---- the overlap is reachable --------------------------------------------

  /** From any initial state, on any runner with two slots, for any claimable instance, a raise
      comes to win its claim while a stop of the instance is pending. */
  lemma OverlapIsReachable(s0: State, r: RunnerId, i: InstanceId) returns (run: seq<Action>)
    requires Init(s0) && r in s0.runners && s0.runners[r].slots >= 2 && CanClaim(s0.rows, i, r)
    ensures ValidRun(s0, run) && WinsClaim(Exec(s0, run), 2, r, i) && StopPending(Exec(s0, run), r, i)
  {
    run := NewToRaised(s0, 0, r, i, RaiseJob);
    var s1 := Fresh(s0, 0, r, i, RaiseJob);
    var _, s2 := PopStep(s1, 1, r, i);
    Chain(s0, run, s1, [Spawn(1, r, i, StopJob), Advance(1, true)], s2);
    run := run + [Spawn(1, r, i, StopJob), Advance(1, true)];
    NewToSlot(s2, 2, r, i, RaiseJob);
    var s3 := Born(s2, 2, r, i, RaiseJob, WaitSlot);
    Chain(s0, run, s2, [Spawn(2, r, i, RaiseJob), Advance(2, true)], s3);
    run := run + [Spawn(2, r, i, RaiseJob), Advance(2, true)];
    SlotToClaim(s3, 2);
    var n := Me(s3, 2);
    var s4 := At(s3, 2, AtClaim, n.(free := n.free - 1, raiseLock := Some(2)));
    Chain(s0, run, s3, [Advance(2, true), Advance(2, true)], s4);
    run := run + [Advance(2, true), Advance(2, true)];
    assert Pending(s4.tasks[1], r, i);
  }
}
