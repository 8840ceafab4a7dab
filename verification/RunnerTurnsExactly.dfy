/**
 Exactly when a turn holds its row: as long as its object is covered -- listed, or popped by a
 stop that still waits for the turn.  From every reachable state in which it is not, some
 orderly continuation takes the row away while the turn is under way.
 */
module RunnerTurnsExactly {
  import opened HubStore
  import opened RunnerProtocol
  import opened RunnerInvariants
  import opened RunnerRuns
  import opened RunnerOwnership
  import opened RunnerTurns

  /** Orderly, and no stop that waits for a turn on `o` is cut off. */
  ghost predicate Allowed(s: State, a: Action, r: RunnerId, i: InstanceId, o: ObjId) {
    TurnOrderly(s, a, r, i) && (a.Abort? && a.t in s.tasks ==> s.tasks[a.t].phase != WaitStop(o))
  }

  ghost predicate AllowedRun(s: State, run: seq<Action>, r: RunnerId, i: InstanceId, o: ObjId)
    requires ValidRun(s, run)
    decreases |run|
  {
    |run| == 0 || (Allowed(s, run[0], r, i, o) && AllowedRun(Step(s, run[0]), run[1..], r, i, o))
  }

  lemma {:induction false} AllowedIsOrderly(s: State, run: seq<Action>, r: RunnerId, i: InstanceId, o: ObjId)
    requires ValidRun(s, run) && AllowedRun(s, run, r, i, o)
    ensures TurnOrderlyRun(s, run, r, i)
    decreases |run|
  {
    if |run| > 0 {
      AllowedIsOrderly(Step(s, run[0]), run[1..], r, i, o);
    }
  }

  // ---- a covered turn stays covered ----------------------------------------

  /** A coroutine that leaves its turn is over, and stays so. */
  lemma TurnGoesOn(s: State, a: Action, w: TaskId, o: ObjId)
    requires Structure(s) && Enabled(s, a) && w in s.tasks
    ensures w in Step(s, a).tasks
    ensures OnTurnAt(s, w, o) ==> OnTurnAt(Step(s, a), w, o) || Step(s, a).tasks[w].phase.Finished?
    ensures s.tasks[w].phase.Finished? ==> Step(s, a).tasks[w].phase.Finished?
  {
    if a.Advance? {
      Ground(s, a.t);
      if a.t == w && OnTurnAt(s, w, o) {
        TurnAdvances(s, w, a.good, o);
      } else {
        OthersStand(s, a.t, a.good, w);
      }
    }
  }

  lemma TurnAdvances(s: State, w: TaskId, good: bool, o: ObjId)
    requires Grounded(s, w) && CanAdvance(s, w) && OnTurnAt(s, w, o)
    ensures var s' := AdvanceTask(s, w, good); OnTurnAt(s', w, o) || (w in s'.tasks && s'.tasks[w].phase.Finished?)
  {
  }

  lemma OthersStand(s: State, t: TaskId, good: bool, w: TaskId)
    requires Grounded(s, t) && CanAdvance(s, t) && w in s.tasks
    ensures w in AdvanceTask(s, t, good).tasks
    ensures w != t ==> AdvanceTask(s, t, good).tasks[w] == s.tasks[w]
  {
    if !ChangesDictionary(s, t) {
      AdvanceMoves(s, t, good);
    }
  }

  /** A step that changes no dictionary and moves no stop that waits on `o`. */
  lemma CoveredMoves(s: State, s': State, t: TaskId, o: ObjId)
    requires Moves(s, s', t) && Covered(s, o) && s.tasks[t].phase != WaitStop(o)
    ensures Covered(s', o)
  {
    if u :| u in s.tasks && s.tasks[u].phase == WaitStop(o) {
      assert s'.tasks[u].phase == WaitStop(o);
    } else {
      assert Listed(s, o);
      assert s'.objs[o].runner == s.objs[o].runner && s'.objs[o].inst == s.objs[o].inst;
    }
  }

  lemma CoveredInstall(s: State, t: TaskId, o: ObjId)
    requires Structure(s) && Known(s, t) && s.tasks[t].phase == ClaimReturned(true) && Covered(s, o)
    ensures Covered(Install(s, t), o)
  {
    var s' := Install(s, t);
    Ground(s, t);
    if u :| u in s.tasks && s.tasks[u].phase == WaitStop(o) {
      assert s'.tasks[u].phase == WaitStop(o);
    } else {
      assert Listed(s, o);
      assert o != s.nextObj;
    }
  }

  lemma CoveredPop(s: State, t: TaskId, o: ObjId)
    requires Structure(s) && Known(s, t) && s.tasks[t].phase.Starting? && s.tasks[t].job.StopJob?
    requires s.tasks[t].inst in Me(s, t).instances && Covered(s, o)
    ensures Covered(Pop(s, t), o)
  {
    var s' := Pop(s, t);
    if u :| u in s.tasks && s.tasks[u].phase == WaitStop(o) {
      assert s'.tasks[u].phase == WaitStop(o);
    } else if Me(s, t).instances[s.tasks[t].inst] == o {
      assert s'.tasks[t].phase == WaitStop(o);
    } else {
      assert Listed(s, o);
    }
  }

  lemma CoveredStep(s: State, a: Action, w: TaskId, o: ObjId, r: RunnerId, i: InstanceId)
    requires Structure(s) && Enabled(s, a) && Allowed(s, a, r, i, o) && OnTurnAt(s, w, o) && Covered(s, o)
    ensures Covered(Step(s, a), o)
  {
    Ground(s, w);
    match a
    case Advance(t, good) =>
      Ground(s, t);
      assert s.tasks[t].phase != WaitStop(o);
      if s.tasks[t].phase == ClaimReturned(true) {
        CoveredInstall(s, t, o);
      } else if ChangesDictionary(s, t) {
        CoveredPop(s, t, o);
      } else {
        AdvanceMoves(s, t, good);
        CoveredMoves(s, Step(s, a), t, o);
      }
    case Abort(t) =>
      Ground(s, t);
      AbortMoves(s, t);
      CoveredMoves(s, Step(s, a), t, o);
    case _ => CoveredBeside(s, a, o);
  }

  lemma CoveredBeside(s: State, a: Action, o: ObjId)
    requires Enabled(s, a) && !a.Advance? && !a.Abort? && Covered(s, o)
    ensures Covered(Step(s, a), o)
  {
    if u :| u in s.tasks && s.tasks[u].phase == WaitStop(o) {
      assert Step(s, a).tasks[u].phase == WaitStop(o);
    } else {
      assert Listed(s, o) && Listed(Step(s, a), o);
    }
  }

  lemma {:induction false} OverIsOver(s: State, run: seq<Action>, w: TaskId)
    requires Structure(s) && ValidRun(s, run) && w in s.tasks && s.tasks[w].phase.Finished?
    ensures w in Exec(s, run).tasks && Exec(s, run).tasks[w].phase.Finished?
    decreases |run|
  {
    if |run| > 0 {
      TurnGoesOn(s, run[0], w, 0);
      StructureStep(s, run[0]);
      OverIsOver(Step(s, run[0]), run[1..], w);
    }
  }

  lemma {:induction false} RunCovered(s: State, run: seq<Action>, w: TaskId, o: ObjId, r: RunnerId, i: InstanceId)
    requires Structure(s) && ValidRun(s, run) && AllowedRun(s, run, r, i, o) && OnTurnAt(s, w, o) && Covered(s, o)
    requires OnTurnAt(Exec(s, run), w, o)
    ensures Covered(Exec(s, run), o) && Exec(s, run).tasks[w].runner == s.tasks[w].runner
    ensures Exec(s, run).tasks[w].inst == s.tasks[w].inst
    decreases |run|
  {
    if |run| > 0 {
      var s1 := Step(s, run[0]);
      TurnGoesOn(s, run[0], w, o);
      StructureStep(s, run[0]);
      if s1.tasks[w].phase.Finished? {
        OverIsOver(s1, run[1..], w);
        assert false;
      }
      CoveredStep(s, run[0], w, o, r, i);
      SameTask(s, run[0], w);
      RunCovered(s1, run[1..], w, o, r, i);
    }
  }

  lemma SameTask(s: State, a: Action, w: TaskId)
    requires Structure(s) && Enabled(s, a) && w in s.tasks
    ensures var s' := Step(s, a);
            w in s'.tasks && s'.tasks[w].runner == s.tasks[w].runner && s'.tasks[w].inst == s.tasks[w].inst
  {
    if a.Advance? {
      Ground(s, a.t);
      if !ChangesDictionary(s, a.t) {
        AdvanceMoves(s, a.t, a.good);
      }
    }
  }

  // ---- an uncovered one can lose its row -----------------------------------

  /** An allowed run to `s'`. */
  ghost predicate Leads(s: State, run: seq<Action>, s': State, r: RunnerId, i: InstanceId, o: ObjId) {
    Reaches(s, run, s') && AllowedRun(s, run, r, i, o)
  }

  lemma {:induction false} CalmLeads(s: State, run: seq<Action>, s': State, r: RunnerId, i: InstanceId, o: ObjId)
    requires Calmly(s, run, s')
    ensures Leads(s, run, s', r, i, o)
    decreases |run|
  {
    if |run| > 0 {
      CalmLeads(Step(s, run[0]), run[1..], s', r, i, o);
    }
  }

  lemma {:induction false} LeadsOn(s: State, run: seq<Action>, s': State, more: seq<Action>, s'': State,
                                   r: RunnerId, i: InstanceId, o: ObjId)
    requires Leads(s, run, s', r, i, o) && Leads(s', more, s'', r, i, o)
    ensures Leads(s, run + more, s'', r, i, o)
    decreases |run|
  {
    Chain(s, run, s', more, s'');
    if |run| == 0 {
      assert run + more == more;
    } else {
      assert (run + more)[0] == run[0] && (run + more)[1..] == run[1..] + more;
      LeadsOn(Step(s, run[0]), run[1..], s', more, s'', r, i, o);
    }
  }

  lemma OneLeads(s: State, a: Action, r: RunnerId, i: InstanceId, o: ObjId)
    requires Enabled(s, a) && Allowed(s, a, r, i, o)
    ensures Leads(s, [a], Step(s, a), r, i, o)
  {
    OneStep(s, a);
  }

  /** The turn is still under way and its row is gone. */
  ghost predicate Lost(s: State, s': State, w: TaskId, r: RunnerId, i: InstanceId) {
    w in s.tasks && w in s'.tasks && s'.tasks[w] == s.tasks[w] && !CanRelease(s'.rows, i, r)
  }

  /** A stop of the instance on another object goes on to release the row. */
  lemma PendingTakes(s: State, w: TaskId, o: ObjId, u: TaskId, r: RunnerId, i: InstanceId)
    returns (more: seq<Action>, s': State)
    requires Reachable(s) && OnTurnAt(s, w, o) && u in s.tasks && Pending(s.tasks[u], r, i) && s.tasks[u].phase.obj != o
    ensures Leads(s, more, s', r, i, o) && Lost(s, s', w, r, i)
  {
    more, s' := PendingReleases(s, u);
    CalmLeads(s, more, s', r, i, o);
  }

  /** An entry under another object is stopped. */
  lemma EntryTakes(s: State, w: TaskId, o: ObjId, r: RunnerId, i: InstanceId) returns (more: seq<Action>, s': State)
    requires Reachable(s) && OnTurnAt(s, w, o) && Has(s, r, i) && s.runners[r].instances[i] != o
    ensures Leads(s, more, s', r, i, o) && Lost(s, s', w, r, i)
  {
    var u := UnusedTask(s.tasks.Keys);
    var s1 := Step(s, Spawn(u, r, i, StopJob));
    OneLeads(s, Spawn(u, r, i, StopJob), r, i, o);
    var s2 := PopNow(s1, u, r, i);
    OneLeads(s1, Advance(u, true), r, i, o);
    LeadsOn(s, [Spawn(u, r, i, StopJob)], s1, [Advance(u, true)], s2, r, i, o);
    var start := [Spawn(u, r, i, StopJob)] + [Advance(u, true)];
    Onward(s, start, s2);
    more, s' := PendingTakes(s2, w, o, u, r, i);
    LeadsOn(s, start, s2, more, s', r, i, o);
    more := start + more;
  }

  lemma PopNow(s: State, u: TaskId, r: RunnerId, i: InstanceId) returns (s': State)
    requires u in s.tasks && s.tasks[u] == Task(r, i, StopJob, Starting) && Has(s, r, i)
    ensures Enabled(s, Advance(u, true)) && s' == Step(s, Advance(u, true))
    ensures s'.tasks == s.tasks[u := s.tasks[u].(phase := WaitStop(s.runners[r].instances[i]))]
    ensures !WinsClaim(s, u, r, i)
  {
    s' := Step(s, Advance(u, true));
  }

  /** A won claim makes an entry, which is then stopped. */
  lemma WinnerTakes(s: State, w: TaskId, o: ObjId, t: TaskId, r: RunnerId, i: InstanceId)
    returns (more: seq<Action>, s': State)
    requires Reachable(s) && OnTurnAt(s, w, o) && t in s.tasks && Winner(s.tasks[t], r, i)
    ensures Leads(s, more, s', r, i, o) && Lost(s, s', w, r, i)
  {
    Footing(s, t);
    Footing(s, w);
    var s1 := Step(s, Advance(t, true));
    WinnerEnters(s, t, r, i);
    CalmLeads(s, [Advance(t, true)], s1, r, i, o);
    Onward(s, [Advance(t, true)], s1);
    EnteredAsNew(s, t, r, i);
    ObjectsAreOlder(s, o);
    more, s' := EntryTakes(s1, w, o, r, i);
    LeadsOn(s, [Advance(t, true)], s1, more, s', r, i, o);
    more := [Advance(t, true)] + more;
  }

  lemma EnteredAsNew(s: State, t: TaskId, r: RunnerId, i: InstanceId)
    requires Known(s, t) && Winner(s.tasks[t], r, i)
    ensures var s' := AdvanceTask(s, t, true);
            && Has(s', r, i) && s'.runners[r].instances[i] == s.nextObj
            && forall w <- s.tasks :: w != t ==> w in s'.tasks && s'.tasks[w] == s.tasks[w]
  {
  }

  lemma ObjectsAreOlder(s: State, o: ObjId)
    requires Reachable(s) && o in s.objs
    ensures o < s.nextObj
  {
    ReachableStructure(s);
  }

  /** A pending stop of the instance is not one of this turn's object. */
  lemma PendingElsewhere(s: State, w: TaskId, o: ObjId, u: TaskId, r: RunnerId, i: InstanceId)
    requires Reachable(s) && OnTurnAt(s, w, o) && !Awaited(s, o) && u in s.tasks && Pending(s.tasks[u], r, i)
    ensures s.tasks[u].phase.obj != o
  {
    Footing(s, w);
    Footing(s, u);
  }

  /** From every reachable state with a turn on an uncovered object, some orderly continuation that
      cuts no waiting stop off takes the row away while the turn is under way. */
  lemma UncoveredLosesRow(s: State, w: TaskId, o: ObjId, r: RunnerId, i: InstanceId)
    returns (more: seq<Action>, s': State)
    requires Reachable(s) && OnTurnAt(s, w, o) && For(s.tasks[w], r, i) && !Covered(s, o)
    ensures Leads(s, more, s', r, i, o) && Lost(s, s', w, r, i)
  {
    if !CanRelease(s.rows, i, r) {
      more, s' := [], s;
    } else if u :| u in s.tasks && Pending(s.tasks[u], r, i) {
      PendingElsewhere(s, w, o, u, r, i);
      more, s' := PendingTakes(s, w, o, u, r, i);
    } else if Has(s, r, i) {
      Footing(s, w);
      more, s' := EntryTakes(s, w, o, r, i);
    } else if t :| t in s.tasks && Winner(s.tasks[t], r, i) {
      more, s' := WinnerTakes(s, w, o, t, r, i);
    } else {
      s' := Step(s, DownByHub(i));
      OneLeads(s, DownByHub(i), r, i, o);
      more := [DownByHub(i)];
    }
  }

  // ---- the condition is exact ----------------------------------------------

  /** As long as the turn is under way its row is held, in every allowed continuation. */
  ghost predicate AlwaysHolds(s: State, w: TaskId, o: ObjId, r: RunnerId, i: InstanceId) {
    forall more :: ValidRun(s, more) && AllowedRun(s, more, r, i, o) && OnTurnAt(Exec(s, more), w, o) ==>
      CanRelease(Exec(s, more).rows, i, r)
  }

  lemma CoveredAlwaysHolds(s: State, w: TaskId, o: ObjId, r: RunnerId, i: InstanceId)
    requires Structure(s) && Owned(s, r, i) && StopHolds(s, r, i)
    requires OnTurnAt(s, w, o) && For(s.tasks[w], r, i) && Covered(s, o)
    ensures AlwaysHolds(s, w, o, r, i)
  {
    forall more | ValidRun(s, more) && AllowedRun(s, more, r, i, o) && OnTurnAt(Exec(s, more), w, o)
      ensures CanRelease(Exec(s, more).rows, i, r)
    {
      RunCovered(s, more, w, o, r, i);
      AllowedIsOrderly(s, more, r, i, o);
      RunHolds(s, more, r, i);
      CoveredHolds(Exec(s, more), w, o, r, i);
    }
  }

  /** After any orderly run: a turn's object is covered if and only if the turn holds its row as
      long as it is under way, in every orderly continuation that cuts off no stop waiting for it. */
  lemma TurnExactly(s0: State, run: seq<Action>, w: TaskId, o: ObjId, r: RunnerId, i: InstanceId)
    requires Init(s0) && ValidRun(s0, run) && TurnOrderlyRun(s0, run, r, i)
    requires OnTurnAt(Exec(s0, run), w, o) && For(Exec(s0, run).tasks[w], r, i)
    ensures Covered(Exec(s0, run), o) <==> AlwaysHolds(Exec(s0, run), w, o, r, i)
  {
    var s := Exec(s0, run);
    if Covered(s, o) {
      StructureInit(s0);
      RunHolds(s0, run, r, i);
      CoveredAlwaysHolds(s, w, o, r, i);
    } else {
      ReachableBy(s0, run);
      var more, s' := UncoveredLosesRow(s, w, o, r, i);
      assert OnTurnAt(s', w, o);
    }
  }
}
