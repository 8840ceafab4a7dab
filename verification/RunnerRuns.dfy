/** Stretches of runs: how a coroutine gets from one await to a later one when nobody interferes. */
module RunnerRuns {
  import opened Common
  import opened HubStore
  import opened RunnerProtocol
  import opened RunnerInvariants

  ghost predicate Reaches(s: State, run: seq<Action>, s': State) { ValidRun(s, run) && Exec(s, run) == s' }

  lemma FirstStep(s: State, a: Action, rest: seq<Action>, run: seq<Action>)
    requires Enabled(s, a) && ValidRun(Step(s, a), rest) && run == [a] + rest
    ensures ValidRun(s, run) && Exec(s, run) == Exec(Step(s, a), rest)
  {
    assert run[1..] == rest;
  }

  lemma {:induction false} AppendRun(s: State, run: seq<Action>, more: seq<Action>)
    requires ValidRun(s, run) && ValidRun(Exec(s, run), more)
    ensures ValidRun(s, run + more) && Exec(s, run + more) == Exec(Exec(s, run), more)
    decreases |run|
  {
    if |run| == 0 {
      assert run + more == more;
    } else {
      assert (run + more)[0] == run[0] && (run + more)[1..] == run[1..] + more;
      AppendRun(Step(s, run[0]), run[1..], more);
    }
  }

  lemma Chain(s: State, run: seq<Action>, s': State, more: seq<Action>, s'': State)
    requires Reaches(s, run, s') && Reaches(s', more, s'')
    ensures Reaches(s, run + more, s'')
  {
    AppendRun(s, run, more);
  }

  lemma OneStep(s: State, a: Action)
    requires Enabled(s, a)
    ensures Reaches(s, [a], Step(s, a))
  {
    FirstStep(s, a, [], [a]);
  }

  lemma TwoSteps(s: State, a: Action, b: Action)
    requires Enabled(s, a) && Enabled(Step(s, a), b)
    ensures Reaches(s, [a, b], Step(Step(s, a), b))
  {
    FirstStep(Step(s, a), b, [], [b]);
    FirstStep(s, a, [b], [a, b]);
  }

  /** A run of coroutines none of which claims a row or begins a delivery. */
  ghost predicate Calm(s: State, run: seq<Action>)
    requires ValidRun(s, run)
    decreases |run|
  {
    |run| == 0 || (
      && run[0].Advance? && run[0].t in s.tasks && Past(s.tasks[run[0].t].phase)
      && Calm(Step(s, run[0]), run[1..]))
  }

  predicate Past(p: Phase) { !p.AtClaim? && !p.AtBegin? }

  ghost predicate Calmly(s: State, run: seq<Action>, s': State) { Reaches(s, run, s') && Calm(s, run) }

  lemma CalmOne(s: State, a: Action)
    requires Enabled(s, a) && a.Advance? && Past(s.tasks[a.t].phase)
    ensures Calmly(s, [a], Step(s, a))
  {
    OneStep(s, a);
  }

  lemma {:induction false} CalmChain(s: State, run: seq<Action>, s': State, more: seq<Action>, s'': State)
    requires Calmly(s, run, s') && Calmly(s', more, s'')
    ensures Calmly(s, run + more, s'')
    decreases |run|
  {
    Chain(s, run, s', more, s'');
    if |run| == 0 {
      assert run + more == more;
    } else {
      assert (run + more)[0] == run[0] && (run + more)[1..] == run[1..] + more;
      CalmChain(Step(s, run[0]), run[1..], s', more, s'');
    }
  }

  /** A run of new and old coroutines none of which begins a delivery or is cut off. */
  ghost predicate Early(s: State, run: seq<Action>)
    requires ValidRun(s, run)
    decreases |run|
  {
    |run| == 0 || (
      && (run[0].Spawn? || (run[0].Advance? && run[0].t in s.tasks && !s.tasks[run[0].t].phase.AtBegin?))
      && Early(Step(s, run[0]), run[1..]))
  }

  ghost predicate Easily(s: State, run: seq<Action>, s': State) { Reaches(s, run, s') && Early(s, run) }

  lemma EasyTwo(s: State, a: Action, b: Action)
    requires Enabled(s, a) && Enabled(Step(s, a), b) && b.Advance? && !Step(s, a).tasks[b.t].phase.AtBegin?
    requires a.Spawn? || (a.Advance? && !s.tasks[a.t].phase.AtBegin?)
    ensures Easily(s, [a, b], Step(Step(s, a), b))
  {
    TwoSteps(s, a, b);
    assert [a, b][1..] == [b] && [b][1..] == [];
    assert Early(Step(s, a), [b]);
  }

  lemma {:induction false} EasyChain(s: State, run: seq<Action>, s': State, more: seq<Action>, s'': State)
    requires Easily(s, run, s') && Easily(s', more, s'')
    ensures Easily(s, run + more, s'')
    decreases |run|
  {
    Chain(s, run, s', more, s'');
    if |run| == 0 {
      assert run + more == more;
    } else {
      assert (run + more)[0] == run[0] && (run + more)[1..] == run[1..] + more;
      EasyChain(Step(s, run[0]), run[1..], s', more, s'');
    }
  }

  // ---- reachable states ----------------------------------------------------

  ghost predicate Reachable(s: State) { exists s0, run :: Init(s0) && Reaches(s0, run, s) }

  lemma ReachableBy(s0: State, run: seq<Action>)
    requires Init(s0) && ValidRun(s0, run)
    ensures Reachable(Exec(s0, run))
  {
    assert Reaches(s0, run, Exec(s0, run));
  }

  lemma Onward(s: State, run: seq<Action>, s': State)
    requires Reachable(s) && Reaches(s, run, s')
    ensures Reachable(s')
  {
    var s0, before :| Init(s0) && Reaches(s0, before, s);
    Chain(s0, before, s, run, s');
  }

  lemma {:induction false} RunStructure(s: State, run: seq<Action>)
    requires Structure(s) && ValidRun(s, run)
    ensures Structure(Exec(s, run))
    decreases |run|
  {
    if |run| > 0 {
      StructureStep(s, run[0]);
      RunStructure(Step(s, run[0]), run[1..]);
    }
  }

  lemma ReachableStructure(s: State)
    requires Reachable(s)
    ensures Structure(s)
  {
    var s0, run :| Init(s0) && Reaches(s0, run, s);
    StructureInit(s0);
    RunStructure(s0, run);
  }

  lemma Footing(s: State, t: TaskId)
    requires Reachable(s) && t in s.tasks
    ensures Grounded(s, t)
  {
    ReachableStructure(s);
    Ground(s, t);
  }

  /** An instance lock names a coroutine that is inside it. */
  lemma HolderInside(s: State, o: ObjId)
    requires Reachable(s) && o in s.objs && s.objs[o].lock.Some?
    ensures var w := s.objs[o].lock.value;
            w in s.tasks && InInstanceLock(s.tasks[w].phase) && s.tasks[w].phase.obj == o
  {
    ReachableStructure(s);
  }

  /** There is always another coroutine. */
  lemma {:induction false} UnusedTask(used: set<TaskId>) returns (u: TaskId)
    ensures u !in used && forall v <- used :: v < u
    decreases |used|
  {
    if used == {} {
      u := 0;
    } else {
      var v :| v in used;
      var rest := UnusedTask(used - {v});
      u := if v < rest then rest else v + 1;
      assert used == (used - {v}) + {v};
    }
  }

  // ---- raising -------------------------------------------------------------

  /** `s` with coroutine `t` at phase `p` and its runner in local state `n`. */
  function At(s: State, t: TaskId, p: Phase, n: Runner): State
    requires t in s.tasks
  {
    s.(tasks := s.tasks[t := s.tasks[t].(phase := p)], runners := s.runners[s.tasks[t].runner := n])
  }

  /** A raise that found a free slot and a free raise lock stands before its claim. */
  lemma SlotToClaim(s: State, t: TaskId)
    requires Known(s, t) && s.tasks[t].phase.WaitSlot? && s.tasks[t].inst !in Me(s, t).instances
    requires Me(s, t).free > 0 && Me(s, t).raiseLock.None?
    ensures var n := Me(s, t);
            Easily(s, [Advance(t, true), Advance(t, true)],
                At(s, t, AtClaim, n.(free := n.free - 1, raiseLock := Some(t))))
  {
    var n := Me(s, t);
    var s1 := Step(s, Advance(t, true));
    assert s1 == At(s, t, WaitRaiseLock, n.(free := n.free - 1));
    EasyTwo(s, Advance(t, true), Advance(t, true));
  }

  /** The state after a winning claim put its instance in the dictionary. */
  function Raised(s: State, t: TaskId): State
    requires Known(s, t)
  {
    var task, n, o := s.tasks[t], Me(s, t), s.nextObj;
    At(s, t, AfterRaise(task.job, o), n.(instances := n.instances[task.inst := o], raiseLock := None))
    .(objs := s.objs[o := Local(task.inst, task.runner, None)], nextObj := o + 1,
      rows := s.rows[task.inst := Running(task.runner)], log := s.log + [Claim(task.inst, task.runner)])
  }

  lemma ClaimToRaised(s: State, t: TaskId)
    requires Known(s, t) && s.tasks[t].phase.AtClaim? && CanClaim(s.rows, s.tasks[t].inst, s.tasks[t].runner)
    ensures Easily(s, [Advance(t, true), Advance(t, true)], Raised(s, t))
  {
    var s1 := Step(s, Advance(t, true));
    assert s1.tasks == s.tasks[t := s.tasks[t].(phase := ClaimReturned(true))];
    assert s1.runners == s.runners && s1.objs == s.objs && s1.nextObj == s.nextObj;
    EasyTwo(s, Advance(t, true), Advance(t, true));
  }

  lemma SlotToRaised(s: State, t: TaskId) returns (run: seq<Action>)
    requires Known(s, t) && s.tasks[t].phase.WaitSlot? && s.tasks[t].inst !in Me(s, t).instances
    requires Me(s, t).free > 0 && Me(s, t).raiseLock.None?
    requires CanClaim(s.rows, s.tasks[t].inst, s.tasks[t].runner)
    ensures var n := Me(s, t);
            Easily(s, run, Raised(At(s, t, AtClaim, n.(free := n.free - 1, raiseLock := Some(t))), t))
  {
    var n := Me(s, t);
    var s1 := At(s, t, AtClaim, n.(free := n.free - 1, raiseLock := Some(t)));
    SlotToClaim(s, t);
    ClaimToRaised(s1, t);
    EasyChain(s, [Advance(t, true), Advance(t, true)], s1, [Advance(t, true), Advance(t, true)], Raised(s1, t));
    run := [Advance(t, true), Advance(t, true)] + [Advance(t, true), Advance(t, true)];
  }

  function Born(s: State, t: TaskId, r: RunnerId, i: InstanceId, job: Job, p: Phase): State {
    s.(tasks := s.tasks[t := Task(r, i, job, p)])
  }

  /** A new raise or chat of an unlisted instance waits for a slot. */
  lemma NewToSlot(s: State, t: TaskId, r: RunnerId, i: InstanceId, job: Job)
    requires t !in s.tasks && r in s.runners && i !in s.runners[r].instances && (job.RaiseJob? || job.ChatJob?)
    ensures Easily(s, [Spawn(t, r, i, job), Advance(t, true)], Born(s, t, r, i, job, WaitSlot))
  {
    EasyTwo(s, Spawn(t, r, i, job), Advance(t, true));
  }

  lemma EventToPeek(s: State, t: TaskId, r: RunnerId, i: InstanceId, k: Key)
    requires t !in s.tasks && r in s.runners && i !in s.runners[r].instances
    ensures Easily(s, [Spawn(t, r, i, EventJob(k, true)), Advance(t, true)],
            Born(s, t, r, i, EventJob(k, true), AtPeek))
  {
    EasyTwo(s, Spawn(t, r, i, EventJob(k, true)), Advance(t, true));
  }

  lemma PeekToSlot(s: State, t: TaskId)
    requires Known(s, t) && s.tasks[t].phase.AtPeek? && s.tasks[t].inst !in Me(s, t).instances
    requires CanClaim(s.rows, s.tasks[t].inst, s.tasks[t].runner)
    ensures Easily(s, [Advance(t, true), Advance(t, true)], Goto(s, t, WaitSlot))
  {
    assert Step(s, Advance(t, true)) == Goto(s, t, PeekReturned(false));
    EasyTwo(s, Advance(t, true), Advance(t, true));
  }

  /** So does a delivery, after a look at who holds the row. */
  lemma EventToSlot(s: State, t: TaskId, r: RunnerId, i: InstanceId, k: Key) returns (run: seq<Action>)
    requires t !in s.tasks && r in s.runners && i !in s.runners[r].instances && CanClaim(s.rows, i, r)
    ensures Easily(s, run, Born(s, t, r, i, EventJob(k, true), WaitSlot))
  {
    var s1 := Born(s, t, r, i, EventJob(k, true), AtPeek);
    EventToPeek(s, t, r, i, k);
    PeekToSlot(s1, t);
    assert Goto(s1, t, WaitSlot) == Born(s, t, r, i, EventJob(k, true), WaitSlot);
    run := [Spawn(t, r, i, EventJob(k, true)), Advance(t, true)];
    EasyChain(s, run, s1, [Advance(t, true), Advance(t, true)], Goto(s1, t, WaitSlot));
    run := run + [Advance(t, true), Advance(t, true)];
  }

  /** The state after `t` raised an unlisted instance on a runner with a free slot. */
  function Fresh(s: State, t: TaskId, r: RunnerId, i: InstanceId, job: Job): State
    requires r in s.runners && s.runners[r].free > 0
  {
    var n, o := s.runners[r], s.nextObj;
    s.(tasks := s.tasks[t := Task(r, i, job, AfterRaise(job, o))],
       runners := s.runners[r := n.(free := n.free - 1, instances := n.instances[i := o], raiseLock := None)],
       objs := s.objs[o := Local(i, r, None)], nextObj := o + 1,
       rows := s.rows[i := Running(r)], log := s.log + [Claim(i, r)])
  }

  lemma NewToRaised(s: State, t: TaskId, r: RunnerId, i: InstanceId, job: Job) returns (run: seq<Action>)
    requires t !in s.tasks && r in s.runners && i !in s.runners[r].instances
    requires job.RaiseJob? || job.ChatJob? || (job.EventJob? && job.hasCodeTarget)
    requires s.runners[r].free > 0 && s.runners[r].raiseLock.None? && CanClaim(s.rows, i, r)
    ensures Easily(s, run, Fresh(s, t, r, i, job))
  {
    var s1 := Born(s, t, r, i, job, WaitSlot);
    if job.EventJob? {
      run := EventToSlot(s, t, r, i, job.key);
    } else {
      NewToSlot(s, t, r, i, job);
      run := [Spawn(t, r, i, job), Advance(t, true)];
    }
    var more := SlotToRaised(s1, t);
    FreshIs(s, t, r, i, job);
    EasyChain(s, run, s1, more, Fresh(s, t, r, i, job));
    run := run + more;
  }

  lemma FreshIs(s: State, t: TaskId, r: RunnerId, i: InstanceId, job: Job)
    requires r in s.runners && s.runners[r].free > 0
    ensures var s1, n := Born(s, t, r, i, job, WaitSlot), s.runners[r];
            Raised(At(s1, t, AtClaim, n.(free := n.free - 1, raiseLock := Some(t))), t) == Fresh(s, t, r, i, job)
  {
    var s1, n := Born(s, t, r, i, job, WaitSlot), s.runners[r];
    var s2 := At(s1, t, AtClaim, n.(free := n.free - 1, raiseLock := Some(t)));
    assert Me(s2, t) == n.(free := n.free - 1, raiseLock := Some(t));
    assert Raised(s2, t).tasks == Fresh(s, t, r, i, job).tasks;
    assert Raised(s2, t).runners == Fresh(s, t, r, i, job).runners;
  }

  // ---- turns ---------------------------------------------------------------

  /** `w` has left its turn and given the lock back; everything else that locks and rows
      depend on is as before. */
  ghost predicate TurnLeft(s: State, s': State, w: TaskId) {
    && w in s.tasks && OnTurn(s.tasks[w].phase) && s.tasks[w].phase.obj in s.objs
    && s'.tasks == s.tasks[w := s.tasks[w].(phase := Finished)]
    && s'.objs == s.objs[s.tasks[w].phase.obj := s.objs[s.tasks[w].phase.obj].(lock := None)]
    && s'.runners == s.runners && s'.rows == s.rows && s'.nextObj == s.nextObj
  }

  lemma LeaveTurn(s: State, w: TaskId)
    requires Grounded(s, w) && s.tasks[w].phase.TurnEnding?
    ensures Enabled(s, Advance(w, false)) && TurnLeft(s, Step(s, Advance(w, false)), w)
  {
  }

  lemma EndTurnStep(s: State, w: TaskId)
    requires Grounded(s, w) && OnTurn(s.tasks[w].phase) && !s.tasks[w].phase.TurnEnding?
    ensures Enabled(s, Advance(w, false))
    ensures var s' := Step(s, Advance(w, false));
            && s'.tasks == s.tasks[w := s.tasks[w].(phase := TurnEnding(s.tasks[w].phase.obj))]
            && s'.objs == s.objs && s'.runners == s.runners && s'.rows == s.rows && s'.nextObj == s.nextObj
  {
  }

  /** A turn under way can be ended, which frees its lock. */
  lemma FinishTurn(s: State, w: TaskId) returns (run: seq<Action>, s': State)
    requires Reachable(s) && w in s.tasks && OnTurn(s.tasks[w].phase)
    ensures Calmly(s, run, s') && TurnLeft(s, s', w) && Reachable(s')
  {
    Footing(s, w);
    if s.tasks[w].phase.TurnEnding? {
      LeaveTurn(s, w);
      CalmOne(s, Advance(w, false));
      run, s' := [Advance(w, false)], Step(s, Advance(w, false));
    } else {
      EndTurnStep(s, w);
      var s1 := Step(s, Advance(w, false));
      CalmOne(s, Advance(w, false));
      Onward(s, [Advance(w, false)], s1);
      Footing(s1, w);
      LeaveTurn(s1, w);
      s' := Step(s1, Advance(w, false));
      CalmOne(s1, Advance(w, false));
      CalmChain(s, [Advance(w, false)], s1, [Advance(w, false)], s');
      run := [Advance(w, false)] + [Advance(w, false)];
    }
    Onward(s, run, s');
  }

  // ---- stops ---------------------------------------------------------------

  /** The turn that the stop waits for. */
  predicate InTheWay(s: State, t: TaskId, u: TaskId)
    requires t in s.tasks && u in s.tasks && HasObj(s.tasks[u].phase)
  {
    OnTurn(s.tasks[t].phase) && s.tasks[t].phase.obj == s.tasks[u].phase.obj
  }

  /** Everything but the stopping coroutine, its object and the rows is as before. */
  ghost predicate Stopped(s: State, s': State, u: TaskId) {
    && u in s.tasks && u in s'.tasks && HasObj(s.tasks[u].phase)
    && (forall t <- s.tasks :: t in s'.tasks && (t == u || InTheWay(s, t, u) || s'.tasks[t] == s.tasks[t]))
    && s'.runners == s.runners && s'.nextObj == s.nextObj
    && s'.tasks[u].phase == ReleaseReturned(s.tasks[u].phase.obj)
    && s'.rows == ReleaseRow(s.rows, s.tasks[u].inst, s.tasks[u].runner)
  }

  lemma ReleaseStep(s: State, u: TaskId)
    requires Grounded(s, u) && s.tasks[u].phase.AtRelease?
    ensures Enabled(s, Advance(u, true)) && Stopped(s, Step(s, Advance(u, true)), u)
  {
  }

  lemma LockStep(s: State, u: TaskId)
    requires Grounded(s, u) && s.tasks[u].phase.WaitStop? && s.objs[s.tasks[u].phase.obj].lock.None?
    ensures Enabled(s, Advance(u, true))
    ensures var s' := Step(s, Advance(u, true));
            && s'.tasks == s.tasks[u := s.tasks[u].(phase := AtRelease(s.tasks[u].phase.obj))]
            && s'.runners == s.runners && s'.nextObj == s.nextObj && s'.rows == s.rows
  {
  }

  /** Whoever holds the lock a stop waits for is in a turn. */
  lemma HolderIsOnTurn(s: State, u: TaskId)
    requires Reachable(s) && u in s.tasks && s.tasks[u].phase.WaitStop?
    ensures var o := s.tasks[u].phase.obj;
            && o in s.objs
            && (s.objs[o].lock.Some? ==>
                  && s.objs[o].lock.value in s.tasks && s.objs[o].lock.value != u
                  && OnTurn(s.tasks[s.objs[o].lock.value].phase) && s.tasks[s.objs[o].lock.value].phase.obj == o)
  {
    ReachableStructure(s);
  }

  lemma TakeStopLock(s: State, u: TaskId) returns (s': State)
    requires Reachable(s) && u in s.tasks && s.tasks[u].phase.WaitStop?
    requires s.tasks[u].phase.obj in s.objs ==> s.objs[s.tasks[u].phase.obj].lock.None?
    ensures Calmly(s, [Advance(u, true)], s') && Reachable(s')
    ensures s'.tasks == s.tasks[u := s.tasks[u].(phase := AtRelease(s.tasks[u].phase.obj))]
    ensures s'.runners == s.runners && s'.nextObj == s.nextObj && s'.rows == s.rows
  {
    Footing(s, u);
    LockStep(s, u);
    s' := Step(s, Advance(u, true));
    CalmOne(s, Advance(u, true));
    Onward(s, [Advance(u, true)], s');
  }

  lemma LockedRelease(s: State, u: TaskId) returns (run: seq<Action>, s': State)
    requires Reachable(s) && u in s.tasks && s.tasks[u].phase.WaitStop?
    requires s.tasks[u].phase.obj in s.objs ==> s.objs[s.tasks[u].phase.obj].lock.None?
    ensures Calmly(s, run, s') && Stopped(s, s', u)
  {
    var s1 := TakeStopLock(s, u);
    Footing(s1, u);
    ReleaseStep(s1, u);
    s' := Step(s1, Advance(u, true));
    CalmOne(s1, Advance(u, true));
    CalmChain(s, [Advance(u, true)], s1, [Advance(u, true)], s');
    run := [Advance(u, true)] + [Advance(u, true)];
  }

  /** A pending stop, wherever it stands and whoever holds the lock, gets to release the row. */
  lemma PendingReleases(s: State, u: TaskId) returns (run: seq<Action>, s': State)
    requires Reachable(s) && u in s.tasks && (s.tasks[u].phase.WaitStop? || s.tasks[u].phase.AtRelease?)
    ensures Calmly(s, run, s') && Stopped(s, s', u)
  {
    Footing(s, u);
    if s.tasks[u].phase.AtRelease? {
      ReleaseStep(s, u);
      CalmOne(s, Advance(u, true));
      run, s' := [Advance(u, true)], Step(s, Advance(u, true));
    } else {
      HolderIsOnTurn(s, u);
      var o := s.tasks[u].phase.obj;
      if s.objs[o].lock.None? {
        run, s' := LockedRelease(s, u);
      } else {
        var start, s1 := FinishTurn(s, s.objs[o].lock.value);
        run, s' := LockedRelease(s1, u);
        CalmChain(s, start, s1, run, s');
        run := start + run;
      }
    }
  }
}
