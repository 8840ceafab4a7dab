/**
 Exactly when a delivery that completed but was cut off before its mark can complete again: the
 key is not processed, and another delivery of it is about to begin or some runner can still
 come by a slot.
 */
module RunnerRedelivery {
  import opened Common
  import opened HubStore
  import opened RunnerProtocol
  import opened RunnerInvariants
  import opened RunnerRuns
  import opened RunnerDeliveries
  import RunnerPermits

  ghost predicate Beginning(s: State, i: InstanceId, k: Key) {
    exists u <- s.tasks :: Of(s.tasks[u], i, k) && s.tasks[u].phase.AtBegin?
  }

  /** All permits of all runners are lost. */
  ghost predicate NoSlots(s: State) { forall r <- s.runners :: s.runners[r].lost == s.runners[r].slots }

  ghost predicate NoLive(s: State, i: InstanceId, k: Key) { forall u <- s.tasks :: !Live(s.tasks[u], i, k) }

  // ---- without slots nothing begins any more -------------------------------

  lemma ReachableBalance(s: State, r: RunnerId)
    requires Reachable(s) && r in s.runners
    ensures var n := s.runners[r]; n.free + |n.instances| + |RunnerPermits.Holders(s, r)| + n.lost == n.slots
  {
    var s0, run :| Init(s0) && Reaches(s0, run, s);
    RunnerPermits.LostByCutStops(s0, run, r);
    RunnerPermits.PermitsConserved(s0, run, r);
  }

  lemma NothingHeld(s: State, t: TaskId)
    requires Reachable(s) && NoSlots(s) && Known(s, t)
    ensures Me(s, t).free == 0 && Me(s, t).instances == map[] && !HoldsPermit(s.tasks[t].phase)
  {
    ReachableBalance(s, s.tasks[t].runner);
    assert t in RunnerPermits.Holders(s, s.tasks[t].runner) <==> HoldsPermit(s.tasks[t].phase);
  }

  ghost predicate Dead(s: State, i: InstanceId, k: Key) { NoSlots(s) && NoLive(s, i, k) && !Beginning(s, i, k) }

  /** Neither about to begin nor live. */
  predicate Idle(task: Task, i: InstanceId, k: Key) { Of(task, i, k) ==> !task.phase.AtBegin? && !Live(task, i, k) }

  /** What a step of a coroutine without a permit, on a runner without any, leaves. */
  ghost predicate Harmless(s: State, s': State, t: TaskId, i: InstanceId, k: Key) {
    && t in s'.tasks && Idle(s'.tasks[t], i, k) && s'.tasks == s.tasks[t := s'.tasks[t]]
    && s'.runners == s.runners && NoneCompletes(s, s', i, k)
  }

  predicate Outside(p: Phase) { p.Starting? || p.AtPeek? || p.PeekReturned? || p.AtHandOff? || p.AtSkipMark? }

  lemma IdleOutside(s: State, t: TaskId, good: bool, i: InstanceId, k: Key)
    requires Grounded(s, t) && CanAdvance(s, t) && Me(s, t).instances == map[] && Outside(s.tasks[t].phase)
    ensures Harmless(s, AdvanceTask(s, t, good), t, i, k)
  {
    if s.tasks[t].phase.Starting? {
      IdleStart(s, t, i, k);
    } else {
      IdleMiddle(s, t, good, i, k);
    }
  }

  lemma IdleStart(s: State, t: TaskId, i: InstanceId, k: Key)
    requires Grounded(s, t) && Me(s, t).instances == map[] && s.tasks[t].phase.Starting?
    ensures Harmless(s, Start(s, t), t, i, k)
  {
    var job := s.tasks[t].job;
    if job.EventJob? && !job.hasCodeTarget {
      IdleSkip(s, t, i, k);
    } else {
      var p := if job.EventJob? then AtPeek else if job.StopJob? then Finished else WaitSlot;
      assert Start(s, t) == Goto(s, t, p);
    }
  }

  lemma IdleSkip(s: State, t: TaskId, i: InstanceId, k: Key)
    requires Known(s, t) && s.tasks[t].job.EventJob?
    ensures Harmless(s, BeginDb(s, t, AtSkipMark), t, i, k)
  {
  }

  lemma IdleMiddle(s: State, t: TaskId, good: bool, i: InstanceId, k: Key)
    requires Grounded(s, t) && CanAdvance(s, t) && Me(s, t).instances == map[]
    requires Outside(s.tasks[t].phase) && !s.tasks[t].phase.Starting?
    ensures Harmless(s, AdvanceTask(s, t, good), t, i, k)
  {
  }

  lemma IdleTurn(s: State, t: TaskId, good: bool, i: InstanceId, k: Key)
    requires Grounded(s, t) && CanAdvance(s, t) && Idle(s.tasks[t], i, k)
    requires s.tasks[t].phase.AtBegin? || s.tasks[t].phase.WaitTurn? || OnTurn(s.tasks[t].phase)
    ensures Harmless(s, AdvanceTask(s, t, good), t, i, k)
  {
    if s.tasks[t].phase.AtBegin? {
    } else if s.tasks[t].phase.InTurn? {
    } else {
    }
  }

  lemma IdleAdvance(s: State, t: TaskId, good: bool, i: InstanceId, k: Key)
    requires Grounded(s, t) && CanAdvance(s, t) && Idle(s.tasks[t], i, k)
    requires !HoldsPermit(s.tasks[t].phase) && Me(s, t).free == 0 && Me(s, t).instances == map[]
    ensures Harmless(s, AdvanceTask(s, t, good), t, i, k)
  {
    if Outside(s.tasks[t].phase) {
      IdleOutside(s, t, good, i, k);
    } else {
      IdleTurn(s, t, good, i, k);
    }
  }

  ghost predicate NoneCompletes(s: State, s': State, i: InstanceId, k: Key) {
    s'.log == s.log || (|s'.log| == |s.log| + 1 && s'.log[..|s.log|] == s.log && !Completes(s'.log[|s.log|], i, k))
  }

  lemma AllIdle(s: State, i: InstanceId, k: Key)
    ensures NoLive(s, i, k) && !Beginning(s, i, k) <==> forall u <- s.tasks :: Idle(s.tasks[u], i, k)
  {
  }

  lemma DeadAdvance(s: State, t: TaskId, good: bool, i: InstanceId, k: Key)
    requires Reachable(s) && Dead(s, i, k) && Enabled(s, Advance(t, good))
    ensures Dead(Step(s, Advance(t, good)), i, k) && NoneCompletes(s, Step(s, Advance(t, good)), i, k)
  {
    Footing(s, t);
    NothingHeld(s, t);
    AllIdle(s, i, k);
    IdleAdvance(s, t, good, i, k);
    AllIdle(Step(s, Advance(t, good)), i, k);
  }

  lemma DeadBeside(s: State, a: Action, i: InstanceId, k: Key)
    requires Reachable(s) && Dead(s, i, k) && Enabled(s, a) && !a.Advance?
    ensures Dead(Step(s, a), i, k) && NoneCompletes(s, Step(s, a), i, k)
  {
    AllIdle(s, i, k);
    if a.Abort? {
      NothingHeld(s, a.t);
    }
    AllIdle(Step(s, a), i, k);
  }

  lemma {:induction false} RunDead(s: State, run: seq<Action>, i: InstanceId, k: Key)
    requires Reachable(s) && Dead(s, i, k) && ValidRun(s, run) && AtMostOnce(s.log, i, k)
    ensures AtMostOnce(Exec(s, run).log, i, k)
    decreases |run|
  {
    if |run| > 0 {
      if run[0].Advance? {
        DeadAdvance(s, run[0].t, run[0].good, i, k);
      } else {
        DeadBeside(s, run[0], i, k);
      }
      OneStep(s, run[0]);
      Onward(s, [run[0]], Step(s, run[0]));
      NoneMore(s, Step(s, run[0]), i, k);
      RunDead(Step(s, run[0]), run[1..], i, k);
    }
  }

  lemma NoneMore(s: State, s': State, i: InstanceId, k: Key)
    requires AtMostOnce(s.log, i, k) && NoneCompletes(s, s', i, k)
    ensures AtMostOnce(s'.log, i, k)
  {
    assert forall n :: 0 <= n < |s.log| ==> s'.log[n] == s.log[n];
  }

  // ---- with one, the key can be delivered again ----------------------------

  ghost predicate Cleanly(s: State, run: seq<Action>, s': State, i: InstanceId, k: Key) {
    Reaches(s, run, s') && CleanRun(s, run, i, k)
  }

  lemma {:induction false} CleanChain(s: State, run: seq<Action>, s': State, more: seq<Action>, s'': State,
                                      i: InstanceId, k: Key)
    requires Cleanly(s, run, s', i, k) && Cleanly(s', more, s'', i, k)
    ensures Cleanly(s, run + more, s'', i, k)
    decreases |run|
  {
    Chain(s, run, s', more, s'');
    if |run| == 0 {
      assert run + more == more;
    } else {
      assert (run + more)[0] == run[0] && (run + more)[1..] == run[1..] + more;
      CleanChain(Step(s, run[0]), run[1..], s', more, s'', i, k);
    }
  }

  lemma {:induction false} EarlyIsClean(s: State, run: seq<Action>, i: InstanceId, k: Key)
    requires ValidRun(s, run) && Early(s, run)
    ensures CleanRun(s, run, i, k)
    decreases |run|
  {
    if |run| > 0 {
      EarlyIsClean(Step(s, run[0]), run[1..], i, k);
    }
  }

  /** `t` has completed the key, which is neither processed nor live. */
  ghost predicate Open(s: State, t: TaskId, i: InstanceId, k: Key) {
    Reachable(s) && NoLive(s, i, k) && !Processed(s.journal, i, k) && Completed(t, i, k) in s.log
  }

  /** A step of `x` that leaves the journal alone and makes nothing live. */
  lemma OpenStep(s: State, a: Action, x: TaskId, t: TaskId, i: InstanceId, k: Key)
    requires Open(s, t, i, k) && Enabled(s, a) && Clean(s, a, i, k) && Step(s, a).journal == s.journal
    requires x in Step(s, a).tasks && Step(s, a).tasks == s.tasks[x := Step(s, a).tasks[x]]
    requires !Live(Step(s, a).tasks[x], i, k)
    ensures Cleanly(s, [a], Step(s, a), i, k) && Open(Step(s, a), t, i, k)
  {
    OneStep(s, a);
    ReachableLog(s, [a], Step(s, a));
  }

  lemma CutRaiser(s: State, x: TaskId, t: TaskId, i: InstanceId, k: Key) returns (s': State)
    requires Open(s, t, i, k) && x in s.tasks && RaisingWithPermit(s.tasks[x].phase)
    ensures Known(s, x) && Cleanly(s, [Abort(x)], s', i, k) && Open(s', t, i, k)
    ensures var n := Me(s, x);
            s'.runners == s.runners[s.tasks[x].runner :=
              n.(free := n.free + 1, raiseLock := if InRaiseLock(s.tasks[x].phase) then None else n.raiseLock)]
  {
    Footing(s, x);
    s' := Step(s, Abort(x));
    OpenStep(s, Abort(x), x, t, i, k);
  }

  lemma CutTurn(s: State, w: TaskId, t: TaskId, i: InstanceId, k: Key) returns (s': State)
    requires Open(s, t, i, k) && w in s.tasks && OnTurn(s.tasks[w].phase)
    ensures Cleanly(s, [Abort(w)], s', i, k) && Open(s', t, i, k)
    ensures s'.runners == s.runners && s'.tasks == s.tasks[w := s.tasks[w].(phase := Finished)]
    ensures var o := s.tasks[w].phase.obj; o in s'.objs && s'.objs[o].lock.None?
  {
    Footing(s, w);
    s' := Step(s, Abort(w));
    assert s'.runners == s.runners;
    OpenStep(s, Abort(w), w, t, i, k);
  }

  lemma StopLocks(s: State, u: TaskId, t: TaskId, i: InstanceId, k: Key) returns (s': State)
    requires Open(s, t, i, k) && u in s.tasks && s.tasks[u].phase.WaitStop?
    requires s.tasks[u].phase.obj in s.objs ==> s.objs[s.tasks[u].phase.obj].lock.None?
    ensures Cleanly(s, [Advance(u, true)], s', i, k) && Open(s', t, i, k) && s'.runners == s.runners
    ensures s'.tasks == s.tasks[u := s.tasks[u].(phase := AtRelease(s.tasks[u].phase.obj))]
  {
    Footing(s, u);
    s' := Step(s, Advance(u, true));
    OpenStep(s, Advance(u, true), u, t, i, k);
  }

  lemma StopReleases(s: State, u: TaskId, t: TaskId, i: InstanceId, k: Key) returns (s': State)
    requires Open(s, t, i, k) && u in s.tasks && s.tasks[u].phase.AtRelease?
    ensures Cleanly(s, [Advance(u, true)], s', i, k) && Open(s', t, i, k) && s'.runners == s.runners
    ensures s'.tasks == s.tasks[u := s.tasks[u].(phase := ReleaseReturned(s.tasks[u].phase.obj))]
  {
    Footing(s, u);
    s' := Step(s, Advance(u, true));
    OpenStep(s, Advance(u, true), u, t, i, k);
  }

  /** One more free slot, and otherwise the runner as it was. */
  ghost predicate Freed(s: State, s': State, r: RunnerId) {
    r in s.runners && r in s'.runners && s'.runners[r] == s.runners[r].(free := s.runners[r].free + 1)
  }

  lemma StopEnds(s: State, u: TaskId, t: TaskId, i: InstanceId, k: Key) returns (s': State)
    requires Open(s, t, i, k) && u in s.tasks && s.tasks[u].phase.ReleaseReturned?
    ensures Cleanly(s, [Advance(u, true)], s', i, k) && Open(s', t, i, k) && Freed(s, s', s.tasks[u].runner)
  {
    Footing(s, u);
    s' := Step(s, Advance(u, true));
    OpenStep(s, Advance(u, true), u, t, i, k);
  }

  lemma ReleasedFrees(s: State, u: TaskId, t: TaskId, i: InstanceId, k: Key) returns (run: seq<Action>, s': State)
    requires Open(s, t, i, k) && u in s.tasks && (s.tasks[u].phase.AtRelease? || s.tasks[u].phase.ReleaseReturned?)
    ensures Cleanly(s, run, s', i, k) && Open(s', t, i, k) && Freed(s, s', s.tasks[u].runner)
  {
    if s.tasks[u].phase.AtRelease? {
      var s1 := StopReleases(s, u, t, i, k);
      s' := StopEnds(s1, u, t, i, k);
      CleanChain(s, [Advance(u, true)], s1, [Advance(u, true)], s', i, k);
      run := [Advance(u, true)] + [Advance(u, true)];
    } else {
      s' := StopEnds(s, u, t, i, k);
      run := [Advance(u, true)];
    }
  }

  lemma UnlockedFrees(s: State, u: TaskId, t: TaskId, i: InstanceId, k: Key) returns (run: seq<Action>, s': State)
    requires Open(s, t, i, k) && u in s.tasks && s.tasks[u].phase.WaitStop?
    requires s.tasks[u].phase.obj in s.objs ==> s.objs[s.tasks[u].phase.obj].lock.None?
    ensures Cleanly(s, run, s', i, k) && Open(s', t, i, k) && Freed(s, s', s.tasks[u].runner)
  {
    var s1 := StopLocks(s, u, t, i, k);
    var more;
    more, s' := ReleasedFrees(s1, u, t, i, k);
    CleanChain(s, [Advance(u, true)], s1, more, s', i, k);
    run := [Advance(u, true)] + more;
  }

  /** A stop under way ends and returns its permit. */
  lemma StopFrees(s: State, u: TaskId, t: TaskId, i: InstanceId, k: Key) returns (run: seq<Action>, s': State)
    requires Open(s, t, i, k) && u in s.tasks && Stopping(s.tasks[u].phase)
    ensures Cleanly(s, run, s', i, k) && Open(s', t, i, k) && Freed(s, s', s.tasks[u].runner)
  {
    if s.tasks[u].phase.WaitStop? {
      HolderIsOnTurn(s, u);
      var o := s.tasks[u].phase.obj;
      if s.objs[o].lock.None? {
        run, s' := UnlockedFrees(s, u, t, i, k);
      } else {
        var w := s.objs[o].lock.value;
        var s1 := CutTurn(s, w, t, i, k);
        run, s' := UnlockedFrees(s1, u, t, i, k);
        CleanChain(s, [Abort(w)], s1, run, s', i, k);
        run := [Abort(w)] + run;
      }
    } else {
      run, s' := ReleasedFrees(s, u, t, i, k);
    }
  }

  /** The runner has a slot for the instance, or has it listed. */
  ghost predicate CanHost(s: State, r: RunnerId, i: InstanceId) {
    && r in s.runners && s.runners[r].raiseLock.None?
    && (i in s.runners[r].instances || s.runners[r].free > 0)
  }

  /** A listed instance is popped by a new stop. */
  lemma PopOne(s: State, r: RunnerId, j: InstanceId, t: TaskId, i: InstanceId, k: Key)
    returns (u: TaskId, run: seq<Action>, s': State)
    requires Open(s, t, i, k) && r in s.runners && j in s.runners[r].instances
    ensures Cleanly(s, run, s', i, k) && Open(s', t, i, k)
    ensures u in s'.tasks && s'.tasks[u].runner == r && s'.tasks[u].phase.WaitStop?
    ensures s'.runners == s.runners[r := s.runners[r].(instances := s.runners[r].instances - {j})]
  {
    u := UnusedTask(s.tasks.Keys);
    var s1 := Step(s, Spawn(u, r, j, StopJob));
    OpenStep(s, Spawn(u, r, j, StopJob), u, t, i, k);
    s' := Step(s1, Advance(u, true));
    OpenStep(s1, Advance(u, true), u, t, i, k);
    CleanChain(s, [Spawn(u, r, j, StopJob)], s1, [Advance(u, true)], s', i, k);
    run := [Spawn(u, r, j, StopJob)] + [Advance(u, true)];
  }

  /** A permit in somebody's hands is given back. */
  lemma HolderFrees(s: State, r: RunnerId, x: TaskId, t: TaskId, i: InstanceId, k: Key)
    returns (run: seq<Action>, s': State)
    requires Open(s, t, i, k) && r in s.runners && x in RunnerPermits.Holders(s, r)
    ensures Cleanly(s, run, s', i, k) && Open(s', t, i, k) && r in s'.runners && s'.runners[r].free > 0
    ensures s.runners[r].raiseLock.None? ==> s'.runners[r].raiseLock.None?
  {
    if Stopping(s.tasks[x].phase) {
      run, s' := StopFrees(s, x, t, i, k);
    } else {
      s' := CutRaiser(s, x, t, i, k);
      run := [Abort(x)];
    }
  }

  /** A runner that has not lost all its permits can come by one. */
  lemma Host(s: State, r: RunnerId, t: TaskId, i: InstanceId, k: Key) returns (run: seq<Action>, s': State)
    requires Open(s, t, i, k) && r in s.runners && s.runners[r].lost < s.runners[r].slots
    ensures Cleanly(s, run, s', i, k) && Open(s', t, i, k) && CanHost(s', r, i)
  {
    var n := s.runners[r];
    if n.raiseLock.Some? {
      LockHolderRaises(s, r);
      s' := CutRaiser(s, n.raiseLock.value, t, i, k);
      run := [Abort(n.raiseLock.value)];
    } else if n.free > 0 || i in n.instances {
      run, s' := [], s;
    } else if |n.instances| > 0 {
      var j := SomeListed(n.instances);
      var u, pop, s1 := PopOne(s, r, j, t, i, k);
      run, s' := StopFrees(s1, u, t, i, k);
      CleanChain(s, pop, s1, run, s', i, k);
      run := pop + run;
    } else {
      ReachableBalance(s, r);
      var x :| x in RunnerPermits.Holders(s, r);
      run, s' := HolderFrees(s, r, x, t, i, k);
    }
  }

  lemma SomeListed(instances: map<InstanceId, ObjId>) returns (j: InstanceId)
    requires |instances| > 0
    ensures j in instances
  {
    assert instances.Items != {};
    var entry :| entry in instances.Items;
    j := entry.0;
  }

  lemma LockHolderRaises(s: State, r: RunnerId)
    requires Reachable(s) && r in s.runners && s.runners[r].raiseLock.Some?
    ensures var x := s.runners[r].raiseLock.value;
            x in s.tasks && s.tasks[x].runner == r && InRaiseLock(s.tasks[x].phase)
  {
    ReachableStructure(s);
  }

  /** The hub makes the row claimable. */
  lemma Claimable(s: State, r: RunnerId, t: TaskId, i: InstanceId, k: Key) returns (run: seq<Action>, s': State)
    requires Open(s, t, i, k) && CanHost(s, r, i)
    ensures Cleanly(s, run, s', i, k) && Open(s', t, i, k) && CanClaim(s'.rows, i, r)
    ensures s'.runners == s.runners && s'.tasks == s.tasks
  {
    if CanClaim(s.rows, i, r) {
      run, s' := [], s;
    } else {
      var a := if i in s.rows then DownByHub(i) else NewRow(i);
      s' := Step(s, a);
      OneStep(s, a);
      ReachableLog(s, [a], s');
      run := [a];
    }
  }

  /** A delivery of the key that is about to begin completes it a second time. */
  lemma BeginCompletes(s: State, u: TaskId, t: TaskId, i: InstanceId, k: Key) returns (run: seq<Action>, s': State)
    requires Open(s, t, i, k) && u in s.tasks && u != t && Of(s.tasks[u], i, k) && s.tasks[u].phase.AtBegin?
    ensures Cleanly(s, run, s', i, k) && !AtMostOnce(s'.log, i, k)
  {
    Footing(s, u);
    BeginEffect(s, u, true, i, k);
    var s1 := Step(s, Advance(u, true));
    OneStep(s, Advance(u, true));
    ReachableLog(s, [Advance(u, true)], s1);
    assert Cleanly(s, [Advance(u, true)], s1, i, k);
    run, s' := WaitingCompletes(s1, u, i, k);
    CalmIsClean(s1, run, i, k);
    CleanChain(s, [Advance(u, true)], s1, run, s', i, k);
    run := [Advance(u, true)] + run;
    TwoCompletions(s'.log, u, t, i, k);
  }

  /** A new delivery to a listed instance is about to begin. */
  lemma ListedBegins(s: State, r: RunnerId, w: TaskId, t: TaskId, i: InstanceId, k: Key)
    returns (run: seq<Action>, s': State)
    requires Open(s, t, i, k) && r in s.runners && i in s.runners[r].instances && w !in s.tasks
    ensures Cleanly(s, run, s', i, k) && Open(s', t, i, k)
    ensures w in s'.tasks && Of(s'.tasks[w], i, k) && s'.tasks[w].phase.AtBegin?
  {
    var job := EventJob(k, true);
    var s1 := Step(s, Spawn(w, r, i, job));
    OpenStep(s, Spawn(w, r, i, job), w, t, i, k);
    s' := Step(s1, Advance(w, true));
    assert s'.tasks == s1.tasks[w := Task(r, i, job, AtBegin(s.runners[r].instances[i]))];
    OpenStep(s1, Advance(w, true), w, t, i, k);
    CleanChain(s, [Spawn(w, r, i, job)], s1, [Advance(w, true)], s', i, k);
    run := [Spawn(w, r, i, job)] + [Advance(w, true)];
  }

  /** ... and to one that has to be raised first. */
  lemma RaisedBegins(s: State, r: RunnerId, w: TaskId, t: TaskId, i: InstanceId, k: Key)
    returns (run: seq<Action>, s': State)
    requires Open(s, t, i, k) && CanHost(s, r, i) && i !in s.runners[r].instances && CanClaim(s.rows, i, r)
             && w !in s.tasks
    ensures Cleanly(s, run, s', i, k) && Open(s', t, i, k)
    ensures w in s'.tasks && Of(s'.tasks[w], i, k) && s'.tasks[w].phase.AtBegin?
  {
    var job := EventJob(k, true);
    run := NewToRaised(s, w, r, i, job);
    s' := Fresh(s, w, r, i, job);
    EarlyIsClean(s, run, i, k);
    ReachableLog(s, run, s');
  }

  /** The key can be completed a second time. */
  lemma CompletesAgain(s: State, t: TaskId, i: InstanceId, k: Key) returns (run: seq<Action>, s': State)
    requires Open(s, t, i, k) && t in s.tasks && s.tasks[t].phase.Finished? && (Beginning(s, i, k) || !NoSlots(s))
    ensures Cleanly(s, run, s', i, k) && !AtMostOnce(s'.log, i, k)
  {
    if u :| u in s.tasks && Of(s.tasks[u], i, k) && s.tasks[u].phase.AtBegin? {
      run, s' := BeginCompletes(s, u, t, i, k);
    } else {
      var r :| r in s.runners && s.runners[r].lost != s.runners[r].slots;
      ReachableBalance(s, r);
      var start, s1 := Host(s, r, t, i, k);
      run, s' := HostedCompletes(s1, r, t, i, k);
      CleanChain(s, start, s1, run, s', i, k);
      run := start + run;
    }
  }

  lemma HostedCompletes(s: State, r: RunnerId, t: TaskId, i: InstanceId, k: Key) returns (run: seq<Action>, s': State)
    requires Open(s, t, i, k) && CanHost(s, r, i)
    ensures Cleanly(s, run, s', i, k) && !AtMostOnce(s'.log, i, k)
  {
    var start, s1 := Claimable(s, r, t, i, k);
    var u := UnusedTask(s1.tasks.Keys + {t});
    var begin, s2;
    if i in s1.runners[r].instances {
      begin, s2 := ListedBegins(s1, r, u, t, i, k);
    } else {
      begin, s2 := RaisedBegins(s1, r, u, t, i, k);
    }
    CleanChain(s, start, s1, begin, s2, i, k);
    run, s' := BeginCompletes(s2, u, t, i, k);
    CleanChain(s, start + begin, s2, run, s', i, k);
    run := start + begin + run;
  }

  // ---- the condition is exact ----------------------------------------------

  /** The state after the cut-off. */
  lemma AfterCut(s: State, t: TaskId, i: InstanceId, k: Key) returns (s': State)
    requires Reachable(s) && OneLive(s, i, k) && t in s.tasks && Of(s.tasks[t], i, k) && s.tasks[t].phase.AtMark?
    ensures Enabled(s, Abort(t)) && s' == Step(s, Abort(t)) && Reachable(s') && NoLive(s', i, k)
    ensures s'.journal == s.journal && Completed(t, i, k) in s'.log && NoneCompletes(s, s', i, k)
    ensures t in s'.tasks && s'.tasks[t].phase.Finished? && s'.tasks == s.tasks[t := s'.tasks[t]]
    ensures s'.runners == s.runners
  {
    Footing(s, t);
    CompletedInLog(s, t);
    s' := Step(s, Abort(t));
    assert s'.runners == s.runners;
    assert Live(s.tasks[t], i, k);
    OneStep(s, Abort(t));
    ReachableLog(s, [Abort(t)], s');
  }

  /** After any clean run: cutting a completed delivery off before its mark leaves its key completing
      at most once, in every clean continuation, if and only if the key is processed already, or
      no delivery of it is about to begin and every runner has lost all its permits. */
  lemma LostMarkExactly(s0: State, run: seq<Action>, t: TaskId, i: InstanceId, k: Key)
    requires Init(s0) && ValidRun(s0, run) && CleanRun(s0, run, i, k)
    requires var s := Exec(s0, run); t in s.tasks && Of(s.tasks[t], i, k) && s.tasks[t].phase.AtMark?
    ensures var s := Exec(s0, run);
            && Enabled(s, Abort(t))
            && (AlwaysOnce(Step(s, Abort(t)), i, k) <==>
                Processed(s.journal, i, k) || (NoSlots(s) && !Beginning(s, i, k)))
  {
    var s := Exec(s0, run);
    StructureInit(s0);
    RunOnce(s0, run, i, k);
    ReachableBy(s0, run);
    var s' := AfterCut(s, t, i, k);
    BeginningStays(s, s', t, i, k);
    if Processed(s.journal, i, k) {
      ProcessedIsOnce(s, s', i, k);
    } else if NoSlots(s) && !Beginning(s, i, k) {
      DeadIsOnce(s, s', i, k);
    } else {
      var more, end := CompletesAgain(s', t, i, k);
      assert !AlwaysOnce(s', i, k);
    }
  }

  lemma BeginningStays(s: State, s': State, t: TaskId, i: InstanceId, k: Key)
    requires t in s.tasks && t in s'.tasks && s'.tasks == s.tasks[t := s'.tasks[t]]
    requires s.tasks[t].phase.AtMark? && s'.tasks[t].phase.Finished?
    ensures Beginning(s, i, k) <==> Beginning(s', i, k)
  {
    if u :| u in s.tasks && Of(s.tasks[u], i, k) && s.tasks[u].phase.AtBegin? {
      assert s'.tasks[u] == s.tasks[u];
    }
    if u :| u in s'.tasks && Of(s'.tasks[u], i, k) && s'.tasks[u].phase.AtBegin? {
      assert s'.tasks[u] == s.tasks[u];
    }
  }

  lemma ProcessedIsOnce(s: State, s': State, i: InstanceId, k: Key)
    requires Reachable(s') && Once(s, i, k) && NoLive(s', i, k) && Processed(s'.journal, i, k)
             && NoneCompletes(s, s', i, k)
    ensures AlwaysOnce(s', i, k)
  {
    NoneMore(s, s', i, k);
    assert Once(s', i, k);
    ReachableStructure(s');
    ReachableDedup(s');
    StaysOnce(s', i, k);
  }

  lemma DeadIsOnce(s: State, s': State, i: InstanceId, k: Key)
    requires Reachable(s') && AtMostOnce(s.log, i, k) && Dead(s', i, k) && NoneCompletes(s, s', i, k)
    ensures AlwaysOnce(s', i, k)
  {
    NoneMore(s, s', i, k);
    forall more | ValidRun(s', more) && CleanRun(s', more, i, k)
      ensures AtMostOnce(Exec(s', more).log, i, k)
    {
      RunDead(s', more, i, k);
    }
  }
}
