/** Conservation of slot permits over every run. */
module RunnerPermits {
  import opened Common
  import opened HubStore
  import opened RunnerProtocol
  import opened RunnerInvariants

  /** Coroutines of runner `r` that hold a permit while raising or owe one while stopping. */
  ghost function Holders(s: State, r: RunnerId): set<TaskId> {
    set t | t in s.tasks && s.tasks[t].runner == r && HoldsPermit(s.tasks[t].phase)
  }

  /** free permits + raised instances + permits in the hands of coroutines + permits lost
      to a failed stop == slots */
  ghost predicate Balanced(s: State) {
    forall r <- s.runners :: BalancedAt(s, r)
  }

  ghost predicate BalancedAt(s: State, r: RunnerId)
    requires r in s.runners
  {
    var n := s.runners[r];
    n.free + |n.instances| + |Holders(s, r)| + n.lost == n.slots
  }

  function Account(n: Runner, p: Phase): nat { n.free + |n.instances| + n.lost + InHand(p) }

  lemma HoldersAfter(s: State, s': State, t: TaskId, r: RunnerId)
    requires t in s.tasks && t in s'.tasks
    requires s'.tasks == s.tasks[t := s.tasks[t].(phase := s'.tasks[t].phase)]
    ensures |Holders(s', r)| ==
            |Holders(s, r)|
            + (if s.tasks[t].runner == r then InHand(s'.tasks[t].phase) - InHand(s.tasks[t].phase) else 0)
  {
    var h, h' := Holders(s, r), Holders(s', r);
    if s.tasks[t].runner != r {
      assert h' == h;
    } else {
      assert h' - {t} == h - {t};
      assert t in h <==> HoldsPermit(s.tasks[t].phase);
      assert t in h' <==> HoldsPermit(s'.tasks[t].phase);
      assert |h| == |h - {t}| + (if t in h then 1 else 0);
      assert |h'| == |h' - {t}| + (if t in h' then 1 else 0);
    }
  }

  /** A step that keeps the account of its own runner keeps every balance. */
  lemma AccountKept(s: State, s': State, t: TaskId)
    requires Balanced(s) && Known(s, t) && t in s'.tasks
    requires s'.tasks == s.tasks[t := s.tasks[t].(phase := s'.tasks[t].phase)]
    requires s'.runners == s.runners
             || (s.tasks[t].runner in s'.runners
                 && s'.runners == s.runners[s.tasks[t].runner := s'.runners[s.tasks[t].runner]])
    requires var n' := s'.runners[s.tasks[t].runner];
             n'.slots == Me(s, t).slots && Account(n', s'.tasks[t].phase) == Account(Me(s, t), s.tasks[t].phase)
    ensures Balanced(s')
  {
    forall r <- s'.runners
      ensures BalancedAt(s', r)
    {
      assert BalancedAt(s, r);
      HoldersAfter(s, s', t, r);
    }
  }

  lemma RemoveOne(m: map<InstanceId, ObjId>, i: InstanceId)
    requires i in m
    ensures |m - {i}| == |m| - 1
  {
    assert (m - {i}).Keys == m.Keys - {i};
    assert |m.Keys| == |m.Keys - {i}| + 1;
  }

  lemma DictionaryBalanced(s: State, t: TaskId, good: bool)
    requires Grounded(s, t) && Balanced(s) && CanAdvance(s, t) && ChangesDictionary(s, t)
    ensures Balanced(AdvanceTask(s, t, good))
  {
    if s.tasks[t].phase.Starting? {
      RemoveOne(Me(s, t).instances, s.tasks[t].inst);
      AccountKept(s, Pop(s, t), t);
    } else {
      AccountKept(s, Install(s, t), t);
    }
  }

  lemma BalancedStep(s: State, a: Action)
    requires Structure(s) && Balanced(s) && Enabled(s, a)
    ensures Balanced(Step(s, a))
  {
    match a
    case Advance(t, good) =>
      Ground(s, t);
      if ChangesDictionary(s, t) {
        DictionaryBalanced(s, t, good);
      } else {
        AdvanceMoves(s, t, good);
        AccountKept(s, AdvanceTask(s, t, good), t);
      }
    case Abort(t) =>
      Ground(s, t);
      AbortMoves(s, t);
      AccountKept(s, AbortTask(s, t), t);
    case _ => EnvironmentBalanced(s, a);
  }

  lemma EnvironmentBalanced(s: State, a: Action)
    requires Balanced(s) && Enabled(s, a) && !a.Advance? && !a.Abort?
    ensures Balanced(Step(s, a))
  {
    var s' := Step(s, a);
    forall r <- s'.runners
      ensures BalancedAt(s', r)
    {
      assert BalancedAt(s, r) && Holders(s', r) == Holders(s, r);
    }
  }

  lemma InitBalanced(s: State)
    requires Init(s)
    ensures Balanced(s)
  {
    forall r <- s.runners
      ensures BalancedAt(s, r)
    {
      assert Holders(s, r) == {};
    }
  }

  lemma {:induction false} RunKeeps(s: State, run: seq<Action>)
    requires Structure(s) && Balanced(s) && ValidRun(s, run)
    ensures Structure(Exec(s, run)) && Balanced(Exec(s, run))
    decreases |run|
  {
    if |run| > 0 {
      StructureStep(s, run[0]);
      BalancedStep(s, run[0]);
      RunKeeps(Step(s, run[0]), run[1..]);
    }
  }

  // ---- what a permit can be lost to ----------------------------------------

  /** The action cuts off a stop of runner `r` that has popped its instance. */
  predicate CutsStop(s: State, a: Action, r: RunnerId) {
    a.Abort? && a.t in s.tasks && s.tasks[a.t].runner == r && Stopping(s.tasks[a.t].phase)
  }

  /** How often a run does that. */
  function StopsCut(s: State, run: seq<Action>, r: RunnerId): nat
    requires ValidRun(s, run)
    decreases |run|
  {
    if |run| == 0 then 0 else (if CutsStop(s, run[0], r) then 1 else 0) + StopsCut(Step(s, run[0]), run[1..], r)
  }

  /** What a step does to the losses of a runner. */
  ghost predicate Loses(s: State, s': State, r: RunnerId, cut: bool) {
    && (r in s'.runners <==> r in s.runners)
    && (r in s.runners ==>
          && s'.runners[r].slots == s.runners[r].slots
          && s'.runners[r].lost == s.runners[r].lost + if cut then 1 else 0)
  }

  lemma RaisingLoses(s: State, t: TaskId, good: bool, r: RunnerId)
    requires Known(s, t) && CanAdvance(s, t)
    requires s.tasks[t].phase.WaitSlot? || RaisingWithPermit(s.tasks[t].phase)
    ensures Loses(s, AdvanceTask(s, t, good), r, false)
  {
  }

  lemma StartLoses(s: State, t: TaskId, good: bool, r: RunnerId)
    requires Known(s, t) && CanAdvance(s, t) && (s.tasks[t].phase.Starting? || s.tasks[t].phase.PeekReturned?)
    ensures Loses(s, AdvanceTask(s, t, good), r, false)
  {
  }

  lemma InsideLoses(s: State, t: TaskId, good: bool, r: RunnerId)
    requires Known(s, t) && CanAdvance(s, t)
    requires s.tasks[t].phase.WaitTurn? || OnTurn(s.tasks[t].phase) || Stopping(s.tasks[t].phase)
    ensures Loses(s, AdvanceTask(s, t, good), r, false)
  {
  }

  lemma AdvanceLoses(s: State, t: TaskId, good: bool, r: RunnerId)
    requires Known(s, t) && CanAdvance(s, t)
    ensures Loses(s, AdvanceTask(s, t, good), r, false)
  {
    var p := s.tasks[t].phase;
    if p.WaitSlot? || RaisingWithPermit(p) {
      RaisingLoses(s, t, good, r);
    } else if p.Starting? || p.PeekReturned? {
      StartLoses(s, t, good, r);
    } else if p.WaitTurn? || OnTurn(p) || Stopping(p) {
      InsideLoses(s, t, good, r);
    }
  }

  /** A permit is lost to a cut-off stop and to nothing else. */
  lemma LostStep(s: State, a: Action, r: RunnerId)
    requires Enabled(s, a)
    ensures Loses(s, Step(s, a), r, CutsStop(s, a, r))
  {
    match a
    case Advance(t, good) => AdvanceLoses(s, t, good, r);
    case _ =>
  }

  lemma {:induction false} LostByCutStops(s: State, run: seq<Action>, r: RunnerId)
    requires ValidRun(s, run)
    ensures r in Exec(s, run).runners <==> r in s.runners
    ensures r in s.runners ==>
              && Exec(s, run).runners[r].slots == s.runners[r].slots
              && Exec(s, run).runners[r].lost == s.runners[r].lost + StopsCut(s, run, r)
    decreases |run|
  {
    if |run| > 0 {
      LostStep(s, run[0], r);
      LostByCutStops(Step(s, run[0]), run[1..], r);
    }
  }

  /** In every run, on every runner: the slots are the free permits, the raised instances, the
      coroutines that hold a permit, and the stops that were cut off; a coroutine that ended in
      any other way took none with it, and `busy` never exceeds `slots`. */
  lemma PermitsConserved(s0: State, run: seq<Action>, r: RunnerId)
    requires Init(s0) && ValidRun(s0, run) && r in s0.runners
    ensures var s := Exec(s0, run);
            && r in s.runners && s.runners[r].slots == s0.runners[r].slots
            && var n := s.runners[r];
            && n.free + |n.instances| + |Holders(s, r)| + StopsCut(s0, run, r) == n.slots
            && n.lost == StopsCut(s0, run, r)
            && |n.instances| <= n.slots
  {
    StructureInit(s0);
    InitBalanced(s0);
    RunKeeps(s0, run);
    LostByCutStops(s0, run, r);
    assert BalancedAt(Exec(s0, run), r);
  }

  /** Once no coroutine of the runner holds a permit, every slot without an instance can be
      raised into, unless a stop was cut off. */
  lemma PermitsComeBack(s0: State, run: seq<Action>, r: RunnerId)
    requires Init(s0) && ValidRun(s0, run) && r in s0.runners
    requires forall t <- Exec(s0, run).tasks :: Exec(s0, run).tasks[t].runner == r ==>
               !HoldsPermit(Exec(s0, run).tasks[t].phase)
    ensures var s := Exec(s0, run);
            r in s.runners && var n := s.runners[r]; n.free == n.slots - |n.instances| - StopsCut(s0, run, r)
  {
    PermitsConserved(s0, run, r);
    assert Holders(Exec(s0, run), r) == {};
  }

  /** Putting a raised instance in the dictionary never overwrites an entry, and the new
      object is one nobody refers to. */
  lemma RaiseNeverOverwrites(s0: State, run: seq<Action>, t: TaskId)
    requires Init(s0) && ValidRun(s0, run)
    requires t in Exec(s0, run).tasks && Exec(s0, run).tasks[t].phase == ClaimReturned(true)
    ensures var s := Exec(s0, run);
            && Known(s, t)
            && s.tasks[t].inst !in Me(s, t).instances
            && s.nextObj !in s.objs
            && |Me(Install(s, t), t).instances| == |Me(s, t).instances| + 1
  {
    StructureInit(s0);
    InitBalanced(s0);
    RunKeeps(s0, run);
    Ground(Exec(s0, run), t);
  }

  /** A coroutine of a reachable state is blocked only by an empty semaphore or a held lock. */
  lemma BlockedOnlyByLocks(s0: State, run: seq<Action>, t: TaskId, good: bool)
    requires Init(s0) && ValidRun(s0, run) && t in Exec(s0, run).tasks
    ensures var s := Exec(s0, run);
            && Known(s, t) && ObjKnown(s, t)
            && (Enabled(s, Advance(t, good)) <==>
                match s.tasks[t].phase
                case Finished => false
                case WaitSlot => Me(s, t).free > 0
                case WaitRaiseLock => Me(s, t).raiseLock.None?
                case WaitTurn(o) => s.objs[o].lock.None?
                case WaitStop(o) => s.objs[o].lock.None?
                case _ => true)
  {
    StructureInit(s0);
    InitBalanced(s0);
    RunKeeps(s0, run);
    Ground(Exec(s0, run), t);
  }

  /** No deadlock on a held lock: whoever a lock names can move. */
  lemma LockHolderCanMove(s0: State, run: seq<Action>, t: TaskId, good: bool)
    requires Init(s0) && ValidRun(s0, run)
    requires var s := Exec(s0, run);
             || (exists o <- s.objs :: s.objs[o].lock == Some(t))
             || (exists r <- s.runners :: s.runners[r].raiseLock == Some(t))
    ensures Enabled(Exec(s0, run), Advance(t, good))
  {
    StructureInit(s0);
    InitBalanced(s0);
    RunKeeps(s0, run);
    HolderIsInside(Exec(s0, run), t);
    InsideCanMove(Exec(s0, run), t);
  }

  lemma HolderIsInside(s: State, t: TaskId)
    requires Structure(s)
    requires || (exists o <- s.objs :: s.objs[o].lock == Some(t))
             || (exists r <- s.runners :: s.runners[r].raiseLock == Some(t))
    ensures Grounded(s, t) && (InRaiseLock(s.tasks[t].phase) || InInstanceLock(s.tasks[t].phase))
  {
  }

  lemma InsideCanMove(s: State, t: TaskId)
    requires Grounded(s, t) && (InRaiseLock(s.tasks[t].phase) || InInstanceLock(s.tasks[t].phase))
    ensures CanAdvance(s, t)
  {
  }
}
