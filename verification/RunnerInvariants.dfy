/**
 What every interleaving of the runner protocol keeps: permits are conserved, locks are
 exclusive, every object a coroutine refers to is its own, and a popped object is popped
 once and for all.
 */
module RunnerInvariants {
  import opened Common
  import opened HubStore
  import opened RunnerProtocol

  /** Every coroutine runs on a known runner and is where its job can bring it. */
  ghost predicate WellTyped(s: State) {
    forall t <- s.tasks ::
      && s.tasks[t].runner in s.runners
      && JobFits(s.tasks[t].job, s.tasks[t].phase)
  }

  ghost predicate JobFits(job: Job, p: Phase) {
    && (p.AtSkipMark? ==> job.EventJob? && !job.hasCodeTarget)
    && (p.AtBegin? || p.AtMark? ==> job.EventJob? && job.hasCodeTarget)
    && (p.WaitTurn? || OnTurn(p) ==> job.ChatJob? || (job.EventJob? && job.hasCodeTarget))
    && (Stopping(p) ==> job.StopJob?)
    && (p.AtPeek? || p.PeekReturned? || p.AtHandOff? ==> job.EventJob? && job.hasCodeTarget)
    && (p.WaitSlot? || RaisingWithPermit(p) ==> !job.StopJob? && (job.EventJob? ==> job.hasCodeTarget))
  }

  /** A coroutine inside the raise lock is the one its runner's lock names, and the other way
      round; its instance is not in the dictionary. */
  ghost predicate RaiseLocks(s: State) {
    && (forall t <- s.tasks :: InRaiseLock(s.tasks[t].phase) && s.tasks[t].runner in s.runners ==>
          && Me(s, t).raiseLock == Some(t)
          && s.tasks[t].inst !in Me(s, t).instances)
    && (forall r <- s.runners :: s.runners[r].raiseLock.Some? ==>
          var t := s.runners[r].raiseLock.value;
          t in s.tasks && s.tasks[t].runner == r && InRaiseLock(s.tasks[t].phase))
  }

  ghost predicate Objects(s: State) {
    && (forall o <- s.objs :: o < s.nextObj)
    && (forall r <- s.runners, i <- s.runners[r].instances :: OwnObject(s, s.runners[r].instances[i], r, i))
    && (forall t <- s.tasks :: HasObj(s.tasks[t].phase) ==>
          OwnObject(s, s.tasks[t].phase.obj, s.tasks[t].runner, s.tasks[t].inst))
  }

  ghost predicate OwnObject(s: State, o: ObjId, r: RunnerId, i: InstanceId) {
    o in s.objs && s.objs[o].runner == r && s.objs[o].inst == i
  }

  /** The instance lock names exactly the coroutine that is inside it. */
  ghost predicate InstanceLocks(s: State) {
    && (forall t <- s.tasks :: InInstanceLock(s.tasks[t].phase) && s.tasks[t].phase.obj in s.objs ==>
          s.objs[s.tasks[t].phase.obj].lock == Some(t))
    && (forall o <- s.objs :: s.objs[o].lock.Some? ==>
          var t := s.objs[o].lock.value;
          t in s.tasks && InInstanceLock(s.tasks[t].phase) && s.tasks[t].phase.obj == o)
  }

  /** An object being stopped is out of the dictionary, and one coroutine stops it. */
  ghost predicate PoppedOnce(s: State) {
    && (forall t <- s.tasks :: Stopping(s.tasks[t].phase) ==> !Listed(s, s.tasks[t].phase.obj))
    && (forall t <- s.tasks, u <- s.tasks ::
          Stopping(s.tasks[t].phase) && Stopping(s.tasks[u].phase) && s.tasks[t].phase.obj == s.tasks[u].phase.obj
          ==> t == u)
  }

  ghost predicate Listed(s: State, o: ObjId) {
    && o in s.objs && s.objs[o].runner in s.runners
    && var dict := s.runners[s.objs[o].runner].instances;
       s.objs[o].inst in dict && dict[s.objs[o].inst] == o
  }

  ghost predicate Structure(s: State) {
    WellTyped(s) && RaiseLocks(s) && Objects(s) && InstanceLocks(s) && PoppedOnce(s)
  }

  lemma StructureInit(s: State)
    requires Init(s)
    ensures Structure(s)
  {
  }

  // ---- one coroutine moves, dictionaries stay -----------------------------

  /** Coroutine `t` moves from phase `p` to `q` and takes or drops exactly the locks and
      the permit that distinguish the two; dictionaries and other runners are untouched. */
  ghost predicate Moves(s: State, s': State, t: TaskId) {
    && Known(s, t)
    && t in s'.tasks
    && var p, q := s.tasks[t].phase, s'.tasks[t].phase;
    && s'.tasks == s.tasks[t := s.tasks[t].(phase := q)]
    && JobFits(s.tasks[t].job, q)
    && (Stopping(q) ==> Stopping(p) && p.obj == q.obj)
    && (HasObj(q) ==> OwnObject(s, q.obj, s.tasks[t].runner, s.tasks[t].inst))
    && RaiseLockMoves(s, s', t, p, q)
    && s'.nextObj == s.nextObj
    && InstanceLockMoves(s, s', t, p, q)
  }

  /** Permits in the hands of a coroutine. */
  function InHand(p: Phase): nat { if HoldsPermit(p) then 1 else 0 }

  ghost predicate RaiseLockMoves(s: State, s': State, t: TaskId, p: Phase, q: Phase)
    requires Known(s, t)
  {
    var r, n := s.tasks[t].runner, Me(s, t);
    && r in s'.runners
    && (s'.runners == s.runners || s'.runners == s.runners[r := s'.runners[r]])
    && s'.runners[r].instances == n.instances
    && s'.runners[r].slots == n.slots
    && s'.runners[r].free + s'.runners[r].lost + InHand(q) == n.free + n.lost + InHand(p)
    && s'.runners[r].raiseLock ==
       (if InRaiseLock(q) then Some(t) else if InRaiseLock(p) then None else n.raiseLock)
    && (InRaiseLock(q) && !InRaiseLock(p) ==> n.raiseLock.None? && s.tasks[t].inst !in n.instances)
  }

  ghost predicate InstanceLockMoves(s: State, s': State, t: TaskId, p: Phase, q: Phase) {
    if InInstanceLock(p) && InInstanceLock(q) then p.obj == q.obj && s'.objs == s.objs
    else if InInstanceLock(q) then
      q.obj in s.objs && s.objs[q.obj].lock.None? && s'.objs == s.objs[q.obj := s.objs[q.obj].(lock := Some(t))]
    else if InInstanceLock(p) then
      p.obj in s.objs && s'.objs == s.objs[p.obj := s.objs[p.obj].(lock := None)]
    else s'.objs == s.objs
  }

  lemma MovesKeepsTypes(s: State, s': State, t: TaskId)
    requires Structure(s) && Moves(s, s', t)
    ensures WellTyped(s') && Objects(s')
  {
  }

  lemma MovesKeepsRaiseLocks(s: State, s': State, t: TaskId)
    requires Structure(s) && Moves(s, s', t)
    ensures RaiseLocks(s')
  {
  }

  lemma MovesKeepsInstanceLocks(s: State, s': State, t: TaskId)
    requires Structure(s) && Moves(s, s', t)
    ensures InstanceLocks(s')
  {
  }

  lemma MovesKeepsPopped(s: State, s': State, t: TaskId)
    requires Structure(s) && Moves(s, s', t)
    ensures PoppedOnce(s')
  {
    forall u <- s'.tasks | Stopping(s'.tasks[u].phase)
      ensures !Listed(s', s'.tasks[u].phase.obj)
    {
      assert Stopping(s.tasks[u].phase) && s.tasks[u].phase.obj == s'.tasks[u].phase.obj;
    }
  }

  /** Raising and stopping are the only steps that change a dictionary. */
  predicate ChangesDictionary(s: State, t: TaskId)
    requires Known(s, t)
  {
    var p := s.tasks[t].phase;
    p == ClaimReturned(true) || (p.Starting? && s.tasks[t].job.StopJob? && s.tasks[t].inst in Me(s, t).instances)
  }

  /** The part of the invariant that speaks of one coroutine. */
  ghost predicate Grounded(s: State, t: TaskId) {
    && Known(s, t)
    && var task, n := s.tasks[t], s.runners[s.tasks[t].runner];
    && JobFits(task.job, task.phase)
    && (task.inst in n.instances ==> OwnObject(s, n.instances[task.inst], task.runner, task.inst))
    && (HasObj(task.phase) ==> OwnObject(s, task.phase.obj, task.runner, task.inst))
    && (InRaiseLock(task.phase) ==> n.raiseLock == Some(t) && task.inst !in n.instances)
    && (InInstanceLock(task.phase) ==> s.objs[task.phase.obj].lock == Some(t))
  }

  lemma Ground(s: State, t: TaskId)
    requires Structure(s) && t in s.tasks
    ensures Grounded(s, t)
  {
  }

  lemma AdvanceMoves(s: State, t: TaskId, good: bool)
    requires Grounded(s, t) && CanAdvance(s, t) && !ChangesDictionary(s, t)
    ensures Moves(s, AdvanceTask(s, t, good), t)
  {
    var p := s.tasks[t].phase;
    if p.Starting? {
      StartMoves(s, t);
    } else if p.WaitTurn? || OnTurn(p) {
      TurnMoves(s, t, good);
    } else if Stopping(p) {
      StopMoves(s, t, good);
    } else if p.WaitSlot? || RaisingWithPermit(p) {
      RaiseMoves(s, t, good);
    } else {
      DatabaseMoves(s, t, good);
    }
  }

  /** A step outside all locks that changes nothing in memory but its own phase. */
  lemma PlainMoves(s: State, s': State, t: TaskId, q: Phase)
    requires Grounded(s, t)
    requires s'.tasks == s.tasks[t := s.tasks[t].(phase := q)]
    requires s'.runners == s.runners && s'.objs == s.objs && s'.nextObj == s.nextObj
    requires JobFits(s.tasks[t].job, q)
    requires var p := s.tasks[t].phase;
             !HoldsPermit(p) && !InInstanceLock(p) && !HoldsPermit(q) && !InInstanceLock(q)
    requires HasObj(q) ==> OwnObject(s, q.obj, s.tasks[t].runner, s.tasks[t].inst)
    ensures Moves(s, s', t)
  {
  }

  lemma EnterRaiseMoves(s: State, t: TaskId)
    requires Grounded(s, t) && !s.tasks[t].job.StopJob? && (s.tasks[t].job.EventJob? ==> s.tasks[t].job.hasCodeTarget)
    requires s.tasks[t].phase.Starting? || s.tasks[t].phase.PeekReturned?
    ensures Moves(s, EnterRaise(s, t), t)
  {
    PlainMoves(s, EnterRaise(s, t), t, EnterRaise(s, t).tasks[t].phase);
  }

  lemma BeginMoves(s: State, t: TaskId, next: Phase)
    requires Grounded(s, t) && s.tasks[t].job.EventJob? && JobFits(s.tasks[t].job, next)
    requires (s.tasks[t].phase.Starting? && next.AtSkipMark?)
             || (s.tasks[t].phase.AtBegin? && next == WaitTurn(s.tasks[t].phase.obj))
    ensures Moves(s, BeginDb(s, t, next), t)
  {
    PlainMoves(s, BeginDb(s, t, next), t, BeginDb(s, t, next).tasks[t].phase);
  }

  lemma StartMoves(s: State, t: TaskId)
    requires Grounded(s, t) && s.tasks[t].phase.Starting? && !ChangesDictionary(s, t)
    ensures Moves(s, Start(s, t), t)
  {
    var job := s.tasks[t].job;
    if job.EventJob? && !job.hasCodeTarget {
      BeginMoves(s, t, AtSkipMark);
    } else if job.StopJob? {
      PlainMoves(s, Start(s, t), t, Finished);
    } else if job.EventJob? && s.tasks[t].inst !in Me(s, t).instances {
      PlainMoves(s, Start(s, t), t, AtPeek);
    } else {
      EnterRaiseMoves(s, t);
    }
  }

  lemma DatabaseMoves(s: State, t: TaskId, good: bool)
    requires Grounded(s, t) && CanAdvance(s, t)
    requires var p := s.tasks[t].phase; p.AtSkipMark? || p.AtPeek? || p.PeekReturned? || p.AtHandOff? || p.AtBegin?
    ensures Moves(s, AdvanceTask(s, t, good), t)
  {
    var p := s.tasks[t].phase;
    if p == PeekReturned(false) {
      EnterRaiseMoves(s, t);
    } else if p.AtBegin? {
      BeginMoves(s, t, WaitTurn(p.obj));
    } else {
      PlainMoves(s, AdvanceTask(s, t, good), t, AdvanceTask(s, t, good).tasks[t].phase);
    }
  }

  lemma RaiseMoves(s: State, t: TaskId, good: bool)
    requires Grounded(s, t) && CanAdvance(s, t)
    requires s.tasks[t].phase.WaitSlot?
             || (RaisingWithPermit(s.tasks[t].phase) && s.tasks[t].phase != ClaimReturned(true))
    ensures Moves(s, AdvanceTask(s, t, good), t)
  {
    if s.tasks[t].phase.WaitRaiseLock? {
      LockRaiseMoves(s, t);
    } else if s.tasks[t].phase.AtClaim? {
      ClaimMoves(s, t);
    } else if s.tasks[t].phase.ClaimReturned? {
      RejectedMoves(s, t);
    }
  }

  lemma LockRaiseMoves(s: State, t: TaskId)
    requires Grounded(s, t) && s.tasks[t].phase.WaitRaiseLock? && Me(s, t).raiseLock.None?
    ensures Moves(s, LockRaise(s, t), t)
  {
  }

  lemma ClaimMoves(s: State, t: TaskId)
    requires Grounded(s, t) && s.tasks[t].phase.AtClaim?
    ensures Moves(s, ClaimDb(s, t), t)
  {
  }

  lemma RejectedMoves(s: State, t: TaskId)
    requires Grounded(s, t) && s.tasks[t].phase == ClaimReturned(false)
    ensures Moves(s, Rejected(s, t), t)
  {
  }

  lemma TurnMoves(s: State, t: TaskId, good: bool)
    requires Grounded(s, t) && CanAdvance(s, t)
    requires s.tasks[t].phase.WaitTurn? || OnTurn(s.tasks[t].phase)
    ensures Moves(s, AdvanceTask(s, t, good), t)
  {
    var p := s.tasks[t].phase;
    if p.WaitTurn? || p.TurnEnding? {
      TurnEdgeMoves(s, t, good);
    } else {
      TurnBodyMoves(s, t, good);
    }
  }

  lemma TurnEdgeMoves(s: State, t: TaskId, good: bool)
    requires Grounded(s, t) && CanAdvance(s, t)
    requires s.tasks[t].phase.WaitTurn? || s.tasks[t].phase.TurnEnding?
    ensures Moves(s, AdvanceTask(s, t, good), t)
  {
  }

  lemma TurnBodyMoves(s: State, t: TaskId, good: bool)
    requires Grounded(s, t) && CanAdvance(s, t)
    requires s.tasks[t].phase.AtLoadContext? || s.tasks[t].phase.InTurn? || s.tasks[t].phase.AtMark?
    ensures Moves(s, AdvanceTask(s, t, good), t)
  {
  }

  lemma StopMoves(s: State, t: TaskId, good: bool)
    requires Grounded(s, t) && CanAdvance(s, t) && Stopping(s.tasks[t].phase)
    ensures Moves(s, AdvanceTask(s, t, good), t)
  {
  }

  lemma AbortMoves(s: State, t: TaskId)
    requires Grounded(s, t) && Enabled(s, Abort(t))
    ensures Moves(s, AbortTask(s, t), t)
  {
  }

  lemma InstallKeepsTypes(s: State, t: TaskId)
    requires Structure(s) && Known(s, t) && s.tasks[t].phase == ClaimReturned(true)
    ensures WellTyped(Install(s, t))
  {
  }

  lemma InstallKeepsObjects(s: State, t: TaskId)
    requires Structure(s) && Known(s, t) && s.tasks[t].phase == ClaimReturned(true)
    ensures Objects(Install(s, t))
  {
    var s' := Install(s, t);
    InstallKeepsEntries(s, t);
    forall u <- s'.tasks | HasObj(s'.tasks[u].phase)
      ensures OwnObject(s', s'.tasks[u].phase.obj, s'.tasks[u].runner, s'.tasks[u].inst)
    {
      if u != t {
        Ground(s, u);
      }
    }
  }

  lemma InstallKeepsEntries(s: State, t: TaskId)
    requires Structure(s) && Known(s, t) && s.tasks[t].phase == ClaimReturned(true)
    ensures var s' := Install(s, t);
            && (forall o <- s'.objs :: o < s'.nextObj)
            && forall r <- s'.runners, i <- s'.runners[r].instances :: OwnObject(s', s'.runners[r].instances[i], r, i)
  {
  }

  lemma InstallKeepsInstanceLocks(s: State, t: TaskId)
    requires Structure(s) && Known(s, t) && s.tasks[t].phase == ClaimReturned(true)
    ensures InstanceLocks(Install(s, t))
  {
    var s' := Install(s, t);
    forall u <- s'.tasks | InInstanceLock(s'.tasks[u].phase) && s'.tasks[u].phase.obj in s'.objs
      ensures s'.objs[s'.tasks[u].phase.obj].lock == Some(u)
    {
      assert u != t && s'.tasks[u] == s.tasks[u];
    }
  }

  lemma InstallKeepsRaiseLocks(s: State, t: TaskId)
    requires Structure(s) && Known(s, t) && s.tasks[t].phase == ClaimReturned(true)
    ensures RaiseLocks(Install(s, t))
  {
    var s' := Install(s, t);
    forall u <- s'.tasks | InRaiseLock(s'.tasks[u].phase) && s'.tasks[u].runner in s'.runners
      ensures Me(s', u).raiseLock == Some(u) && s'.tasks[u].inst !in Me(s', u).instances
    {
      assert u != t && s'.tasks[u] == s.tasks[u];
      assert s.tasks[u].runner != s.tasks[t].runner;
    }
  }

  lemma InstallKeepsPopped(s: State, t: TaskId)
    requires Structure(s) && Known(s, t) && s.tasks[t].phase == ClaimReturned(true)
    ensures PoppedOnce(Install(s, t))
  {
    var s' := Install(s, t);
    forall u <- s'.tasks | Stopping(s'.tasks[u].phase)
      ensures !Listed(s', s'.tasks[u].phase.obj)
    {
      assert Stopping(s.tasks[u].phase) && s'.tasks[u] == s.tasks[u] && !Listed(s, s.tasks[u].phase.obj);
    }
  }

  lemma PopKeeps(s: State, t: TaskId)
    requires Structure(s) && Known(s, t) && s.tasks[t].phase.Starting? && s.tasks[t].job.StopJob?
    requires s.tasks[t].inst in Me(s, t).instances
    ensures Structure(Pop(s, t))
  {
    PopKeepsTypes(s, t);
    PopKeepsLocks(s, t);
  }

  lemma PopKeepsTypes(s: State, t: TaskId)
    requires Structure(s) && Known(s, t) && s.tasks[t].phase.Starting? && s.tasks[t].job.StopJob?
    requires s.tasks[t].inst in Me(s, t).instances
    ensures WellTyped(Pop(s, t)) && Objects(Pop(s, t)) && PoppedOnce(Pop(s, t))
  {
  }

  lemma PopKeepsLocks(s: State, t: TaskId)
    requires Structure(s) && Known(s, t) && s.tasks[t].phase.Starting? && s.tasks[t].job.StopJob?
    requires s.tasks[t].inst in Me(s, t).instances
    ensures RaiseLocks(Pop(s, t)) && InstanceLocks(Pop(s, t))
  {
  }

  lemma {:induction false} AdvanceKeeps(s: State, t: TaskId, good: bool)
    requires Structure(s) && Known(s, t) && CanAdvance(s, t)
    ensures Structure(AdvanceTask(s, t, good))
  {
    if s.tasks[t].phase == ClaimReturned(true) {
      InstallKeepsTypes(s, t);
      InstallKeepsObjects(s, t);
      InstallKeepsInstanceLocks(s, t);
      InstallKeepsRaiseLocks(s, t);
      InstallKeepsPopped(s, t);
    } else if ChangesDictionary(s, t) {
      PopKeeps(s, t);
    } else {
      Ground(s, t);
      AdvanceMoves(s, t, good);
      MovesKeep(s, AdvanceTask(s, t, good), t);
    }
  }

  lemma SpawnKeeps(s: State, t: TaskId, r: RunnerId, i: InstanceId, job: Job)
    requires Structure(s) && Enabled(s, Spawn(t, r, i, job))
    ensures Structure(Step(s, Spawn(t, r, i, job)))
  {
    SpawnKeepsTypes(s, t, r, i, job);
    SpawnKeepsPopped(s, t, r, i, job);
    SpawnKeepsLocks(s, t, r, i, job);
  }

  lemma SpawnKeepsTypes(s: State, t: TaskId, r: RunnerId, i: InstanceId, job: Job)
    requires Structure(s) && Enabled(s, Spawn(t, r, i, job))
    ensures WellTyped(Step(s, Spawn(t, r, i, job))) && Objects(Step(s, Spawn(t, r, i, job)))
  {
  }

  lemma SpawnKeepsPopped(s: State, t: TaskId, r: RunnerId, i: InstanceId, job: Job)
    requires Structure(s) && Enabled(s, Spawn(t, r, i, job))
    ensures PoppedOnce(Step(s, Spawn(t, r, i, job)))
  {
  }

  lemma SpawnKeepsLocks(s: State, t: TaskId, r: RunnerId, i: InstanceId, job: Job)
    requires Structure(s) && Enabled(s, Spawn(t, r, i, job))
    ensures var s' := Step(s, Spawn(t, r, i, job)); RaiseLocks(s') && InstanceLocks(s')
  {
  }

  /** The structural invariant is inductive. */
  lemma StructureStep(s: State, a: Action)
    requires Structure(s) && Enabled(s, a)
    ensures Structure(Step(s, a))
  {
    match a
    case Spawn(t, r, i, job) => SpawnKeeps(s, t, r, i, job);
    case Advance(t, good) => AdvanceKeeps(s, t, good);
    case Abort(t) =>
      Ground(s, t);
      AbortMoves(s, t);
      MovesKeep(s, AbortTask(s, t), t);
    case _ =>
  }

  lemma MovesKeep(s: State, s': State, t: TaskId)
    requires Structure(s) && Moves(s, s', t)
    ensures Structure(s')
  {
    MovesKeepsTypes(s, s', t);
    MovesKeepsRaiseLocks(s, s', t);
    MovesKeepsInstanceLocks(s, s', t);
    MovesKeepsPopped(s, s', t);
  }
}
