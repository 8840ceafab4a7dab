/**
 How often a delivery runs.  A key is accepted before its instance lock is taken, so two
 deliveries of one key can both be accepted and both complete; and a completed one whose mark
 is lost is delivered again.  Apart from these, each key completes at most once.
 */
module RunnerDeliveries {
  import opened Common
  import opened HubStore
  import opened RunnerProtocol
  import opened RunnerInvariants
  import opened RunnerHistory
  import opened RunnerRuns

  predicate Of(task: Task, i: InstanceId, k: Key) { task.job.EventJob? && task.inst == i && task.job.key == k }

  /** Accepted and not yet marked, given up or over. */
  predicate Live(task: Task, i: InstanceId, k: Key) {
    Of(task, i, k) && (task.phase.WaitTurn? || task.phase.AtLoadContext? || task.phase.InTurn? || task.phase.AtMark?)
  }

  predicate Completes(e: Entry, i: InstanceId, k: Key) { e.Completed? && e.inst == i && e.key == k }

  ghost predicate HasCompleted(log: seq<Entry>, i: InstanceId, k: Key) {
    exists n :: 0 <= n < |log| && Completes(log[n], i, k)
  }

  ghost predicate AtMostOnce(log: seq<Entry>, i: InstanceId, k: Key) {
    forall m, n :: 0 <= m < n < |log| && Completes(log[m], i, k) ==> !Completes(log[n], i, k)
  }

  // ---- every completion was accepted before every mark ---------------------

  ghost predicate AcceptedFirst(s: State) {
    && (forall t <- s.tasks :: s.tasks[t].job.EventJob? && (s.tasks[t].phase.WaitTurn? || OnTurn(s.tasks[t].phase)) ==>
          Accepted(t, s.tasks[t].inst, s.tasks[t].job.key) in s.log)
    && (forall n :: 0 <= n < |s.log| && s.log[n].Completed? ==>
          Accepted(s.log[n].task, s.log[n].inst, s.log[n].key) in s.log[..n])
  }

  /** What a step of `t` does to its own acceptance and completion. */
  ghost predicate Accepting(s: State, s': State, t: TaskId) {
    && t in s.tasks && t in s'.tasks
    && s'.tasks == s.tasks[t := s.tasks[t].(phase := s'.tasks[t].phase)]
    && (s'.log == s.log || (|s'.log| == |s.log| + 1 && s'.log[..|s.log|] == s.log))
    && (s.tasks[t].job.EventJob? && (s'.tasks[t].phase.WaitTurn? || OnTurn(s'.tasks[t].phase)) ==>
          || s.tasks[t].phase.WaitTurn? || OnTurn(s.tasks[t].phase)
          || s'.log == s.log + [Accepted(t, s.tasks[t].inst, s.tasks[t].job.key)])
    && (|s'.log| > |s.log| && s'.log[|s.log|].Completed? ==>
          s.tasks[t].job.EventJob? && s.tasks[t].phase.InTurn?
          && s'.log[|s.log|] == Completed(t, s.tasks[t].inst, s.tasks[t].job.key))
  }

  lemma AdvanceAccepting(s: State, t: TaskId, good: bool)
    requires Grounded(s, t) && CanAdvance(s, t)
    ensures Accepting(s, AdvanceTask(s, t, good), t)
  {
    AdvanceFramed(s, t, good);
    if Silent(s.tasks[t].job, s.tasks[t].phase) {
      SilentAdvance(s, t, good);
    } else if OnTurn(s.tasks[t].phase) {
      TurnAccepting(s, t, good);
    }
  }

  lemma TurnAccepting(s: State, t: TaskId, good: bool)
    requires Grounded(s, t) && CanAdvance(s, t) && OnTurn(s.tasks[t].phase) && !s.tasks[t].phase.TurnEnding?
    requires Framed(s, AdvanceTask(s, t, good), t)
    ensures Accepting(s, AdvanceTask(s, t, good), t)
  {
  }

  lemma AcceptingKeeps(s: State, s': State, t: TaskId)
    requires AcceptedFirst(s) && Accepting(s, s', t)
    ensures AcceptedFirst(s')
  {
    assert forall e :: e in s.log ==> e in s'.log;
    if |s'.log| > |s.log| {
      assert s'.log == s.log + [s'.log[|s.log|]];
    }
    forall n | 0 <= n < |s'.log| && s'.log[n].Completed?
      ensures Accepted(s'.log[n].task, s'.log[n].inst, s'.log[n].key) in s'.log[..n]
    {
      if n < |s.log| {
        assert s'.log[n] == s.log[n] && s'.log[..n] == s.log[..n];
      }
    }
  }

  lemma AcceptedStep(s: State, a: Action)
    requires Structure(s) && AcceptedFirst(s) && Enabled(s, a)
    ensures AcceptedFirst(Step(s, a))
  {
    match a
    case Advance(t, good) =>
      Ground(s, t);
      AdvanceAccepting(s, t, good);
      AcceptingKeeps(s, Step(s, a), t);
    case Abort(t) => AcceptingKeeps(s, Step(s, a), t);
    case DownByHub(i) =>
      var s' := Step(s, a);
      assert forall n :: 0 <= n < |s.log| ==> s'.log[..n] == s.log[..n];
    case _ =>
  }

  lemma {:induction false} RunAccepted(s: State, run: seq<Action>)
    requires Structure(s) && AcceptedFirst(s) && ValidRun(s, run)
    ensures AcceptedFirst(Exec(s, run))
    decreases |run|
  {
    if |run| > 0 {
      StructureStep(s, run[0]);
      AcceptedStep(s, run[0]);
      RunAccepted(Step(s, run[0]), run[1..]);
    }
  }

  /** In every run: whatever completes -- a second time or the first -- was accepted before any
      mark of its key. */
  lemma AcceptedBeforeEveryMark(s0: State, run: seq<Action>, n: nat, m: nat)
    requires Init(s0) && ValidRun(s0, run)
    requires var log := Exec(s0, run).log;
             n < |log| && m < |log| && log[n].Completed? && log[m].Marked? && log[m].inst == log[n].inst
                 && log[m].key == log[n].key
    ensures var log := Exec(s0, run).log;
            exists a :: 0 <= a < n && a < m && log[a] == Accepted(log[n].task, log[n].inst, log[n].key)
  {
    StructureInit(s0);
    RunAccepted(s0, run);
    RunDedups(s0, run);
    var log := Exec(s0, run).log;
    var e := Accepted(log[n].task, log[n].inst, log[n].key);
    assert e in log[..n];
    var a :| 0 <= a < n && log[a] == e;
    assert RefusedAfter(log);
  }

  // ---- at most once --------------------------------------------------------

  predicate Accepts(s: State, t: TaskId, i: InstanceId, k: Key) {
    t in s.tasks && Of(s.tasks[t], i, k) && s.tasks[t].phase.AtBegin? && !Processed(s.journal, i, k)
  }

  ghost predicate OtherLive(s: State, t: TaskId, i: InstanceId, k: Key) {
    exists v <- s.tasks :: v != t && Live(s.tasks[v], i, k)
  }

  /** No delivery of the key is accepted while another is live, and none is cut off between its
      completion and its mark. */
  ghost predicate Clean(s: State, a: Action, i: InstanceId, k: Key) {
    && (a.Advance? && Accepts(s, a.t, i, k) ==> !OtherLive(s, a.t, i, k))
    && (a.Abort? && a.t in s.tasks && Of(s.tasks[a.t], i, k) ==> !s.tasks[a.t].phase.AtMark?)
  }

  ghost predicate CleanRun(s: State, run: seq<Action>, i: InstanceId, k: Key)
    requires ValidRun(s, run)
    decreases |run|
  {
    |run| == 0 || (Clean(s, run[0], i, k) && CleanRun(Step(s, run[0]), run[1..], i, k))
  }

  ghost predicate OneLive(s: State, i: InstanceId, k: Key) {
    forall u <- s.tasks, v <- s.tasks :: Live(s.tasks[u], i, k) && Live(s.tasks[v], i, k) ==> u == v
  }

  /** After a completion only its own coroutine is live, on the way to its mark, until the key
      is processed. */
  ghost predicate Settled(s: State, i: InstanceId, k: Key) {
    HasCompleted(s.log, i, k) ==>
      && (forall u <- s.tasks :: Live(s.tasks[u], i, k) ==> s.tasks[u].phase.AtMark?)
      && (Processed(s.journal, i, k) || exists u <- s.tasks :: Live(s.tasks[u], i, k))
  }

  ghost predicate Once(s: State, i: InstanceId, k: Key) {
    OneLive(s, i, k) && Settled(s, i, k) && AtMostOnce(s.log, i, k)
  }

  /** A step after which no new delivery of the key is live and none has completed. */
  ghost predicate QuietFor(s: State, s': State, i: InstanceId, k: Key) {
    && (forall u <- s'.tasks :: Live(s'.tasks[u], i, k) ==>
          u in s.tasks && Live(s.tasks[u], i, k) && (s.tasks[u].phase.AtMark? ==> s'.tasks[u].phase.AtMark?))
    && (forall u <- s.tasks :: Live(s.tasks[u], i, k) && s.tasks[u].phase.AtMark? ==>
          Processed(s'.journal, i, k) || (u in s'.tasks && Live(s'.tasks[u], i, k)))
    && (Processed(s.journal, i, k) ==> Processed(s'.journal, i, k))
    && (s'.log == s.log || (|s'.log| == |s.log| + 1 && s'.log[..|s.log|] == s.log && !Completes(s'.log[|s.log|], i, k)))
  }

  lemma QuietKeeps(s: State, s': State, i: InstanceId, k: Key)
    requires Once(s, i, k) && QuietFor(s, s', i, k)
    ensures Once(s', i, k)
  {
    assert forall n :: 0 <= n < |s.log| ==> s'.log[n] == s.log[n];
    if HasCompleted(s'.log, i, k) {
      var n :| 0 <= n < |s'.log| && Completes(s'.log[n], i, k);
      assert Completes(s.log[n], i, k);
    }
  }

  /** A delivery becomes live. */
  ghost predicate AcceptsNow(s: State, s': State, t: TaskId, i: InstanceId, k: Key) {
    && Accepts(s, t, i, k) && t in s'.tasks
    && s'.tasks == s.tasks[t := s.tasks[t].(phase := s'.tasks[t].phase)] && s'.tasks[t].phase.WaitTurn?
    && s'.log == s.log + [Accepted(t, i, k)]
  }

  lemma AcceptKeeps(s: State, s': State, t: TaskId, i: InstanceId, k: Key)
    requires Once(s, i, k) && AcceptsNow(s, s', t, i, k) && !OtherLive(s, t, i, k)
    ensures Once(s', i, k)
  {
    assert forall n :: 0 <= n < |s.log| ==> s'.log[n] == s.log[n];
    assert forall u <- s.tasks :: u != t ==> !Live(s.tasks[u], i, k);
    assert !HasCompleted(s.log, i, k);
  }

  /** A live delivery completes. */
  ghost predicate CompletesNow(s: State, s': State, t: TaskId, i: InstanceId, k: Key) {
    && t in s.tasks && t in s'.tasks && Live(s.tasks[t], i, k) && s.tasks[t].phase.InTurn?
    && s'.tasks == s.tasks[t := s.tasks[t].(phase := s'.tasks[t].phase)] && s'.tasks[t].phase.AtMark?
    && s'.log == s.log + [Completed(t, i, k)]
  }

  lemma CompleteKeeps(s: State, s': State, t: TaskId, i: InstanceId, k: Key)
    requires Once(s, i, k) && CompletesNow(s, s', t, i, k)
    ensures Once(s', i, k)
  {
    assert !HasCompleted(s.log, i, k);
    forall n | 0 <= n < |s.log|
      ensures !Completes(s'.log[n], i, k)
    {
      assert s'.log[n] == s.log[n] && !Completes(s.log[n], i, k);
    }
    assert Live(s'.tasks[t], i, k);
  }

  lemma SilentQuiet(s: State, t: TaskId, good: bool, i: InstanceId, k: Key)
    requires Grounded(s, t) && CanAdvance(s, t) && Silent(s.tasks[t].job, s.tasks[t].phase)
    ensures QuietFor(s, AdvanceTask(s, t, good), i, k)
  {
    SilentAdvance(s, t, good);
  }

  lemma DatabaseQuiet(s: State, t: TaskId, good: bool, i: InstanceId, k: Key)
    requires Grounded(s, t) && CanAdvance(s, t) && PhaseBacked(s, t)
    requires var p := s.tasks[t].phase; p.AtSkipMark? || p.AtClaim? || p.AtRelease? || p.AtMark? || p.AtLoadContext?
                                        || p.AtHandOff?
                                        || (p.Starting? && s.tasks[t].job.EventJob? && !s.tasks[t].job.hasCodeTarget)
    ensures QuietFor(s, AdvanceTask(s, t, good), i, k)
  {
    var p := s.tasks[t].phase;
    if p.AtMark? || p.AtLoadContext? {
      InnerQuiet(s, t, good, i, k);
    } else {
      RowQuiet(s, t, good, i, k);
    }
  }

  lemma InnerQuiet(s: State, t: TaskId, good: bool, i: InstanceId, k: Key)
    requires Grounded(s, t) && CanAdvance(s, t) && PhaseBacked(s, t)
    requires s.tasks[t].phase.AtMark? || s.tasks[t].phase.AtLoadContext?
    ensures QuietFor(s, AdvanceTask(s, t, good), i, k)
  {
  }

  lemma RowQuiet(s: State, t: TaskId, good: bool, i: InstanceId, k: Key)
    requires Grounded(s, t) && CanAdvance(s, t)
    requires var p := s.tasks[t].phase; p.AtSkipMark? || p.AtClaim? || p.AtRelease? || p.AtHandOff?
                                        || (p.Starting? && s.tasks[t].job.EventJob? && !s.tasks[t].job.hasCodeTarget)
    ensures QuietFor(s, AdvanceTask(s, t, good), i, k)
  {
    if s.tasks[t].phase.AtClaim? || s.tasks[t].phase.AtRelease? {
      ClaimQuiet(s, t, good, i, k);
    }
  }

  lemma ClaimQuiet(s: State, t: TaskId, good: bool, i: InstanceId, k: Key)
    requires Grounded(s, t) && CanAdvance(s, t) && (s.tasks[t].phase.AtClaim? || s.tasks[t].phase.AtRelease?)
    ensures QuietFor(s, AdvanceTask(s, t, good), i, k)
  {
  }

  lemma BeginEffect(s: State, t: TaskId, good: bool, i: InstanceId, k: Key)
    requires Grounded(s, t) && CanAdvance(s, t) && s.tasks[t].phase.AtBegin?
    ensures Accepts(s, t, i, k) ==> AcceptsNow(s, AdvanceTask(s, t, good), t, i, k)
    ensures !Accepts(s, t, i, k) ==> QuietFor(s, AdvanceTask(s, t, good), i, k)
  {
  }

  lemma TurnEffect(s: State, t: TaskId, good: bool, i: InstanceId, k: Key)
    requires Grounded(s, t) && CanAdvance(s, t) && s.tasks[t].phase.InTurn?
    ensures good && Of(s.tasks[t], i, k) ==> CompletesNow(s, AdvanceTask(s, t, good), t, i, k)
    ensures !(good && Of(s.tasks[t], i, k)) ==> QuietFor(s, AdvanceTask(s, t, good), i, k)
  {
  }

  lemma AdvanceOnce(s: State, t: TaskId, good: bool, i: InstanceId, k: Key)
    requires Grounded(s, t) && CanAdvance(s, t) && PhaseBacked(s, t) && Once(s, i, k)
             && Clean(s, Advance(t, good), i, k)
    ensures Once(AdvanceTask(s, t, good), i, k)
  {
    var p, s' := s.tasks[t].phase, AdvanceTask(s, t, good);
    if Silent(s.tasks[t].job, p) {
      SilentQuiet(s, t, good, i, k);
      QuietKeeps(s, s', i, k);
    } else if p.AtBegin? {
      BeginEffect(s, t, good, i, k);
      if Accepts(s, t, i, k) {
        AcceptKeeps(s, s', t, i, k);
      } else {
        QuietKeeps(s, s', i, k);
      }
    } else if p.InTurn? {
      TurnEffect(s, t, good, i, k);
      if good && Of(s.tasks[t], i, k) {
        CompleteKeeps(s, s', t, i, k);
      } else {
        QuietKeeps(s, s', i, k);
      }
    } else {
      DatabaseQuiet(s, t, good, i, k);
      QuietKeeps(s, s', i, k);
    }
  }

  lemma OtherQuiet(s: State, a: Action, i: InstanceId, k: Key)
    requires Enabled(s, a) && !a.Advance? && Clean(s, a, i, k)
    ensures QuietFor(s, Step(s, a), i, k)
  {
  }

  lemma OnceStep(s: State, a: Action, i: InstanceId, k: Key)
    requires Structure(s) && Dedup(s) && Once(s, i, k) && Enabled(s, a) && Clean(s, a, i, k)
    ensures Once(Step(s, a), i, k)
  {
    if a.Advance? {
      Ground(s, a.t);
      AdvanceOnce(s, a.t, a.good, i, k);
    } else {
      OtherQuiet(s, a, i, k);
      QuietKeeps(s, Step(s, a), i, k);
    }
  }

  lemma {:induction false} RunOnce(s: State, run: seq<Action>, i: InstanceId, k: Key)
    requires Structure(s) && Dedup(s) && Once(s, i, k) && ValidRun(s, run) && CleanRun(s, run, i, k)
    ensures var s' := Exec(s, run); Structure(s') && Dedup(s') && Once(s', i, k)
    decreases |run|
  {
    if |run| > 0 {
      StructureStep(s, run[0]);
      DedupStep(s, run[0]);
      OnceStep(s, run[0], i, k);
      RunOnce(Step(s, run[0]), run[1..], i, k);
    }
  }

  /** In every run that is clean for a key, the key completes at most once. */
  lemma CompletesAtMostOnce(s0: State, run: seq<Action>, i: InstanceId, k: Key)
    requires Init(s0) && ValidRun(s0, run) && CleanRun(s0, run, i, k)
    ensures AtMostOnce(Exec(s0, run).log, i, k)
  {
    StructureInit(s0);
    RunOnce(s0, run, i, k);
  }

  // ---- what happens otherwise ----------------------------------------------

  lemma {:induction false} CalmIsClean(s: State, run: seq<Action>, i: InstanceId, k: Key)
    requires ValidRun(s, run) && Calm(s, run)
    ensures CleanRun(s, run, i, k)
    decreases |run|
  {
    if |run| > 0 {
      CalmIsClean(Step(s, run[0]), run[1..], i, k);
    }
  }

  /** Coroutines outside all instance locks stand where they stood, and history only grows. */
  ghost predicate Meanwhile(s: State, s': State) {
    && s.log <= s'.log && s'.runners.Keys == s.runners.Keys
    && (forall t <- s.tasks :: t in s'.tasks && (InInstanceLock(s.tasks[t].phase) || s'.tasks[t] == s.tasks[t]))
    && (forall o <- s.objs :: o in s'.objs)
  }

  lemma LeaveStop(s: State, u: TaskId)
    requires Grounded(s, u) && s.tasks[u].phase.ReleaseReturned?
    ensures Enabled(s, Advance(u, true))
    ensures var s' := Step(s, Advance(u, true));
            Meanwhile(s, s') && s'.objs == s.objs[s.tasks[u].phase.obj := s.objs[s.tasks[u].phase.obj].(lock := None)]
  {
  }

  lemma ReleaseFirst(s: State, u: TaskId)
    requires Grounded(s, u) && s.tasks[u].phase.AtRelease?
    ensures Enabled(s, Advance(u, true))
    ensures var s' := Step(s, Advance(u, true));
            Meanwhile(s, s') && s'.objs == s.objs
                && s'.tasks == s.tasks[u := s.tasks[u].(phase := ReleaseReturned(s.tasks[u].phase.obj))]
  {
  }

  lemma StopLeaves(s: State, u: TaskId) returns (run: seq<Action>, s': State)
    requires Reachable(s) && u in s.tasks && (s.tasks[u].phase.AtRelease? || s.tasks[u].phase.ReleaseReturned?)
    ensures Calmly(s, run, s') && Meanwhile(s, s')
    ensures s.tasks[u].phase.obj in s.objs
    ensures s'.objs == s.objs[s.tasks[u].phase.obj := s.objs[s.tasks[u].phase.obj].(lock := None)]
  {
    Footing(s, u);
    if s.tasks[u].phase.ReleaseReturned? {
      LeaveStop(s, u);
      CalmOne(s, Advance(u, true));
      run, s' := [Advance(u, true)], Step(s, Advance(u, true));
    } else {
      ReleaseFirst(s, u);
      var s1 := Step(s, Advance(u, true));
      CalmOne(s, Advance(u, true));
      Onward(s, [Advance(u, true)], s1);
      Footing(s1, u);
      LeaveStop(s1, u);
      s' := Step(s1, Advance(u, true));
      CalmOne(s1, Advance(u, true));
      CalmChain(s, [Advance(u, true)], s1, [Advance(u, true)], s');
      run := [Advance(u, true)] + [Advance(u, true)];
    }
  }

  lemma {:induction false} LogGrows(s: State, run: seq<Action>)
    requires Structure(s) && ValidRun(s, run)
    ensures s.log <= Exec(s, run).log
    decreases |run|
  {
    if |run| > 0 {
      StepIsJournalStep(s, run[0]);
      StructureStep(s, run[0]);
      LogGrows(Step(s, run[0]), run[1..]);
    }
  }

  lemma ReachableLog(s: State, run: seq<Action>, s': State)
    requires Reachable(s) && Reaches(s, run, s')
    ensures s.log <= s'.log && Reachable(s')
  {
    ReachableStructure(s);
    LogGrows(s, run);
    Onward(s, run, s');
  }

  /** Whoever holds an instance lock can leave it. */
  lemma FreeLock(s: State, o: ObjId) returns (run: seq<Action>, s': State)
    requires Reachable(s) && o in s.objs
    ensures Calmly(s, run, s') && Reachable(s') && Meanwhile(s, s') && s'.objs[o].lock.None?
  {
    if s.objs[o].lock.None? {
      run, s' := [], s;
    } else {
      HolderInside(s, o);
      var w := s.objs[o].lock.value;
      if OnTurn(s.tasks[w].phase) {
        run, s' := FinishTurn(s, w);
      } else {
        run, s' := StopLeaves(s, w);
      }
      ReachableLog(s, run, s');
    }
  }

  /** `v` has completed its turn and stands before its mark. */
  ghost predicate Done(s: State, s': State, v: TaskId, i: InstanceId, k: Key) {
    Reachable(s') && Meanwhile(s, s') && Completed(v, i, k) in s'.log
  }

  lemma TurnCompletes(s: State, v: TaskId, i: InstanceId, k: Key) returns (run: seq<Action>, s': State)
    requires Reachable(s) && v in s.tasks && Of(s.tasks[v], i, k) && s.tasks[v].phase.InTurn?
    ensures Calmly(s, run, s') && Done(s, s', v, i, k)
  {
    Footing(s, v);
    s' := Step(s, Advance(v, true));
    CalmOne(s, Advance(v, true));
    run := [Advance(v, true)];
    Onward(s, run, s');
    assert s'.log == s.log + [Completed(v, i, k)];
  }

  /** One step of a delivery inside its lock that does not complete it. */
  lemma InnerStep(s: State, v: TaskId)
    requires Grounded(s, v) && CanAdvance(s, v) && (s.tasks[v].phase.WaitTurn? || s.tasks[v].phase.AtLoadContext?)
    ensures Enabled(s, Advance(v, true))
    ensures var s', o := Step(s, Advance(v, true)), s.tasks[v].phase.obj;
            && var next := if s.tasks[v].phase.WaitTurn? then AtLoadContext(o) else InTurn(o);
            && s'.tasks == s.tasks[v := s.tasks[v].(phase := next)]
            && s'.log == s.log && s'.runners == s.runners && s'.objs.Keys == s.objs.Keys
  {
  }

  lemma LoadedCompletes(s: State, v: TaskId, i: InstanceId, k: Key) returns (run: seq<Action>, s': State)
    requires Reachable(s) && v in s.tasks && Of(s.tasks[v], i, k) && s.tasks[v].phase.AtLoadContext?
    ensures Calmly(s, run, s') && Done(s, s', v, i, k)
  {
    Footing(s, v);
    InnerStep(s, v);
    var s1 := Step(s, Advance(v, true));
    CalmOne(s, Advance(v, true));
    Onward(s, [Advance(v, true)], s1);
    run, s' := TurnCompletes(s1, v, i, k);
    CalmChain(s, [Advance(v, true)], s1, run, s');
    run := [Advance(v, true)] + run;
  }

  /** ... seen by a coroutine that waits for a turn. */
  ghost predicate DoneBeside(s: State, s': State, v: TaskId, i: InstanceId, k: Key) {
    && Reachable(s') && s.log <= s'.log && Completed(v, i, k) in s'.log
    && (forall t <- s.tasks :: t != v && !InInstanceLock(s.tasks[t].phase) ==>
        t in s'.tasks && s'.tasks[t] == s.tasks[t])
  }

  lemma EnterLock(s: State, v: TaskId) returns (run: seq<Action>, s': State)
    requires Reachable(s) && v in s.tasks && s.tasks[v].phase.WaitTurn?
    ensures Calmly(s, run, s') && Reachable(s') && s.log <= s'.log
    ensures v in s'.tasks && s'.tasks[v] == s.tasks[v].(phase := AtLoadContext(s.tasks[v].phase.obj))
    ensures forall t <- s.tasks :: t != v && !InInstanceLock(s.tasks[t].phase) ==>
            t in s'.tasks && s'.tasks[t] == s.tasks[t]
  {
    Footing(s, v);
    var free, s1 := FreeLock(s, s.tasks[v].phase.obj);
    assert s1.tasks[v] == s.tasks[v];
    s' := TakeLock(s1, v);
    CalmChain(s, free, s1, [Advance(v, true)], s');
    run := free + [Advance(v, true)];
  }

  lemma TakeLock(s: State, v: TaskId) returns (s': State)
    requires Reachable(s) && v in s.tasks && s.tasks[v].phase.WaitTurn?
    requires s.tasks[v].phase.obj in s.objs ==> s.objs[s.tasks[v].phase.obj].lock.None?
    ensures Calmly(s, [Advance(v, true)], s') && Reachable(s') && s'.log == s.log
    ensures s'.tasks == s.tasks[v := s.tasks[v].(phase := AtLoadContext(s.tasks[v].phase.obj))]
  {
    Footing(s, v);
    InnerStep(s, v);
    s' := Step(s, Advance(v, true));
    CalmOne(s, Advance(v, true));
    Onward(s, [Advance(v, true)], s');
  }

  lemma WaitingCompletes(s: State, v: TaskId, i: InstanceId, k: Key) returns (run: seq<Action>, s': State)
    requires Reachable(s) && v in s.tasks && Of(s.tasks[v], i, k) && s.tasks[v].phase.WaitTurn?
    ensures Calmly(s, run, s') && DoneBeside(s, s', v, i, k)
  {
    var enter, s1 := EnterLock(s, v);
    run, s' := LoadedCompletes(s1, v, i, k);
    CalmChain(s, enter, s1, run, s');
    run := enter + run;
  }

  lemma ReachableDedup(s: State)
    requires Reachable(s)
    ensures Dedup(s)
  {
    var s0, run :| Init(s0) && Reaches(s0, run, s);
    StructureInit(s0);
    RunDedups(s0, run);
  }

  lemma CompletedInLog(s: State, v: TaskId)
    requires Reachable(s) && v in s.tasks && s.tasks[v].job.EventJob? && s.tasks[v].phase.AtMark?
    ensures Completed(v, s.tasks[v].inst, s.tasks[v].job.key) in s.log
  {
    ReachableDedup(s);
    assert PhaseBacked(s, v);
  }

  /** A live delivery can complete, if it has not. */
  lemma LiveCompletes(s: State, v: TaskId, i: InstanceId, k: Key) returns (run: seq<Action>, s': State)
    requires Reachable(s) && v in s.tasks && Live(s.tasks[v], i, k)
    ensures Calmly(s, run, s') && DoneBeside(s, s', v, i, k)
  {
    var p := s.tasks[v].phase;
    if p.AtMark? {
      CompletedInLog(s, v);
      run, s' := [], s;
    } else if p.InTurn? {
      run, s' := TurnCompletes(s, v, i, k);
    } else if p.AtLoadContext? {
      run, s' := LoadedCompletes(s, v, i, k);
    } else {
      run, s' := WaitingCompletes(s, v, i, k);
    }
  }

  lemma TwoCompletions(log: seq<Entry>, u: TaskId, v: TaskId, i: InstanceId, k: Key)
    requires u != v && Completed(u, i, k) in log && Completed(v, i, k) in log
    ensures !AtMostOnce(log, i, k)
  {
    var m :| 0 <= m < |log| && log[m] == Completed(u, i, k);
    var n :| 0 <= n < |log| && log[n] == Completed(v, i, k);
    assert Completes(log[m], i, k) && Completes(log[n], i, k);
    assert m < n || n < m;
  }

  /** Whenever two deliveries of a key are live, both can complete, wherever they stand. */
  lemma BothComplete(s: State, u: TaskId, v: TaskId, i: InstanceId, k: Key) returns (more: seq<Action>)
    requires Reachable(s) && u != v && u in s.tasks && v in s.tasks
    requires Live(s.tasks[v], i, k) && Of(s.tasks[u], i, k) && s.tasks[u].phase.WaitTurn?
    ensures ValidRun(s, more) && Calm(s, more) && !AtMostOnce(Exec(s, more).log, i, k)
  {
    var first, s1 := LiveCompletes(s, v, i, k);
    var second, s2 := WaitingCompletes(s1, u, i, k);
    CalmChain(s, first, s1, second, s2);
    more := first + second;
    assert Completed(v, i, k) in s2.log;
    TwoCompletions(s2.log, u, v, i, k);
  }

  ghost predicate AlwaysOnce(s: State, i: InstanceId, k: Key) {
    forall more :: ValidRun(s, more) && CleanRun(s, more, i, k) ==> AtMostOnce(Exec(s, more).log, i, k)
  }

  lemma StaysOnce(s: State, i: InstanceId, k: Key)
    requires Structure(s) && Dedup(s) && Once(s, i, k)
    ensures AlwaysOnce(s, i, k)
  {
    forall more | ValidRun(s, more) && CleanRun(s, more, i, k)
      ensures AtMostOnce(Exec(s, more).log, i, k)
    {
      RunOnce(s, more, i, k);
    }
  }

  /** For acceptance the condition is exact: after any clean run, accepting a delivery while
      another of its key is live is the same as opening the way to a second completion. */
  lemma AcceptExactly(s0: State, run: seq<Action>, t: TaskId, good: bool, i: InstanceId, k: Key)
    requires Init(s0) && ValidRun(s0, run) && CleanRun(s0, run, i, k)
    requires Enabled(Exec(s0, run), Advance(t, good)) && Accepts(Exec(s0, run), t, i, k)
    ensures var s := Exec(s0, run);
            !OtherLive(s, t, i, k) <==> AlwaysOnce(Step(s, Advance(t, good)), i, k)
  {
    var s := Exec(s0, run);
    if !OtherLive(s, t, i, k) {
      StructureInit(s0);
      RunOnce(s0, run, i, k);
      StructureStep(s, Advance(t, good));
      DedupStep(s, Advance(t, good));
      OnceStep(s, Advance(t, good), i, k);
      StaysOnce(Step(s, Advance(t, good)), i, k);
    } else {
      ReachableBy(s0, run);
      var v :| v in s.tasks && v != t && Live(s.tasks[v], i, k);
      SecondFollows(s, t, v, good, i, k);
    }
  }

  lemma SecondFollows(s: State, t: TaskId, v: TaskId, good: bool, i: InstanceId, k: Key)
    requires Reachable(s) && Enabled(s, Advance(t, good)) && Accepts(s, t, i, k)
    requires v in s.tasks && v != t && Live(s.tasks[v], i, k)
    ensures !AlwaysOnce(Step(s, Advance(t, good)), i, k)
  {
    var s' := Step(s, Advance(t, good));
    Footing(s, t);
    BeginEffect(s, t, good, i, k);
    OneStep(s, Advance(t, good));
    Onward(s, [Advance(t, good)], s');
    assert s'.tasks[v] == s.tasks[v];
    var more := BothComplete(s', t, v, i, k);
    CalmIsClean(s', more, i, k);
  }

  /** A delivery to a listed instance is accepted at once. */
  lemma ListedToBegin(s: State, w: TaskId, r: RunnerId, i: InstanceId, k: Key, o: ObjId)
    requires w !in s.tasks && r in s.runners && i in s.runners[r].instances && s.runners[r].instances[i] == o
    ensures Reaches(s, [Spawn(w, r, i, EventJob(k, true)), Advance(w, true)],
                    Born(s, w, r, i, EventJob(k, true), AtBegin(o)))
  {
    TwoSteps(s, Spawn(w, r, i, EventJob(k, true)), Advance(w, true));
  }

  lemma DeliverAgain(s: State, w: TaskId, r: RunnerId, i: InstanceId, k: Key, o: ObjId)
    returns (run: seq<Action>, s': State)
    requires w !in s.tasks && r in s.runners && i in s.runners[r].instances && s.runners[r].instances[i] == o
             && o in s.objs
    requires !Processed(s.journal, i, k)
    ensures Reaches(s, run, s') && s'.tasks == s.tasks[w := Task(r, i, EventJob(k, true), WaitTurn(o))]
    ensures s'.log == s.log + [Accepted(w, i, k)] && s'.runners == s.runners && s'.objs == s.objs
    ensures !Processed(s'.journal, i, k)
  {
    var s1 := Born(s, w, r, i, EventJob(k, true), AtBegin(o));
    ListedToBegin(s, w, r, i, k, o);
    s' := Step(s1, Advance(w, true));
    OneStep(s1, Advance(w, true));
    Chain(s, [Spawn(w, r, i, EventJob(k, true)), Advance(w, true)], s1, [Advance(w, true)], s');
    run := [Spawn(w, r, i, EventJob(k, true)), Advance(w, true)] + [Advance(w, true)];
  }

  lemma IntoTurn(s: State, t: TaskId, o: ObjId)
    requires Known(s, t) && s.tasks[t].phase == WaitTurn(o) && o in s.objs && s.objs[o].lock.None?
    ensures Reaches(s, [Advance(t, true), Advance(t, true)], Goto(SetLock(s, o, Some(t)), t, InTurn(o)))
  {
    var s1 := Step(s, Advance(t, true));
    assert s1 == Goto(SetLock(s, o, Some(t)), t, AtLoadContext(o));
    TwoSteps(s, Advance(t, true), Advance(t, true));
    assert Step(s1, Advance(t, true)) == Goto(SetLock(s, o, Some(t)), t, InTurn(o));
  }

  lemma ThroughMark(s: State, t: TaskId, o: ObjId, i: InstanceId, k: Key) returns (s': State)
    requires Known(s, t) && Of(s.tasks[t], i, k) && s.tasks[t].phase == InTurn(o) && o in s.objs
    ensures Reaches(s, [Advance(t, true), Advance(t, true)], s')
    ensures s'.tasks == s.tasks[t := s.tasks[t].(phase := TurnEnding(o))] && s'.objs == s.objs
            && s'.runners == s.runners
    ensures s'.log == s.log + [Completed(t, i, k), Marked(t, i, k)]
  {
    var s1 := Step(s, Advance(t, true));
    assert s1 == Goto(Note(s, Completed(t, i, k)), t, AtMark(o));
    s' := Step(s1, Advance(t, true));
    TwoSteps(s, Advance(t, true), Advance(t, true));
  }

  /** An undisturbed delivery runs from the lock to its mark and gives the lock back. */
  lemma EventTurn(s: State, t: TaskId, o: ObjId, i: InstanceId, k: Key) returns (run: seq<Action>, s': State)
    requires Known(s, t) && Of(s.tasks[t], i, k) && s.tasks[t].phase == WaitTurn(o) && o in s.objs
             && s.objs[o].lock.None?
    ensures Reaches(s, run, s') && s'.tasks == s.tasks[t := s.tasks[t].(phase := Finished)]
    ensures s'.log == s.log + [Completed(t, i, k), Marked(t, i, k)] && s'.objs == s.objs && s'.runners == s.runners
  {
    var go := Advance(t, true);
    var s1 := Goto(SetLock(s, o, Some(t)), t, InTurn(o));
    IntoTurn(s, t, o);
    var s2 := ThroughMark(s1, t, o, i, k);
    s' := Step(s2, go);
    OneStep(s2, go);
    Chain(s, [go, go], s1, [go, go], s2);
    Chain(s, [go, go] + [go, go], s2, [go], s');
    run := [go, go] + [go, go] + [go];
    assert s'.objs == s.objs;
  }

  /** Two deliveries of one key do complete: from every initial state with a slot and a
      claimable instance, the second when the first has marked the key as processed. */
  lemma SecondCompletionIsReachable(s0: State, r: RunnerId, i: InstanceId, k: Key) returns (run: seq<Action>)
    requires Init(s0) && r in s0.runners && s0.runners[r].slots > 0 && CanClaim(s0.rows, i, r)
    ensures ValidRun(s0, run)
    ensures Exec(s0, run).log ==
            [Claim(i, r), Accepted(0, i, k), Accepted(1, i, k), Completed(0, i, k), Marked(0, i, k),
             Completed(1, i, k), Marked(1, i, k)]
  {
    var o := s0.nextObj;
    var start, s1 := BothAccepted(s0, r, i, k);
    var first, s2 := EventTurn(s1, 0, o, i, k);
    var second, s3 := EventTurn(s2, 1, o, i, k);
    Chain(s0, start, s1, first, s2);
    Chain(s0, start + first, s2, second, s3);
    run := start + first + second;
  }

  lemma BothAccepted(s0: State, r: RunnerId, i: InstanceId, k: Key) returns (run: seq<Action>, s': State)
    requires Init(s0) && r in s0.runners && s0.runners[r].slots > 0 && CanClaim(s0.rows, i, r)
    ensures var o := s0.nextObj;
            && Reaches(s0, run, s') && r in s'.runners && o in s'.objs && s'.objs[o].lock.None?
            && s'.tasks == map[0 := Task(r, i, EventJob(k, true), WaitTurn(o)),
                               1 := Task(r, i, EventJob(k, true), WaitTurn(o))]
            && s'.log == [Claim(i, r), Accepted(0, i, k), Accepted(1, i, k)]
  {
    var o := s0.nextObj;
    run := NewToRaised(s0, 0, r, i, EventJob(k, true));
    var s1 := Fresh(s0, 0, r, i, EventJob(k, true));
    OneStep(s1, Advance(0, true));
    var s2 := Step(s1, Advance(0, true));
    assert s2.tasks == map[0 := Task(r, i, EventJob(k, true), WaitTurn(o))]
           && s2.log == [Claim(i, r), Accepted(0, i, k)];
    Chain(s0, run, s1, [Advance(0, true)], s2);
    run := run + [Advance(0, true)];
    var again;
    again, s' := DeliverAgain(s2, 1, r, i, k, o);
    Chain(s0, run, s2, again, s');
    run := run + again;
  }
}
