/**
 The runner's slot, claim and deduplication protocol as a transition system.

 Runners are cooperative: a coroutine runs undisturbed from one `await` to the next, so
 one `Step` is one such stretch, and a database statement is a step of its own.  Any
 number of runners and coroutines interleave freely; `Abort` is an exception or a
 cancellation arriving at the current await, after which the `finally` blocks run.
 */
module RunnerProtocol {
  import opened Common
  import opened HubStore

  type TaskId = nat
  type ObjId = nat

  datatype Job =
    | RaiseJob
    | EventJob(key: Key, hasCodeTarget: bool)
    | ChatJob
    | StopJob

  /** Where a coroutine is suspended; `obj` is the LocalInstance object it refers to. */
  datatype Phase =
    | Starting
    | AtSkipMark
    | AtPeek
    | PeekReturned(foreign: bool)
    | AtHandOff
    | WaitSlot
    | WaitRaiseLock                 // holds a permit
    | AtClaim                       // holds a permit and the raise lock
    | ClaimReturned(won: bool)      // holds a permit and the raise lock
    | AtBegin(obj: ObjId)
    | WaitTurn(obj: ObjId)
    | AtLoadContext(obj: ObjId)     // holds the instance lock, as do the next three
    | InTurn(obj: ObjId)
    | AtMark(obj: ObjId)
    | TurnEnding(obj: ObjId)
    | WaitStop(obj: ObjId)          // popped from the dictionary; owes a permit
    | AtRelease(obj: ObjId)         // owes a permit, holds the instance lock
    | ReleaseReturned(obj: ObjId)   // owes a permit, holds the instance lock
    | Finished

  datatype Task = Task(runner: RunnerId, inst: InstanceId, job: Job, phase: Phase)

  /** In-memory state of one runner process. */
  datatype Runner = Runner(
    slots: nat,
    free: nat,                            // the semaphore
    instances: map<InstanceId, ObjId>,
    raiseLock: Option<TaskId>,
    lost: nat)                            // permits a failed stop never returned

  /** A LocalInstance. */
  datatype Local = Local(inst: InstanceId, runner: RunnerId, lock: Option<TaskId>)

  /** History of what the protocol did; no step reads it. */
  datatype Entry =
    | Claim(inst: InstanceId, runner: RunnerId)
    | Release(inst: InstanceId, runner: RunnerId)
    | HubDown(inst: InstanceId)
    | Accepted(task: TaskId, inst: InstanceId, key: Key)    // begin_event said "process it"
    | Skipped(task: TaskId, inst: InstanceId, key: Key)     // same, for an event without a code target
    | Refused(task: TaskId, inst: InstanceId, key: Key)
    | HandedOff(task: TaskId)                               // the event is left to the row's holder
    | Completed(task: TaskId, inst: InstanceId, key: Key)   // the turn ran to its end
    | GaveUp(task: TaskId)                                  // cancelled, dropped or failed
    | Marked(task: TaskId, inst: InstanceId, key: Key)

  datatype State = State(
    runners: map<RunnerId, Runner>,
    objs: map<ObjId, Local>,
    nextObj: ObjId,
    tasks: map<TaskId, Task>,
    rows: Rows,
    journal: Journal,
    log: seq<Entry>)

  datatype Action =
    | Spawn(t: TaskId, r: RunnerId, i: InstanceId, job: Job)
    | Advance(t: TaskId, good: bool)  // `good` resolves what the runner does not decide
    | Abort(t: TaskId)
    | DownByHub(i: InstanceId)
    | NewRow(i: InstanceId)

  predicate Init(s: State) {
    && s.objs == map[] && s.tasks == map[] && s.journal == map[] && s.log == []
    && forall r <- s.runners ::
         var n := s.runners[r];
         n.free == n.slots && n.instances == map[] && n.raiseLock == None && n.lost == 0
  }

  // ---- what a phase holds -------------------------------------------------

  predicate RaisingWithPermit(p: Phase) { p.WaitRaiseLock? || p.AtClaim? || p.ClaimReturned? }
  predicate InRaiseLock(p: Phase) { p.AtClaim? || p.ClaimReturned? }
  predicate Stopping(p: Phase) { p.WaitStop? || p.AtRelease? || p.ReleaseReturned? }
  predicate HoldsPermit(p: Phase) { RaisingWithPermit(p) || Stopping(p) }
  predicate InInstanceLock(p: Phase) { OnTurn(p) || p.AtRelease? || p.ReleaseReturned? }
  predicate OnTurn(p: Phase) { p.AtLoadContext? || p.InTurn? || p.AtMark? || p.TurnEnding? }
  predicate HasObj(p: Phase) { p.AtBegin? || p.WaitTurn? || InInstanceLock(p) || p.WaitStop? }

  // ---- state updates ------------------------------------------------------

  function Goto(s: State, t: TaskId, p: Phase): State
    requires t in s.tasks
  {
    s.(tasks := s.tasks[t := s.tasks[t].(phase := p)])
  }

  function Note(s: State, e: Entry): State { s.(log := s.log + [e]) }

  function Me(s: State, t: TaskId): Runner
    requires Known(s, t)
  {
    s.runners[s.tasks[t].runner]
  }

  function SetMe(s: State, t: TaskId, n: Runner): State
    requires Known(s, t)
  {
    s.(runners := s.runners[s.tasks[t].runner := n])
  }

  function SetLock(s: State, o: ObjId, lock: Option<TaskId>): State
    requires o in s.objs
  {
    s.(objs := s.objs[o := s.objs[o].(lock := lock)])
  }

  predicate Known(s: State, t: TaskId) { t in s.tasks && s.tasks[t].runner in s.runners }

  // ---- enabledness --------------------------------------------------------

  predicate Enabled(s: State, a: Action) {
    match a
    case Spawn(t, r, _, _) => t !in s.tasks && r in s.runners
    case Advance(t, _) => Known(s, t) && CanAdvance(s, t)
    case Abort(t) => Known(s, t) && !s.tasks[t].phase.Finished? && ObjKnown(s, t)
    case DownByHub(i) => i in s.rows
    case NewRow(i) => i !in s.rows
  }

  predicate ObjKnown(s: State, t: TaskId)
    requires t in s.tasks
  {
    HasObj(s.tasks[t].phase) ==> s.tasks[t].phase.obj in s.objs
  }

  /** A step waits only for the semaphore or for a lock. */
  predicate CanAdvance(s: State, t: TaskId)
    requires Known(s, t)
  {
    && ObjKnown(s, t)
    && match s.tasks[t].phase
       case Finished => false
       case WaitSlot => Me(s, t).free > 0
       case WaitRaiseLock => Me(s, t).raiseLock.None?
       case WaitTurn(o) => s.objs[o].lock.None?
       case WaitStop(o) => s.objs[o].lock.None?
       case AtBegin(_) => s.tasks[t].job.EventJob?
       case AtSkipMark => s.tasks[t].job.EventJob?
       case AtMark(_) => s.tasks[t].job.EventJob?
       case _ => true
  }

  // ---- the steps ----------------------------------------------------------

  function Step(s: State, a: Action): State
    requires Enabled(s, a)
  {
    match a
    case Spawn(t, r, i, job) => s.(tasks := s.tasks[t := Task(r, i, job, Starting)])
    case Advance(t, good) => AdvanceTask(s, t, good)
    case Abort(t) => AbortTask(s, t)
    case DownByHub(i) => Note(s.(rows := s.rows[i := Down]), HubDown(i))
    case NewRow(i) => s.(rows := s.rows[i := Down])
  }

  function AdvanceTask(s: State, t: TaskId, good: bool): State
    requires Known(s, t) && CanAdvance(s, t)
  {
    var task := s.tasks[t];
    match task.phase
    case Starting => Start(s, t)
    case AtSkipMark => Goto(MarkDb(s, t), t, Finished)
    case AtPeek => Goto(s, t, PeekReturned(Foreign(s.rows, task.inst, task.runner)))
    case PeekReturned(foreign) => if foreign then Goto(s, t, AtHandOff) else EnterRaise(s, t)
    case AtHandOff => Goto(Note(s, HandedOff(t)), t, Finished)
    case WaitSlot =>
      var n := Me(s, t);
      Goto(SetMe(s, t, n.(free := n.free - 1)), t, WaitRaiseLock)
    case WaitRaiseLock => LockRaise(s, t)
    case AtClaim => ClaimDb(s, t)
    case ClaimReturned(won) => if won then Install(s, t) else Rejected(s, t)
    case AtBegin(o) => BeginDb(s, t, WaitTurn(o))
    case WaitTurn(o) => Goto(SetLock(s, o, Some(t)), t, AtLoadContext(o))
    case AtLoadContext(o) => if good then Goto(s, t, InTurn(o)) else Goto(Note(s, GaveUp(t)), t, TurnEnding(o))
    case InTurn(o) => EndTurn(s, t, o, good)
    case AtMark(o) => Goto(MarkDb(s, t), t, TurnEnding(o))
    case TurnEnding(o) => Goto(SetLock(s, o, None), t, Finished)
    case WaitStop(o) => Goto(SetLock(s, o, Some(t)), t, AtRelease(o))
    case AtRelease(o) => ReleaseDb(s, t, o)
    case ReleaseReturned(o) =>
      var n := Me(s, t);
      Goto(SetLock(SetMe(s, t, n.(free := n.free + 1)), o, None), t, Finished)
  }

  function Start(s: State, t: TaskId): State
    requires Known(s, t)
  {
    var task := s.tasks[t];
    match task.job
    case RaiseJob => EnterRaise(s, t)
    case ChatJob => EnterRaise(s, t)
    case EventJob(_, hasCodeTarget) =>
      if !hasCodeTarget then BeginDb(s, t, AtSkipMark)
      else if task.inst in Me(s, t).instances then EnterRaise(s, t)
      else Goto(s, t, AtPeek)
    case StopJob => Pop(s, t)
  }

  /** `_raise` up to the semaphore. */
  function EnterRaise(s: State, t: TaskId): State
    requires Known(s, t)
  {
    var task := s.tasks[t];
    if task.inst in Me(s, t).instances
    then Goto(s, t, AfterRaise(task.job, Me(s, t).instances[task.inst]))
    else Goto(s, t, WaitSlot)
  }

  function AfterRaise(job: Job, o: ObjId): Phase {
    match job
    case EventJob(_, _) => AtBegin(o)
    case ChatJob => WaitTurn(o)
    case _ => Finished
  }

  /** Under the raise lock: somebody else may have raised it while we waited for the slot. */
  function LockRaise(s: State, t: TaskId): State
    requires Known(s, t)
  {
    var task, n := s.tasks[t], Me(s, t);
    if task.inst in n.instances
    then Goto(SetMe(s, t, n.(free := n.free + 1)), t, AfterRaise(task.job, n.instances[task.inst]))
    else Goto(SetMe(s, t, n.(raiseLock := Some(t))), t, AtClaim)
  }

  function ClaimDb(s: State, t: TaskId): State
    requires Known(s, t)
  {
    var task := s.tasks[t];
    var won := CanClaim(s.rows, task.inst, task.runner);
    var s1 := Goto(s.(rows := ClaimRow(s.rows, task.inst, task.runner)), t, ClaimReturned(won));
    if won then Note(s1, Claim(task.inst, task.runner)) else s1
  }

  /** The permit moves from the coroutine to the new dictionary entry. */
  function Install(s: State, t: TaskId): State
    requires Known(s, t)
  {
    var task, n, o := s.tasks[t], Me(s, t), s.nextObj;
    var s1 := SetMe(s, t, n.(instances := n.instances[task.inst := o], raiseLock := None));
    Goto(s1.(objs := s1.objs[o := Local(task.inst, task.runner, None)], nextObj := o + 1),
         t, AfterRaise(task.job, o))
  }

  function Rejected(s: State, t: TaskId): State
    requires Known(s, t)
  {
    var n := Me(s, t);
    Goto(SetMe(s, t, n.(free := n.free + 1, raiseLock := None)), t,
         if s.tasks[t].job.EventJob? then AtHandOff else Finished)
  }

  function BeginDb(s: State, t: TaskId, next: Phase): State
    requires Known(s, t) && s.tasks[t].job.EventJob?
  {
    var task := s.tasks[t];
    var i, k := task.inst, task.job.key;
    if Processed(s.journal, i, k)
    then Goto(Note(s, Refused(t, i, k)), t, Finished)
    else
      Goto(Note(s.(journal := BeginRow(s.journal, i, k)),
                if next.AtSkipMark? then Skipped(t, i, k) else Accepted(t, i, k)),
           t, next)
  }

  function MarkDb(s: State, t: TaskId): State
    requires Known(s, t) && s.tasks[t].job.EventJob?
  {
    var i, k := s.tasks[t].inst, s.tasks[t].job.key;
    Note(s.(journal := MarkRow(s.journal, i, k)), Marked(t, i, k))
  }

  /** Only a completed event turn goes on to mark its delivery. */
  function EndTurn(s: State, t: TaskId, o: ObjId, completed: bool): State
    requires Known(s, t)
  {
    var task := s.tasks[t];
    if !completed then Goto(Note(s, GaveUp(t)), t, TurnEnding(o))
    else if task.job.EventJob? then Goto(Note(s, Completed(t, task.inst, task.job.key)), t, AtMark(o))
    else Goto(s, t, TurnEnding(o))
  }

  /** `stop_instance` pops before its first await. */
  function Pop(s: State, t: TaskId): State
    requires Known(s, t)
  {
    var task, n := s.tasks[t], Me(s, t);
    if task.inst in n.instances
    then Goto(SetMe(s, t, n.(instances := n.instances - {task.inst})), t, WaitStop(n.instances[task.inst]))
    else Goto(s, t, Finished)
  }

  function ReleaseDb(s: State, t: TaskId, o: ObjId): State
    requires Known(s, t)
  {
    var task := s.tasks[t];
    var s1 := Goto(s.(rows := ReleaseRow(s.rows, task.inst, task.runner)), t, ReleaseReturned(o));
    if CanRelease(s.rows, task.inst, task.runner) then Note(s1, Release(task.inst, task.runner)) else s1
  }

  /** What the `finally` blocks and lock exits give back. */
  function AbortTask(s: State, t: TaskId): State
    requires Known(s, t) && ObjKnown(s, t)
  {
    var n, p := Me(s, t), s.tasks[t].phase;
    var n1 :=
      if InRaiseLock(p) then n.(free := n.free + 1, raiseLock := None)
      else if p.WaitRaiseLock? then n.(free := n.free + 1)
      else if Stopping(p) then n.(lost := n.lost + 1)
      else n;
    var s1 := SetMe(s, t, n1);
    var s2 := if InInstanceLock(p) then SetLock(s1, p.obj, None) else s1;
    Goto(Note(s2, GaveUp(t)), t, Finished)
  }

  // ---- runs ---------------------------------------------------------------

  /** Every action of the run is enabled where it is taken. */
  predicate ValidRun(s: State, run: seq<Action>)
    decreases |run|
  {
    |run| == 0 || (Enabled(s, run[0]) && ValidRun(Step(s, run[0]), run[1..]))
  }

  function Exec(s: State, run: seq<Action>): State
    requires ValidRun(s, run)
    decreases |run|
  {
    if |run| == 0 then s else Exec(Step(s, run[0]), run[1..])
  }
}
