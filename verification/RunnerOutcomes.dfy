/**
 What becomes of every coroutine: in every run, one that is over did the job it was started
 for, met a row that somebody else holds, or gave up.
 */
module RunnerOutcomes {
  import opened Common
  import opened HubStore
  import opened RunnerProtocol
  import opened RunnerInvariants
  import opened RunnerHistory
  import RunnerRuns

  // ---- deliveries, read off the history ------------------------------------

  /** The runner took the delivery on. */
  ghost predicate Taken(log: seq<Entry>, t: TaskId, i: InstanceId, k: Key) {
    Accepted(t, i, k) in log || Skipped(t, i, k) in log || Completed(t, i, k) in log
  }

  ghost predicate Resolved(log: seq<Entry>, t: TaskId, i: InstanceId, k: Key) {
    Marked(t, i, k) in log || GaveUp(t) in log
  }

  /** A delivery taken on is under way until it is marked or given up, and no delivery ends
      without a word. */
  ghost predicate Accounted(s: State, t: TaskId)
    requires t in s.tasks
  {
    var task := s.tasks[t];
    task.job.EventJob? ==>
      var i, k, p := task.inst, task.job.key, task.phase;
      && (Taken(s.log, t, i, k) ==> (Underway(p) && !p.TurnEnding?) || Resolved(s.log, t, i, k))
      && (p.TurnEnding? ==> Resolved(s.log, t, i, k))
      && (p.Finished? ==> Resolved(s.log, t, i, k) || Refused(t, i, k) in s.log || HandedOff(t) in s.log)
  }

  predicate OfDelivery(e: Entry) { e.Accepted? || e.Skipped? || e.Completed? }

  ghost predicate Accounts(s: State) {
    && (forall t <- s.tasks :: Accounted(s, t))
    && (forall e <- s.log :: OfDelivery(e) ==> e.task in s.tasks)
  }

  /** At most one entry more, and it speaks of the coroutine that moved. */
  ghost predicate OneEntry(s: State, s': State, t: TaskId) {
    && t in s.tasks && t in s'.tasks && s'.tasks == s.tasks[t := s.tasks[t].(phase := s'.tasks[t].phase)]
    && (s'.log == s.log
        || (exists e :: s'.log == s.log + [e] && (OfDelivery(e) || e.GaveUp? ==> e.task == t)))
  }

  lemma Appended(s: State, s': State, e: Entry)
    requires s'.log == s.log + [e]
    ensures forall x :: x in s'.log <==> x in s.log || x == e
  {
  }

  lemma SilentAccounts(s: State, t: TaskId, good: bool)
    requires Grounded(s, t) && CanAdvance(s, t) && Accounted(s, t) && Silent(s.tasks[t].job, s.tasks[t].phase)
    ensures OneEntry(s, AdvanceTask(s, t, good), t) && Accounted(AdvanceTask(s, t, good), t)
  {
    SilentAdvance(s, t, good);
    if s.tasks[t].job.EventJob? {
      SilentEnds(s, t, good);
    }
  }

  /** Without a word in the history no delivery is over. */
  lemma SilentEnds(s: State, t: TaskId, good: bool)
    requires Grounded(s, t) && CanAdvance(s, t) && Silent(s.tasks[t].job, s.tasks[t].phase)
    requires s.tasks[t].job.EventJob?
    ensures AdvanceTask(s, t, good).tasks[t].phase.Finished? ==> s.tasks[t].phase.TurnEnding?
  {
    if s.tasks[t].phase.WaitRaiseLock? || s.tasks[t].phase.ClaimReturned? {
      RaiseGoesOn(s, t, good);
    }
  }

  lemma RaiseGoesOn(s: State, t: TaskId, good: bool)
    requires Grounded(s, t) && CanAdvance(s, t) && s.tasks[t].job.EventJob?
    requires s.tasks[t].phase.WaitRaiseLock? || s.tasks[t].phase.ClaimReturned?
    ensures !AdvanceTask(s, t, good).tasks[t].phase.Finished?
  {
  }

  /** The database steps and the turn's own. */
  lemma LoudAccounts(s: State, t: TaskId, good: bool)
    requires Grounded(s, t) && CanAdvance(s, t) && Accounted(s, t) && !Silent(s.tasks[t].job, s.tasks[t].phase)
    ensures OneEntry(s, AdvanceTask(s, t, good), t) && Accounted(AdvanceTask(s, t, good), t)
  {
    var p := s.tasks[t].phase;
    if p.AtClaim? || p.AtRelease? {
      RowAccounts(s, t, good);
    } else if p.AtLoadContext? || p.InTurn? || p.AtMark? {
      TurnAccounts(s, t, good);
    } else if p.AtSkipMark? || p.AtHandOff? {
      EndAccounts(s, t, good);
    } else {
      BeginAccounts(s, t, good);
    }
  }

  lemma RowAccounts(s: State, t: TaskId, good: bool)
    requires Grounded(s, t) && CanAdvance(s, t) && Accounted(s, t)
    requires s.tasks[t].phase.AtClaim? || s.tasks[t].phase.AtRelease?
    ensures OneEntry(s, AdvanceTask(s, t, good), t) && Accounted(AdvanceTask(s, t, good), t)
  {
    var s' := AdvanceTask(s, t, good);
    if s'.log != s.log {
      Appended(s, s', s'.log[|s.log|]);
    }
  }

  lemma TurnAccounts(s: State, t: TaskId, good: bool)
    requires Grounded(s, t) && CanAdvance(s, t) && Accounted(s, t)
    requires s.tasks[t].phase.AtLoadContext? || s.tasks[t].phase.InTurn? || s.tasks[t].phase.AtMark?
    ensures OneEntry(s, AdvanceTask(s, t, good), t) && Accounted(AdvanceTask(s, t, good), t)
  {
    var s' := AdvanceTask(s, t, good);
    if s'.log != s.log {
      Appended(s, s', s'.log[|s.log|]);
    }
  }

  lemma EndAccounts(s: State, t: TaskId, good: bool)
    requires Grounded(s, t) && CanAdvance(s, t) && Accounted(s, t)
    requires s.tasks[t].phase.AtSkipMark? || s.tasks[t].phase.AtHandOff?
    ensures OneEntry(s, AdvanceTask(s, t, good), t) && Accounted(AdvanceTask(s, t, good), t)
  {
    var s' := AdvanceTask(s, t, good);
    Appended(s, s', s'.log[|s.log|]);
  }

  lemma BeginAccounts(s: State, t: TaskId, good: bool)
    requires Grounded(s, t) && CanAdvance(s, t) && Accounted(s, t) && s.tasks[t].job.EventJob?
    requires s.tasks[t].phase.AtBegin? || (s.tasks[t].phase.Starting? && !s.tasks[t].job.hasCodeTarget)
    ensures OneEntry(s, AdvanceTask(s, t, good), t) && Accounted(AdvanceTask(s, t, good), t)
  {
    var s' := AdvanceTask(s, t, good);
    Appended(s, s', s'.log[|s.log|]);
  }

  lemma OthersAccounted(s: State, s': State, t: TaskId)
    requires Accounts(s) && OneEntry(s, s', t) && Accounted(s', t)
    ensures Accounts(s')
  {
    if s'.log != s.log {
      var e :| s'.log == s.log + [e] && (OfDelivery(e) || e.GaveUp? ==> e.task == t);
      Appended(s, s', e);
    }
    forall u <- s'.tasks
      ensures Accounted(s', u)
    {
      assert u != t ==> Accounted(s, u);
    }
  }

  lemma AccountsStep(s: State, a: Action)
    requires Structure(s) && Accounts(s) && Enabled(s, a)
    ensures Accounts(Step(s, a))
  {
    match a
    case Advance(t, good) =>
      Ground(s, t);
      if Silent(s.tasks[t].job, s.tasks[t].phase) {
        SilentAccounts(s, t, good);
      } else {
        LoudAccounts(s, t, good);
      }
      OthersAccounted(s, AdvanceTask(s, t, good), t);
    case Abort(t) =>
      AbortEntry(s, t);
      OthersAccounted(s, AbortTask(s, t), t);
    case DownByHub(i) => Appended(s, Step(s, a), HubDown(i));
    case _ =>
  }

  lemma {:induction false} RunAccounts(s: State, run: seq<Action>)
    requires Structure(s) && Accounts(s) && ValidRun(s, run)
    ensures Accounts(Exec(s, run))
    decreases |run|
  {
    if |run| > 0 {
      StructureStep(s, run[0]);
      AccountsStep(s, run[0]);
      RunAccounts(Step(s, run[0]), run[1..]);
    }
  }

  /** In every run: a delivery that was accepted, skipped or completed, and whose coroutine is
      over, has its mark, unless it gave up. */
  lemma TakenIsMarked(s0: State, run: seq<Action>, t: TaskId)
    requires Init(s0) && ValidRun(s0, run)
    requires t in Exec(s0, run).tasks && Exec(s0, run).tasks[t].phase.Finished?
    requires Exec(s0, run).tasks[t].job.EventJob?
    ensures var s := Exec(s0, run);
            var i, k := s.tasks[t].inst, s.tasks[t].job.key;
            Accepted(t, i, k) in s.log || Skipped(t, i, k) in s.log || Completed(t, i, k) in s.log ==>
              Marked(t, i, k) in s.log || GaveUp(t) in s.log
  {
    StructureInit(s0);
    RunAccounts(s0, run);
    assert Accounted(Exec(s0, run), t);
  }

  // ---- every coroutine -----------------------------------------------------

  /** Some state of the run is such. */
  ghost predicate Sometime(s: State, run: seq<Action>, p: State -> bool)
    requires ValidRun(s, run)
    decreases |run|
  {
    p(s) || (|run| > 0 && Sometime(Step(s, run[0]), run[1..], p))
  }

  predicate MetForeign(s: State, t: TaskId) {
    t in s.tasks && Foreign(s.rows, s.tasks[t].inst, s.tasks[t].runner)
  }

  predicate SawListed(s: State, t: TaskId) {
    Known(s, t) && s.tasks[t].inst in Me(s, t).instances
  }

  predicate WasInTurn(s: State, t: TaskId) { t in s.tasks && s.tasks[t].phase.InTurn? }

  /** A stop found nothing to stop, or has just seen that its runner no longer holds the row. */
  predicate SawStopped(s: State, t: TaskId) {
    || (Known(s, t) && s.tasks[t].phase.Starting? && s.tasks[t].inst !in Me(s, t).instances)
    || (t in s.tasks && s.tasks[t].phase.ReleaseReturned? && !CanRelease(s.rows, s.tasks[t].inst, s.tasks[t].runner))
  }

  /** Past the moment that settles the job. */
  ghost predicate Beyond(s: State, t: TaskId) {
    && t in s.tasks
    && var i, p := s.tasks[t].inst, s.tasks[t].phase;
       match s.tasks[t].job
       case EventJob(k, _) =>
         || p == PeekReturned(true) || p == ClaimReturned(false) || p.AtHandOff?
         || (p.Finished? && !Resolved(s.log, t, i, k) && Refused(t, i, k) !in s.log)
       case ChatJob => p == ClaimReturned(false) || ((p.TurnEnding? || p.Finished?) && GaveUp(t) !in s.log)
       case RaiseJob => p == ClaimReturned(false) || (p.Finished? && GaveUp(t) !in s.log)
       case StopJob => p.ReleaseReturned? || (p.Finished? && GaveUp(t) !in s.log)
  }

  /** What that moment shows of a coroutine with this job. */
  predicate Reason(s: State, t: TaskId, job: Job) {
    match job
    case EventJob(_, _) => MetForeign(s, t)
    case ChatJob => WasInTurn(s, t) || MetForeign(s, t)
    case RaiseJob => SawListed(s, t) || MetForeign(s, t)
    case StopJob => SawStopped(s, t)
  }

  lemma SilentReason(s: State, t: TaskId, good: bool)
    requires Grounded(s, t) && CanAdvance(s, t) && Accounted(s, t) && Silent(s.tasks[t].job, s.tasks[t].phase)
    requires !Beyond(s, t) && Beyond(AdvanceTask(s, t, good), t)
    ensures Reason(s, t, s.tasks[t].job) || Reason(AdvanceTask(s, t, good), t, s.tasks[t].job)
  {
    SilentAdvance(s, t, good);
    if s.tasks[t].job.EventJob? {
      SilentEnds(s, t, good);
    }
  }

  lemma LoudReason(s: State, t: TaskId, good: bool)
    requires Grounded(s, t) && CanAdvance(s, t) && Accounted(s, t) && !Silent(s.tasks[t].job, s.tasks[t].phase)
    requires !Beyond(s, t) && Beyond(AdvanceTask(s, t, good), t)
    ensures Reason(s, t, s.tasks[t].job) || Reason(AdvanceTask(s, t, good), t, s.tasks[t].job)
  {
    LoudAccounts(s, t, good);
    var s' := AdvanceTask(s, t, good);
    if s'.log != s.log {
      Appended(s, s', s'.log[|s.log|]);
    }
  }

  lemma ReasonStep(s: State, a: Action, t: TaskId)
    requires Structure(s) && Accounts(s) && Enabled(s, a)
    requires !Beyond(s, t) && Beyond(Step(s, a), t)
    ensures t in s.tasks && (Reason(s, t, s.tasks[t].job) || Reason(Step(s, a), t, s.tasks[t].job))
  {
    if a.Advance? && a.t == t {
      Ground(s, t);
      assert Accounted(s, t);
      if Silent(s.tasks[t].job, s.tasks[t].phase) {
        SilentReason(s, t, a.good);
      } else {
        LoudReason(s, t, a.good);
      }
    } else {
      OtherNotBeyond(s, a, t);
      assert false;
    }
  }

  lemma OtherNotBeyond(s: State, a: Action, t: TaskId)
    requires Structure(s) && Accounts(s) && Enabled(s, a) && (a.Advance? ==> a.t != t)
    ensures Beyond(Step(s, a), t) ==> Beyond(s, t)
  {
    match a
    case Advance(u, good) =>
      AdvanceEntry(s, u, good);
      EntryNotBeyond(s, AdvanceTask(s, u, good), u, t);
    case Abort(u) =>
      AbortEntry(s, u);
      if u != t {
        EntryNotBeyond(s, AbortTask(s, u), u, t);
      }
    case DownByHub(i) => Appended(s, Step(s, a), HubDown(i));
    case _ =>
  }

  lemma EntryNotBeyond(s: State, s': State, u: TaskId, t: TaskId)
    requires OneEntry(s, s', u) && u != t && forall e :: e in s.log ==> e in s'.log
    ensures Beyond(s', t) ==> Beyond(s, t)
  {
    if s'.log != s.log {
      var e :| s'.log == s.log + [e] && (OfDelivery(e) || e.GaveUp? ==> e.task == u);
      Appended(s, s', e);
    }
  }

  lemma AbortEntry(s: State, t: TaskId)
    requires Known(s, t) && ObjKnown(s, t)
    ensures OneEntry(s, AbortTask(s, t), t) && AbortTask(s, t).tasks[t].phase.Finished?
    ensures forall e :: e in AbortTask(s, t).log <==> e in s.log || e == GaveUp(t)
  {
    Appended(s, AbortTask(s, t), GaveUp(t));
  }

  lemma AdvanceEntry(s: State, u: TaskId, good: bool)
    requires Structure(s) && Accounts(s) && Known(s, u) && CanAdvance(s, u)
    ensures OneEntry(s, AdvanceTask(s, u, good), u)
    ensures forall e :: e in s.log ==> e in AdvanceTask(s, u, good).log
  {
    Ground(s, u);
    assert Accounted(s, u);
    if Silent(s.tasks[u].job, s.tasks[u].phase) {
      SilentAccounts(s, u, good);
    } else {
      LoudAccounts(s, u, good);
    }
    var s' := AdvanceTask(s, u, good);
    if s'.log != s.log {
      var e :| s'.log == s.log + [e];
      Appended(s, s', e);
    }
  }

  /** The job of a coroutine does not change. */
  lemma JobStays(s: State, a: Action, t: TaskId)
    requires Structure(s) && Accounts(s) && Enabled(s, a) && t in s.tasks
    ensures t in Step(s, a).tasks && Step(s, a).tasks[t].job == s.tasks[t].job
  {
    match a
    case Advance(u, good) => AdvanceEntry(s, u, good);
    case _ =>
  }

  lemma {:induction false} JobsStay(s: State, run: seq<Action>, t: TaskId)
    requires Structure(s) && Accounts(s) && ValidRun(s, run) && t in s.tasks
    ensures t in Exec(s, run).tasks && Exec(s, run).tasks[t].job == s.tasks[t].job
    decreases |run|
  {
    if |run| > 0 {
      StructureStep(s, run[0]);
      AccountsStep(s, run[0]);
      JobStays(s, run[0], t);
      JobsStay(Step(s, run[0]), run[1..], t);
    }
  }

  lemma {:induction false} ReasonAppears(s: State, run: seq<Action>, t: TaskId)
    requires Structure(s) && Accounts(s) && ValidRun(s, run)
    requires !Beyond(s, t) && Beyond(Exec(s, run), t)
    ensures var job := Exec(s, run).tasks[t].job; Sometime(s, run, st => Reason(st, t, job))
    decreases |run|
  {
    if |run| > 0 {
      var a, s1 := run[0], Step(s, run[0]);
      StructureStep(s, a);
      AccountsStep(s, a);
      if Beyond(s1, t) {
        ReasonStep(s, a, t);
        JobsStay(s, run, t);
        assert Sometime(s1, run[1..], st => Reason(st, t, s.tasks[t].job)) || Reason(s, t, s.tasks[t].job);
      } else {
        ReasonAppears(s1, run[1..], t);
      }
    }
  }

  lemma {:induction false} Either(s: State, run: seq<Action>, p: State -> bool, q: State -> bool, r: State -> bool)
    requires ValidRun(s, run) && Sometime(s, run, p) && forall st :: p(st) ==> q(st) || r(st)
    ensures Sometime(s, run, q) || Sometime(s, run, r)
    decreases |run|
  {
    if !p(s) {
      Either(Step(s, run[0]), run[1..], p, q, r);
    }
  }

  /** In every run: a coroutine that is over and did not give up did its job.  A delivery was
      marked, or refused as processed, or, with a code target, handed off after the row was seen
      in other hands; a chat had its turn; a raise found its instance in the dictionary; and
      the last two fail only at a row in other hands.  A stop found nothing to stop, or saw its
      row released. */
  lemma JobDone(s0: State, run: seq<Action>, t: TaskId)
    requires Init(s0) && ValidRun(s0, run)
    requires t in Exec(s0, run).tasks && Exec(s0, run).tasks[t].phase.Finished?
    requires GaveUp(t) !in Exec(s0, run).log || (Abort(t) !in run && Advance(t, false) !in run)
    ensures var log, task := Exec(s0, run).log, Exec(s0, run).tasks[t];
            match task.job
            case EventJob(k, _) =>
              || Marked(t, task.inst, k) in log
              || Refused(t, task.inst, k) in log
              || (HandedOff(t) in log && !Taken(log, t, task.inst, k) && Sometime(s0, run, st => MetForeign(st, t)))
            case ChatJob => Sometime(s0, run, st => WasInTurn(st, t)) || Sometime(s0, run, st => MetForeign(st, t))
            case RaiseJob => Sometime(s0, run, st => SawListed(st, t)) || Sometime(s0, run, st => MetForeign(st, t))
            case StopJob => Sometime(s0, run, st => SawStopped(st, t))
  {
    StructureInit(s0);
    RunAccounts(s0, run);
    var s := Exec(s0, run);
    assert Accounted(s, t);
    if GaveUp(t) in s.log {
      GaveUpOnlyIfCut(s0, run, t);
      assert false;
    }
    if Beyond(s, t) {
      ReasonAppears(s0, run, t);
      SplitReason(s0, run, t, s.tasks[t].job);
    }
  }

  lemma SplitReason(s: State, run: seq<Action>, t: TaskId, job: Job)
    requires ValidRun(s, run) && Sometime(s, run, st => Reason(st, t, job))
    ensures match job
            case EventJob(_, _) => Sometime(s, run, st => MetForeign(st, t))
            case ChatJob => Sometime(s, run, st => WasInTurn(st, t)) || Sometime(s, run, st => MetForeign(st, t))
            case RaiseJob => Sometime(s, run, st => SawListed(st, t)) || Sometime(s, run, st => MetForeign(st, t))
            case StopJob => Sometime(s, run, st => SawStopped(st, t))
  {
    var all := st => Reason(st, t, job);
    var foreign := st => MetForeign(st, t);
    match job
    case EventJob(_, _) => Either(s, run, all, foreign, foreign);
    case ChatJob => Either(s, run, all, st => WasInTurn(st, t), foreign);
    case RaiseJob => Either(s, run, all, st => SawListed(st, t), foreign);
    case StopJob =>
      var stopped := st => SawStopped(st, t);
      Either(s, run, all, stopped, stopped);
  }

  // ---- without a slot ------------------------------------------------------

  /** However short of slots a runner is and whoever raises on it: a turn for an instance in its
      dictionary goes straight to that instance's lock, a delivery by way of begin_event. */
  lemma ListedNeedsNoSlot(s: State, t: TaskId, good: bool)
    requires Known(s, t) && s.tasks[t].phase.Starting? && SawListed(s, t)
    requires s.tasks[t].job.ChatJob? || (s.tasks[t].job.EventJob? && s.tasks[t].job.hasCodeTarget)
    ensures Enabled(s, Advance(t, good))
    ensures var s', o := Step(s, Advance(t, good)), Me(s, t).instances[s.tasks[t].inst];
            && s'.tasks[t].phase == (if s.tasks[t].job.ChatJob? then WaitTurn(o) else AtBegin(o))
            && s'.runners == s.runners
  {
  }

  /** And a delivery that sees its row in other hands is handed off at once. */
  lemma ForeignNeedsNoSlot(s: State, t: TaskId)
    requires Known(s, t) && s.tasks[t].phase.AtPeek? && MetForeign(s, t)
    ensures var a := Advance(t, true);
            && ValidRun(s, [a, a, a])
            && var s' := Exec(s, [a, a, a]);
            && s'.runners == s.runners && s'.tasks == s.tasks[t := s.tasks[t].(phase := Finished)]
            && s'.log == s.log + [HandedOff(t)]
  {
    var a := Advance(t, true);
    var s1 := Step(s, a);
    var s2 := Step(s1, a);
    assert s1 == Goto(s, t, PeekReturned(true)) && s2 == Goto(s1, t, AtHandOff);
    RunnerRuns.TwoSteps(s1, a, a);
    RunnerRuns.FirstStep(s, a, [a, a], [a, a, a]);
  }

  // ---- giving up -----------------------------------------------------------

  lemma GoodGoesOn(s: State, t: TaskId)
    requires Structure(s) && Accounts(s) && Known(s, t) && CanAdvance(s, t)
    ensures var s' := AdvanceTask(s, t, true); |s'.log| > |s.log| ==> !s'.log[|s.log|].GaveUp?
  {
    Ground(s, t);
    if Silent(s.tasks[t].job, s.tasks[t].phase) {
      SilentAdvance(s, t, true);
    }
  }

  lemma GaveUpStep(s: State, a: Action, t: TaskId)
    requires Structure(s) && Accounts(s) && Enabled(s, a)
    requires GaveUp(t) in Step(s, a).log && GaveUp(t) !in s.log
    ensures a == Abort(t) || a == Advance(t, false)
  {
    match a
    case Advance(u, good) =>
      AdvanceEntry(s, u, good);
      var e :| AdvanceTask(s, u, good).log == s.log + [e] && (OfDelivery(e) || e.GaveUp? ==> e.task == u);
      Appended(s, AdvanceTask(s, u, good), e);
      if good {
        GoodGoesOn(s, u);
      }
    case Abort(u) => Appended(s, AbortTask(s, u), GaveUp(u));
    case DownByHub(i) => Appended(s, Step(s, a), HubDown(i));
    case _ =>
  }

  /** Nobody gives up who was not cut off, dropped or failed. */
  lemma {:induction false} GaveUpOnlyIfCut(s: State, run: seq<Action>, t: TaskId)
    requires Structure(s) && Accounts(s) && ValidRun(s, run)
    requires GaveUp(t) in Exec(s, run).log && GaveUp(t) !in s.log
    ensures Abort(t) in run || Advance(t, false) in run
    decreases |run|
  {
    var s1 := Step(s, run[0]);
    StructureStep(s, run[0]);
    AccountsStep(s, run[0]);
    if GaveUp(t) in s1.log {
      GaveUpStep(s, run[0], t);
    } else {
      GaveUpOnlyIfCut(s1, run[1..], t);
    }
  }
}
