/**
 Safety of whole runs, read off the history: claims of one instance by different runners
 are separated, and a delivery is marked processed only after it completed.
 */
module RunnerHistory {
  import opened Common
  import opened HubStore
  import opened RunnerProtocol
  import opened RunnerInvariants
  import RunnerPermits

  // ---- which steps write ---------------------------------------------------

  /** Steps that read or write memory only. */
  predicate Silent(job: Job, p: Phase) {
    || (p.Starting? && (job.EventJob? ==> job.hasCodeTarget))
    || p.AtPeek? || p.PeekReturned? || p.WaitSlot? || p.WaitRaiseLock? || p.ClaimReturned?
    || p.WaitTurn? || p.TurnEnding? || p.WaitStop? || p.ReleaseReturned?
  }

  /** Phases an event reaches only after its delivery was accepted. */
  predicate Underway(p: Phase) { p.AtSkipMark? || p.WaitTurn? || OnTurn(p) }

  lemma SilentRaise(s: State, t: TaskId, good: bool)
    requires Grounded(s, t) && CanAdvance(s, t) && Silent(s.tasks[t].job, s.tasks[t].phase)
    requires s.tasks[t].phase.WaitRaiseLock? || s.tasks[t].phase.ClaimReturned?
    ensures SilentStep(s, AdvanceTask(s, t, good), t)
  {
  }

  lemma SilentStart(s: State, t: TaskId, good: bool)
    requires Grounded(s, t) && CanAdvance(s, t) && Silent(s.tasks[t].job, s.tasks[t].phase)
    requires s.tasks[t].phase.Starting? || s.tasks[t].phase.PeekReturned?
    ensures SilentStep(s, AdvanceTask(s, t, good), t)
  {
  }

  ghost predicate SilentStep(s: State, s': State, t: TaskId) {
    && t in s.tasks && t in s'.tasks
    && s'.tasks == s.tasks[t := s.tasks[t].(phase := s'.tasks[t].phase)]
    && s'.rows == s.rows && s'.journal == s.journal && s'.log == s.log
    && !s'.tasks[t].phase.AtMark? && !s'.tasks[t].phase.AtSkipMark?
    && (Underway(s'.tasks[t].phase) && s.tasks[t].job.EventJob? ==> Underway(s.tasks[t].phase))
    && (s.tasks[t].phase.TurnEnding? ==> s'.tasks[t].phase.Finished?)
  }

  lemma SilentAdvance(s: State, t: TaskId, good: bool)
    requires Grounded(s, t) && CanAdvance(s, t) && Silent(s.tasks[t].job, s.tasks[t].phase)
    ensures SilentStep(s, AdvanceTask(s, t, good), t)
  {
    var p := s.tasks[t].phase;
    if p.WaitRaiseLock? || p.ClaimReturned? {
      SilentRaise(s, t, good);
    } else if p.Starting? || p.PeekReturned? {
      SilentStart(s, t, good);
    }
  }

  // ---- claims -------------------------------------------------------------

  ghost predicate Closes(e: Entry, i: InstanceId, r: RunnerId) {
    e == Release(i, r) || e == HubDown(i)
  }

  ghost predicate ClosedBetween(log: seq<Entry>, j: nat, k: nat)
    requires j < k <= |log| && log[j].Claim?
  {
    exists m :: j < m < k && Closes(log[m], log[j].inst, log[j].runner)
  }

  /** A claim that nothing closed still owns its row. */
  ghost predicate OpenClaimsHold(s: State) {
    forall j :: 0 <= j < |s.log| && s.log[j].Claim? && !ClosedBetween(s.log, j, |s.log|) ==>
      CanRelease(s.rows, s.log[j].inst, s.log[j].runner)
  }

  ghost predicate Separated(log: seq<Entry>) {
    forall j, k :: 0 <= j < k < |log| && log[j].Claim? && log[k].Claim?
                   && log[j].inst == log[k].inst && log[j].runner != log[k].runner
                   ==> ClosedBetween(log, j, k)
  }

  /** The ways a step can touch the instance rows and their part of the history. */
  ghost predicate RowStep(s: State, s': State) {
    || (s'.rows == s.rows && s'.log == s.log)
    || (s'.rows == s.rows && |s'.log| == |s.log| + 1 && s'.log == s.log + [s'.log[|s.log|]] && !s'.log[|s.log|].Claim?)
    || (exists i, r :: CanClaim(s.rows, i, r) && s'.rows == s.rows[i := Running(r)] && s'.log == s.log + [Claim(i, r)])
    || (exists i, r :: CanRelease(s.rows, i, r) && s'.rows == s.rows[i := Down] && s'.log == s.log + [Release(i, r)])
    || (exists i :: i in s.rows && s'.rows == s.rows[i := Down] && s'.log == s.log + [HubDown(i)])
    || (exists i :: i !in s.rows && s'.rows == s.rows[i := Down] && s'.log == s.log)
  }

  lemma StepIsRowStep(s: State, a: Action)
    requires Structure(s) && Enabled(s, a)
    ensures RowStep(s, Step(s, a))
  {
    match a
    case Advance(t, good) =>
      Ground(s, t);
      AdvanceIsRowStep(s, t, good);
    case _ =>
  }

  lemma AdvanceIsRowStep(s: State, t: TaskId, good: bool)
    requires Grounded(s, t) && CanAdvance(s, t)
    ensures RowStep(s, AdvanceTask(s, t, good))
  {
    var task := s.tasks[t];
    if Silent(task.job, task.phase) {
      SilentAdvance(s, t, good);
    } else if task.phase.AtClaim? {
      assert CanClaim(s.rows, task.inst, task.runner) ==>
        AdvanceTask(s, t, good).log == s.log + [Claim(task.inst, task.runner)];
    } else if task.phase.AtRelease? {
      assert CanRelease(s.rows, task.inst, task.runner) ==>
        AdvanceTask(s, t, good).log == s.log + [Release(task.inst, task.runner)];
    }
  }

  lemma CloseExtends(log: seq<Entry>, log': seq<Entry>, j: nat, k: nat)
    requires j < k <= |log| && log[j].Claim? && log <= log'
    ensures ClosedBetween(log, j, k) <==> ClosedBetween(log', j, k)
  {
    if ClosedBetween(log, j, k) {
      var m :| j < m < k && Closes(log[m], log[j].inst, log[j].runner);
      assert Closes(log'[m], log'[j].inst, log'[j].runner);
    }
  }

  lemma ClaimsStep(s: State, s': State)
    requires RowStep(s, s') && OpenClaimsHold(s) && Separated(s.log)
    ensures OpenClaimsHold(s') && Separated(s'.log)
  {
    forall j | 0 <= j < |s'.log| && s'.log[j].Claim? && !ClosedBetween(s'.log, j, |s'.log|)
      ensures CanRelease(s'.rows, s'.log[j].inst, s'.log[j].runner)
    {
      if j < |s.log| {
        assert s'.log[j] == s.log[j];
        OpenBefore(s.log, s'.log, j);
        assert |s'.log| > |s.log| ==> !Closes(s'.log[|s.log|], s'.log[j].inst, s'.log[j].runner);
      }
    }
    forall j, k | 0 <= j < k < |s'.log| && s'.log[j].Claim? && s'.log[k].Claim?
                  && s'.log[j].inst == s'.log[k].inst && s'.log[j].runner != s'.log[k].runner
      ensures ClosedBetween(s'.log, j, k)
    {
      CloseExtends(s.log, s'.log, j, k);
    }
  }

  lemma OpenBefore(log: seq<Entry>, log': seq<Entry>, j: nat)
    requires j < |log| && log[j].Claim? && log <= log' && !ClosedBetween(log', j, |log'|)
    ensures !ClosedBetween(log, j, |log|)
  {
    assert forall m :: j <= m < |log| ==> log[m] == log'[m];
  }

  lemma {:induction false} RunSeparates(s: State, run: seq<Action>)
    requires Structure(s) && OpenClaimsHold(s) && Separated(s.log) && ValidRun(s, run)
    ensures OpenClaimsHold(Exec(s, run)) && Separated(Exec(s, run).log)
    decreases |run|
  {
    if |run| > 0 {
      StructureStep(s, run[0]);
      StepIsRowStep(s, run[0]);
      ClaimsStep(s, Step(s, run[0]));
      RunSeparates(Step(s, run[0]), run[1..]);
    }
  }

  /** Two claims of one instance by different runners have, between them, a release by the
      first or a down by the hub. */
  lemma ClaimsSeparated(s0: State, run: seq<Action>, j: nat, k: nat)
    requires Init(s0) && ValidRun(s0, run)
    requires j < k < |Exec(s0, run).log|
    requires var log := Exec(s0, run).log;
             log[j].Claim? && log[k].Claim? && log[j].inst == log[k].inst && log[j].runner != log[k].runner
    ensures var log := Exec(s0, run).log;
            exists m :: j < m < k && (log[m] == Release(log[j].inst, log[j].runner) || log[m] == HubDown(log[j].inst))
  {
    StructureInit(s0);
    RunSeparates(s0, run);
    var log := Exec(s0, run).log;
    assert ClosedBetween(log, j, k);
    var m :| j < m < k && Closes(log[m], log[j].inst, log[j].runner);
  }

  /** A release is issued under the lock of an object that is out of every dictionary and on
      which no other coroutine is in a turn. */
  lemma ReleaseIsQuiet(s0: State, run: seq<Action>, t: TaskId, u: TaskId)
    requires Init(s0) && ValidRun(s0, run)
    requires t in Exec(s0, run).tasks && Exec(s0, run).tasks[t].phase.AtRelease?
    requires u in Exec(s0, run).tasks && u != t
    ensures var s := Exec(s0, run);
            var o := s.tasks[t].phase.obj;
            && o in s.objs && s.objs[o].lock == Some(t) && s.objs[o].inst == s.tasks[t].inst
            && !Listed(s, o)
            && (InInstanceLock(s.tasks[u].phase) ==> s.tasks[u].phase.obj != o)
            && (Stopping(s.tasks[u].phase) ==> s.tasks[u].phase.obj != o)
  {
    StructureInit(s0);
    RunnerPermits.InitBalanced(s0);
    RunnerPermits.RunKeeps(s0, run);
    Ground(Exec(s0, run), t);
  }

  // ---- deliveries ---------------------------------------------------------

  /** What a coroutine's phase says about the journal and the history. */
  ghost predicate PhaseBacked(s: State, t: TaskId)
    requires t in s.tasks
  {
    var task := s.tasks[t];
    task.job.EventJob? ==>
      var i, k := task.inst, task.job.key;
      && (task.phase.AtSkipMark? || task.phase.WaitTurn? || OnTurn(task.phase) ==> (i, k) in s.journal)
      && (task.phase.AtSkipMark? ==> Skipped(t, i, k) in s.log)
      && (task.phase.AtMark? ==> Completed(t, i, k) in s.log)
  }

  ghost predicate MarkedBy(log: seq<Entry>, i: InstanceId, k: Key) {
    exists m :: 0 <= m < |log| && log[m].Marked? && log[m].inst == i && log[m].key == k
  }

  lemma MarkedByAppend(log: seq<Entry>, e: Entry, i: InstanceId, k: Key)
    ensures MarkedBy(log + [e], i, k) <==> MarkedBy(log, i, k) || (e.Marked? && e.inst == i && e.key == k)
  {
    var log' := log + [e];
    assert log'[|log|] == e;
    assert forall m :: 0 <= m < |log| ==> log'[m] == log[m];
  }

  /** processed_at is set exactly for the marked deliveries. */
  ghost predicate JournalMatches(s: State) {
    forall i, k :: Processed(s.journal, i, k) <==> MarkedBy(s.log, i, k)
  }

  /** A coroutine that gave up is over, or about to leave the instance lock. */
  ghost predicate GaveUpIsOver(s: State) {
    forall j :: 0 <= j < |s.log| && s.log[j].GaveUp? ==>
      var t := s.log[j].task;
      t in s.tasks && (s.tasks[t].phase.Finished? || s.tasks[t].phase.TurnEnding?)
  }

  ghost predicate Earned(log: seq<Entry>, m: nat)
    requires m < |log| && log[m].Marked?
  {
    var e := log[m];
    && (Completed(e.task, e.inst, e.key) in log[..m] || Skipped(e.task, e.inst, e.key) in log[..m])
    && GaveUp(e.task) !in log[..m]
  }

  /** Once marked, a key is never accepted again. */
  ghost predicate RefusedAfter(log: seq<Entry>) {
    forall m, n :: 0 <= m < n < |log| && log[m].Marked? && (log[n].Accepted? || log[n].Skipped?)
                   ==> log[m].inst != log[n].inst || log[m].key != log[n].key
  }

  ghost predicate Dedup(s: State) {
    && (forall t <- s.tasks :: PhaseBacked(s, t))
    && JournalMatches(s)
    && GaveUpIsOver(s)
    && (forall m :: 0 <= m < |s.log| && s.log[m].Marked? ==> Earned(s.log, m))
    && RefusedAfter(s.log)
  }

  /** The ways a step can touch the journal and its part of the history. */
  ghost predicate QuietStep(s: State, s': State) {
    && s'.journal == s.journal
    && (s'.log == s.log ||
        (|s'.log| == |s.log| + 1 && s'.log == s.log + [s'.log[|s.log|]] &&
         var e := s'.log[|s.log|]; !e.Marked? && !e.Accepted? && !e.Skipped?))
  }

  ghost predicate AcceptStep(s: State, s': State, t: TaskId) {
    && t in s.tasks && s.tasks[t].job.EventJob?
    && var i, k := s.tasks[t].inst, s.tasks[t].job.key;
    && !Processed(s.journal, i, k)
    && s'.journal == BeginRow(s.journal, i, k)
    && (s'.log == s.log + [Accepted(t, i, k)] || s'.log == s.log + [Skipped(t, i, k)])
  }

  ghost predicate MarkStep(s: State, s': State, t: TaskId) {
    && t in s.tasks && s.tasks[t].job.EventJob? && (s.tasks[t].phase.AtMark? || s.tasks[t].phase.AtSkipMark?)
    && var i, k := s.tasks[t].inst, s.tasks[t].job.key;
    && s'.journal == MarkRow(s.journal, i, k)
    && s'.log == s.log + [Marked(t, i, k)]
  }

  lemma AdvanceIsJournalStep(s: State, t: TaskId, good: bool)
    requires Grounded(s, t) && CanAdvance(s, t)
    ensures var s' := AdvanceTask(s, t, good); QuietStep(s, s') || AcceptStep(s, s', t) || MarkStep(s, s', t)
  {
    var task := s.tasks[t];
    if Silent(task.job, task.phase) {
      SilentAdvance(s, t, good);
    }
  }

  lemma StepIsJournalStep(s: State, a: Action)
    requires Structure(s) && Enabled(s, a)
    ensures || QuietStep(s, Step(s, a))
            || (a.Advance? && (AcceptStep(s, Step(s, a), a.t) || MarkStep(s, Step(s, a), a.t)))
  {
    match a
    case Advance(t, good) =>
      Ground(s, t);
      AdvanceIsJournalStep(s, t, good);
    case _ =>
  }

  lemma QuietHistory(s: State, s': State)
    requires Dedup(s) && QuietStep(s, s')
    ensures JournalMatches(s') && RefusedAfter(s'.log)
    ensures forall m :: 0 <= m < |s'.log| && s'.log[m].Marked? ==> Earned(s'.log, m)
  {
    forall i, k
      ensures Processed(s'.journal, i, k) <==> MarkedBy(s'.log, i, k)
    {
      if s'.log != s.log {
        MarkedByAppend(s.log, s'.log[|s.log|], i, k);
      }
    }
    forall m | 0 <= m < |s'.log| && s'.log[m].Marked?
      ensures Earned(s'.log, m)
    {
      assert s'.log[m] == s.log[m] && s'.log[..m] == s.log[..m] && Earned(s.log, m);
    }
  }

  lemma AcceptHistory(s: State, s': State, t: TaskId)
    requires Dedup(s) && AcceptStep(s, s', t)
    ensures JournalMatches(s') && RefusedAfter(s'.log)
    ensures forall m :: 0 <= m < |s'.log| && s'.log[m].Marked? ==> Earned(s'.log, m)
  {
    forall i, k
      ensures Processed(s'.journal, i, k) <==> MarkedBy(s'.log, i, k)
    {
      MarkedByAppend(s.log, s'.log[|s.log|], i, k);
    }
    forall m | 0 <= m < |s'.log| && s'.log[m].Marked?
      ensures Earned(s'.log, m)
    {
      assert s'.log[m] == s.log[m] && s'.log[..m] == s.log[..m] && Earned(s.log, m);
    }
    forall m, n | 0 <= m < n < |s'.log| && s'.log[m].Marked? && (s'.log[n].Accepted? || s'.log[n].Skipped?)
      ensures s'.log[m].inst != s'.log[n].inst || s'.log[m].key != s'.log[n].key
    {
      if n == |s.log| {
        assert s.log[m] == s'.log[m] && MarkedBy(s.log, s.log[m].inst, s.log[m].key);
      }
    }
  }

  lemma MarkHistory(s: State, s': State, t: TaskId)
    requires Dedup(s) && MarkStep(s, s', t)
    ensures JournalMatches(s') && RefusedAfter(s'.log)
    ensures forall m :: 0 <= m < |s'.log| && s'.log[m].Marked? ==> Earned(s'.log, m)
  {
    assert PhaseBacked(s, t);
    forall i, k
      ensures Processed(s'.journal, i, k) <==> MarkedBy(s'.log, i, k)
    {
      MarkedByAppend(s.log, Marked(t, s.tasks[t].inst, s.tasks[t].job.key), i, k);
    }
    forall m | 0 <= m < |s'.log| && s'.log[m].Marked?
      ensures Earned(s'.log, m)
    {
      if m < |s.log| {
        assert s'.log[m] == s.log[m] && s'.log[..m] == s.log[..m] && Earned(s.log, m);
      } else {
        assert s'.log[..m] == s.log;
      }
    }
  }

  lemma AdvanceBacks(s: State, t: TaskId, good: bool)
    requires Grounded(s, t) && CanAdvance(s, t) && PhaseBacked(s, t)
    ensures t in AdvanceTask(s, t, good).tasks && PhaseBacked(AdvanceTask(s, t, good), t)
  {
    var task, s' := s.tasks[t], AdvanceTask(s, t, good);
    if Silent(task.job, task.phase) {
      SilentAdvance(s, t, good);
    } else if !task.phase.AtClaim? && !task.phase.AtRelease? {
      assert |s'.log| > |s.log| ==> s'.log[|s.log|] in s'.log;
    }
  }

  lemma OthersBacked(s: State, s': State, u: TaskId)
    requires u in s.tasks && u in s'.tasks && s'.tasks[u] == s.tasks[u] && PhaseBacked(s, u)
    requires s.journal.Keys <= s'.journal.Keys && s.log <= s'.log
    ensures PhaseBacked(s', u)
  {
    assert forall e :: e in s.log ==> e in s'.log;
  }

  /** A step leaves every other coroutine alone, never unwrites the journal, and sends the
      coroutine that gave up out of the protocol. */
  ghost predicate Framed(s: State, s': State, t: TaskId) {
    && t in s.tasks && t in s'.tasks
    && s'.tasks == s.tasks[t := s.tasks[t].(phase := s'.tasks[t].phase)]
    && s.journal.Keys <= s'.journal.Keys
    && (s'.log == s.log || (|s'.log| == |s.log| + 1 && s'.log[..|s.log|] == s.log))
    && (s.tasks[t].phase.TurnEnding? ==> s'.tasks[t].phase.Finished?)
    && !s.tasks[t].phase.Finished?
    && (|s'.log| > |s.log| && s'.log[|s.log|].GaveUp? ==>
          s'.log[|s.log|].task == t && (s'.tasks[t].phase.Finished? || s'.tasks[t].phase.TurnEnding?))
  }

  lemma AdvanceFramed(s: State, t: TaskId, good: bool)
    requires Grounded(s, t) && CanAdvance(s, t)
    ensures Framed(s, AdvanceTask(s, t, good), t)
  {
    if Silent(s.tasks[t].job, s.tasks[t].phase) {
      SilentAdvance(s, t, good);
    } else if OnTurn(s.tasks[t].phase) {
      TurnFramed(s, t, good);
    }
  }

  lemma TurnFramed(s: State, t: TaskId, good: bool)
    requires Grounded(s, t) && CanAdvance(s, t) && OnTurn(s.tasks[t].phase) && !s.tasks[t].phase.TurnEnding?
    ensures Framed(s, AdvanceTask(s, t, good), t)
  {
  }

  lemma FramedKeeps(s: State, s': State, t: TaskId)
    requires Dedup(s) && Framed(s, s', t) && PhaseBacked(s', t)
    ensures GaveUpIsOver(s')
    ensures forall u <- s'.tasks :: PhaseBacked(s', u)
  {
    forall u <- s'.tasks
      ensures PhaseBacked(s', u)
    {
      if u != t {
        OthersBacked(s, s', u);
      }
    }
    forall j | 0 <= j < |s'.log| && s'.log[j].GaveUp?
      ensures var t := s'.log[j].task;
              t in s'.tasks && (s'.tasks[t].phase.Finished? || s'.tasks[t].phase.TurnEnding?)
    {
      if j < |s.log| {
        assert s'.log[j] == s.log[j];
      }
    }
  }

  lemma HistoryStep(s: State, a: Action)
    requires Structure(s) && Dedup(s) && Enabled(s, a)
    ensures var s' := Step(s, a);
            && JournalMatches(s') && RefusedAfter(s'.log)
            && (forall m :: 0 <= m < |s'.log| && s'.log[m].Marked? ==> Earned(s'.log, m))
  {
    var s' := Step(s, a);
    StepIsJournalStep(s, a);
    if QuietStep(s, s') {
      QuietHistory(s, s');
    } else if AcceptStep(s, s', a.t) {
      AcceptHistory(s, s', a.t);
    } else {
      MarkHistory(s, s', a.t);
    }
  }

  lemma DedupStep(s: State, a: Action)
    requires Structure(s) && Dedup(s) && Enabled(s, a)
    ensures Dedup(Step(s, a))
  {
    HistoryStep(s, a);
    match a
    case Advance(t, good) =>
      Ground(s, t);
      AdvanceFramed(s, t, good);
      AdvanceBacks(s, t, good);
      FramedKeeps(s, AdvanceTask(s, t, good), t);
    case Abort(t) => FramedKeeps(s, AbortTask(s, t), t);
    case _ => EnvironmentKeeps(s, a);
  }

  lemma EnvironmentKeeps(s: State, a: Action)
    requires Dedup(s) && Enabled(s, a) && !a.Advance? && !a.Abort?
    ensures GaveUpIsOver(Step(s, a))
    ensures forall u <- Step(s, a).tasks :: PhaseBacked(Step(s, a), u)
  {
    var s' := Step(s, a);
    forall u <- s'.tasks
      ensures PhaseBacked(s', u)
    {
      if u in s.tasks {
        OthersBacked(s, s', u);
      }
    }
  }

  lemma {:induction false} RunDedups(s: State, run: seq<Action>)
    requires Structure(s) && Dedup(s) && ValidRun(s, run)
    ensures Dedup(Exec(s, run))
    decreases |run|
  {
    if |run| > 0 {
      StructureStep(s, run[0]);
      DedupStep(s, run[0]);
      RunDedups(Step(s, run[0]), run[1..]);
    }
  }

  /** In every run: a delivery is marked only after that very delivery ran to completion, or
      was skipped for lacking a code target, and not after it was cancelled, dropped or
      failed; the journal agrees with the marks; a marked key is never accepted again. */
  lemma MarkedOnlyWhenEarned(s0: State, run: seq<Action>, m: nat)
    requires Init(s0) && ValidRun(s0, run)
    requires m < |Exec(s0, run).log| && Exec(s0, run).log[m].Marked?
    ensures var log := Exec(s0, run).log;
            var e := log[m];
            && (Completed(e.task, e.inst, e.key) in log[..m] || Skipped(e.task, e.inst, e.key) in log[..m])
            && GaveUp(e.task) !in log[..m]
            && Processed(Exec(s0, run).journal, e.inst, e.key)
            && (forall n :: m < n < |log| && (log[n].Accepted? || log[n].Skipped?) ==>
                log[n].inst != e.inst || log[n].key != e.key)
  {
    StructureInit(s0);
    RunDedups(s0, run);
    assert MarkedBy(Exec(s0, run).log, Exec(s0, run).log[m].inst, Exec(s0, run).log[m].key);
    assert Earned(Exec(s0, run).log, m);
  }

  /** ... and nothing but a mark sets processed_at; every later begin_event refuses the key. */
  lemma ProcessedIsMarkedAndRefused(s0: State, run: seq<Action>, t: TaskId, next: Phase)
    requires Init(s0) && ValidRun(s0, run)
    requires Known(Exec(s0, run), t) && Exec(s0, run).tasks[t].job.EventJob?
    ensures var s := Exec(s0, run);
            var i, k := s.tasks[t].inst, s.tasks[t].job.key;
            && (Processed(s.journal, i, k) <==> MarkedBy(s.log, i, k))
            && (MarkedBy(s.log, i, k) ==>
                  && BeginDb(s, t, next).tasks[t].phase.Finished?
                  && BeginDb(s, t, next).journal == s.journal
                  && BeginDb(s, t, next).log == s.log + [Refused(t, i, k)])
  {
    StructureInit(s0);
    RunDedups(s0, run);
  }
}
