/**
 When a dictionary entry owns its database row, and when a turn does.

 `stop_instance` pops first and releases the row later, so a raise of the same instance
 on the same runner can claim in between; the late release then takes the row away from
 the new entry.  For one runner and one instance, whatever the others do: the entry owns
 its row exactly as long as the two are kept apart and the hub leaves a held row alone.
 */
module RunnerOwnership {
  import opened HubStore
  import opened RunnerProtocol
  import opened RunnerInvariants
  import opened RunnerRuns

  // ---- what can go wrong for one runner and one instance -------------------

  ghost predicate Has(s: State, r: RunnerId, i: InstanceId) { r in s.runners && i in s.runners[r].instances }

  ghost predicate OwnsRow(s: State, r: RunnerId, i: InstanceId) { Has(s, r, i) ==> CanRelease(s.rows, i, r) }

  predicate For(task: Task, r: RunnerId, i: InstanceId) { task.runner == r && task.inst == i }

  /** The claim is won and the entry is about to be made. */
  predicate Winner(task: Task, r: RunnerId, i: InstanceId) { For(task, r, i) && task.phase == ClaimReturned(true) }

  /** The entry is popped and the row is not released yet. */
  predicate Pending(task: Task, r: RunnerId, i: InstanceId) {
    For(task, r, i) && (task.phase.WaitStop? || task.phase.AtRelease?)
  }

  ghost predicate HasWinner(s: State, r: RunnerId, i: InstanceId) { exists t <- s.tasks :: Winner(s.tasks[t], r, i) }

  ghost predicate StopPending(s: State, r: RunnerId, i: InstanceId) { exists u <- s.tasks :: Pending(s.tasks[u], r, i) }

  predicate WinsClaim(s: State, t: TaskId, r: RunnerId, i: InstanceId) {
    t in s.tasks && For(s.tasks[t], r, i) && s.tasks[t].phase.AtClaim? && CanClaim(s.rows, i, r)
  }

  /** The hub does not take the row down while the runner lists the instance or is about to,
      and no raise wins a claim while a stop of the instance is pending. */
  ghost predicate Orderly(s: State, a: Action, r: RunnerId, i: InstanceId) {
    && (a == DownByHub(i) ==> !Has(s, r, i) && !HasWinner(s, r, i))
    && (a.Advance? && WinsClaim(s, a.t, r, i) ==> !StopPending(s, r, i))
  }

  ghost predicate OrderlyRun(s: State, run: seq<Action>, r: RunnerId, i: InstanceId)
    requires ValidRun(s, run)
    decreases |run|
  {
    |run| == 0 || (Orderly(s, run[0], r, i) && OrderlyRun(Step(s, run[0]), run[1..], r, i))
  }

  // ---- what orderly steps keep ---------------------------------------------

  ghost predicate Owned(s: State, r: RunnerId, i: InstanceId) {
    && OwnsRow(s, r, i)
    && (HasWinner(s, r, i) ==> CanRelease(s.rows, i, r))
    && (StopPending(s, r, i) ==> !Has(s, r, i) && !HasWinner(s, r, i))
  }

  /** A step of `t` that changes no dictionary and no row, wins no claim and starts no stop. */
  ghost predicate Plain(s: State, s': State, t: TaskId) {
    && t in s.tasks && t in s'.tasks
    && s'.tasks == s.tasks[t := s.tasks[t].(phase := s'.tasks[t].phase)]
    && s'.runners.Keys == s.runners.Keys
    && (forall q <- s.runners :: s'.runners[q].instances == s.runners[q].instances)
    && s'.rows == s.rows
    && s'.tasks[t].phase != ClaimReturned(true)
    && (s'.tasks[t].phase.AtRelease? || s'.tasks[t].phase.WaitStop? ==> s.tasks[t].phase.WaitStop?)
  }

  lemma PlainKeeps(s: State, s': State, t: TaskId, r: RunnerId, i: InstanceId)
    requires Plain(s, s', t)
    ensures Has(s', r, i) == Has(s, r, i)
    ensures HasWinner(s', r, i) ==> HasWinner(s, r, i)
    ensures StopPending(s', r, i) ==> StopPending(s, r, i)
  {
    if u :| u in s'.tasks && Winner(s'.tasks[u], r, i) {
      assert Winner(s.tasks[u], r, i);
    }
    if u :| u in s'.tasks && Pending(s'.tasks[u], r, i) {
      assert Pending(s.tasks[u], r, i);
    }
  }

  lemma MovesPlain(s: State, s': State, t: TaskId)
    requires Moves(s, s', t) && s'.rows == s.rows && s'.tasks[t].phase != ClaimReturned(true)
    requires s'.tasks[t].phase.AtRelease? || s'.tasks[t].phase.WaitStop? ==> s.tasks[t].phase.WaitStop?
    ensures Plain(s, s', t)
  {
  }

  /** Steps that touch a row or a dictionary. */
  predicate Touches(s: State, t: TaskId)
    requires Known(s, t)
  {
    s.tasks[t].phase.AtClaim? || s.tasks[t].phase.AtRelease? || ChangesDictionary(s, t)
  }

  lemma TurnRows(s: State, t: TaskId, good: bool)
    requires Grounded(s, t) && CanAdvance(s, t) && OnTurn(s.tasks[t].phase)
    ensures var s' := AdvanceTask(s, t, good);
            && s'.rows == s.rows && t in s'.tasks && s'.tasks[t].phase != ClaimReturned(true)
            && !s'.tasks[t].phase.AtRelease? && !s'.tasks[t].phase.WaitStop?
  {
  }

  lemma EntryRows(s: State, t: TaskId, good: bool)
    requires Grounded(s, t) && CanAdvance(s, t) && !ChangesDictionary(s, t)
    requires var p := s.tasks[t].phase; p.Starting? || p.PeekReturned? || p.AtPeek? || p.WaitSlot? || p.WaitRaiseLock?
    ensures var s' := AdvanceTask(s, t, good);
            && s'.rows == s.rows && t in s'.tasks && s'.tasks[t].phase != ClaimReturned(true)
            && !s'.tasks[t].phase.AtRelease? && !s'.tasks[t].phase.WaitStop?
  {
    if s.tasks[t].phase.Starting? {
    } else if s.tasks[t].phase.PeekReturned? {
    } else {
    }
  }

  lemma OtherRows(s: State, t: TaskId, good: bool)
    requires Grounded(s, t) && CanAdvance(s, t) && !Touches(s, t) && !OnTurn(s.tasks[t].phase)
    requires var p := s.tasks[t].phase;
             !p.Starting? && !p.PeekReturned? && !p.AtPeek? && !p.WaitSlot? && !p.WaitRaiseLock?
    ensures var s' := AdvanceTask(s, t, good);
            && s'.rows == s.rows && t in s'.tasks && s'.tasks[t].phase != ClaimReturned(true)
            && (s'.tasks[t].phase.AtRelease? || s'.tasks[t].phase.WaitStop? ==> s.tasks[t].phase.WaitStop?)
  {
    if s.tasks[t].phase.AtSkipMark? || s.tasks[t].phase.AtBegin? || s.tasks[t].phase.AtHandOff? {
      EventRows(s, t, good);
    }
  }

  lemma EventRows(s: State, t: TaskId, good: bool)
    requires Grounded(s, t) && CanAdvance(s, t)
    requires s.tasks[t].phase.AtSkipMark? || s.tasks[t].phase.AtBegin? || s.tasks[t].phase.AtHandOff?
    ensures var s', p := AdvanceTask(s, t, good), AdvanceTask(s, t, good).tasks[t].phase;
            s'.rows == s.rows && p != ClaimReturned(true) && !p.AtRelease? && !p.WaitStop?
  {
  }

  lemma AdvancePlain(s: State, t: TaskId, good: bool)
    requires Grounded(s, t) && CanAdvance(s, t) && !Touches(s, t)
    ensures Plain(s, AdvanceTask(s, t, good), t)
  {
    var p := s.tasks[t].phase;
    if OnTurn(p) {
      TurnRows(s, t, good);
    } else if p.Starting? || p.PeekReturned? || p.AtPeek? || p.WaitSlot? || p.WaitRaiseLock? {
      EntryRows(s, t, good);
    } else {
      OtherRows(s, t, good);
    }
    AdvanceMoves(s, t, good);
    MovesPlain(s, AdvanceTask(s, t, good), t);
  }

  lemma AbortPlain(s: State, t: TaskId)
    requires Grounded(s, t) && Enabled(s, Abort(t))
    ensures Plain(s, AbortTask(s, t), t)
  {
    AbortMoves(s, t);
    MovesPlain(s, AbortTask(s, t), t);
  }

  lemma ClaimOwned(s: State, t: TaskId, r: RunnerId, i: InstanceId)
    requires Owned(s, r, i) && Known(s, t) && s.tasks[t].phase.AtClaim?
    requires WinsClaim(s, t, r, i) ==> !StopPending(s, r, i)
    ensures Owned(ClaimDb(s, t), r, i)
  {
    var s' := ClaimDb(s, t);
    if u :| u in s'.tasks && Pending(s'.tasks[u], r, i) {
      assert Pending(s.tasks[u], r, i);
    }
    if u :| u in s'.tasks && Winner(s'.tasks[u], r, i) {
      assert u == t || Winner(s.tasks[u], r, i);
    }
  }

  lemma ReleaseOwned(s: State, t: TaskId, r: RunnerId, i: InstanceId)
    requires Owned(s, r, i) && Known(s, t) && s.tasks[t].phase.AtRelease?
    ensures Owned(ReleaseDb(s, t, s.tasks[t].phase.obj), r, i)
  {
    var s' := ReleaseDb(s, t, s.tasks[t].phase.obj);
    if For(s.tasks[t], r, i) {
      assert Pending(s.tasks[t], r, i);
    }
    if u :| u in s'.tasks && Pending(s'.tasks[u], r, i) {
      assert Pending(s.tasks[u], r, i);
    }
    if u :| u in s'.tasks && Winner(s'.tasks[u], r, i) {
      assert Winner(s.tasks[u], r, i);
    }
  }

  lemma InstallOwned(s: State, t: TaskId, r: RunnerId, i: InstanceId)
    requires Owned(s, r, i) && Known(s, t) && s.tasks[t].phase == ClaimReturned(true)
    ensures Owned(Install(s, t), r, i)
  {
    var s' := Install(s, t);
    if For(s.tasks[t], r, i) {
      assert Winner(s.tasks[t], r, i);
    }
    if u :| u in s'.tasks && Pending(s'.tasks[u], r, i) {
      assert Pending(s.tasks[u], r, i);
    }
    if u :| u in s'.tasks && Winner(s'.tasks[u], r, i) {
      assert Winner(s.tasks[u], r, i);
    }
  }

  lemma PopOwned(s: State, t: TaskId, r: RunnerId, i: InstanceId)
    requires Structure(s) && Owned(s, r, i) && Known(s, t) && s.tasks[t].phase.Starting? && s.tasks[t].job.StopJob?
    requires s.tasks[t].inst in Me(s, t).instances
    ensures Owned(Pop(s, t), r, i)
  {
    var s' := Pop(s, t);
    if u :| u in s'.tasks && Winner(s'.tasks[u], r, i) {
      assert Winner(s.tasks[u], r, i);
      Ground(s, u);
    }
    if u :| u in s'.tasks && Pending(s'.tasks[u], r, i) {
      assert u == t || Pending(s.tasks[u], r, i);
    }
  }

  lemma AdvanceOwned(s: State, t: TaskId, good: bool, r: RunnerId, i: InstanceId)
    requires Structure(s) && Owned(s, r, i) && Enabled(s, Advance(t, good)) && Orderly(s, Advance(t, good), r, i)
    ensures Owned(Step(s, Advance(t, good)), r, i)
  {
    Ground(s, t);
    var p := s.tasks[t].phase;
    if p.AtClaim? {
      ClaimOwned(s, t, r, i);
    } else if p.AtRelease? {
      ReleaseOwned(s, t, r, i);
    } else if p == ClaimReturned(true) {
      InstallOwned(s, t, r, i);
    } else if ChangesDictionary(s, t) {
      PopOwned(s, t, r, i);
    } else {
      AdvancePlain(s, t, good);
      PlainKeeps(s, AdvanceTask(s, t, good), t, r, i);
    }
  }

  /** Steps of the hub and new coroutines. */
  lemma EnvironmentOwned(s: State, a: Action, r: RunnerId, i: InstanceId)
    requires Owned(s, r, i) && Enabled(s, a) && Orderly(s, a, r, i) && !a.Advance? && !a.Abort?
    ensures Owned(Step(s, a), r, i)
  {
    var s' := Step(s, a);
    if u :| u in s'.tasks && Winner(s'.tasks[u], r, i) {
      assert Winner(s.tasks[u], r, i);
    }
    if u :| u in s'.tasks && Pending(s'.tasks[u], r, i) {
      assert Pending(s.tasks[u], r, i);
    }
  }

  lemma OwnedStep(s: State, a: Action, r: RunnerId, i: InstanceId)
    requires Structure(s) && Owned(s, r, i) && Enabled(s, a) && Orderly(s, a, r, i)
    ensures Owned(Step(s, a), r, i)
  {
    if a.Advance? {
      AdvanceOwned(s, a.t, a.good, r, i);
    } else if a.Abort? {
      Ground(s, a.t);
      AbortPlain(s, a.t);
      PlainKeeps(s, AbortTask(s, a.t), a.t, r, i);
    } else {
      EnvironmentOwned(s, a, r, i);
    }
  }

  lemma {:induction false} RunOwns(s: State, run: seq<Action>, r: RunnerId, i: InstanceId)
    requires Structure(s) && Owned(s, r, i) && ValidRun(s, run) && OrderlyRun(s, run, r, i)
    ensures Structure(Exec(s, run)) && Owned(Exec(s, run), r, i)
    decreases |run|
  {
    if |run| > 0 {
      StructureStep(s, run[0]);
      OwnedStep(s, run[0], r, i);
      RunOwns(Step(s, run[0]), run[1..], r, i);
    }
  }

  /** In a run that is orderly for one runner and one instance, whatever happens to all others,
      an entry of that instance owns its row. */
  lemma EntryOwnsRow(s0: State, run: seq<Action>, r: RunnerId, i: InstanceId)
    requires Init(s0) && ValidRun(s0, run) && OrderlyRun(s0, run, r, i)
    ensures OwnsRow(Exec(s0, run), r, i)
  {
    StructureInit(s0);
    RunOwns(s0, run, r, i);
  }

  /** ... so no instance is raised by two runners that both keep order. */
  lemma RaisedOnce(s0: State, run: seq<Action>, r: RunnerId, r': RunnerId, i: InstanceId)
    requires Init(s0) && ValidRun(s0, run) && OrderlyRun(s0, run, r, i) && OrderlyRun(s0, run, r', i)
    requires Has(Exec(s0, run), r, i) && Has(Exec(s0, run), r', i)
    ensures r == r'
  {
    EntryOwnsRow(s0, run, r, i);
    EntryOwnsRow(s0, run, r', i);
  }

  // ---- and exactly then ----------------------------------------------------

  lemma {:induction false} CalmIsOrderly(s: State, run: seq<Action>, r: RunnerId, i: InstanceId)
    requires ValidRun(s, run) && Calm(s, run)
    ensures OrderlyRun(s, run, r, i)
    decreases |run|
  {
    if |run| > 0 {
      CalmIsOrderly(Step(s, run[0]), run[1..], r, i);
    }
  }

  /** A won claim becomes an entry, whether or not the row is still there. */
  lemma WinnerEnters(s: State, t: TaskId, r: RunnerId, i: InstanceId)
    requires Known(s, t) && Winner(s.tasks[t], r, i)
    ensures Calmly(s, [Advance(t, true)], Step(s, Advance(t, true)))
    ensures var s' := Step(s, Advance(t, true)); Has(s', r, i) && s'.rows == s.rows
  {
    CalmOne(s, Advance(t, true));
  }

  lemma ClaimStep(s: State, t: TaskId, u: TaskId, r: RunnerId, i: InstanceId)
    requires Known(s, t) && WinsClaim(s, t, r, i) && u in s.tasks && Pending(s.tasks[u], r, i)
    ensures var s' := ClaimDb(s, t);
            && Known(s', t) && Winner(s'.tasks[t], r, i) && u in s'.tasks && s'.tasks[u] == s.tasks[u] && u != t
  {
  }

  /** The claim is won, and then the pending stop runs to its release. */
  lemma StopUnderWinner(s: State, t: TaskId, u: TaskId, good: bool, r: RunnerId, i: InstanceId)
    returns (run: seq<Action>, s2: State)
    requires Reachable(s) && WinsClaim(s, t, r, i) && u in s.tasks && Pending(s.tasks[u], r, i)
    ensures Enabled(s, Advance(t, good)) && Calmly(Step(s, Advance(t, good)), run, s2)
    ensures Known(s2, t) && Winner(s2.tasks[t], r, i) && !CanRelease(s2.rows, i, r)
  {
    ClaimIsStep(s, t, good);
    ClaimStep(s, t, u, r, i);
    OneStep(s, Advance(t, good));
    Onward(s, [Advance(t, good)], ClaimDb(s, t));
    run, s2 := PendingReleases(ClaimDb(s, t), u);
    StillWinner(ClaimDb(s, t), s2, t, u, r, i);
  }

  lemma ClaimIsStep(s: State, t: TaskId, good: bool)
    requires Reachable(s) && t in s.tasks && s.tasks[t].phase.AtClaim?
    ensures Enabled(s, Advance(t, good)) && Step(s, Advance(t, good)) == ClaimDb(s, t)
  {
    Footing(s, t);
  }

  lemma StillWinner(s: State, s2: State, t: TaskId, u: TaskId, r: RunnerId, i: InstanceId)
    requires Stopped(s, s2, u) && Known(s, t) && t != u && Winner(s.tasks[t], r, i) && For(s.tasks[u], r, i)
    ensures Known(s2, t) && Winner(s2.tasks[t], r, i) && !CanRelease(s2.rows, i, r)
  {
  }

  /** Whenever a raise wins its claim while a stop of the instance is pending -- waiting for the
      instance lock, behind a turn or not, or already inside it -- the stop goes on to release
      the row of the entry that the raise makes. */
  lemma OverlapLosesRow(s: State, t: TaskId, u: TaskId, good: bool, r: RunnerId, i: InstanceId)
    returns (more: seq<Action>)
    requires Reachable(s) && WinsClaim(s, t, r, i) && u in s.tasks && Pending(s.tasks[u], r, i)
    ensures Enabled(s, Advance(t, good)) && ValidRun(Step(s, Advance(t, good)), more)
    ensures OrderlyRun(Step(s, Advance(t, good)), more, r, i)
    ensures !OwnsRow(Exec(Step(s, Advance(t, good)), more), r, i)
  {
    ClaimIsStep(s, t, good);
    var s1 := Step(s, Advance(t, good));
    var run, s2 := StopUnderWinner(s, t, u, good, r, i);
    WinnerEnters(s2, t, r, i);
    CalmChain(s1, run, s2, [Advance(t, true)], Step(s2, Advance(t, true)));
    more := run + [Advance(t, true)];
    CalmIsOrderly(s1, more, r, i);
  }

  /** A hub-side down of a row that the runner lists, or is about to list, leaves an entry
      without its row. */
  lemma DownLosesRow(s: State, r: RunnerId, i: InstanceId) returns (more: seq<Action>)
    requires Reachable(s) && Enabled(s, DownByHub(i)) && (Has(s, r, i) || HasWinner(s, r, i))
    ensures ValidRun(Step(s, DownByHub(i)), more) && OrderlyRun(Step(s, DownByHub(i)), more, r, i)
    ensures !OwnsRow(Exec(Step(s, DownByHub(i)), more), r, i)
  {
    var s1 := Step(s, DownByHub(i));
    more := [];
    if !Has(s, r, i) {
      var t :| t in s.tasks && Winner(s.tasks[t], r, i);
      Footing(s, t);
      WinnerEnters(s1, t, r, i);
      more := [Advance(t, true)];
      CalmIsOrderly(s1, more, r, i);
    }
  }

  ghost predicate AlwaysOwns(s: State, r: RunnerId, i: InstanceId) {
    forall more :: ValidRun(s, more) && OrderlyRun(s, more, r, i) ==> OwnsRow(Exec(s, more), r, i)
  }

  lemma StaysOwned(s: State, r: RunnerId, i: InstanceId)
    requires Structure(s) && Owned(s, r, i)
    ensures AlwaysOwns(s, r, i)
  {
    forall more | ValidRun(s, more) && OrderlyRun(s, more, r, i)
      ensures OwnsRow(Exec(s, more), r, i)
    {
      RunOwns(s, more, r, i);
    }
  }

  /** The condition is exact: after any orderly run, a step is orderly if and only if no orderly
      continuation leaves an entry without its row. */
  lemma OrderlyExactly(s0: State, run: seq<Action>, a: Action, r: RunnerId, i: InstanceId)
    requires Init(s0) && ValidRun(s0, run) && OrderlyRun(s0, run, r, i) && Enabled(Exec(s0, run), a)
    ensures var s := Exec(s0, run);
            Orderly(s, a, r, i) <==> AlwaysOwns(Step(s, a), r, i)
  {
    StructureInit(s0);
    RunOwns(s0, run, r, i);
    ReachableBy(s0, run);
    var s := Exec(s0, run);
    if Orderly(s, a, r, i) {
      StructureStep(s, a);
      OwnedStep(s, a, r, i);
      StaysOwned(Step(s, a), r, i);
    } else if a == DownByHub(i) {
      var more := DownLosesRow(s, r, i);
      assert !AlwaysOwns(Step(s, a), r, i);
    } else {
      var u :| u in s.tasks && Pending(s.tasks[u], r, i);
      var more := OverlapLosesRow(s, a.t, u, a.good, r, i);
      assert !AlwaysOwns(Step(s, a), r, i);
    }
  }
}
