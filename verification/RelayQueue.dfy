/**
 The webhook relay: a bounded buffer under a mutex and a one-token notify channel.

 A push appends under the mutex and signals afterwards; a pull drains, waits for the
 token if it found nothing, and drains once more.  Pushers and pullers are goroutines, so
 every mutex section and every channel operation is a step of its own.
 */
module RelayQueue {
  import opened Sequences

  const MAX_QUEUE: nat := 1000

  /** Drop the oldest records beyond the capacity. */
  function Trim<R>(recs: seq<R>): seq<R> {
    if |recs| > MAX_QUEUE then recs[|recs| - MAX_QUEUE..] else recs
  }

  /** The queue object as one goroutine sees it. */
  class Queue<R> {
    var recs: seq<R>
    var token: bool

    constructor ()
      ensures recs == [] && !token
    {
      recs := [];
      token := false;
    }

    /** The newest records survive, the pushed one among them, and the channel holds a token. */
    method Push(r: R)
      modifies this
      ensures recs == Trim(old(recs) + [r])
      ensures |recs| <= MAX_QUEUE && recs[|recs| - 1] == r
      ensures |old(recs)| < MAX_QUEUE ==> recs == old(recs) + [r]
      ensures |old(recs)| == MAX_QUEUE ==> recs == old(recs)[1..] + [r]
      ensures token
    {
      recs := recs + [r];
      var n := |recs| - MAX_QUEUE;
      if n > 0 {
        recs := recs[n..];
      }
      if !token {
        token := true;
      }
    }

    method Drain() returns (out: seq<R>)
      modifies this`recs
      ensures out == old(recs) && recs == []
    {
      out := recs;
      recs := [];
    }
  }

  // ---- interleavings ------------------------------------------------------

  type Puller = nat

  datatype Phase<R> = FirstDrain(wait: bool) | Waiting | TookToken | Done(reply: seq<R>)

  /** What became of a record that left the buffer. */
  datatype Fate = Evicted | Delivered(to: Puller)

  datatype State<R> = State(
    recs: seq<R>,
    token: bool,
    unsignalled: nat,               // pushers between their append and their signal
    pullers: map<Puller, Phase<R>>,
    pushed: seq<R>,                 // history: every record ever appended
    gone: seq<(R, Fate)>)           // history: every record that left, in leaving order

  datatype Action<R> =
    | Append(r: R)
    | Signal
    | StartPull(p: Puller, wait: bool)
    | DrainFirst(p: Puller)
    | TakeToken(p: Puller)
    | DrainSecond(p: Puller)
    | GiveUp(p: Puller)             // timer or client disconnect

  predicate Init<R(==)>(s: State<R>) {
    s == State([], false, 0, map[], [], [])
  }

  predicate Enabled<R>(s: State<R>, a: Action<R>) {
    match a
    case Append(_) => true
    case Signal => s.unsignalled > 0
    case StartPull(p, _) => p !in s.pullers
    case DrainFirst(p) => p in s.pullers && s.pullers[p].FirstDrain?
    case TakeToken(p) => p in s.pullers && s.pullers[p].Waiting? && s.token
    case DrainSecond(p) => p in s.pullers && s.pullers[p].TookToken?
    case GiveUp(p) => p in s.pullers && s.pullers[p].Waiting?
  }

  function Tag<R>(recs: seq<R>, fate: Fate): seq<(R, Fate)> {
    seq(|recs|, i requires 0 <= i < |recs| => (recs[i], fate))
  }

  function DrainTo<R>(s: State<R>, p: Puller, next: Phase<R>): State<R> {
    s.(recs := [], gone := s.gone + Tag(s.recs, Delivered(p)), pullers := s.pullers[p := next])
  }

  function Step<R>(s: State<R>, a: Action<R>): State<R>
    requires Enabled(s, a)
  {
    match a
    case Append(r) =>
      var all := s.recs + [r];
      var kept := Trim(all);
      s.(recs := kept, unsignalled := s.unsignalled + 1, pushed := s.pushed + [r],
         gone := s.gone + Tag(all[..|all| - |kept|], Evicted))
    case Signal => s.(token := true, unsignalled := s.unsignalled - 1)
    case StartPull(p, wait) => s.(pullers := s.pullers[p := FirstDrain(wait)])
    case DrainFirst(p) =>
      DrainTo(s, p, if |s.recs| == 0 && s.pullers[p].wait then Waiting else Done(s.recs))
    case TakeToken(p) => s.(token := false, pullers := s.pullers[p := TookToken])
    case DrainSecond(p) => DrainTo(s, p, Done(s.recs))
    case GiveUp(p) => s.(pullers := s.pullers[p := Done([])])
  }

  predicate ValidRun<R>(s: State<R>, run: seq<Action<R>>)
    decreases |run|
  {
    |run| == 0 || (Enabled(s, run[0]) && ValidRun(Step(s, run[0]), run[1..]))
  }

  function Exec<R>(s: State<R>, run: seq<Action<R>>): State<R>
    requires ValidRun(s, run)
    decreases |run|
  {
    if |run| == 0 then s else Exec(Step(s, run[0]), run[1..])
  }

  // ---- no lost wakeup -----------------------------------------------------

  /** Somebody will still look at the buffer. */
  ghost predicate WakeupPending<R>(s: State<R>) {
    || s.token
    || s.unsignalled > 0
    || (exists p <- s.pullers :: s.pullers[p].TookToken?)
  }

  function Records<R>(gone: seq<(R, Fate)>): seq<R> {
    seq(|gone|, i requires 0 <= i < |gone| => gone[i].0)
  }

  /** Records leave in arrival order, each once: what left, then what is buffered, is
      exactly what was pushed. */
  ghost predicate Fifo<R>(s: State<R>) {
    Records(s.gone) + s.recs == s.pushed
  }

  /** The reply of a finished pull is exactly the records delivered to it. */
  function DeliveredTo<R>(gone: seq<(R, Fate)>, p: Puller): seq<R> {
    if |gone| == 0 then []
    else DeliveredTo(gone[..|gone| - 1], p) +
         (if gone[|gone| - 1].1 == Delivered(p) then [gone[|gone| - 1].0] else [])
  }

  ghost predicate Replied<R>(s: State<R>, p: Puller) {
    DeliveredTo(s.gone, p) == if p in s.pullers && s.pullers[p].Done? then s.pullers[p].reply else []
  }

  /** A record is evicted only by pushes that fill the whole buffer behind it. */
  ghost predicate EvictedByOverflow<R>(s: State<R>) {
    forall j :: 0 <= j < |s.gone| && s.gone[j].1.Evicted? ==> j + MAX_QUEUE < |s.pushed|
  }

  ghost predicate Inv<R>(s: State<R>) {
    && (s.recs != [] ==> WakeupPending(s))
    && Fifo(s)
    && |s.recs| <= MAX_QUEUE
    && EvictedByOverflow(s)
    && (forall p: Puller :: Replied(s, p))
  }

  lemma {:induction false} DeliveredAppend<R>(gone: seq<(R, Fate)>, recs: seq<R>, fate: Fate, p: Puller)
    ensures DeliveredTo(gone + Tag(recs, fate), p) ==
            DeliveredTo(gone, p) + (if fate == Delivered(p) then recs else [])
    decreases |recs|
  {
    if |recs| == 0 {
      assert gone + Tag(recs, fate) == gone;
    } else {
      var k := |recs| - 1;
      var all := gone + Tag(recs, fate);
      assert all[..|all| - 1] == gone + Tag(recs[..k], fate);
      assert recs == recs[..k] + [recs[k]];
      DeliveredAppend(gone, recs[..k], fate, p);
    }
  }

  lemma RecordsAppend<R>(gone: seq<(R, Fate)>, recs: seq<R>, fate: Fate)
    ensures Records(gone + Tag(recs, fate)) == Records(gone) + recs
  {
  }

  lemma AppendKeeps<R>(s: State<R>, r: R)
    requires Inv(s)
    ensures Inv(Step(s, Append(r)))
  {
    var s' := Step(s, Append(r));
    var all := s.recs + [r];
    var out := all[..|all| - |Trim(all)|];
    assert all == out + s'.recs;
    RecordsAppend(s.gone, out, Evicted);
    Associative(Records(s.gone), out, s'.recs);
    Associative(Records(s.gone), s.recs, [r]);
    assert |Records(s.gone)| + |s.recs| == |s.pushed|;
    forall p: Puller
      ensures Replied(s', p)
    {
      assert Replied(s, p);
      DeliveredAppend(s.gone, out, Evicted, p);
    }
  }

  lemma DrainKeeps<R>(s: State<R>, p: Puller, next: Phase<R>)
    requires Inv(s) && p in s.pullers && !s.pullers[p].Done?
    requires next == Done(s.recs) || (s.recs == [] && next.Waiting?)
    ensures Inv(DrainTo(s, p, next))
  {
    var s' := DrainTo(s, p, next);
    RecordsAppend(s.gone, s.recs, Delivered(p));
    forall q: Puller
      ensures Replied(s', q)
    {
      assert Replied(s, q);
      DeliveredAppend(s.gone, s.recs, Delivered(p), q);
    }
  }

  lemma StepKeeps<R>(s: State<R>, a: Action<R>)
    requires Inv(s) && Enabled(s, a)
    ensures Inv(Step(s, a))
  {
    match a
    case Append(r) => AppendKeeps(s, r);
    case DrainFirst(p) => DrainKeeps(s, p, if |s.recs| == 0 && s.pullers[p].wait then Waiting else Done(s.recs));
    case DrainSecond(p) => DrainKeeps(s, p, Done(s.recs));
    case TakeToken(p) =>
      assert Step(s, a).pullers[p].TookToken?;
      assert forall q: Puller :: Replied(s, q) ==> Replied(Step(s, a), q);
    case _ =>
      assert forall q: Puller :: Replied(s, q) ==> Replied(Step(s, a), q);
      assert forall q <- s.pullers :: s.pullers[q].TookToken? ==> Step(s, a).pullers[q].TookToken?;
  }

  lemma {:induction false} RunKeeps<R>(s: State<R>, run: seq<Action<R>>)
    requires Inv(s) && ValidRun(s, run)
    ensures Inv(Exec(s, run))
    decreases |run|
  {
    if |run| > 0 {
      StepKeeps(s, run[0]);
      RunKeeps(Step(s, run[0]), run[1..]);
    }
  }

  lemma InitHolds<R>(s: State<R>)
    requires Init(s)
    ensures Inv(s)
  {
  }

  /** The records pushed in a run, in order. */
  function Pushed<R>(run: seq<Action<R>>): seq<R> {
    if |run| == 0 then [] else (if run[0].Append? then [run[0].r] else []) + Pushed(run[1..])
  }

  lemma {:induction false} RunRecorded<R>(s: State<R>, run: seq<Action<R>>)
    requires ValidRun(s, run)
    ensures Exec(s, run).pushed == s.pushed + Pushed(run)
    decreases |run|
  {
    if |run| > 0 {
      RunRecorded(Step(s, run[0]), run[1..]);
      if run[0].Append? {
        Associative(s.pushed, [run[0].r], Pushed(run[1..]));
      } else {
        assert [] + Pushed(run[1..]) == Pushed(run[1..]);
      }
    } else {
      assert s.pushed + [] == s.pushed;
    }
  }

  /** In every run: a waiting record has a wakeup on its way; records leave in order and once
      each; a finished pull got exactly what was taken out for it; only overflow evicts. */
  lemma NothingLost<R>(s0: State<R>, run: seq<Action<R>>, p: Puller)
    requires Init(s0) && ValidRun(s0, run)
    ensures var s := Exec(s0, run);
            && (s.recs != [] ==> s.token || s.unsignalled > 0 || exists q <- s.pullers :: s.pullers[q].TookToken?)
            && Records(s.gone) + s.recs == Pushed(run)
            && |s.recs| <= MAX_QUEUE
            && (p in s.pullers && s.pullers[p].Done? ==> s.pullers[p].reply == DeliveredTo(s.gone, p))
            && (forall j :: 0 <= j < |s.gone| && s.gone[j].1.Evicted? ==> j + MAX_QUEUE < |Pushed(run)|)
  {
    RunRecorded(s0, run);
    assert [] + Pushed(run) == Pushed(run);
    InitHolds(s0);
    RunKeeps(s0, run);
    assert Replied(Exec(s0, run), p);
  }

  // ---- no puller stays blocked ---------------------------------------------

  /** Steps the relay takes on its own, without a new request, timer or disconnect. */
  predicate Internal<R>(a: Action<R>) { a.Signal? || a.TakeToken? || a.DrainSecond? }

  ghost function TokenHolders<R>(s: State<R>): set<Puller> {
    set p | p in s.pullers && s.pullers[p].TookToken?
  }

  ghost function Work<R>(s: State<R>): nat {
    3 * s.unsignalled + (if s.token then 2 else 0) + |TokenHolders(s)|
  }

  /** Internal steps run out. */
  lemma InternalTerminates<R>(s: State<R>, a: Action<R>)
    requires Enabled(s, a) && Internal(a)
    ensures Work(Step(s, a)) < Work(s)
  {
    var s' := Step(s, a);
    match a
    case Signal => assert TokenHolders(s') == TokenHolders(s);
    case TakeToken(p) => assert TokenHolders(s') == TokenHolders(s) + {p};
    case DrainSecond(p) => assert TokenHolders(s') == TokenHolders(s) - {p};
  }

  /** ... and when none is left, nobody waits over a record. */
  lemma QuiescentMeansServed<R>(s0: State<R>, run: seq<Action<R>>, p: Puller)
    requires Init(s0) && ValidRun(s0, run)
    requires forall a :: Enabled(Exec(s0, run), a) ==> !Internal(a)
    requires p in Exec(s0, run).pullers && Exec(s0, run).pullers[p].Waiting?
    ensures Exec(s0, run).recs == []
  {
    InitHolds(s0);
    RunKeeps(s0, run);
    Quiescent(Exec(s0, run), p);
    NobodyLooks(Exec(s0, run));
  }

  /** In a state without internal steps nothing is signalled, held or taken. */
  lemma Quiescent<R>(s: State<R>, p: Puller)
    requires forall a :: Enabled(s, a) ==> !Internal(a)
    requires p in s.pullers && s.pullers[p].Waiting?
    ensures s.unsignalled == 0 && !s.token && forall q <- s.pullers :: !s.pullers[q].TookToken?
  {
    assert Enabled(s, Signal) ==> !Internal<R>(Signal);
    assert Enabled(s, TakeToken(p)) ==> !Internal<R>(TakeToken(p));
    forall q <- s.pullers
      ensures !s.pullers[q].TookToken?
    {
      assert Enabled(s, DrainSecond(q)) ==> !Internal<R>(DrainSecond(q));
    }
  }

  lemma NobodyLooks<R>(s: State<R>)
    requires Inv(s) && s.unsignalled == 0 && !s.token && forall q <- s.pullers :: !s.pullers[q].TookToken?
    ensures s.recs == []
  {
  }

  // ---- who waits -----------------------------------------------------------

  /** What the run must have done to a puller for it to be where it is. */
  ghost predicate Came<R>(s: State<R>, run: seq<Action<R>>, p: Puller) {
    p in s.pullers ==>
      match s.pullers[p]
      case FirstDrain(wait) => StartPull(p, wait) in run
      case Waiting => StartPull(p, true) in run
      case TookToken => StartPull(p, true) in run && TakeToken(p) in run
      case Done(reply) =>
        || reply != []
        || StartPull(p, false) in run
        || (StartPull(p, true) in run && (GiveUp(p) in run || TakeToken(p) in run))
  }

  lemma CameStep<R>(s: State<R>, run: seq<Action<R>>, a: Action<R>, p: Puller)
    requires Came(s, run, p) && Enabled(s, a)
    requires p in s.pullers ==> StartPull(p, true) in run || StartPull(p, false) in run
    ensures Came(Step(s, a), run + [a], p)
    ensures p in Step(s, a).pullers ==> StartPull(p, true) in run + [a] || StartPull(p, false) in run + [a]
  {
    assert forall b :: b in run ==> b in run + [a];
    assert a in run + [a];
  }

  lemma {:induction false} CameRun<R>(s: State<R>, past: seq<Action<R>>, run: seq<Action<R>>, p: Puller)
    requires ValidRun(s, run) && Came(s, past, p)
    requires p in s.pullers ==> StartPull(p, true) in past || StartPull(p, false) in past
    ensures Came(Exec(s, run), past + run, p)
    decreases |run|
  {
    if |run| == 0 {
      assert past + run == past;
    } else {
      CameStep(s, past, run[0], p);
      CameRun(Step(s, run[0]), past + [run[0]], run[1..], p);
      assert past + [run[0]] + run[1..] == past + run;
    }
  }

  /** In every run: a pull that did not ask to wait never does; one that did is answered with
      nothing only after its timer or client gave up on it, or a token made it look again. */
  lemma WaitsUntilServed<R>(s0: State<R>, run: seq<Action<R>>, p: Puller)
    requires Init(s0) && ValidRun(s0, run) && p in Exec(s0, run).pullers
    ensures var phase := Exec(s0, run).pullers[p];
            && (phase.Waiting? || phase.TookToken? ==> StartPull(p, true) in run)
            && (phase == Done([]) ==>
                  StartPull(p, false) in run
                  || (StartPull(p, true) in run && (GiveUp(p) in run || TakeToken(p) in run)))
            && !(StartPull(p, true) in run && StartPull(p, false) in run)
  {
    StartsOnce(s0, run, p);
    CameRun(s0, [], run, p);
    assert [] + run == run;
  }

  /** A puller starts once. */
  lemma {:induction false} StartsOnce<R>(s: State<R>, run: seq<Action<R>>, p: Puller)
    requires ValidRun(s, run)
    ensures p in s.pullers ==> StartPull(p, true) !in run && StartPull(p, false) !in run
    ensures !(StartPull(p, true) in run && StartPull(p, false) in run)
    decreases |run|
  {
    if |run| > 0 {
      assert run == [run[0]] + run[1..];
      StartsOnce(Step(s, run[0]), run[1..], p);
    }
  }
}
