/**
 One turn's activity: frames are buffered and pushed to the live subscribers; a subscriber
 replays the buffer it finds when it joins and then reads its own queue to the end marker.
 Subscribing and taking the snapshot happen between two awaits, so they are one step.
 */
module ActivityTurn {
  import opened Common

  type SubId = nat

  /** A subscriber's generator: where it is, what it still has, what it yielded. */
  datatype Phase = Replaying(next: nat) | Live | Ended | Left

  datatype Sub<F> = Sub(
    snapshot: seq<F>,
    listed: bool,                  // its queue is in the turn's subscriber list
    queue: seq<Option<F>>,         // None is the end marker
    yielded: seq<F>,
    phase: Phase)

  datatype State<F> = State(done: bool, frames: seq<F>, subs: map<SubId, Sub<F>>)

  datatype Action<F> =
    | Emit(f: F)
    | Close
    | Join(id: SubId)
    | Read(id: SubId)
    | Leave(id: SubId)             // the client went away

  // ---- steps ---------------------------------------------------------------

  function Pushed<F>(sub: Sub<F>, item: Option<F>): Sub<F> {
    if sub.listed then sub.(queue := sub.queue + [item]) else sub
  }

  function PushAll<F>(subs: map<SubId, Sub<F>>, item: Option<F>): map<SubId, Sub<F>> {
    map id | id in subs :: Pushed(subs[id], item)
  }

  function Joined<F>(done: bool, frames: seq<F>): Sub<F> {
    Sub(frames, !done, [], [], Replaying(0))
  }

  /** Can the generator produce its next item without waiting? */
  predicate Ready<F>(done: bool, sub: Sub<F>) {
    match sub.phase
    case Replaying(next) => next < |sub.snapshot| || (done && !sub.listed) || |sub.queue| > 0
    case Live => |sub.queue| > 0
    case _ => false
  }

  /** Resume the generator up to its next yield or its end. */
  function Resumed<F>(done: bool, sub: Sub<F>): Sub<F>
    requires Ready(done, sub)
  {
    if sub.phase.Replaying? && sub.phase.next < |sub.snapshot| then
      sub.(yielded := sub.yielded + [sub.snapshot[sub.phase.next]], phase := Replaying(sub.phase.next + 1))
    else if sub.phase.Replaying? && done && !sub.listed then sub.(phase := Ended)
    else match sub.queue[0]
      case None => sub.(queue := sub.queue[1..], listed := false, phase := Ended)
      case Some(f) => sub.(queue := sub.queue[1..], yielded := sub.yielded + [f], phase := Live)
  }

  /** No frame is emitted after the turn is closed, and it is closed once: callers close in
      the `finally` that ends the turn. */
  predicate Enabled<F>(s: State<F>, a: Action<F>) {
    match a
    case Emit(_) => !s.done
    case Close => !s.done
    case Join(id) => id !in s.subs
    case Read(id) => id in s.subs && Ready(s.done, s.subs[id])
    case Leave(id) => id in s.subs && !s.subs[id].phase.Ended?
  }

  function Step<F>(s: State<F>, a: Action<F>): State<F>
    requires Enabled(s, a)
  {
    match a
    case Emit(f) => s.(frames := s.frames + [f], subs := PushAll(s.subs, Some(f)))
    case Close => s.(done := true, subs := PushAll(s.subs, None))
    case Join(id) => s.(subs := s.subs[id := Joined(s.done, s.frames)])
    case Read(id) => s.(subs := s.subs[id := Resumed(s.done, s.subs[id])])
    case Leave(id) => s.(subs := s.subs[id := s.subs[id].(listed := false, phase := Left)])
  }

  predicate ValidRun<F>(s: State<F>, run: seq<Action<F>>)
    decreases |run|
  {
    |run| == 0 || (Enabled(s, run[0]) && ValidRun(Step(s, run[0]), run[1..]))
  }

  function Exec<F>(s: State<F>, run: seq<Action<F>>): State<F>
    requires ValidRun(s, run)
    decreases |run|
  {
    if |run| == 0 then s else Exec(Step(s, run[0]), run[1..])
  }

  // ---- the invariant -------------------------------------------------------

  function Queued<F>(fs: seq<F>): seq<Option<F>> {
    seq(|fs|, k requires 0 <= k < |fs| => Some(fs[k]))
  }

  function Unreplayed<F>(sub: Sub<F>): seq<F> {
    if sub.phase.Replaying? && sub.phase.next <= |sub.snapshot| then sub.snapshot[sub.phase.next..] else []
  }

  /** Yielded so far, then the rest of the snapshot, then the queue, is the turn's frames. */
  ghost predicate Tracks<F(!new)>(done: bool, frames: seq<F>, sub: Sub<F>) {
    match sub.phase
    case Left => sub.yielded <= frames && !sub.listed
    case Ended => done && sub.yielded == frames && !sub.listed
    case _ =>
      && (sub.phase.Replaying? ==> sub.phase.next <= |sub.snapshot|)
      && if sub.listed then
           exists fs :: sub.queue == Queued(fs) + (if done then [None] else [])
               && sub.yielded + Unreplayed(sub) + fs == frames
         else done && sub.phase.Replaying? && sub.queue == [] && sub.yielded + Unreplayed(sub) == frames
  }

  ghost predicate Inv<F(!new)>(s: State<F>) {
    forall id <- s.subs :: Tracks(s.done, s.frames, s.subs[id])
  }

  lemma EmitTracks<F(!new)>(frames: seq<F>, sub: Sub<F>, f: F)
    requires Tracks(false, frames, sub)
    ensures Tracks(false, frames + [f], Pushed(sub, Some(f)))
  {
    if sub.listed {
      var fs :| sub.queue == Queued(fs) + [] && sub.yielded + Unreplayed(sub) + fs == frames;
      assert sub.queue + [Some(f)] == Queued(fs + [f]) + [];
      assert sub.yielded + Unreplayed(sub) + (fs + [f]) == frames + [f];
    }
  }

  lemma CloseTracks<F(!new)>(frames: seq<F>, sub: Sub<F>)
    requires Tracks(false, frames, sub)
    ensures Tracks(true, frames, Pushed(sub, None))
  {
    if sub.listed {
      var fs :| sub.queue == Queued(fs) + [] && sub.yielded + Unreplayed(sub) + fs == frames;
      assert sub.queue + [None] == Queued(fs) + [None];
    }
  }

  lemma JoinTracks<F(!new)>(done: bool, frames: seq<F>)
    ensures Tracks(done, frames, Joined(done, frames))
  {
    var sub: Sub<F> := Joined(done, frames);
    assert Unreplayed(sub) == frames;
    if !done {
      var fs: seq<F> := [];
      assert sub.queue == Queued(fs) + [] && sub.yielded + Unreplayed(sub) + fs == frames;
    }
  }

  lemma ReadTracks<F(!new)>(done: bool, frames: seq<F>, sub: Sub<F>)
    requires Tracks(done, frames, sub) && Ready(done, sub)
    ensures Tracks(done, frames, Resumed(done, sub))
  {
    var sub' := Resumed(done, sub);
    if sub.phase.Replaying? && sub.phase.next < |sub.snapshot| {
      assert sub'.yielded + Unreplayed(sub') == sub.yielded + Unreplayed(sub);
    } else if sub.listed {
      QueueTracks(done, frames, sub);
    } else {
      assert Unreplayed(sub) == [] && sub.yielded + [] == sub.yielded;
    }
  }

  lemma QueueTracks<F(!new)>(done: bool, frames: seq<F>, sub: Sub<F>)
    requires Tracks(done, frames, sub) && Ready(done, sub) && sub.listed
    requires sub.phase.Replaying? ==> sub.phase.next >= |sub.snapshot|
    ensures Tracks(done, frames, Resumed(done, sub))
  {
    var sub' := Resumed(done, sub);
    assert Unreplayed(sub) == [];
    var fs :| sub.queue == Queued(fs) + (if done then [None] else []) && sub.yielded + Unreplayed(sub) + fs == frames;
    assert sub.yielded + [] == sub.yielded;
    if |fs| == 0 {
      assert sub.yielded + [] + fs == sub.yielded;
    } else {
      QueueTail(fs, done, sub.queue);
      assert fs == [fs[0]] + fs[1..];
      assert sub'.yielded + Unreplayed(sub') + fs[1..] == frames;
    }
  }

  lemma QueueTail<F>(fs: seq<F>, done: bool, queue: seq<Option<F>>)
    requires |fs| > 0 && queue == Queued(fs) + (if done then [None] else [])
    ensures queue[0] == Some(fs[0]) && queue[1..] == Queued(fs[1..]) + (if done then [None] else [])
  {
  }

  lemma TracksPrefix<F(!new)>(done: bool, frames: seq<F>, sub: Sub<F>)
    requires Tracks(done, frames, sub)
    ensures sub.yielded <= frames
  {
    if !sub.phase.Left? && !sub.phase.Ended? && sub.listed {
      var fs :| sub.queue == Queued(fs) + (if done then [None] else []) && sub.yielded + Unreplayed(sub) + fs == frames;
      assert sub.yielded <= sub.yielded + (Unreplayed(sub) + fs);
    }
  }

  lemma StepKeeps<F(!new)>(s: State<F>, a: Action<F>)
    requires Inv(s) && Enabled(s, a)
    ensures Inv(Step(s, a))
  {
    var s' := Step(s, a);
    forall id <- s'.subs
      ensures Tracks(s'.done, s'.frames, s'.subs[id])
    {
      match a
      case Emit(f) => EmitTracks(s.frames, s.subs[id], f);
      case Close => CloseTracks(s.frames, s.subs[id]);
      case Join(j) => JoinTracks(s.done, s.frames);
      case Read(j) =>
        if j == id {
          ReadTracks(s.done, s.frames, s.subs[id]);
        }
      case Leave(j) => TracksPrefix(s.done, s.frames, s.subs[id]);
    }
  }

  lemma {:induction false} RunKeeps<F(!new)>(s: State<F>, run: seq<Action<F>>)
    requires Inv(s) && ValidRun(s, run)
    ensures Inv(Exec(s, run))
    decreases |run|
  {
    if |run| > 0 {
      StepKeeps(s, run[0]);
      RunKeeps(Step(s, run[0]), run[1..]);
    }
  }

  /** The frames emitted in a run, in order. */
  function Emitted<F>(run: seq<Action<F>>): seq<F> {
    if |run| == 0 then [] else (if run[0].Emit? then [run[0].f] else []) + Emitted(run[1..])
  }

  /** A turn's frames are those emitted; it is over when it was closed; a subscriber is there
      when it joined, and gone when it left. */
  lemma {:induction false} RunRecorded<F(!new)>(s: State<F>, run: seq<Action<F>>, id: SubId)
    requires ValidRun(s, run)
    ensures var s' := Exec(s, run);
            && s'.frames == s.frames + Emitted(run)
            && (s'.done <==> s.done || Close in run)
            && (id in s'.subs <==> id in s.subs || Join(id) in run)
            && (id in s'.subs && s'.subs[id].phase.Left? ==>
                  (id in s.subs && s.subs[id].phase.Left?) || Leave(id) in run)
    decreases |run|
  {
    if |run| > 0 {
      assert run == [run[0]] + run[1..];
      RunRecorded(Step(s, run[0]), run[1..], id);
      if run[0].Emit? {
        assert s.frames + [run[0].f] + Emitted(run[1..]) == s.frames + Emitted(run);
      }
    }
  }

  /** Whenever it joins and however it is scheduled, a subscriber has yielded a prefix of what
      was emitted; one that reads to the end has yielded exactly all of it, in emit order; and
      it waits only when it has yielded everything of a turn still open. */
  lemma SubscriberSeesTurn<F(!new)>(run: seq<Action<F>>, id: SubId)
    requires ValidRun(State(false, [], map[]), run) && Join(id) in run
    ensures var s := Exec(State(false, [], map[]), run);
            && id in s.subs
            && var sub := s.subs[id];
            && sub.yielded <= Emitted(run)
            && (sub.phase.Ended? ==> Close in run && sub.yielded == Emitted(run))
            && (!sub.phase.Ended? && Leave(id) !in run ==>
                  (Enabled(s, Read(id)) <==> Close in run || sub.yielded != Emitted(run)))
  {
    var start: State<F> := State(false, [], map[]);
    RunKeeps(start, run);
    RunRecorded(start, run, id);
    var s := Exec(start, run);
    assert [] + Emitted(run) == Emitted(run);
    var sub := s.subs[id];
    TracksPrefix(s.done, s.frames, sub);
    if !sub.phase.Ended? && !sub.phase.Left? {
      ReadyExactly(s.done, s.frames, sub);
    }
  }

  lemma ReadyExactly<F(!new)>(done: bool, frames: seq<F>, sub: Sub<F>)
    requires Tracks(done, frames, sub) && !sub.phase.Ended? && !sub.phase.Left?
    ensures Ready(done, sub) <==> done || sub.yielded != frames
  {
    if sub.listed {
      var fs :| sub.queue == Queued(fs) + (if done then [None] else []) && sub.yielded + Unreplayed(sub) + fs == frames;
      assert |sub.yielded| + |Unreplayed(sub)| + |fs| == |frames|;
      if Unreplayed(sub) == [] && fs == [] {
        assert sub.yielded + [] + [] == sub.yielded;
      }
    }
  }

  // ---- what was persisted --------------------------------------------------

  /** The persisted frames without those at the dropped positions. */
  ghost function Kept<F>(persisted: seq<(nat, F)>, dropped: set<nat>): seq<F> {
    if |persisted| == 0 then []
    else
      var n := |persisted| - 1;
      Kept(persisted[..n], dropped) + if n in dropped then [] else [persisted[n].1]
  }

  lemma KeptSnoc<F>(persisted: seq<(nat, F)>, e: (nat, F), dropped: set<nat>)
    ensures |persisted| in dropped ==> Kept(persisted + [e], dropped) == Kept(persisted, dropped)
    ensures |persisted| !in dropped ==> Kept(persisted + [e], dropped) == Kept(persisted, dropped) + [e.1]
  {
    assert (persisted + [e])[..|persisted|] == persisted;
  }

  lemma {:induction false} KeptSame<F>(persisted: seq<(nat, F)>, a: set<nat>, b: set<nat>)
    requires forall k :: 0 <= k < |persisted| ==> (k in a <==> k in b)
    ensures Kept(persisted, a) == Kept(persisted, b)
    decreases |persisted|
  {
    if |persisted| > 0 {
      KeptSame(persisted[..|persisted| - 1], a, b);
    }
  }

  lemma {:induction false} KeptLength<F>(persisted: seq<(nat, F)>, dropped: set<nat>)
    requires forall k <- dropped :: k < |persisted|
    ensures |Kept(persisted, dropped)| == |persisted| - |dropped|
    decreases |persisted|
  {
    if |persisted| > 0 {
      var n := |persisted| - 1;
      KeptSame(persisted[..n], dropped, dropped - {n});
      KeptLength(persisted[..n], dropped - {n});
    } else {
      assert dropped == {};
    }
  }

  lemma {:induction false} KeptAll<F>(persisted: seq<(nat, F)>)
    ensures |Kept(persisted, {})| == |persisted|
    ensures forall k :: 0 <= k < |persisted| ==> Kept(persisted, {})[k] == persisted[k].1
    decreases |persisted|
  {
    if |persisted| > 0 {
      KeptAll(persisted[..|persisted| - 1]);
    }
  }

  lemma SameFront<F>(a: seq<F>, x: F, b: seq<F>, y: F)
    requires a + [x] == b + [y]
    ensures a == b
  {
    assert a == (a + [x])[..|a|] && b == (b + [y])[..|b|];
    assert |a + [x]| == |b + [y]|;
  }

  lemma KeptWithoutLast<F>(persisted: seq<(nat, F)>, dropped: set<nat>, frames: seq<F>, f: F)
    requires |persisted| > 0 && |persisted| - 1 !in dropped && frames + [f] == Kept(persisted, dropped)
    ensures Kept(persisted, dropped + {|persisted| - 1}) == frames
  {
    var n := |persisted| - 1;
    assert persisted == persisted[..n] + [persisted[n]];
    KeptSnoc(persisted[..n], persisted[n], dropped);
    KeptSnoc(persisted[..n], persisted[n], dropped + {n});
    KeptSame(persisted[..n], dropped, dropped + {n});
    SameFront(frames, f, Kept(persisted[..n], dropped), persisted[n].1);
  }

  // ---- the object ----------------------------------------------------------

  /** The turn object; each method is one stretch between awaits. */
  class Turn<F> {
    var done: bool
    var frames: seq<F>
    var subscribers: seq<SubId>
    var subs: map<SubId, Sub<F>>
    var seqNo: nat
    var persisted: seq<(nat, F)>    // the calls of `persist`, in order
    ghost var inFlight: seq<F>      // the frame being persisted, if any
    ghost var dropped: set<nat>     // positions in `persisted` whose emit was cut off

    /** The subscriber list holds exactly the listed queues, each once; the persisted numbers count
        up from one, and the frames, the one in flight last, are what was persisted without the
        emits that were cut off. */
    ghost predicate Valid()
      reads this
    {
      && |inFlight| <= 1 && seqNo == |persisted|
      && (forall k :: 0 <= k < |persisted| ==> persisted[k].0 == k + 1)
      && (forall k <- dropped :: k < |persisted|)
      && frames + inFlight == Kept(persisted, dropped)
      && (inFlight != [] ==> |persisted| > 0 && |persisted| - 1 !in dropped)
      && (forall id <- subs :: subs[id].listed <==> id in subscribers)
      && (forall id <- subscribers :: id in subs)
      && (forall j, k :: 0 <= j < k < |subscribers| ==> subscribers[j] != subscribers[k])
    }

    ghost function View(): State<F>
      reads this
    {
      State(done, frames, subs)
    }

    constructor ()
      ensures Valid() && View() == State(false, [], map[]) && inFlight == [] && dropped == {}
    {
      done, frames, subscribers, subs := false, [], [], map[];
      seqNo, persisted, inFlight, dropped := 0, [], [], {};
    }

    method PutAll(item: Option<F>)
      requires Valid()
      modifies this`subs
      ensures Valid() && subs == PushAll(old(subs), item)
    {
      for k := 0 to |subscribers|
        invariant subs.Keys == old(subs).Keys
        invariant forall id <- subs ::
                    subs[id] == if id in subscribers[..k] then Pushed(old(subs)[id], item) else old(subs)[id]
      {
        var id := subscribers[k];
        assert subscribers[..k + 1] == subscribers[..k] + [id];
        subs := subs[id := subs[id].(queue := subs[id].queue + [item])];
      }
      assert subscribers[..|subscribers|] == subscribers;
      assert forall id <- subs :: subs[id] == Pushed(old(subs)[id], item);
    }

    /** Emitting first persists the frame under the next number; subscribers may join and read
        meanwhile, and see nothing of it. */
    method Persist(f: F)
      requires Valid() && !done && inFlight == []
      modifies this`seqNo, this`persisted, this`inFlight
      ensures Valid() && View() == old(View()) && inFlight == [f]
      ensures persisted == old(persisted) + [(|old(persisted)| + 1, f)]
    {
      KeptSnoc(persisted, (seqNo + 1, f), dropped);
      assert frames + [] == frames;
      seqNo := seqNo + 1;
      persisted := persisted + [(seqNo, f)];
      inFlight := [f];
    }

    /** A stop that arrives while the frame is being persisted: its number is used up, the frame may
        be stored, and no subscriber ever sees it. */
    method CutOff()
      requires Valid() && inFlight != []
      modifies this`inFlight, this`dropped
      ensures Valid() && View() == old(View()) && inFlight == []
      ensures dropped == old(dropped) + {|persisted| - 1}
    {
      assert inFlight == [inFlight[0]];
      KeptWithoutLast(persisted, dropped, frames, inFlight[0]);
      dropped := dropped + {|persisted| - 1};
      inFlight := [];
      assert frames + inFlight == frames;
    }

    /** What is stored and what was seen are the same exactly when no emit was cut off. */
    lemma SameExactly()
      requires Valid() && inFlight == []
      ensures |frames| == |persisted| <==> dropped == {}
      ensures dropped == {} ==> forall k :: 0 <= k < |frames| ==> persisted[k] == (k + 1, frames[k])
    {
      assert frames + inFlight == frames;
      KeptLength(persisted, dropped);
      if dropped == {} {
        KeptAll(persisted);
      }
    }

    /** ... and then stores it and hands it to every listed subscriber. */
    method Deliver(f: F)
      requires Valid() && !done && inFlight == [f]
      modifies this
      ensures Valid() && View() == Step(old(View()), Action.Emit(f))
      ensures inFlight == [] && persisted == old(persisted) && dropped == old(dropped)
    {
      frames, inFlight := frames + [f], [];
      assert frames + inFlight == old(frames + inFlight);
      PutAll(Some(f));
    }

    method Emit(f: F)
      requires Valid() && !done && inFlight == []
      modifies this
      ensures Valid() && View() == Step(old(View()), Action.Emit(f)) && inFlight == []
      ensures persisted == old(persisted) + [(|old(persisted)| + 1, f)]
    {
      Persist(f);
      Deliver(f);
    }

    method Close()
      requires Valid() && !done
      modifies this
      ensures Valid() && View() == Step(old(View()), Action.Close)
    {
      done := true;
      PutAll(None);
    }

    method Join(id: SubId)
      requires Valid() && id !in subs
      modifies this
      ensures Valid() && View() == Step(old(View()), Action.Join(id))
    {
      if !done {
        subscribers := subscribers + [id];
      }
      subs := subs[id := Sub(frames, !done, [], [], Replaying(0))];
    }

    /** Resume a subscriber; None when it has ended. */
    method Next(id: SubId) returns (item: Option<F>)
      requires Valid() && id in subs && Ready(done, subs[id])
      modifies this
      ensures Valid() && View() == Step(old(View()), Action.Read(id))
      ensures item.None? <==> subs[id].phase.Ended?
      ensures item.Some? ==> subs[id].yielded == old(subs)[id].yielded + [item.value]
    {
      var sub := subs[id];
      if sub.phase.Replaying? && sub.phase.next < |sub.snapshot| {
        item := Some(sub.snapshot[sub.phase.next]);
        subs := subs[id := sub.(yielded := sub.yielded + [item.value], phase := Replaying(sub.phase.next + 1))];
        return;
      }
      if sub.phase.Replaying? && done && id !in subscribers {
        subs := subs[id := sub.(phase := Ended)];
        return None;
      }
      item := sub.queue[0];
      if item.None? {
        subs := subs[id := sub.(queue := sub.queue[1..], listed := false, phase := Ended)];
        Remove(id);
      } else {
        subs := subs[id := sub.(queue := sub.queue[1..], yielded := sub.yielded + [item.value], phase := Live)];
      }
    }

    /** The generator's `finally`: its queue leaves the list. */
    method Remove(id: SubId)
      requires forall j, k :: 0 <= j < k < |subscribers| ==> subscribers[j] != subscribers[k]
      modifies this`subscribers
      ensures forall j :: j in subscribers <==> j in old(subscribers) && j != id
      ensures forall j, k :: 0 <= j < k < |subscribers| ==> subscribers[j] != subscribers[k]
    {
      for k := 0 to |subscribers|
        invariant subscribers == old(subscribers)
        invariant forall j :: 0 <= j < k ==> subscribers[j] != id
      {
        if subscribers[k] == id {
          subscribers := subscribers[..k] + subscribers[k + 1..];
          assert forall j :: 0 <= j < |subscribers| ==> subscribers[j] == old(subscribers)[if j < k then j else j + 1];
          return;
        }
      }
    }
  }
}
