/**
 Writing the repair back.  The graph state merges updates by message id: a message without
 an id gets a fresh one and goes to the end, a known id replaces in place, and a
 remove-everything marker drops what was there.  Nothing can be inserted in the middle, so
 the repair appends when it can and rewrites the thread otherwise.
 */
module ThreadStore {
  import opened Common
  import opened ThreadRepair

  /** Fresh ids for the messages that have none, in order. */
  function Minted(ms: seq<Message>, next: MessageId): seq<Message> {
    if |ms| == 0 then []
    else if ms[0].id.Some? then [ms[0]] + Minted(ms[1..], next)
    else [ms[0].(id := Some(next))] + Minted(ms[1..], next + 1)
  }

  function Unnamed(ms: seq<Message>): nat {
    if |ms| == 0 then 0 else (if ms[0].id.None? then 1 else 0) + Unnamed(ms[1..])
  }

  ghost predicate Valid(ms: seq<Message>, next: MessageId) {
    forall m <- ms :: m.id.Some? && m.id.value < next
  }

  /** Ids from elsewhere are older than the fresh ones. */
  predicate Fits(m: Message, next: MessageId) { m.id.None? || m.id.value < next }

  function Position(ms: seq<Message>, id: MessageId): (at: nat)
    ensures at <= |ms| && (at < |ms| ==> ms[at].id == Some(id))
    ensures forall k :: 0 <= k < at ==> ms[k].id != Some(id)
  {
    if |ms| == 0 || ms[0].id == Some(id) then 0 else 1 + Position(ms[1..], id)
  }

  function Placed(ms: seq<Message>, m: Message, next: MessageId): seq<Message> {
    if m.id.None? then ms + [m.(id := Some(next))]
    else
      var at := Position(ms, m.id.value);
      if at < |ms| then ms[at := m] else ms + [m]
  }

  /** The thread after an update. */
  function Merged(ms: seq<Message>, update: seq<Message>, next: MessageId): seq<Message> {
    if |update| == 0 then ms
    else
      var k := |update| - 1;
      Placed(Merged(ms, update[..k], next), update[k], next + Unnamed(update[..k]))
  }

  /** `out` is `ms` message by message, up to ids: all are named, names that were there are kept,
      and the new ones are taken in order from `from` up to `to`. */
  ghost predicate NamedFrom(ms: seq<Message>, out: seq<Message>, from: MessageId, to: MessageId) {
    && |out| == |ms|
    && (forall k :: 0 <= k < |ms| ==>
          && out[k].id.Some? && out[k].(id := None) == ms[k].(id := None)
          && (if ms[k].id.Some? then out[k] == ms[k] else from <= out[k].id.value < to))
    && (forall j, k :: 0 <= j < k < |ms| && ms[j].id.None? && ms[k].id.None? ==> out[j].id.value < out[k].id.value)
  }

  /** Writing a thread changes nothing but the missing ids. */
  lemma {:induction false} MintedIsNamed(ms: seq<Message>, next: MessageId)
    ensures NamedFrom(ms, Minted(ms, next), next, next + Unnamed(ms))
    decreases |ms|
  {
    if |ms| > 0 {
      var next' := if ms[0].id.None? then next + 1 else next;
      MintedIsNamed(ms[1..], next');
      var out, rest := Minted(ms, next), Minted(ms[1..], next');
      assert out == [out[0]] + rest;
      forall k | 0 < k < |ms|
        ensures out[k] == rest[k - 1] && ms[k] == ms[1..][k - 1]
      {
      }
    }
  }

  class Thread {
    var messages: seq<Message>
    var nextId: MessageId

    constructor ()
      ensures messages == [] && Valid(messages, nextId)
    {
      messages := [];
      nextId := 0;
    }

    /** `add_messages`: merge an update by id, message by message. */
    method AddMessages(update: seq<Message>)
      requires Valid(messages, nextId)
      modifies this
      ensures messages == Merged(old(messages), update, old(nextId))
      ensures nextId == old(nextId) + Unnamed(update)
      ensures (forall m <- update :: Fits(m, old(nextId))) ==> Valid(messages, nextId)
    {
      for k := 0 to |update|
        invariant messages == Merged(old(messages), update[..k], old(nextId))
        invariant nextId == old(nextId) + Unnamed(update[..k])
      {
        MergedStep(old(messages), update, k, old(nextId));
        AddMessage(update[k]);
      }
      assert update[..|update|] == update;
      if forall m <- update :: Fits(m, old(nextId)) {
        MergedValid(old(messages), update, old(nextId));
      }
    }

    method AddMessage(m: Message)
      modifies this
      ensures messages == Placed(old(messages), m, old(nextId))
      ensures nextId == old(nextId) + if m.id.None? then 1 else 0
    {
      if m.id.None? {
        messages, nextId := messages + [m.(id := Some(nextId))], nextId + 1;
      } else {
        var at := Find(messages, m.id.value);
        messages := if at < |messages| then messages[at := m] else messages + [m];
      }
    }

    /** An update that starts with the remove-everything marker: the thread is the update, every
        message named, known names kept and new ones fresh. */
    method RewriteAll(update: seq<Message>)
      modifies this
      ensures messages == Minted(update, old(nextId)) && NamedFrom(update, messages, old(nextId), nextId)
      ensures nextId == old(nextId) + Unnamed(update)
    {
      MintedIsNamed(update, nextId);
      messages, nextId := Minted(update, nextId), nextId + Unnamed(update);
    }

    /** Whichever way it writes, the thread ends up as the repaired history with fresh ids on
        the inserted answers; a thread that needs nothing is not written at all, and a
        repaired thread needs nothing. */
    method RepairDanglingToolCalls() returns (added: nat)
      requires Valid(messages, nextId)
      modifies this
      ensures messages == Minted(Repaired(old(messages)), old(nextId))
      ensures added == Repairs(old(messages), Answered(old(messages)))
      ensures added == 0 ==> messages == old(messages) && nextId == old(nextId)
      ensures Repaired(messages) == messages && Repairs(messages, Answered(messages)) == 0
      ensures Valid(messages, nextId)
    {
      MintedKeepsRepair(messages, nextId);
      if |messages| == 0 {
        return 0;
      }
      MintedSame(messages, [], nextId);
      assert messages + [] == messages;
      var fixed;
      fixed, added := RepairedMessages(messages);
      if added == 0 {
        return;
      }
      NoRepairs(messages, Answered(messages));
      FixedIds(messages, Answered(messages), nextId);
      MintedValid(fixed, nextId);
      if fixed[..|messages|] == messages {
        TailIsUnnamed(messages, Answered(messages));
        ghost var tail := fixed[|messages|..];
        assert fixed == messages + tail;
        MintedSame(messages, tail, nextId);
        MergedUnnamed(messages, tail, nextId);
        AddMessages(fixed[|messages|..]);
      } else {
        RewriteAll(fixed);
      }
    }
  }

  /** First position of a message with this id, or the length. */
  method Find(ms: seq<Message>, id: MessageId) returns (at: nat)
    ensures at == Position(ms, id)
    ensures at <= |ms|
    ensures at < |ms| ==> ms[at].id == Some(id)
    ensures forall k :: 0 <= k < at ==> ms[k].id != Some(id)
  {
    at := 0;
    while at < |ms| && ms[at].id != Some(id)
      invariant at <= |ms|
      invariant forall k :: 0 <= k < at ==> ms[k].id != Some(id)
    {
      at := at + 1;
    }
  }

  lemma UnnamedStep(ms: seq<Message>, k: nat)
    requires k < |ms|
    ensures Unnamed(ms[..k + 1]) == Unnamed(ms[..k]) + if ms[k].id.None? then 1 else 0
  {
    assert ms[..k + 1] == ms[..k] + [ms[k]];
    UnnamedSnoc(ms[..k], ms[k]);
  }

  lemma MergedStep(ms: seq<Message>, update: seq<Message>, k: nat, next: MessageId)
    requires k < |update|
    ensures Merged(ms, update[..k + 1], next) ==
            Placed(Merged(ms, update[..k], next), update[k], next + Unnamed(update[..k]))
    ensures Unnamed(update[..k + 1]) == Unnamed(update[..k]) + if update[k].id.None? then 1 else 0
  {
    assert update[..k + 1][..k] == update[..k];
    UnnamedStep(update, k);
  }

  lemma PlacedValid(ms: seq<Message>, m: Message, next: MessageId)
    requires Valid(ms, next) && Fits(m, next)
    ensures Valid(Placed(ms, m, next), next + if m.id.None? then 1 else 0)
  {
  }

  lemma {:induction false} MergedValid(ms: seq<Message>, update: seq<Message>, next: MessageId)
    requires Valid(ms, next) && forall m <- update :: Fits(m, next)
    ensures Valid(Merged(ms, update, next), next + Unnamed(update))
    decreases |update|
  {
    if |update| > 0 {
      var k := |update| - 1;
      MergedValid(ms, update[..k], next);
      assert update[k] in update;
      PlacedValid(Merged(ms, update[..k], next), update[k], next + Unnamed(update[..k]));
      UnnamedStep(update, k);
      assert update[..k + 1] == update;
    }
  }

  /** An update without ids is appended under fresh ones. */
  lemma {:induction false} MergedUnnamed(ms: seq<Message>, update: seq<Message>, next: MessageId)
    requires forall m <- update :: m.id.None?
    ensures Merged(ms, update, next) == ms + Minted(update, next)
    decreases |update|
  {
    if |update| > 0 {
      var front, m := update[..|update| - 1], update[|update| - 1];
      assert m in update && update == front + [m];
      MergedUnnamed(ms, front, next);
      MintedSnoc(front, m, next);
    }
  }

  lemma {:induction false} UnnamedSnoc(ms: seq<Message>, m: Message)
    ensures Unnamed(ms + [m]) == Unnamed(ms) + (if m.id.None? then 1 else 0)
    decreases |ms|
  {
    if |ms| == 0 {
      assert ms + [m] == [m] && [m][1..] == [];
    } else {
      assert (ms + [m])[1..] == ms[1..] + [m];
      UnnamedSnoc(ms[1..], m);
    }
  }

  lemma {:induction false} MintedSnoc(ms: seq<Message>, m: Message, next: MessageId)
    ensures Minted(ms + [m], next) ==
            Minted(ms, next) + [if m.id.None? then m.(id := Some(next + Unnamed(ms))) else m]
    decreases |ms|
  {
    if |ms| == 0 {
      assert ms + [m] == [m] && [m][1..] == [];
    } else {
      assert (ms + [m])[1..] == ms[1..] + [m];
      MintedSnoc(ms[1..], m, if ms[0].id.None? then next + 1 else next);
    }
  }

  /** Named messages keep their ids and their places. */
  lemma {:induction false} MintedSame(ms: seq<Message>, tail: seq<Message>, next: MessageId)
    requires forall m <- ms :: m.id.Some?
    ensures Minted(ms + tail, next) == ms + Minted(tail, next)
    decreases |ms|
  {
    if |ms| == 0 {
      assert ms + tail == tail;
    } else {
      assert (ms + tail)[1..] == ms[1..] + tail;
      MintedSame(ms[1..], tail, next);
      assert ms == [ms[0]] + ms[1..];
    }
  }

  lemma {:induction false} MintedPointwise(ms: seq<Message>, next: MessageId)
    ensures |Minted(ms, next)| == |ms|
    ensures forall k :: 0 <= k < |ms| ==> Minted(ms, next)[k] == ms[k].(id := Minted(ms, next)[k].id)
    decreases |ms|
  {
    if |ms| > 0 {
      MintedPointwise(ms[1..], if ms[0].id.None? then next + 1 else next);
    }
  }

  lemma {:induction false} MintedValid(ms: seq<Message>, next: MessageId)
    requires forall m <- ms :: m.id.Some? ==> m.id.value < next
    ensures Valid(Minted(ms, next), next + Unnamed(ms))
    decreases |ms|
  {
    if |ms| > 0 {
      MintedValid(ms[1..], if ms[0].id.None? then next + 1 else next);
    }
  }

  /** Ids play no part in what needs repair. */
  lemma MintedKeepsRepair(ms: seq<Message>, next: MessageId)
    ensures Repaired(Minted(Repaired(ms), next)) == Minted(Repaired(ms), next)
    ensures Repairs(Minted(Repaired(ms), next), Answered(Minted(Repaired(ms), next))) == 0
  {
    var out, fresh_ := Repaired(ms), Minted(Repaired(ms), next);
    RepairedIsClean(ms);
    MintedPointwise(out, next);
    forall id <- Answered(out)
      ensures id in Answered(fresh_)
    {
      var m :| m in out && m.Tool? && m.callId == id;
      var k :| 0 <= k < |out| && out[k] == m;
      assert fresh_[k] in fresh_ && fresh_[k].Tool? && fresh_[k].callId == id;
    }
    forall m <- fresh_ | m.AI?
      ensures m.invalid == [] && forall c <- m.calls :: c.id in Answered(fresh_)
    {
      var k :| 0 <= k < |fresh_| && fresh_[k] == m;
      assert out[k] in out && out[k].AI? && out[k].calls == m.calls && out[k].invalid == m.invalid;
    }
    CleanIsFixed(fresh_, Answered(fresh_));
    NoRepairs(fresh_, Answered(fresh_));
  }

  lemma {:induction false} FixedIds(ms: seq<Message>, answered: set<CallId>, next: MessageId)
    requires Valid(ms, next)
    ensures forall m <- FixAll(ms, answered) :: m.id.Some? ==> m.id.value < next
    decreases |ms|
  {
    if |ms| > 0 {
      FixedIds(ms[1..], answered, next);
      if ms[0].AI? {
        AnswersAreTools(ms[0].calls, answered);
      }
    }
  }

  function Named(ms: seq<Message>): nat {
    if |ms| == 0 then 0 else (if ms[0].id.Some? then 1 else 0) + Named(ms[1..])
  }

  lemma {:induction false} NamedAppend(a: seq<Message>, b: seq<Message>)
    ensures Named(a + b) == Named(a) + Named(b)
    ensures (forall m <- a :: m.id.Some?) ==> Named(a) == |a|
    ensures (forall m <- a :: m.id.None?) <==> Named(a) == 0
    decreases |a|
  {
    if |a| == 0 {
      assert a + b == b;
    } else {
      assert (a + b)[1..] == a[1..] + b;
      NamedAppend(a[1..], b);
      assert a == [a[0]] + a[1..];
    }
  }

  lemma {:induction false} FixAllNamed(ms: seq<Message>, answered: set<CallId>)
    requires forall m <- ms :: m.id.Some?
    ensures Named(FixAll(ms, answered)) == |ms|
    decreases |ms|
  {
    if |ms| > 0 {
      FixAllNamed(ms[1..], answered);
      var answers := if ms[0].AI? then Answers(ms[0].calls, answered) else [];
      if ms[0].AI? {
        AnswersAreTools(ms[0].calls, answered);
      }
      NamedAppend(answers, []);
      NamedAppend([Sanitized(ms[0])], answers);
      NamedAppend(Fixed(ms[0], answered), FixAll(ms[1..], answered));
      assert [Sanitized(ms[0])][1..] == [];
    }
  }

  /** If the thread is a prefix of its repair, the repair only adds new messages at the end. */
  lemma TailIsUnnamed(ms: seq<Message>, answered: set<CallId>)
    requires forall m <- ms :: m.id.Some?
    requires |FixAll(ms, answered)| >= |ms| && FixAll(ms, answered)[..|ms|] == ms
    ensures forall m <- FixAll(ms, answered)[|ms|..] :: m.id.None?
  {
    var fixed := FixAll(ms, answered);
    FixAllNamed(ms, answered);
    NamedAppend(ms, []);
    UnnamedRest(ms, fixed);
  }

  lemma UnnamedRest(ms: seq<Message>, fixed: seq<Message>)
    requires |fixed| >= |ms| && fixed[..|ms|] == ms && Named(fixed) == Named(ms)
    ensures forall m <- fixed[|ms|..] :: m.id.None?
  {
    var tail := fixed[|ms|..];
    assert fixed == ms + tail;
    NamedAppend(ms, tail);
    NamedAppend(tail, []);
  }
}
