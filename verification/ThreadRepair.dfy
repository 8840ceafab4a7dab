/**
 Repair of an instance's chat thread before a turn.

 A turn that was cut off leaves an AI message whose tool calls have no answers, or whose
 calls were truncated; providers reject such a history for good.  The repair answers
 every dangling call right after its AI message and drops truncated calls with a note.
 */
module ThreadRepair {
  import opened Common
  import opened Sequences
  import Strings = Text

  type CallId = string
  type MessageId = nat

  datatype Call = Call(id: CallId, name: string)

  /** Content is a string or a list of provider blocks. */
  datatype Block = TextBlock(text: string) | OtherBlock
  datatype Content = Text(text: string) | Blocks(blocks: seq<Block>)

  datatype Message =
    | AI(id: Option<MessageId>, content: Content, calls: seq<Call>, invalid: seq<Call>)
    | Tool(id: Option<MessageId>, callId: CallId, name: string, content: Content)
    | Other(id: Option<MessageId>, content: Content)

  const CANCELLED: string :=
    "tool call was cancelled before it produced a result (turn interrupted); do not assume it ran"

  const TRUNCATED: string :=
    "[a tool call was truncated by the output token limit and dropped; re-issue it in a shorter form]"

  // ---- what the repair computes -------------------------------------------

  function PlainText(c: Content): string {
    match c
    case Text(t) => t
    case Blocks(bs) => BlocksText(bs)
  }

  function BlocksText(bs: seq<Block>): string {
    if |bs| == 0 then [] else (if bs[0].TextBlock? then bs[0].text else []) + BlocksText(bs[1..])
  }

  /** An AI message with truncated calls loses them and gains the note. */
  function Sanitized(m: Message): Message {
    if m.AI? && m.invalid != [] then
      var text := Strings.Strip(PlainText(m.content));
      m.(content := Text(if text == "" then TRUNCATED else text + "\n\n" + TRUNCATED), invalid := [])
    else m
  }

  function Answer(c: Call): Message { Tool(None, c.id, c.name, Text(CANCELLED)) }

  /** Ids answered anywhere in the thread. */
  function Answered(ms: seq<Message>): set<CallId> {
    set m | m in ms && m.Tool? :: m.callId
  }

  function Answers(calls: seq<Call>, answered: set<CallId>): seq<Message> {
    if |calls| == 0 then []
    else (if calls[0].id in answered then [] else [Answer(calls[0])]) + Answers(calls[1..], answered)
  }

  function Fixed(m: Message, answered: set<CallId>): seq<Message> {
    [Sanitized(m)] + (if m.AI? then Answers(m.calls, answered) else [])
  }

  function FixAll(ms: seq<Message>, answered: set<CallId>): seq<Message> {
    if |ms| == 0 then [] else Fixed(ms[0], answered) + FixAll(ms[1..], answered)
  }

  function Repaired(ms: seq<Message>): seq<Message> { FixAll(ms, Answered(ms)) }

  function Cost(m: Message, answered: set<CallId>): nat {
    if m.AI? then (if m.invalid != [] then 1 else 0) + |Answers(m.calls, answered)| else 0
  }

  function Repairs(ms: seq<Message>, answered: set<CallId>): nat {
    if |ms| == 0 then 0 else Cost(ms[0], answered) + Repairs(ms[1..], answered)
  }

  // ---- the loop -----------------------------------------------------------

  lemma {:induction false} FixAllSnoc(ms: seq<Message>, m: Message, answered: set<CallId>)
    ensures FixAll(ms + [m], answered) == FixAll(ms, answered) + Fixed(m, answered)
    ensures Repairs(ms + [m], answered) == Repairs(ms, answered) + Cost(m, answered)
    decreases |ms|
  {
    if |ms| == 0 {
      assert ms + [m] == [m] && [m][1..] == [];
    } else {
      assert (ms + [m])[1..] == ms[1..] + [m];
      FixAllSnoc(ms[1..], m, answered);
    }
  }

  lemma {:induction false} AnswersSnoc(calls: seq<Call>, c: Call, answered: set<CallId>)
    ensures Answers(calls + [c], answered) ==
            Answers(calls, answered) + (if c.id in answered then [] else [Answer(c)])
    decreases |calls|
  {
    if |calls| == 0 {
      assert calls + [c] == [c] && [c][1..] == [];
    } else {
      assert (calls + [c])[1..] == calls[1..] + [c];
      AnswersSnoc(calls[1..], c, answered);
    }
  }

  /** One pass over the thread: the repaired thread and the number of repairs, which is zero
      exactly when the thread needs none. */
  method RepairedMessages(messages: seq<Message>) returns (out: seq<Message>, added: nat)
    ensures out == Repaired(messages)
    ensures added == Repairs(messages, Answered(messages))
    ensures added == |out| - |messages| + Truncated(messages)
    ensures added == 0 <==> out == messages
  {
    var answered := Answered(messages);
    out, added := [], 0;
    for k := 0 to |messages|
      invariant out == FixAll(messages[..k], answered)
      invariant added == Repairs(messages[..k], answered)
    {
      var m := messages[k];
      if m.AI? && m.invalid != [] {
        var text := Strings.Strip(PlainText(m.content));
        m := m.(content := Text(if text == "" then TRUNCATED else text + "\n\n" + TRUNCATED), invalid := []);
        added := added + 1;
      }
      out := out + [m];
      if m.AI? {
        var answers := AnswerCalls(m.calls, answered);
        out, added := out + answers, added + |answers|;
      }
      FixAllSnoc(messages[..k], messages[k], answered);
      assert messages[..k + 1] == messages[..k] + [messages[k]];
    }
    assert messages[..|messages|] == messages;
    RepairsCount(messages, answered);
    FixAllLength(messages, answered);
    NoRepairs(messages, answered);
  }

  /** The answers that a message's calls lack. */
  method AnswerCalls(calls: seq<Call>, answered: set<CallId>) returns (out: seq<Message>)
    ensures out == Answers(calls, answered)
  {
    out := [];
    for j := 0 to |calls|
      invariant out == Answers(calls[..j], answered)
    {
      AnswersSnoc(calls[..j], calls[j], answered);
      assert calls[..j + 1] == calls[..j] + [calls[j]];
      if calls[j].id !in answered {
        out := out + [Tool(None, calls[j].id, calls[j].name, Text(CANCELLED))];
      }
    }
    assert calls[..|calls|] == calls;
  }

  /** No repairs is the same as no change. */
  lemma {:induction false} NoRepairs(ms: seq<Message>, answered: set<CallId>)
    ensures |FixAll(ms, answered)| >= |ms|
    ensures Repairs(ms, answered) == 0 <==> FixAll(ms, answered) == ms
    decreases |ms|
  {
    if |ms| > 0 {
      NoRepairs(ms[1..], answered);
      var head, rest := Fixed(ms[0], answered), FixAll(ms[1..], answered);
      if head + rest == ms {
        assert |head| == 1;
        assert (head + rest)[0] == head[0] && (head + rest)[1..] == rest;
      }
    }
  }

  // ---- accepted by the provider -------------------------------------------

  /** The answer to `id` sits in the run of tool messages that starts `ms`. */
  predicate AnsweredAhead(ms: seq<Message>, id: CallId) {
    |ms| > 0 && ms[0].Tool? && (ms[0].callId == id || AnsweredAhead(ms[1..], id))
  }

  /** Every tool call is answered in the block right after its AI message, and none is truncated. */
  predicate Accepted(ms: seq<Message>) {
    |ms| == 0 || (
      && (ms[0].AI? ==> ms[0].invalid == [] && forall c <- ms[0].calls :: AnsweredAhead(ms[1..], c.id))
      && Accepted(ms[1..]))
  }

  /** Every call that is answered at all is answered right after its AI message. */
  predicate WellPlaced(ms: seq<Message>, answered: set<CallId>) {
    |ms| == 0 || (
      && (ms[0].AI? ==> forall c <- ms[0].calls :: c.id in answered ==> AnsweredAhead(ms[1..], c.id))
      && WellPlaced(ms[1..], answered))
  }

  lemma {:induction false} AheadInFixed(ms: seq<Message>, answered: set<CallId>, id: CallId)
    ensures AnsweredAhead(FixAll(ms, answered), id) <==> AnsweredAhead(ms, id)
    decreases |ms|
  {
    if |ms| > 0 {
      var out := FixAll(ms, answered);
      assert out[0] == Sanitized(ms[0]);
      if ms[0].Tool? {
        assert out[1..] == FixAll(ms[1..], answered);
        AheadInFixed(ms[1..], answered, id);
      }
    }
  }

  lemma {:induction false} AheadPastAnswers(calls: seq<Call>, answered: set<CallId>, rest: seq<Message>, id: CallId)
    ensures AnsweredAhead(Answers(calls, answered) + rest, id) <==>
            (id !in answered && (exists c <- calls :: c.id == id)) || AnsweredAhead(rest, id)
    decreases |calls|
  {
    if |calls| == 0 {
      assert Answers(calls, answered) + rest == rest;
    } else {
      AheadPastAnswers(calls[1..], answered, rest, id);
      assert calls == [calls[0]] + calls[1..];
      if calls[0].id in answered {
        assert Answers(calls, answered) == Answers(calls[1..], answered);
      } else {
        var all := Answers(calls, answered) + rest;
        assert all[0] == Answer(calls[0]) && all[1..] == Answers(calls[1..], answered) + rest;
      }
    }
  }

  lemma AcceptedTool(m: Message, rest: seq<Message>)
    requires m.Tool?
    ensures Accepted([m] + rest) <==> Accepted(rest)
  {
    assert ([m] + rest)[1..] == rest;
  }

  lemma {:induction false} AcceptedPastAnswers(calls: seq<Call>, answered: set<CallId>, rest: seq<Message>)
    ensures Accepted(Answers(calls, answered) + rest) <==> Accepted(rest)
    decreases |calls|
  {
    if |calls| == 0 {
      assert Answers(calls, answered) + rest == rest;
    } else {
      AcceptedPastAnswers(calls[1..], answered, rest);
      var more := Answers(calls[1..], answered) + rest;
      if calls[0].id in answered {
        assert Answers(calls, answered) == Answers(calls[1..], answered);
      } else {
        Associative([Answer(calls[0])], Answers(calls[1..], answered), rest);
        AcceptedTool(Answer(calls[0]), more);
      }
    }
  }

  lemma CallsAhead(calls: seq<Call>, ms: seq<Message>, answered: set<CallId>)
    ensures (forall c <- calls :: AnsweredAhead(Answers(calls, answered) + FixAll(ms, answered), c.id)) <==>
            (forall c <- calls :: c.id in answered ==> AnsweredAhead(ms, c.id))
  {
    forall c <- calls
      ensures AnsweredAhead(Answers(calls, answered) + FixAll(ms, answered), c.id) <==>
              c.id !in answered || AnsweredAhead(ms, c.id)
    {
      AheadPastAnswers(calls, answered, FixAll(ms, answered), c.id);
      AheadInFixed(ms, answered, c.id);
    }
  }

  lemma AcceptedHead(m: Message, tail: seq<Message>)
    ensures Accepted([m] + tail) <==>
            (m.AI? ==> m.invalid == [] && forall c <- m.calls :: AnsweredAhead(tail, c.id)) && Accepted(tail)
  {
    assert ([m] + tail)[1..] == tail;
  }

  lemma FixedHead(m: Message, ms: seq<Message>, answered: set<CallId>)
    ensures var tail := (if m.AI? then Answers(m.calls, answered) else []) + FixAll(ms, answered);
            && FixAll([m] + ms, answered) == [Sanitized(m)] + tail
            && (Accepted(tail) <==> Accepted(FixAll(ms, answered)))
  {
    assert ([m] + ms)[1..] == ms;
    var rest := FixAll(ms, answered);
    if m.AI? {
      AcceptedPastAnswers(m.calls, answered, rest);
      Associative([Sanitized(m)], Answers(m.calls, answered), rest);
    } else {
      assert [] + rest == rest && [Sanitized(m)] + [] == [Sanitized(m)];
    }
  }

  lemma {:induction false} FixAllAccepted(ms: seq<Message>, answered: set<CallId>)
    ensures Accepted(FixAll(ms, answered)) <==> WellPlaced(ms, answered)
    decreases |ms|
  {
    if |ms| > 0 {
      var m, rest := ms[0], ms[1..];
      FixAllAccepted(rest, answered);
      assert ms == [m] + rest;
      FixedHead(m, rest, answered);
      AcceptedHead(Sanitized(m), (if m.AI? then Answers(m.calls, answered) else []) + FixAll(rest, answered));
      if m.AI? {
        CallsAhead(m.calls, rest, answered);
      }
    }
  }

  /** The repaired thread is one the provider accepts exactly when the answers already there
      sit right after their AI messages. */
  lemma RepairAccepted(ms: seq<Message>)
    ensures Accepted(Repaired(ms)) <==> WellPlaced(ms, Answered(ms))
  {
    FixAllAccepted(ms, Answered(ms));
  }

  /** An answer after another message is counted as an answer but left where it is. */
  lemma MisplacedAnswerStaysMisplaced()
    ensures var ms := [AI(Some(0), Text(""), [Call("c1", "probe")], []),
                       Other(Some(1), Text("hi")),
                       Tool(Some(2), "c1", "probe", Text("ok"))];
            Repaired(ms) == ms && !Accepted(Repaired(ms))
  {
    var a, o, t := AI(Some(0), Text(""), [Call("c1", "probe")], []), Other(Some(1), Text("hi")),
        Tool(Some(2), "c1", "probe", Text("ok"));
    var ms := [a, o, t];
    assert ms[2] in ms && "c1" in Answered(ms);
    assert Answers(a.calls, Answered(ms)) == [];
    assert ms[1..] == [o, t] && [o, t][1..] == [t] && [t][1..] == [];
    assert FixAll([t], Answered(ms)) == [t];
    assert FixAll([o, t], Answered(ms)) == [o, t];
    assert Repaired(ms) == ms;
    assert !AnsweredAhead(ms[1..], "c1");
    assert a.calls[0] in ms[0].calls;
  }

  // ---- originals survive ---------------------------------------------------

  function SanitizedAll(ms: seq<Message>): seq<Message> {
    if |ms| == 0 then [] else [Sanitized(ms[0])] + SanitizedAll(ms[1..])
  }

  /** Drop the tool messages whose id nobody had answered. */
  function Erased(ms: seq<Message>, answered: set<CallId>): seq<Message> {
    if |ms| == 0 then []
    else (if ms[0].Tool? && ms[0].callId !in answered then [] else [ms[0]]) + Erased(ms[1..], answered)
  }

  lemma {:induction false} ErasedAppend(a: seq<Message>, b: seq<Message>, answered: set<CallId>)
    ensures Erased(a + b, answered) == Erased(a, answered) + Erased(b, answered)
    decreases |a|
  {
    if |a| == 0 {
      assert a + b == b;
    } else {
      assert (a + b)[1..] == a[1..] + b;
      ErasedAppend(a[1..], b, answered);
      var first := if a[0].Tool? && a[0].callId !in answered then [] else [a[0]];
      Associative(first, Erased(a[1..], answered), Erased(b, answered));
    }
  }

  lemma {:induction false} AnswersErased(calls: seq<Call>, answered: set<CallId>)
    ensures Erased(Answers(calls, answered), answered) == []
    decreases |calls|
  {
    if |calls| > 0 {
      AnswersErased(calls[1..], answered);
      if calls[0].id !in answered {
        assert Answers(calls, answered)[1..] == Answers(calls[1..], answered);
      } else {
        assert Answers(calls, answered) == Answers(calls[1..], answered);
      }
    }
  }

  lemma {:induction false} FixAllErased(ms: seq<Message>, answered: set<CallId>)
    requires forall m <- ms :: m.Tool? ==> m.callId in answered
    ensures Erased(FixAll(ms, answered), answered) == SanitizedAll(ms)
    decreases |ms|
  {
    if |ms| > 0 {
      FixAllErased(ms[1..], answered);
      ErasedAppend(Fixed(ms[0], answered), FixAll(ms[1..], answered), answered);
      var answers := if ms[0].AI? then Answers(ms[0].calls, answered) else [];
      ErasedAppend([Sanitized(ms[0])], answers, answered);
      if ms[0].AI? {
        AnswersErased(ms[0].calls, answered);
      }
      assert ms[0] in ms;
      assert [Sanitized(ms[0])][1..] == [];
      assert Erased([Sanitized(ms[0])], answered) == [Sanitized(ms[0])];
    }
  }

  /** Erasing the inserted answers gives back the sanitized originals in order. */
  lemma OriginalsSurvive(ms: seq<Message>)
    ensures Erased(Repaired(ms), Answered(ms)) == SanitizedAll(ms)
  {
    FixAllErased(ms, Answered(ms));
  }

  // ---- what is inserted and what is rewritten ------------------------------

  /** The calls of a thread that nobody answered, in order and as often as they were made. */
  function Unanswered(calls: seq<Call>, answered: set<CallId>): seq<Call> {
    if |calls| == 0 then []
    else Unanswered(calls[..|calls| - 1], answered)
         + if calls[|calls| - 1].id in answered then [] else [calls[|calls| - 1]]
  }

  function AllUnanswered(ms: seq<Message>, answered: set<CallId>): seq<Call> {
    if |ms| == 0 then []
    else AllUnanswered(ms[..|ms| - 1], answered)
         + if ms[|ms| - 1].AI? then Unanswered(ms[|ms| - 1].calls, answered) else []
  }

  /** The tool messages whose id nobody had answered. */
  function Inserted(ms: seq<Message>, answered: set<CallId>): seq<Message> {
    if |ms| == 0 then []
    else (if ms[0].Tool? && ms[0].callId !in answered then [ms[0]] else []) + Inserted(ms[1..], answered)
  }

  /** The messages answer the calls one by one, and say that the calls were cancelled. */
  ghost predicate AnswerEach(answers: seq<Message>, calls: seq<Call>) {
    && |answers| == |calls|
    && forall k :: 0 <= k < |calls| ==>
         && answers[k].Tool? && answers[k].id.None? && answers[k].content == Text(CANCELLED)
         && answers[k].callId == calls[k].id && answers[k].name == calls[k].name
  }

  lemma {:induction false} AnswersAnswer(calls: seq<Call>, answered: set<CallId>)
    ensures AnswerEach(Answers(calls, answered), Unanswered(calls, answered))
    ensures Inserted(Answers(calls, answered), answered) == Answers(calls, answered)
    decreases |calls|
  {
    if |calls| > 0 {
      var front, c := calls[..|calls| - 1], calls[|calls| - 1];
      AnswersAnswer(front, answered);
      assert calls == front + [c];
      AnswersSnoc(front, c, answered);
      if c.id in answered {
        assert Answers(calls, answered) == Answers(front, answered);
        assert Unanswered(calls, answered) == Unanswered(front, answered);
      } else {
        InsertedAppend(Answers(front, answered), [Answer(c)], answered);
        assert [Answer(c)][1..] == [];
        assert Inserted([Answer(c)], answered) == [Answer(c)];
      }
    }
  }

  lemma {:induction false} InsertedAppend(a: seq<Message>, b: seq<Message>, answered: set<CallId>)
    ensures Inserted(a + b, answered) == Inserted(a, answered) + Inserted(b, answered)
    decreases |a|
  {
    if |a| == 0 {
      assert a + b == b;
    } else {
      assert (a + b)[1..] == a[1..] + b;
      InsertedAppend(a[1..], b, answered);
      var first := if a[0].Tool? && a[0].callId !in answered then [a[0]] else [];
      Associative(first, Inserted(a[1..], answered), Inserted(b, answered));
    }
  }

  lemma FixedInserts(m: Message, answered: set<CallId>)
    requires m.Tool? ==> m.callId in answered
    ensures Inserted(Fixed(m, answered), answered) == AnswersOf(m, answered)
  {
    var answers := AnswersOf(m, answered);
    InsertedAppend([Sanitized(m)], answers, answered);
    assert [Sanitized(m)][1..] == [];
    assert Inserted([Sanitized(m)], answered) == [];
    if m.AI? {
      AnswersAnswer(m.calls, answered);
    }
  }

  lemma {:induction false} FixAllInserts(ms: seq<Message>, answered: set<CallId>)
    requires forall m <- ms :: m.Tool? ==> m.callId in answered
    ensures AnswerEach(Inserted(FixAll(ms, answered), answered), AllUnanswered(ms, answered))
    decreases |ms|
  {
    if |ms| > 0 {
      var front, m := ms[..|ms| - 1], ms[|ms| - 1];
      FixAllInserts(front, answered);
      assert ms == front + [m];
      InsertsSnoc(front, m, answered);
      var answers, calls := AnswersOf(m, answered), if m.AI? then Unanswered(m.calls, answered) else [];
      if m.AI? {
        AnswersAnswer(m.calls, answered);
      }
      AnswerBoth(Inserted(FixAll(front, answered), answered), AllUnanswered(front, answered), answers, calls);
    }
  }

  function AnswersOf(m: Message, answered: set<CallId>): seq<Message> {
    if m.AI? then Answers(m.calls, answered) else []
  }

  lemma InsertsSnoc(front: seq<Message>, m: Message, answered: set<CallId>)
    requires m.Tool? ==> m.callId in answered
    ensures Inserted(FixAll(front + [m], answered), answered) ==
            Inserted(FixAll(front, answered), answered) + AnswersOf(m, answered)
  {
    FixAllSnoc(front, m, answered);
    InsertedAppend(FixAll(front, answered), Fixed(m, answered), answered);
    FixedInserts(m, answered);
  }

  lemma AnswerBoth(a: seq<Message>, cs: seq<Call>, b: seq<Message>, ds: seq<Call>)
    requires AnswerEach(a, cs) && AnswerEach(b, ds)
    ensures AnswerEach(a + b, cs + ds)
  {
  }

  /** The repair inserts one cancellation for every call that nobody answered, in call order,
      under the call's id and tool, and no other message. */
  lemma InsertedExactly(ms: seq<Message>)
    ensures AnswerEach(Inserted(Repaired(ms), Answered(ms)), AllUnanswered(ms, Answered(ms)))
    ensures |Repaired(ms)| == |ms| + |AllUnanswered(ms, Answered(ms))|
  {
    FixAllInserts(ms, Answered(ms));
    FixAllLength(ms, Answered(ms));
  }

  lemma {:induction false} FixAllLength(ms: seq<Message>, answered: set<CallId>)
    ensures |FixAll(ms, answered)| == |ms| + |AllUnanswered(ms, answered)|
    decreases |ms|
  {
    if |ms| > 0 {
      var front, m := ms[..|ms| - 1], ms[|ms| - 1];
      FixAllLength(front, answered);
      assert ms == front + [m];
      FixAllSnoc(front, m, answered);
      if m.AI? {
        AnswersAnswer(m.calls, answered);
      }
    }
  }

  /** Messages whose truncated calls are dropped. */
  function Truncated(ms: seq<Message>): nat {
    if |ms| == 0 then 0
    else Truncated(ms[..|ms| - 1]) + if ms[|ms| - 1].AI? && ms[|ms| - 1].invalid != [] then 1 else 0
  }

  /** The count of repairs: one for each inserted message and each message rewritten. */
  lemma {:induction false} RepairsCount(ms: seq<Message>, answered: set<CallId>)
    ensures Repairs(ms, answered) == |AllUnanswered(ms, answered)| + Truncated(ms)
    decreases |ms|
  {
    if |ms| > 0 {
      var front, m := ms[..|ms| - 1], ms[|ms| - 1];
      RepairsCount(front, answered);
      assert ms == front + [m];
      FixAllSnoc(front, m, answered);
      if m.AI? {
        AnswersAnswer(m.calls, answered);
      }
    }
  }

  /** The text of provider blocks is that of its text blocks, in order. */
  lemma {:induction false} BlocksAppend(a: seq<Block>, b: seq<Block>)
    ensures BlocksText(a + b) == BlocksText(a) + BlocksText(b)
    decreases |a|
  {
    if |a| == 0 {
      assert a + b == b;
    } else {
      assert (a + b)[1..] == a[1..] + b;
      BlocksAppend(a[1..], b);
    }
  }

  lemma OneBlock(b: Block)
    ensures BlocksText([b]) == if b.TextBlock? then b.text else ""
  {
    assert [b][1..] == [];
  }

  /** `kept` is the text without the blanks around it. */
  ghost predicate Trimmed(text: string, kept: string) {
    && Strings.Padded(text, kept)
    && (|kept| > 0 ==> !Strings.IsSpace(kept[0]) && !Strings.IsSpace(kept[|kept| - 1]))
  }

  /** The text and, behind an empty line if there is any, the note. */
  ghost predicate Noted(text: string, out: string) {
    exists kept: string :: Trimmed(text, kept) && out == (if kept == "" then TRUNCATED else kept + "\n\n" + TRUNCATED)
  }

  /** A message is rewritten exactly when it is an AI message with truncated calls; it keeps its
      id, its other calls and its text up to the blanks around it, and ends in the note. */
  lemma TextSurvives(m: Message)
    ensures Sanitized(m) != m <==> m.AI? && m.invalid != []
    ensures var s := Sanitized(m);
            m.AI? && m.invalid != [] ==>
              && s.AI? && s.id == m.id && s.calls == m.calls && s.invalid == [] && s.content.Text?
              && Noted(PlainText(m.content), s.content.text)
  {
    if m.AI? && m.invalid != [] {
      var text := PlainText(m.content);
      Strings.StripExactly(text);
      assert Trimmed(text, Strings.Strip(text));
    }
  }

  // ---- idempotence ---------------------------------------------------------

  predicate AllAnswered(ms: seq<Message>, answered: set<CallId>) {
    forall m <- ms :: m.AI? ==> m.invalid == [] && forall c <- m.calls :: c.id in answered
  }

  lemma {:induction false} CleanIsFixed(ms: seq<Message>, answered: set<CallId>)
    requires AllAnswered(ms, answered)
    ensures FixAll(ms, answered) == ms
    decreases |ms|
  {
    if |ms| > 0 {
      CleanIsFixed(ms[1..], answered);
      if ms[0].AI? {
        AllAnsweredCalls(ms[0].calls, answered);
      }
    }
  }

  lemma {:induction false} AllAnsweredCalls(calls: seq<Call>, answered: set<CallId>)
    requires forall c <- calls :: c.id in answered
    ensures Answers(calls, answered) == []
    decreases |calls|
  {
    if |calls| > 0 {
      AllAnsweredCalls(calls[1..], answered);
    }
  }

  lemma {:induction false} AnswersContain(calls: seq<Call>, answered: set<CallId>, c: Call)
    requires c in calls && c.id !in answered
    ensures Answer(c) in Answers(calls, answered)
    decreases |calls|
  {
    if calls[0] != c {
      AnswersContain(calls[1..], answered, c);
    }
  }

  lemma {:induction false} AnswersAreTools(calls: seq<Call>, answered: set<CallId>)
    ensures forall m <- Answers(calls, answered) :: m.Tool? && m.id.None?
    decreases |calls|
  {
    if |calls| > 0 {
      AnswersAreTools(calls[1..], answered);
    }
  }

  /** What the repaired thread consists of. */
  lemma {:induction false} FixAllAnswers(ms: seq<Message>, answered: set<CallId>)
    ensures forall m <- ms :: Sanitized(m) in FixAll(ms, answered)
    ensures forall m <- FixAll(ms, answered) :: m.AI? ==>
              m.invalid == [] && forall c <- m.calls :: c.id in answered || Answer(c) in FixAll(ms, answered)
    decreases |ms|
  {
    if |ms| > 0 {
      FixAllAnswers(ms[1..], answered);
      var head, rest := Fixed(ms[0], answered), FixAll(ms[1..], answered);
      if ms[0].AI? {
        AnswersAreTools(ms[0].calls, answered);
        forall c <- ms[0].calls | c.id !in answered
          ensures Answer(c) in head
        {
          AnswersContain(ms[0].calls, answered, c);
        }
      }
      assert head[0] == Sanitized(ms[0]);
      assert FixAll(ms, answered) == head + rest;
    }
  }

  lemma RepairedIsClean(ms: seq<Message>)
    ensures AllAnswered(Repaired(ms), Answered(Repaired(ms)))
  {
    var out := Repaired(ms);
    FixAllAnswers(ms, Answered(ms));
    forall id <- Answered(ms)
      ensures id in Answered(out)
    {
      var m :| m in ms && m.Tool? && m.callId == id;
      assert Sanitized(m) == m && m in out;
    }
    forall m <- out, c <- (if m.AI? then m.calls else [])
      ensures c.id in Answered(out)
    {
      if c.id !in Answered(ms) {
        assert Answer(c) in out && Answer(c).callId == c.id;
      }
    }
  }

  /** Repairing twice is repairing once, for every thread. */
  lemma RepairIdempotent(ms: seq<Message>)
    ensures Repaired(Repaired(ms)) == Repaired(ms)
    ensures Repairs(Repaired(ms), Answered(Repaired(ms))) == 0
  {
    RepairedIsClean(ms);
    CleanIsFixed(Repaired(ms), Answered(Repaired(ms)));
    NoRepairs(Repaired(ms), Answered(Repaired(ms)));
  }
}
