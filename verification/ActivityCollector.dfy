/** The frames of an activity turn and their token counts. */
module ActivityFrames {
  import opened Common

  datatype Tokens = Tokens(input: int, output: int) {
    function Plus(t: Tokens): Tokens { Tokens(input + t.input, output + t.output) }
  }

  const NoTokens := Tokens(0, 0)

  function OrZero(t: Option<Tokens>): Tokens { if t.Some? then t.value else NoTokens }

  datatype Status = Queued | Working | Done | Failed | Timeout

  datatype Kind = RunStarted | RunFinished | RunFailed | TaskStarted | TaskFinished | TaskFailed | TaskReport
                | NodeDone | ToolCall | ToolResult | TextLine | Chat

  datatype Frame = Frame(kind: Kind, taskId: Option<string>, description: Option<string>,
                         status: Option<Status>, findings: Option<nat>, tokens: Option<Tokens>)
  {
    predicate Work() { kind == ToolCall || kind == ToolResult || kind == TextLine }

    predicate Task() { kind == TaskStarted || kind == TaskFinished || kind == TaskFailed || kind == TaskReport }

    /** The subagent a frame speaks of; an empty id counts as none. */
    function Who(): Option<string> { if taskId == Some("") then None else taskId }
  }

  /** Whose spending is meant; the lead is `Only(None)`. */
  datatype Payer = Everyone | Only(who: Option<string>) {
    predicate Covers(w: Option<string>) { Everyone? || w == who }
  }

  function Paid(f: Frame, payer: Payer): Tokens {
    if f.Work() && payer.Covers(f.Who()) then OrZero(f.tokens) else NoTokens
  }

  /** What the work frames of a payer say they spent. */
  function Spent(frames: seq<Frame>, payer: Payer): Tokens {
    if |frames| == 0 then NoTokens
    else Spent(frames[..|frames| - 1], payer).Plus(Paid(frames[|frames| - 1], payer))
  }

  lemma {:induction false} SpentAppend(a: seq<Frame>, b: seq<Frame>, payer: Payer)
    ensures Spent(a + b, payer) == Spent(a, payer).Plus(Spent(b, payer))
    decreases |b|
  {
    if |b| == 0 {
      assert a + b == a;
    } else {
      assert (a + b)[..|a + b| - 1] == a + b[..|b| - 1];
      SpentAppend(a, b[..|b| - 1], payer);
    }
  }
}

/**
 The collector that turns the chunks of a graph run into activity frames, with its counter of
 findings and the status of every subagent.
 */
module ActivityCollector {
  import opened Common
  import opened ActivityFrames
  import Text

  // ---- chunks --------------------------------------------------------------

  datatype Field = Absent | Null | Number(n: int)

  datatype Usage = NoUsage | Usage(input: Field, output: Field, inputTokens: Field, outputTokens: Field)

  datatype Call = Call(name: string, line: string)

  datatype Message =
    | Ai(text: string, calls: seq<Call>, usage: Usage)
    | Tool(name: string, callId: string, content: string)
    | OtherMessage

  datatype NodeUpdate = NodeUpdate(node: string, messages: seq<Message>)

  datatype Outcome = Completed | Broken | TimedOut | Cancelled

  datatype Event =
    | Started(description: Option<string>)
    | AiStep(text: string, calls: seq<Call>, usage: Usage)
    | ToolStep(name: string, text: string)
    | OtherStep
    | Ended(outcome: Outcome, error: Option<string>, found: Option<nat>)
    | OtherEvent
  {
    predicate Running() { AiStep? || ToolStep? || OtherStep? }
  }

  datatype Chunk = Custom(taskId: string, event: Event) | Updates(nodes: seq<NodeUpdate>) | OtherChunk

  const REPORT_FINDING: string := "report_finding"
  const TASK: string := "task"
  const WORK_RESULT_CHARS := 800
  const WORK_TEXT_CHARS := 2000

  function Known(a: Field, b: Field): Field { if a.Absent? then b else a }

  function OrNought(f: Field): int { if f.Number? then f.n else 0 }

  function TokensOf(u: Usage): Option<Tokens> {
    if u.NoUsage? then None
    else
      var inp, out := Known(u.input, u.inputTokens), Known(u.output, u.outputTokens);
      if !inp.Number? && !out.Number? then None else Some(Tokens(OrNought(inp), OrNought(out)))
  }

  function Clip(text: string, limit: nat): string {
    var t := Text.Strip(text);
    if |t| <= limit then t else t[..limit] + "\U{2026}"
  }

  // ---- the frames of one message -------------------------------------------

  function TextFrame(who: Option<string>, text: string): Frame { Frame(TextLine, who, Some(text), None, None, None) }

  function CallFrames(who: Option<string>, calls: seq<Call>): seq<Frame> {
    if |calls| == 0 then []
    else
      CallFrames(who, calls[..|calls| - 1]) + [Frame(ToolCall, who, Some(calls[|calls| - 1].line), None, None, None)]
  }

  function ResultFrame(who: Option<string>, name: string, out: string): Frame {
    var line := (if name == "" then "tool" else name) + ": " + Clip(out, WORK_RESULT_CHARS);
    Frame(ToolResult, who, Some(line), None, None, None)
  }

  function WithTokens(frames: seq<Frame>, who: Option<string>, usage: Usage): seq<Frame> {
    match TokensOf(usage)
    case None => frames
    case Some(t) =>
      var shown := if |frames| == 0 then [TextFrame(who, "")] else frames;
      [shown[0].(tokens := Some(t))] + shown[1..]
  }

  function StrippedText(who: Option<string>, text: string): seq<Frame> {
    if Text.Strip(text) == "" then [] else [TextFrame(who, Clip(Text.Strip(text), WORK_TEXT_CHARS))]
  }

  function Output(who: Option<string>, result: Option<(string, string)>): seq<Frame> {
    if result.None? then [] else [ResultFrame(who, result.value.0, result.value.1)]
  }

  /** The work log of one message: its text, one line per call, its output; tokens on the first frame. */
  function WorkFrames(who: Option<string>, text: string, calls: seq<Call>, result: Option<(string, string)>,
                      usage: Usage): seq<Frame>
  {
    WithTokens(StrippedText(who, text) + CallFrames(who, calls) + Output(who, result), who, usage)
  }

  method Work(who: Option<string>, text: string, calls: seq<Call>, result: Option<(string, string)>, usage: Usage)
    returns (frames: seq<Frame>)
    ensures frames == WorkFrames(who, text, calls, result, usage)
  {
    frames := [];
    if Text.Strip(text) != "" {
      frames := [TextFrame(who, Clip(Text.Strip(text), WORK_TEXT_CHARS))];
    }
    ghost var first := StrippedText(who, text);
    for k := 0 to |calls|
      invariant frames == first + CallFrames(who, calls[..k])
    {
      assert calls[..k + 1][..k] == calls[..k];
      frames := frames + [Frame(ToolCall, who, Some(calls[k].line), None, None, None)];
    }
    assert calls[..|calls|] == calls;
    if result.Some? {
      frames := frames + [ResultFrame(who, result.value.0, result.value.1)];
    }
    assert frames == first + CallFrames(who, calls) + Output(who, result);
    frames := PutTokens(frames, who, usage);
  }

  /** An empty answer still spent its tokens: they get a frame of their own. */
  method PutTokens(lines: seq<Frame>, who: Option<string>, usage: Usage) returns (frames: seq<Frame>)
    ensures frames == WithTokens(lines, who, usage)
  {
    frames := lines;
    var tokens := TokensOf(usage);
    if tokens.Some? {
      if |frames| == 0 {
        frames := [TextFrame(who, "")];
      }
      frames := frames[0 := frames[0].(tokens := tokens)];
    }
  }

  // ---- what a stream emits -------------------------------------------------

  function MessageFrames(msg: Message): seq<Frame> {
    match msg
    case Ai(text, calls, usage) => WorkFrames(None, text, calls, None, usage)
    case Tool(name, callId, content) =>
      if name != TASK then WorkFrames(None, "", [], Some((name, content)), NoUsage)
      else if callId != "" then [Frame(TaskReport, Some(callId), Some(content), None, None, None)]
      else []
    case OtherMessage => []
  }

  function MessagesFrames(messages: seq<Message>): seq<Frame> {
    if |messages| == 0 then []
    else MessagesFrames(messages[..|messages| - 1]) + MessageFrames(messages[|messages| - 1])
  }

  function CountReports(calls: seq<Call>): nat {
    if |calls| == 0 then 0
    else CountReports(calls[..|calls| - 1]) + (if calls[|calls| - 1].name == REPORT_FINDING then 1 else 0)
  }

  function FoundBy(messages: seq<Message>): nat {
    if |messages| == 0 then 0
    else
      var m := messages[|messages| - 1];
      FoundBy(messages[..|messages| - 1]) + (if m.Ai? then CountReports(m.calls) else 0)
  }

  function FoundInNodes(nodes: seq<NodeUpdate>): nat {
    if |nodes| == 0 then 0 else FoundInNodes(nodes[..|nodes| - 1]) + FoundBy(nodes[|nodes| - 1].messages)
  }

  function NodeFrame(node: string, findings: nat): Frame {
    Frame(NodeDone, None, Some(node), Some(Done), Some(findings), None)
  }

  function NodesFrames(findings: nat, nodes: seq<NodeUpdate>): seq<Frame> {
    if |nodes| == 0 then []
    else
      var u := nodes[|nodes| - 1];
      NodesFrames(findings, nodes[..|nodes| - 1]) + MessagesFrames(u.messages)
      + [NodeFrame(u.node, findings + FoundInNodes(nodes))]
  }

  lemma NodesStep(findings: nat, front: seq<NodeUpdate>, u: NodeUpdate, nodes: seq<NodeUpdate>, frames: seq<Frame>)
    requires nodes == front + [u] && frames == MessagesFrames(u.messages)
    ensures FoundInNodes(nodes) == FoundInNodes(front) + FoundBy(u.messages)
    ensures NodesFrames(findings, nodes) ==
            NodesFrames(findings, front) + frames + [NodeFrame(u.node, findings + FoundInNodes(nodes))]
  {
    assert nodes[..|nodes| - 1] == front && nodes[|nodes| - 1] == u;
  }

  function EndKind(o: Outcome): Kind { if o.Completed? then TaskFinished else TaskFailed }

  function EndStatus(o: Outcome): Status {
    match o case Completed => Done case TimedOut => Timeout case _ => Failed
  }

  function CustomFrames(tasks: map<string, Status>, id: string, e: Event): seq<Frame> {
    if id == "" then []
    else if e.Started? then [Frame(TaskStarted, Some(id), e.description, Some(Queued), None, None)]
    else if e.Ended? then [Frame(EndKind(e.outcome), Some(id), e.error, Some(EndStatus(e.outcome)), e.found, None)]
    else if e.Running() then Woken(tasks, id) + StepFrames(id, e)
    else []
  }

  /** The first step of a queued subagent announces that it is working. */
  function Woken(tasks: map<string, Status>, id: string): seq<Frame> {
    if id in tasks && tasks[id] == Queued then [Frame(TaskStarted, Some(id), None, Some(Working), None, None)] else []
  }

  function StepFrames(id: string, e: Event): seq<Frame> {
    if e.AiStep? then WorkFrames(Some(id), e.text, e.calls, None, e.usage)
    else if e.ToolStep? then WorkFrames(Some(id), "", [], Some((e.name, e.text)), NoUsage)
    else []
  }

  function TasksAfter(tasks: map<string, Status>, c: Chunk): map<string, Status> {
    if !c.Custom? || c.taskId == "" then tasks
    else if c.event.Started? then tasks[c.taskId := Queued]
    else if c.event.Ended? then tasks[c.taskId := EndStatus(c.event.outcome)]
    else if c.event.Running() && c.taskId in tasks && tasks[c.taskId] == Queued then tasks[c.taskId := Working]
    else tasks
  }

  function ChunkFrames(findings: nat, tasks: map<string, Status>, c: Chunk): seq<Frame> {
    match c
    case Custom(id, e) => CustomFrames(tasks, id, e)
    case Updates(nodes) => NodesFrames(findings, nodes)
    case OtherChunk => []
  }

  /** Findings the lead reported over a stream. */
  function Found(chunks: seq<Chunk>): nat {
    if |chunks| == 0 then 0
    else
      var c := chunks[|chunks| - 1];
      Found(chunks[..|chunks| - 1]) + (if c.Updates? then FoundInNodes(c.nodes) else 0)
  }

  function Tasks(chunks: seq<Chunk>): map<string, Status> {
    if |chunks| == 0 then map[] else TasksAfter(Tasks(chunks[..|chunks| - 1]), chunks[|chunks| - 1])
  }

  function StreamFrames(chunks: seq<Chunk>): seq<Frame> {
    if |chunks| == 0 then []
    else
      var front := chunks[..|chunks| - 1];
      StreamFrames(front) + ChunkFrames(Found(front), Tasks(front), chunks[|chunks| - 1])
  }

  lemma StreamStep(front: seq<Chunk>, c: Chunk, chunks: seq<Chunk>, frames: seq<Frame>)
    requires chunks == front + [c] && frames == ChunkFrames(Found(front), Tasks(front), c)
    ensures StreamFrames(chunks) == StreamFrames(front) + frames
    ensures Found(chunks) == Found(front) + if c.Updates? then FoundInNodes(c.nodes) else 0
    ensures Tasks(chunks) == TasksAfter(Tasks(front), c)
  {
    assert chunks[..|chunks| - 1] == front && chunks[|chunks| - 1] == c;
  }

  // ---- the collector -------------------------------------------------------

  class Collector {
    var findings: nat
    var tasks: map<string, Status>
    ghost var seen: seq<Chunk>

    ghost predicate Valid()
      reads this
    {
      findings == Found(seen) && tasks == Tasks(seen)
    }

    constructor ()
      ensures Valid() && seen == []
    {
      findings, tasks, seen := 0, map[], [];
    }

    /** The frames of the next chunk of the stream. */
    method Frames(c: Chunk) returns (frames: seq<Frame>)
      requires Valid()
      modifies this
      ensures Valid() && seen == old(seen) + [c]
      ensures StreamFrames(seen) == StreamFrames(old(seen)) + frames
    {
      frames := [];
      match c {
        case Custom(id, e) => frames := OnCustom(id, e);
        case Updates(nodes) => frames := OnUpdates(nodes);
        case OtherChunk =>
      }
      StreamStep(seen, c, seen + [c], frames);
      seen := seen + [c];
    }

    method OnCustom(id: string, e: Event) returns (frames: seq<Frame>)
      modifies this`tasks
      ensures frames == CustomFrames(old(tasks), id, e)
      ensures tasks == TasksAfter(old(tasks), Custom(id, e))
    {
      if id == "" {
        return [];
      }
      match e {
        case Started(description) =>
          tasks := tasks[id := Queued];
          return [Frame(TaskStarted, Some(id), description, Some(Queued), None, None)];
        case Ended(outcome, error, found) =>
          tasks := tasks[id := EndStatus(outcome)];
          return [Frame(EndKind(outcome), Some(id), error, Some(EndStatus(outcome)), found, None)];
        case OtherEvent =>
          return [];
        case _ =>
      }
      frames := [];
      if id in tasks && tasks[id] == Queued {
        tasks := tasks[id := Working];
        frames := [Frame(TaskStarted, Some(id), None, Some(Working), None, None)];
      }
      if e.ToolStep? {
        var more := Work(Some(id), "", [], Some((e.name, e.text)), NoUsage);
        frames := frames + more;
      } else if e.AiStep? {
        var more := Work(Some(id), e.text, e.calls, None, e.usage);
        frames := frames + more;
      }
    }

    method OnUpdates(nodes: seq<NodeUpdate>) returns (frames: seq<Frame>)
      modifies this`findings
      ensures frames == NodesFrames(old(findings), nodes)
      ensures findings == old(findings) + FoundInNodes(nodes)
    {
      frames := [];
      for k := 0 to |nodes|
        invariant frames == NodesFrames(old(findings), nodes[..k])
        invariant findings == old(findings) + FoundInNodes(nodes[..k])
      {
        var more := OnMessages(nodes[k].messages);
        NodesStep(old(findings), nodes[..k], nodes[k], nodes[..k + 1], more);
        frames := frames + more + [NodeFrame(nodes[k].node, findings)];
      }
      assert nodes[..|nodes|] == nodes;
    }

    method OnMessages(messages: seq<Message>) returns (frames: seq<Frame>)
      modifies this`findings
      ensures frames == MessagesFrames(messages)
      ensures findings == old(findings) + FoundBy(messages)
    {
      frames := [];
      for k := 0 to |messages|
        invariant frames == MessagesFrames(messages[..k])
        invariant findings == old(findings) + FoundBy(messages[..k])
      {
        assert messages[..k + 1][..k] == messages[..k];
        var more := OnMessage(messages[k]);
        frames := frames + more;
      }
      assert messages[..|messages|] == messages;
    }

    method OnMessage(msg: Message) returns (frames: seq<Frame>)
      modifies this`findings
      ensures frames == MessageFrames(msg)
      ensures findings == old(findings) + if msg.Ai? then CountReports(msg.calls) else 0
    {
      frames := [];
      match msg {
        case Ai(text, calls, usage) =>
          findings := findings + CountReports(calls);
          frames := Work(None, text, calls, None, usage);
        case Tool(name, callId, content) =>
          if name != TASK {
            frames := Work(None, "", [], Some((name, content)), NoUsage);
          }
          if name == TASK && callId != "" {
            frames := frames + [Frame(TaskReport, Some(callId), Some(content), None, None, None)];
          }
        case OtherMessage =>
      }
    }
  }
}
