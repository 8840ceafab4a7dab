/**
 What the user interface shows of a run, read off the run's stream alone: every field of a
 subagent's node from the subagent's own events and the report addressed to it, and every
 agent's work log line by line.
 */
module ActivityShown {
  import opened Common
  import opened Sequences
  import opened ActivityFrames
  import opened ActivityCollector
  import opened ActivityFold
  import opened ActivityTokens
  import Text

  // ---- the stream ----------------------------------------------------------

  function NodesMessages(nodes: seq<NodeUpdate>): seq<Message> {
    if |nodes| == 0 then [] else NodesMessages(nodes[..|nodes| - 1]) + nodes[|nodes| - 1].messages
  }

  /** The messages of the lead's graph, in order. */
  function LeadMessages(chunks: seq<Chunk>): seq<Message> {
    if |chunks| == 0 then []
    else
      var c := chunks[|chunks| - 1];
      LeadMessages(chunks[..|chunks| - 1]) + if c.Updates? then NodesMessages(c.nodes) else []
  }

  /** The events of one subagent, in order. */
  function Events(chunks: seq<Chunk>, id: string): seq<Event> {
    if |chunks| == 0 then []
    else
      var c := chunks[|chunks| - 1];
      Events(chunks[..|chunks| - 1], id) + if c.Custom? && c.taskId == id then [c.event] else []
  }

  // ---- what the node of a subagent should show -----------------------------

  function LastDescription(es: seq<Event>): Option<string> {
    if |es| == 0 then None
    else
      var e := es[|es| - 1];
      if e.Started? && Says(e.description) then e.description else LastDescription(es[..|es| - 1])
  }

  function LastError(es: seq<Event>): Option<string> {
    if |es| == 0 then None
    else
      var e := es[|es| - 1];
      if e.Ended? && Says(e.error) then e.error else LastError(es[..|es| - 1])
  }

  function LastFound(es: seq<Event>): Option<nat> {
    if |es| == 0 then None
    else
      var e := es[|es| - 1];
      if e.Ended? && e.found.Some? then e.found else LastFound(es[..|es| - 1])
  }

  /** What the last start or end says; a started subagent works as soon as it `ran` a step. */
  function EventStatus(es: seq<Event>, ran: bool): Option<Status> {
    if |es| == 0 then None
    else
      var e, front := es[|es| - 1], es[..|es| - 1];
      match e
      case Started(_) => Some(if ran then Working else Queued)
      case Ended(outcome, _, _) =>
        Some(match outcome
             case Completed => Done
             case TimedOut => Timeout
             case Broken => Failed
             case Cancelled => Failed)
      case OtherEvent => EventStatus(front, ran)
      case _ => EventStatus(front, true)
  }

  /** The answer of the task tool that is paired with the subagent. */
  function LastReport(ms: seq<Message>, id: string): Option<string> {
    if |ms| == 0 then None
    else
      var m := ms[|ms| - 1];
      if m.Tool? && m.name == "task" && m.callId == id then Some(m.content) else LastReport(ms[..|ms| - 1], id)
  }

  // ---- the fold, chunk by chunk --------------------------------------------

  datatype Profile = Profile(description: Option<string>, findings: Option<nat>, error: Option<string>,
                             report: Option<string>)

  function ProfileOf(a: Agent): Profile { Profile(a.description, a.findings, a.error, a.report) }

  /** The profile of an agent after more frames. */
  function Grown(p: Profile, frames: seq<Frame>, id: string): Profile {
    if |frames| == 0 then p else GrownBy(Grown(p, frames[..|frames| - 1], id), frames[|frames| - 1], id)
  }

  function GrownBy(p: Profile, f: Frame, id: string): Profile {
    if !About(f, id) || f.Work() then p
    else if f.kind == TaskReport then p.(report := f.description)
    else if f.kind == TaskStarted then (if Says(f.description) then p.(description := f.description) else p)
    else
      p.(findings := if f.findings.Some? then f.findings else p.findings,
         error := if Says(f.description) then f.description else p.error)
  }

  lemma TouchGrows(a: Agent, f: Frame, id: string)
    requires About(f, id)
    ensures ProfileOf(Touch(a, f)) == GrownBy(ProfileOf(a), f, id)
  {
  }

  lemma {:induction false} AgentGrows(frames: seq<Frame>, id: string)
    ensures ProfileOf(AgentOf(frames, id)) == Grown(NOTHING_YET, frames, id)
    decreases |frames|
  {
    if |frames| > 0 {
      var front, f := frames[..|frames| - 1], frames[|frames| - 1];
      AgentGrows(front, id);
      if About(f, id) {
        TouchGrows(AgentOf(front, id), f, id);
      }
    }
  }

  lemma {:induction false} GrownAppend(p: Profile, a: seq<Frame>, b: seq<Frame>, id: string)
    ensures Grown(p, a + b, id) == Grown(Grown(p, a, id), b, id)
    decreases |b|
  {
    if |b| == 0 {
      assert a + b == a;
    } else {
      assert (a + b)[..|a + b| - 1] == a + b[..|b| - 1];
      GrownAppend(p, a, b[..|b| - 1], id);
    }
  }

  lemma {:induction false} OthersGrowNothing(p: Profile, frames: seq<Frame>, id: string)
    requires forall f <- frames :: f.Work() || !About(f, id)
    ensures Grown(p, frames, id) == p
    decreases |frames|
  {
    if |frames| > 0 {
      OthersGrowNothing(p, frames[..|frames| - 1], id);
    }
  }

  lemma OneGrows(p: Profile, f: Frame, id: string)
    ensures Grown(p, [f], id) == GrownBy(p, f, id)
  {
    assert [f][..0] == [];
  }

  lemma MessageGrows(p: Profile, m: Message, id: string)
    requires id != ""
    ensures Grown(p, MessageFrames(m), id) ==
            if m.Tool? && m.name == "task" && m.callId == id then p.(report := Some(m.content)) else p
  {
    if m.Tool? && m.name == TASK && m.callId != "" {
      OneGrows(p, MessageFrames(m)[0], id);
    } else {
      if m.Ai? {
        WorkSilent(None, m.text, m.calls, None, m.usage);
      } else if m.Tool? && m.name != TASK {
        WorkSilent(None, "", [], Some((m.name, m.content)), NoUsage);
      }
      OthersGrowNothing(p, MessageFrames(m), id);
    }
  }

  function Reporting(p: Profile, ms: seq<Message>, id: string): Profile {
    if LastReport(ms, id).Some? then p.(report := LastReport(ms, id)) else p
  }

  lemma {:induction false} MessagesGrow(p: Profile, ms: seq<Message>, id: string)
    requires id != ""
    ensures Grown(p, MessagesFrames(ms), id) == Reporting(p, ms, id)
    decreases |ms|
  {
    if |ms| > 0 {
      var front, m := ms[..|ms| - 1], ms[|ms| - 1];
      MessagesGrow(p, front, id);
      GrownAppend(p, MessagesFrames(front), MessageFrames(m), id);
      MessageGrows(Reporting(p, front, id), m, id);
    }
  }

  lemma {:induction false} ReportAppend(a: seq<Message>, b: seq<Message>, id: string)
    ensures LastReport(a + b, id) == if LastReport(b, id).Some? then LastReport(b, id) else LastReport(a, id)
    decreases |b|
  {
    if |b| == 0 {
      assert a + b == a;
    } else {
      assert (a + b)[..|a + b| - 1] == a + b[..|b| - 1];
      ReportAppend(a, b[..|b| - 1], id);
    }
  }

  lemma {:induction false} NodesGrow(p: Profile, found: nat, nodes: seq<NodeUpdate>, id: string)
    requires id != ""
    ensures Grown(p, NodesFrames(found, nodes), id) == Reporting(p, NodesMessages(nodes), id)
    decreases |nodes|
  {
    if |nodes| > 0 {
      var front, u := nodes[..|nodes| - 1], nodes[|nodes| - 1];
      NodesGrow(p, found, front, id);
      var lines, end := MessagesFrames(u.messages), NodeFrame(u.node, found + FoundInNodes(nodes));
      NodesStep(found, front, u, nodes, lines);
      GrownAppend(p, NodesFrames(found, front) + lines, [end], id);
      GrownAppend(p, NodesFrames(found, front), lines, id);
      MessagesGrow(Reporting(p, NodesMessages(front), id), u.messages, id);
      OneGrows(Grown(p, NodesFrames(found, front) + lines, id), end, id);
      ReportAppend(NodesMessages(front), u.messages, id);
    }
  }

  /** What an event of the subagent adds. */
  function Learning(p: Profile, e: Event): Profile {
    match e
    case Started(d) => if Says(d) then p.(description := d) else p
    case Ended(_, error, found) =>
      p.(findings := if found.Some? then found else p.findings, error := if Says(error) then error else p.error)
    case _ => p
  }

  lemma CustomGrows(p: Profile, tasks: map<string, Status>, tid: string, e: Event, id: string)
    requires id != ""
    ensures Grown(p, CustomFrames(tasks, tid, e), id) == if tid == id then Learning(p, e) else p
  {
    var frames := CustomFrames(tasks, tid, e);
    if tid != "" && e.Running() {
      RunningFrames(tasks, tid, e);
      StepSilent(tid, e);
      GrownAppend(p, Woken(tasks, tid), StepFrames(tid, e), id);
      if Woken(tasks, tid) != [] {
        OneGrows(p, Woken(tasks, tid)[0], id);
      }
      OthersGrowNothing(p, StepFrames(tid, e), id);
    } else if |frames| > 0 {
      OneGrows(p, frames[0], id);
    }
  }

  function ProfileShown(chunks: seq<Chunk>, id: string): Profile {
    var es := Events(chunks, id);
    Profile(LastDescription(es), LastFound(es), LastError(es), LastReport(LeadMessages(chunks), id))
  }

  lemma EventsSnoc(es: seq<Event>, e: Event)
    ensures LastDescription(es + [e]) ==
            if e.Started? && Says(e.description) then e.description else LastDescription(es)
    ensures LastError(es + [e]) == if e.Ended? && Says(e.error) then e.error else LastError(es)
    ensures LastFound(es + [e]) == if e.Ended? && e.found.Some? then e.found else LastFound(es)
  {
    assert (es + [e])[..|es + [e]| - 1] == es;
  }

  lemma CustomLearns(front: seq<Chunk>, tid: string, e: Event, chunks: seq<Chunk>, id: string)
    requires id != "" && chunks == front + [Custom(tid, e)]
    ensures ProfileShown(chunks, id) ==
            if tid == id then Learning(ProfileShown(front, id), e) else ProfileShown(front, id)
  {
    assert chunks[..|chunks| - 1] == front;
    EventsSnoc(Events(front, id), e);
    assert Events(chunks, id) == if tid == id then Events(front, id) + [e] else Events(front, id);
    assert LeadMessages(chunks) == LeadMessages(front);
  }

  lemma UpdatesLearn(front: seq<Chunk>, nodes: seq<NodeUpdate>, chunks: seq<Chunk>, id: string)
    requires id != "" && chunks == front + [Updates(nodes)]
    ensures ProfileShown(chunks, id) == Reporting(ProfileShown(front, id), NodesMessages(nodes), id)
  {
    assert chunks[..|chunks| - 1] == front;
    ReportAppend(LeadMessages(front), NodesMessages(nodes), id);
    assert Events(chunks, id) == Events(front, id);
  }

  lemma OtherLearns(front: seq<Chunk>, chunks: seq<Chunk>, id: string)
    requires chunks == front + [OtherChunk]
    ensures ProfileShown(chunks, id) == ProfileShown(front, id)
  {
    assert chunks[..|chunks| - 1] == front;
    assert Events(chunks, id) == Events(front, id) && LeadMessages(chunks) == LeadMessages(front);
  }

  lemma ChunkGrows(front: seq<Chunk>, c: Chunk, chunks: seq<Chunk>, id: string)
    requires id != "" && chunks == front + [c]
    ensures Grown(ProfileShown(front, id), ChunkFrames(Found(front), Tasks(front), c), id) ==
            ProfileShown(chunks, id)
  {
    match c
    case Custom(tid, e) =>
      CustomGrows(ProfileShown(front, id), Tasks(front), tid, e, id);
      CustomLearns(front, tid, e, chunks, id);
    case Updates(nodes) =>
      NodesGrow(ProfileShown(front, id), Found(front), nodes, id);
      UpdatesLearn(front, nodes, chunks, id);
    case OtherChunk => OtherLearns(front, chunks, id);
  }

  const NOTHING_YET: Profile := Profile(None, None, None, None)

  lemma {:induction false} StreamGrows(chunks: seq<Chunk>, id: string)
    requires id != ""
    ensures Grown(NOTHING_YET, StreamFrames(chunks), id) == ProfileShown(chunks, id)
    decreases |chunks|
  {
    if |chunks| > 0 {
      var front, c := chunks[..|chunks| - 1], chunks[|chunks| - 1];
      assert chunks == front + [c];
      StreamGrows(front, id);
      var more := ChunkFrames(Found(front), Tasks(front), c);
      StreamStep(front, c, chunks, more);
      GrownAppend(NOTHING_YET, StreamFrames(front), more, id);
      ChunkGrows(front, c, chunks, id);
    }
  }

  // ---- statuses and findings -----------------------------------------------

  lemma {:induction false} RanStatus(es: seq<Event>)
    ensures EventStatus(es, true) ==
            if EventStatus(es, false) == Some(Queued) then Some(Working) else EventStatus(es, false)
    decreases |es|
  {
    if |es| > 0 {
      RanStatus(es[..|es| - 1]);
    }
  }

  lemma StatusSnoc(es: seq<Event>, e: Event)
    ensures EventStatus(es + [e], false) ==
            match e
            case Started(_) => Some(Queued)
            case Ended(_, _, _) => Some(EndStatus(e.outcome))
            case OtherEvent => EventStatus(es, false)
            case _ => EventStatus(es, true)
  {
    assert (es + [e])[..|es + [e]| - 1] == es;
  }

  lemma {:induction false} TasksAreLast(chunks: seq<Chunk>, id: string)
    requires id != ""
    ensures At(Tasks(chunks), id) == EventStatus(Events(chunks, id), false)
    decreases |chunks|
  {
    if |chunks| > 0 {
      var front, c := chunks[..|chunks| - 1], chunks[|chunks| - 1];
      TasksAreLast(front, id);
      if c.Custom? && c.taskId == id {
        StatusSnoc(Events(front, id), c.event);
        RanStatus(Events(front, id));
      } else {
        assert Events(front, id) + [] == Events(front, id);
      }
    }
  }

  /** Calls of a tool by name. */
  function CallsTo(ms: seq<Message>, name: string): nat {
    if |ms| == 0 then 0
    else
      var m := ms[|ms| - 1];
      CallsTo(ms[..|ms| - 1], name) + if m.Ai? then multiset(CallNames(m.calls))[name] else 0
  }

  function CallNames(calls: seq<Call>): seq<string> { Map((c: Call) => c.name, calls) }

  lemma {:induction false} ReportsCounted(calls: seq<Call>)
    ensures CountReports(calls) == multiset(CallNames(calls))["report_finding"]
    decreases |calls|
  {
    if |calls| > 0 {
      var front, c := calls[..|calls| - 1], calls[|calls| - 1];
      ReportsCounted(front);
      assert CallNames(calls) == CallNames(front) + [c.name];
    }
  }

  lemma {:induction false} FoundCounted(ms: seq<Message>)
    ensures FoundBy(ms) == CallsTo(ms, "report_finding")
    decreases |ms|
  {
    if |ms| > 0 {
      FoundCounted(ms[..|ms| - 1]);
      if ms[|ms| - 1].Ai? {
        ReportsCounted(ms[|ms| - 1].calls);
      }
    }
  }

  lemma {:induction false} CallsAppend(a: seq<Message>, b: seq<Message>, name: string)
    ensures CallsTo(a + b, name) == CallsTo(a, name) + CallsTo(b, name)
    decreases |b|
  {
    if |b| == 0 {
      assert a + b == a;
    } else {
      assert (a + b)[..|a + b| - 1] == a + b[..|b| - 1];
      CallsAppend(a, b[..|b| - 1], name);
    }
  }

  lemma {:induction false} NodesCounted(nodes: seq<NodeUpdate>)
    ensures FoundInNodes(nodes) == CallsTo(NodesMessages(nodes), "report_finding")
    decreases |nodes|
  {
    if |nodes| > 0 {
      var front, last := nodes[..|nodes| - 1], nodes[|nodes| - 1].messages;
      NodesCounted(front);
      FoundCounted(last);
      CallsAppend(NodesMessages(front), last, "report_finding");
    }
  }

  lemma {:induction false} StreamCounted(chunks: seq<Chunk>)
    ensures Found(chunks) == CallsTo(LeadMessages(chunks), "report_finding")
    decreases |chunks|
  {
    if |chunks| > 0 {
      var front, c := chunks[..|chunks| - 1], chunks[|chunks| - 1];
      StreamCounted(front);
      if c.Updates? {
        NodesCounted(c.nodes);
        CallsAppend(LeadMessages(front), NodesMessages(c.nodes), "report_finding");
      } else {
        assert LeadMessages(front) + [] == LeadMessages(front);
      }
    }
  }

  // ---- the nodes -----------------------------------------------------------

  /** The lead shows as many findings as it reported, and every subagent's node shows its last
      status, description, error and count of findings, and the last report addressed to it. */
  lemma NodesShown(chunks: seq<Chunk>, g: Graph)
    requires Shows(g, StreamFrames(chunks))
    ensures g.leadFindings == CallsTo(LeadMessages(chunks), "report_finding")
    ensures forall k :: 0 <= k < |g.tasks| ==>
              var a := g.tasks[k];
              var es := Events(chunks, a.taskId);
              && a.description == LastDescription(es)
              && a.error == LastError(es)
              && a.findings == LastFound(es)
              && a.report == LastReport(LeadMessages(chunks), a.taskId)
              && a.status == if EventStatus(es, false).Some? then EventStatus(es, false).value else Queued
    ensures forall id :: id != "" && !HasTask(g, id) ==>
              EventStatus(Events(chunks, id), false).None? && LastReport(LeadMessages(chunks), id).None?
  {
    CollectorAgrees(chunks, g);
    StreamCounted(chunks);
    TaskIds(g, StreamFrames(chunks));
    MentionedCovers(StreamFrames(chunks));
    forall k | 0 <= k < |g.tasks|
      ensures g.tasks[k].taskId != "" && ProfileOf(g.tasks[k]) == ProfileShown(chunks, g.tasks[k].taskId)
      ensures At(Tasks(chunks), g.tasks[k].taskId) == EventStatus(Events(chunks, g.tasks[k].taskId), false)
    {
      var id := g.tasks[k].taskId;
      assert id in Mentioned(StreamFrames(chunks));
      AgentGrows(StreamFrames(chunks), id);
      StreamGrows(chunks, id);
      TasksAreLast(chunks, id);
    }
    forall id | id != "" && !HasTask(g, id)
      ensures EventStatus(Events(chunks, id), false).None? && LastReport(LeadMessages(chunks), id).None?
    {
      Unheard(chunks, g, id);
    }
  }

  /** Nothing was reported to, started or ended under an id without a node. */
  lemma Unheard(chunks: seq<Chunk>, g: Graph, id: string)
    requires Shows(g, StreamFrames(chunks)) && id != "" && !HasTask(g, id)
    ensures AgentOf(StreamFrames(chunks), id) == Fresh(id)
    ensures EventStatus(Events(chunks, id), false).None? && LastReport(LeadMessages(chunks), id).None?
  {
    var frames := StreamFrames(chunks);
    TaskIds(g, frames);
    forall k | 0 <= k < |Mentioned(frames)|
      ensures Mentioned(frames)[k] != id
    {
      assert g.tasks[k].taskId == Mentioned(frames)[k];
    }
    UnmentionedIsFresh(frames, id);
    CollectorAgrees(chunks, g);
    TasksAreLast(chunks, id);
    AgentGrows(frames, id);
    StreamGrows(chunks, id);
  }

  // ---- work logs -----------------------------------------------------------

  /** Without the blanks around it, and cut after `limit` characters with an ellipsis. */
  lemma ClipExactly(text: string, limit: nat)
    ensures var whole, shown := Text.Strip(text), Clip(text, limit);
            if |whole| <= limit then shown == whole
            else |shown| == limit + 1 && shown[..limit] == whole[..limit] && shown[limit] == '\U{2026}'
    ensures Clip(Text.Strip(text), limit) == Clip(text, limit)
  {
    Text.StripTwice(text);
  }

  /** One message: what it says, whom it calls, what a tool put out, and what it cost. */
  datatype Said = Said(text: string, calls: seq<Call>, result: Option<(string, string)>, usage: Usage)

  function CallLine(c: Call): WorkLine { WorkLine(ToolCall, c.line, None) }

  function ResultLine(name: string, out: string): WorkLine {
    WorkLine(ToolResult, (if name == "" then "tool" else name) + ": " + Clip(out, 800), None)
  }

  function PlainLines(m: Said): seq<WorkLine> {
    (if Text.Strip(m.text) == "" then [] else [WorkLine(TextLine, Clip(m.text, 2000), None)])
    + Map(CallLine, m.calls)
    + (if m.result.None? then [] else [ResultLine(m.result.value.0, m.result.value.1)])
  }

  /** The lines of a message; its tokens are on the first, or on an empty one when it has none. */
  function LinesOf(m: Said): seq<WorkLine> {
    if SaysNothing(m.usage) then PlainLines(m)
    else
      var lines := if |PlainLines(m)| == 0 then [WorkLine(TextLine, "", None)] else PlainLines(m);
      lines[0 := lines[0].(tokens := Some(Tokens(InputOf(m.usage), OutputOf(m.usage))))]
  }

  function Log(items: seq<Said>): seq<WorkLine> {
    if |items| == 0 then [] else Log(items[..|items| - 1]) + LinesOf(items[|items| - 1])
  }

  /** What a subagent said and its tools put out. */
  function StepsOf(es: seq<Event>): seq<Said> {
    if |es| == 0 then [] else StepsOf(es[..|es| - 1]) + StepItems(es[|es| - 1])
  }

  /** What the lead said and its tools put out, other than the task tool. */
  function TalkOf(ms: seq<Message>): seq<Said> {
    if |ms| == 0 then [] else TalkOf(ms[..|ms| - 1]) + Talk(ms[|ms| - 1])
  }

  lemma {:induction false} CallsRead(who: Option<string>, calls: seq<Call>)
    ensures Map(Line, CallFrames(who, calls)) == Map(CallLine, calls)
    decreases |calls|
  {
    if |calls| > 0 {
      var front, c := calls[..|calls| - 1], calls[|calls| - 1];
      CallsRead(who, front);
      var f := Frame(ToolCall, who, Some(c.line), None, None, None);
      MapAppend(Line, CallFrames(who, front), [f]);
      MapOne(Line, f);
      assert calls == front + [c];
      MapAppend(CallLine, front, [c]);
      MapOne(CallLine, c);
    }
  }

  function PlainFrames(who: Option<string>, m: Said): seq<Frame> {
    StrippedText(who, m.text) + CallFrames(who, m.calls) + Output(who, m.result)
  }

  function FramesOf(who: Option<string>, m: Said): seq<Frame> { WorkFrames(who, m.text, m.calls, m.result, m.usage) }

  lemma PlainReads(who: Option<string>, m: Said)
    ensures Map(Line, PlainFrames(who, m)) == PlainLines(m)
  {
    var text, out := StrippedText(who, m.text), Output(who, m.result);
    MapAppend(Line, text + CallFrames(who, m.calls), out);
    MapAppend(Line, text, CallFrames(who, m.calls));
    CallsRead(who, m.calls);
    ClipExactly(m.text, 2000);
    if Text.Strip(m.text) != "" {
      MapOne(Line, TextFrame(who, Clip(Text.Strip(m.text), WORK_TEXT_CHARS)));
    }
    if m.result.Some? {
      MapOne(Line, ResultFrame(who, m.result.value.0, m.result.value.1));
    }
  }

  lemma FramesRead(who: Option<string>, m: Said)
    ensures Map(Line, FramesOf(who, m)) == LinesOf(m)
  {
    PlainReads(who, m);
    TokensOfRecord(m.usage);
    var plain, fs := PlainFrames(who, m), FramesOf(who, m);
    if SaysNothing(m.usage) {
      assert fs == plain;
    } else {
      Priced(if |plain| == 0 then [TextFrame(who, "")] else plain, fs, Tokens(InputOf(m.usage), OutputOf(m.usage)));
    }
  }

  lemma Priced(shown: seq<Frame>, fs: seq<Frame>, t: Tokens)
    requires |shown| > 0 && fs == [shown[0].(tokens := Some(t))] + shown[1..]
    ensures Map(Line, fs) == Map(Line, shown)[0 := Line(shown[0]).(tokens := Some(t))]
  {
    var lines := Map(Line, shown)[0 := Line(shown[0]).(tokens := Some(t))];
    forall k | 0 <= k < |fs|
      ensures Map(Line, fs)[k] == lines[k]
    {
      assert k > 0 ==> fs[k] == shown[k];
    }
  }

  lemma {:induction false} WorkAppend(a: seq<Frame>, b: seq<Frame>, who: Option<string>)
    ensures WorkOf(a + b, who) == WorkOf(a, who) + WorkOf(b, who)
    decreases |b|
  {
    if |b| == 0 {
      assert a + b == a;
    } else {
      assert (a + b)[..|a + b| - 1] == a + b[..|b| - 1];
      WorkAppend(a, b[..|b| - 1], who);
    }
  }

  lemma {:induction false} WorkOfOwn(frames: seq<Frame>, who: Option<string>)
    requires forall f <- frames :: f.Work() && f.Who() == who
    ensures WorkOf(frames, who) == Map(Line, frames)
    decreases |frames|
  {
    if |frames| > 0 {
      WorkOfOwn(frames[..|frames| - 1], who);
      assert Map(Line, frames) == Map(Line, frames[..|frames| - 1]) + [Line(frames[|frames| - 1])];
    }
  }

  lemma {:induction false} WorkOfOthers(frames: seq<Frame>, who: Option<string>)
    requires forall f <- frames :: !f.Work() || f.Who() != who
    ensures WorkOf(frames, who) == []
    decreases |frames|
  {
    if |frames| > 0 {
      WorkOfOthers(frames[..|frames| - 1], who);
    }
  }

  lemma FramesAreOwn(who: Option<string>, m: Said)
    requires who != Some("")
    ensures forall f <- FramesOf(who, m) :: f.Work() && f.Who() == who
  {
    WorkLines(who, m.text, m.calls, m.result);
  }

  lemma LogSnoc(items: seq<Said>, m: Said)
    ensures Log(items + [m]) == Log(items) + LinesOf(m)
  {
    assert (items + [m])[..|items + [m]| - 1] == items;
  }

  lemma ItemWork(who: Option<string>, m: Said, other: Option<string>)
    requires who != Some("")
    ensures WorkOf(FramesOf(who, m), other) == if other == who then LinesOf(m) else []
  {
    FramesAreOwn(who, m);
    if other == who {
      WorkOfOwn(FramesOf(who, m), who);
      FramesRead(who, m);
    } else {
      WorkOfOthers(FramesOf(who, m), other);
    }
  }

  // ---- the logs of a stream ------------------------------------------------

  lemma {:induction false} LogAppend(a: seq<Said>, b: seq<Said>)
    ensures Log(a + b) == Log(a) + Log(b)
    decreases |b|
  {
    if |b| == 0 {
      assert a + b == a;
    } else {
      var front, m := b[..|b| - 1], b[|b| - 1];
      assert a + b == (a + front) + [m];
      LogSnoc(a + front, m);
      LogAppend(a, front);
      Associative(Log(a), Log(front), LinesOf(m));
    }
  }

  lemma OneLog(m: Said)
    ensures Log([m]) == LinesOf(m)
  {
    LogSnoc([], m);
    assert [] + [m] == [m];
  }

  function Talk(m: Message): seq<Said> {
    match m
    case Ai(text, calls, usage) => [Said(text, calls, None, usage)]
    case Tool(name, _, content) => if name == "task" then [] else [Said("", [], Some((name, content)), NoUsage)]
    case OtherMessage => []
  }

  lemma MessageLog(m: Message, who: Option<string>)
    ensures WorkOf(MessageFrames(m), who) == if who == None then Log(Talk(m)) else []
  {
    if |Talk(m)| == 1 {
      var item := Talk(m)[0];
      assert MessageFrames(m) == FramesOf(None, item);
      ItemWork(None, item, who);
      OneLog(item);
    } else {
      WorkOfOthers(MessageFrames(m), who);
    }
  }

  lemma {:induction false} MessagesLog(ms: seq<Message>, who: Option<string>)
    ensures WorkOf(MessagesFrames(ms), who) == if who == None then Log(TalkOf(ms)) else []
    decreases |ms|
  {
    if |ms| > 0 {
      var front, m := ms[..|ms| - 1], ms[|ms| - 1];
      MessagesLog(front, who);
      WorkAppend(MessagesFrames(front), MessageFrames(m), who);
      MessageLog(m, who);
      Together(WorkOf(MessagesFrames(ms), who), who == None, TalkOf(ms), WorkOf(MessagesFrames(front), who),
               TalkOf(front), WorkOf(MessageFrames(m), who), Talk(m));
    }
  }

  lemma {:induction false} TalkAppend(a: seq<Message>, b: seq<Message>)
    ensures TalkOf(a + b) == TalkOf(a) + TalkOf(b)
    decreases |b|
  {
    if |b| == 0 {
      assert a + b == a;
    } else {
      assert (a + b)[..|a + b| - 1] == a + b[..|b| - 1];
      TalkAppend(a, b[..|b| - 1]);
      Associative(TalkOf(a), TalkOf(b[..|b| - 1]), Talk(b[|b| - 1]));
    }
  }

  lemma {:induction false} NodesLog(found: nat, nodes: seq<NodeUpdate>)
    ensures WorkOf(NodesFrames(found, nodes), None) == Log(TalkOf(NodesMessages(nodes)))
    decreases |nodes|
  {
    if |nodes| > 0 {
      var front, u := nodes[..|nodes| - 1], nodes[|nodes| - 1];
      assert nodes == front + [u];
      NodesLog(found, front);
      MessagesLog(u.messages, None);
      NodeLog(found, front, u, nodes, None);
      NodesTalk(front, u, nodes);
      LogAppend(TalkOf(NodesMessages(front)), TalkOf(u.messages));
    }
  }

  lemma {:induction false} NodesLogNoOther(found: nat, nodes: seq<NodeUpdate>, who: Option<string>)
    requires who.Some?
    ensures WorkOf(NodesFrames(found, nodes), who) == []
    decreases |nodes|
  {
    if |nodes| > 0 {
      var front, u := nodes[..|nodes| - 1], nodes[|nodes| - 1];
      assert nodes == front + [u];
      NodesLogNoOther(found, front, who);
      MessagesLog(u.messages, who);
      NodeLog(found, front, u, nodes, who);
    }
  }

  lemma NodesTalk(front: seq<NodeUpdate>, u: NodeUpdate, nodes: seq<NodeUpdate>)
    requires nodes == front + [u]
    ensures TalkOf(NodesMessages(nodes)) == TalkOf(NodesMessages(front)) + TalkOf(u.messages)
  {
    assert nodes[..|nodes| - 1] == front;
    TalkAppend(NodesMessages(front), u.messages);
  }

  /** Logs of parts are parts of the log. */
  lemma Together(lines: seq<WorkLine>, mine: bool, items: seq<Said>, before: seq<WorkLine>, a: seq<Said>,
                 after: seq<WorkLine>, b: seq<Said>)
    requires lines == before + after && items == a + b
    requires before == (if mine then Log(a) else []) && after == if mine then Log(b) else []
    ensures lines == if mine then Log(items) else []
  {
    LogAppend(a, b);
  }

  /** The frame that closes a node is no work. */
  lemma NodeLog(found: nat, front: seq<NodeUpdate>, u: NodeUpdate, nodes: seq<NodeUpdate>, who: Option<string>)
    requires nodes == front + [u]
    ensures WorkOf(NodesFrames(found, nodes), who) ==
            WorkOf(NodesFrames(found, front), who) + WorkOf(MessagesFrames(u.messages), who)
  {
    var lines, end := MessagesFrames(u.messages), NodeFrame(u.node, found + FoundInNodes(nodes));
    NodesStep(found, front, u, nodes, lines);
    WorkAppend(NodesFrames(found, front) + lines, [end], who);
    WorkAppend(NodesFrames(found, front), lines, who);
    WorkOfOthers([end], who);
  }

  function StepItems(e: Event): seq<Said> {
    match e
    case AiStep(text, calls, usage) => [Said(text, calls, None, usage)]
    case ToolStep(name, text) => [Said("", [], Some((name, text)), NoUsage)]
    case _ => []
  }

  lemma StepLog(id: string, e: Event, who: Option<string>)
    requires id != ""
    ensures WorkOf(StepFrames(id, e), who) == if who == Some(id) then Log(StepItems(e)) else []
  {
    if |StepItems(e)| == 1 {
      var item := StepItems(e)[0];
      assert StepFrames(id, e) == FramesOf(Some(id), item);
      ItemWork(Some(id), item, who);
      OneLog(item);
    }
  }

  lemma RunningLog(tasks: map<string, Status>, id: string, e: Event, who: Option<string>)
    requires id != "" && e.Running()
    ensures WorkOf(CustomFrames(tasks, id, e), who) == WorkOf(StepFrames(id, e), who)
  {
    RunningFrames(tasks, id, e);
    WorkAppend(Woken(tasks, id), StepFrames(id, e), who);
    WorkOfOthers(Woken(tasks, id), who);
  }

  lemma CustomLog(tasks: map<string, Status>, id: string, e: Event, who: Option<string>)
    ensures WorkOf(CustomFrames(tasks, id, e), who) == if id != "" && who == Some(id) then Log(StepItems(e)) else []
  {
    if id != "" && e.Running() {
      StepLog(id, e, who);
      RunningLog(tasks, id, e, who);
    } else {
      WorkOfOthers(CustomFrames(tasks, id, e), who);
    }
  }

  lemma ChunkLogs(front: seq<Chunk>, c: Chunk, who: Option<string>)
    requires who != Some("")
    ensures WorkOf(ChunkFrames(Found(front), Tasks(front), c), who) ==
            if who == None then (if c.Updates? then Log(TalkOf(NodesMessages(c.nodes))) else [])
            else if c.Custom? && Some(c.taskId) == who then Log(StepItems(c.event))
            else []
  {
    match c
    case Custom(id, e) => CustomLog(Tasks(front), id, e, who);
    case Updates(nodes) =>
      if who.None? {
        NodesLog(Found(front), nodes);
      } else {
        NodesLogNoOther(Found(front), nodes, who);
      }
    case OtherChunk =>
  }

  /** What an agent said, or the lead. */
  function SaidBy(chunks: seq<Chunk>, who: Option<string>): seq<Said> {
    if who.None? then TalkOf(LeadMessages(chunks)) else StepsOf(Events(chunks, who.value))
  }

  lemma SaidNext(front: seq<Chunk>, c: Chunk, chunks: seq<Chunk>, who: Option<string>)
    requires chunks == front + [c]
    ensures SaidBy(chunks, who) == SaidBy(front, who) +
                                   if who == None then (if c.Updates? then TalkOf(NodesMessages(c.nodes)) else [])
                                   else if c.Custom? && Some(c.taskId) == who then StepItems(c.event)
                                   else []
  {
    assert chunks[..|chunks| - 1] == front;
    if who.None? {
      if c.Updates? {
        TalkAppend(LeadMessages(front), NodesMessages(c.nodes));
      } else {
        assert LeadMessages(chunks) == LeadMessages(front);
      }
    } else if c.Custom? && Some(c.taskId) == who {
      var es, es' := Events(front, c.taskId), Events(chunks, c.taskId);
      assert es' == es + [c.event] && es'[..|es'| - 1] == es;
    } else {
      assert Events(chunks, who.value) == Events(front, who.value);
    }
  }

  lemma {:induction false} StreamLogs(chunks: seq<Chunk>, who: Option<string>)
    requires who != Some("")
    ensures WorkOf(StreamFrames(chunks), who) == Log(SaidBy(chunks, who))
    decreases |chunks|
  {
    if |chunks| > 0 {
      var front, c := chunks[..|chunks| - 1], chunks[|chunks| - 1];
      assert chunks == front + [c];
      StreamLogs(front, who);
      var more := ChunkFrames(Found(front), Tasks(front), c);
      StreamStep(front, c, chunks, more);
      WorkAppend(StreamFrames(front), more, who);
      ChunkLogs(front, c, who);
      SaidNext(front, c, chunks, who);
      NextLog(SaidBy(front, who), SaidBy(chunks, who), WorkOf(more, who));
    } else {
      assert who.Some? ==> Events(chunks, who.value) == [];
    }
  }

  lemma NextLog(items: seq<Said>, items': seq<Said>, lines: seq<WorkLine>)
    requires exists more :: items' == items + more && lines == Log(more)
    ensures Log(items') == Log(items) + lines
  {
    var more :| items' == items + more && lines == Log(more);
    LogAppend(items, more);
  }

  /** The work log of the lead and of every subagent is what it said, called and got back, line
      by line and in order, with the tokens of every message on its first line. */
  lemma LogsShown(chunks: seq<Chunk>, g: Graph)
    requires Shows(g, StreamFrames(chunks))
    ensures g.leadWork == Log(TalkOf(LeadMessages(chunks)))
    ensures forall k :: 0 <= k < |g.tasks| ==> g.tasks[k].work == Log(StepsOf(Events(chunks, g.tasks[k].taskId)))
    ensures forall id :: id != "" && !HasTask(g, id) ==> Log(StepsOf(Events(chunks, id))) == []
  {
    var frames := StreamFrames(chunks);
    StreamLogs(chunks, None);
    TaskIds(g, frames);
    MentionedCovers(frames);
    forall k | 0 <= k < |g.tasks|
      ensures g.tasks[k].work == Log(StepsOf(Events(chunks, g.tasks[k].taskId)))
    {
      var id := g.tasks[k].taskId;
      assert id in Mentioned(frames);
      AgentShows(frames, id);
      StreamLogs(chunks, Some(id));
    }
    forall id | id != "" && !HasTask(g, id)
      ensures Log(StepsOf(Events(chunks, id))) == []
    {
      Unheard(chunks, g, id);
      AgentShows(frames, id);
      StreamLogs(chunks, Some(id));
    }
  }
}
