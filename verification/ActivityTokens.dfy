/**
 Conservation from the run's stream to the user interface: what the graph shows as spent is
 what the model calls of the run used, each counted once and charged to the agent that made it.
 */
module ActivityTokens {
  import opened Common
  import opened ActivityFrames
  import opened ActivityCollector
  import opened ActivityFold

  // ---- the reference: usage of the stream itself ---------------------------

  function MessagesUsage(messages: seq<Message>): Tokens {
    if |messages| == 0 then NoTokens
    else
      var m := messages[|messages| - 1];
      MessagesUsage(messages[..|messages| - 1]).Plus(if m.Ai? then OrZero(TokensOf(m.usage)) else NoTokens)
  }

  function NodesUsage(nodes: seq<NodeUpdate>): Tokens {
    if |nodes| == 0 then NoTokens
    else NodesUsage(nodes[..|nodes| - 1]).Plus(MessagesUsage(nodes[|nodes| - 1].messages))
  }

  /** The lead pays for the messages of the graph's nodes, a subagent for its own AI steps. */
  function ChunkUsage(c: Chunk, payer: Payer): Tokens {
    if c.Updates? && payer.Covers(None) then NodesUsage(c.nodes)
    else if c.Custom? && c.taskId != "" && c.event.AiStep? && payer.Covers(Some(c.taskId)) then
      OrZero(TokensOf(c.event.usage))
    else NoTokens
  }

  function StreamUsage(chunks: seq<Chunk>, payer: Payer): Tokens {
    if |chunks| == 0 then NoTokens
    else StreamUsage(chunks[..|chunks| - 1], payer).Plus(ChunkUsage(chunks[|chunks| - 1], payer))
  }

  // ---- the same, on the usage records themselves ---------------------------

  /** What a record says under its first key, or, where that key is missing, its second. */
  function Named(first: Field, second: Field): int {
    match first
    case Number(n) => n
    case Null => 0
    case Absent => if second.Number? then second.n else 0
  }

  function InputOf(u: Usage): int { if u.NoUsage? then 0 else Named(u.input, u.inputTokens) }

  function OutputOf(u: Usage): int { if u.NoUsage? then 0 else Named(u.output, u.outputTokens) }

  predicate Names(first: Field, second: Field) { first.Number? || (first.Absent? && second.Number?) }

  /** There is no record, or neither side of it is a number. */
  predicate SaysNothing(u: Usage) {
    u.NoUsage? || (!Names(u.input, u.inputTokens) && !Names(u.output, u.outputTokens))
  }

  /** The record of every AI message of the lead and every AI step of a subagent that the payer
      pays for, in stream order. */
  function MessageRecords(messages: seq<Message>): seq<Usage> {
    if |messages| == 0 then []
    else
      var m := messages[|messages| - 1];
      MessageRecords(messages[..|messages| - 1]) + if m.Ai? then [m.usage] else []
  }

  function NodeRecords(nodes: seq<NodeUpdate>): seq<Usage> {
    if |nodes| == 0 then []
    else NodeRecords(nodes[..|nodes| - 1]) + MessageRecords(nodes[|nodes| - 1].messages)
  }

  function Records(chunks: seq<Chunk>, payer: Payer): seq<Usage> {
    if |chunks| == 0 then []
    else Records(chunks[..|chunks| - 1], payer) + ChunkRecords(chunks[|chunks| - 1], payer)
  }

  function ChunkRecords(c: Chunk, payer: Payer): seq<Usage> {
    if c.Updates? && payer.Covers(None) then NodeRecords(c.nodes)
    else if c.Custom? && c.taskId != "" && c.event.AiStep? && payer.Covers(Some(c.taskId)) then [c.event.usage]
    else []
  }

  /** Input and output as the records add up. */
  function Sums(us: seq<Usage>): Tokens {
    if |us| == 0 then Tokens(0, 0)
    else
      var front, u := Sums(us[..|us| - 1]), us[|us| - 1];
      Tokens(front.input + InputOf(u), front.output + OutputOf(u))
  }

  /** A record yields tokens unless it says nothing, and then what it says. */
  lemma TokensOfRecord(u: Usage)
    ensures TokensOf(u).None? <==> SaysNothing(u)
    ensures OrZero(TokensOf(u)).input == InputOf(u) && OrZero(TokensOf(u)).output == OutputOf(u)
  {
  }

  lemma {:induction false} SumsAppend(a: seq<Usage>, b: seq<Usage>)
    ensures Sums(a + b) == Sums(a).Plus(Sums(b))
    decreases |b|
  {
    if |b| == 0 {
      assert a + b == a;
    } else {
      assert (a + b)[..|a + b| - 1] == a + b[..|b| - 1];
      SumsAppend(a, b[..|b| - 1]);
    }
  }

  lemma OneAddsUp(u: Usage, us: seq<Usage>)
    requires us == [u]
    ensures Sums(us) == OrZero(TokensOf(u))
  {
    TokensOfRecord(u);
    assert us[..|us| - 1] == [];
  }

  lemma {:induction false} MessagesAddUp(messages: seq<Message>)
    ensures MessagesUsage(messages) == Sums(MessageRecords(messages))
    decreases |messages|
  {
    if |messages| > 0 {
      var front, m := messages[..|messages| - 1], messages[|messages| - 1];
      MessagesAddUp(front);
      if m.Ai? {
        RecordAddsUp(MessageRecords(front), m.usage);
      } else {
        assert MessageRecords(messages) == MessageRecords(front);
        PlusNothing(MessagesUsage(messages), MessagesUsage(front));
      }
    }
  }

  lemma PlusNothing(r: Tokens, t: Tokens)
    requires r == t.Plus(NoTokens)
    ensures r == t
  {
  }

  lemma NothingPlus(r: Tokens, t: Tokens)
    requires r == NoTokens.Plus(t)
    ensures r == t
  {
  }

  lemma IsPlus(r: Tokens, s: Tokens, t: Tokens)
    requires r.input == s.input + t.input && r.output == s.output + t.output
    ensures r == s.Plus(t)
  {
  }

  lemma SumsLast(us: seq<Usage>, u: Usage, all: seq<Usage>)
    requires all == us + [u]
    ensures Sums(all).input == Sums(us).input + InputOf(u) && Sums(all).output == Sums(us).output + OutputOf(u)
  {
    assert all[..|all| - 1] == us && all[|all| - 1] == u;
  }

  lemma RecordAddsUp(us: seq<Usage>, u: Usage)
    ensures Sums(us + [u]) == Sums(us).Plus(OrZero(TokensOf(u)))
  {
    var all := us + [u];
    TokensOfRecord(u);
    SumsLast(us, u, all);
    IsPlus(Sums(all), Sums(us), OrZero(TokensOf(u)));
  }

  lemma {:induction false} NodesAddUp(nodes: seq<NodeUpdate>)
    ensures NodesUsage(nodes) == Sums(NodeRecords(nodes))
    decreases |nodes|
  {
    if |nodes| > 0 {
      var front, last := nodes[..|nodes| - 1], nodes[|nodes| - 1].messages;
      NodesAddUp(front);
      MessagesAddUp(last);
      SumsAppend(NodeRecords(front), MessageRecords(last));
    }
  }

  lemma {:induction false} StreamAddsUp(chunks: seq<Chunk>, payer: Payer)
    ensures StreamUsage(chunks, payer) == Sums(Records(chunks, payer))
    decreases |chunks|
  {
    if |chunks| > 0 {
      var front, c := chunks[..|chunks| - 1], chunks[|chunks| - 1];
      StreamAddsUp(front, payer);
      ChunkAddsUp(c, payer);
      SumsAppend(Records(front, payer), ChunkRecords(c, payer));
    }
  }

  lemma ChunkAddsUp(c: Chunk, payer: Payer)
    ensures ChunkUsage(c, payer) == Sums(ChunkRecords(c, payer))
  {
    if c.Updates? {
      NodesAddUp(c.nodes);
    } else if c.Custom? && c.event.AiStep? {
      OneAddsUp(c.event.usage, [c.event.usage]);
    }
  }

  // ---- one message ---------------------------------------------------------

  /** Work lines of one agent that carry no tokens, status or findings. */
  ghost predicate Lines(frames: seq<Frame>, who: Option<string>) {
    forall f <- frames :: f.Work() && f.taskId == who && f.tokens.None? && Silent(f)
  }

  predicate Silent(f: Frame) { f.status.None? && f.findings.None? }

  lemma {:induction false} LinesAreFree(frames: seq<Frame>, who: Option<string>, payer: Payer)
    requires Lines(frames, who)
    ensures Spent(frames, payer) == NoTokens
    decreases |frames|
  {
    if |frames| > 0 {
      LinesAreFree(frames[..|frames| - 1], who, payer);
    }
  }

  lemma {:induction false} CallsAreLines(who: Option<string>, calls: seq<Call>)
    ensures Lines(CallFrames(who, calls), who)
    decreases |calls|
  {
    if |calls| > 0 {
      CallsAreLines(who, calls[..|calls| - 1]);
    }
  }

  lemma OneFrame(f: Frame, payer: Payer)
    ensures Spent([f], payer) == Paid(f, payer)
  {
  }

  lemma FirstPays(first: Frame, rest: seq<Frame>, who: Option<string>, payer: Payer)
    requires first.Work() && first.taskId == who && who != Some("") && Lines(rest, who)
    ensures Spent([first] + rest, payer) == if payer.Covers(who) then OrZero(first.tokens) else NoTokens
  {
    SpentAppend([first], rest, payer);
    LinesAreFree(rest, who, payer);
    OneFrame(first, payer);
  }

  lemma Stamped(lines: seq<Frame>, who: Option<string>, usage: Usage, payer: Payer)
    requires Lines(lines, who) && who != Some("")
    ensures Spent(WithTokens(lines, who, usage), payer) ==
            if payer.Covers(who) then OrZero(TokensOf(usage)) else NoTokens
  {
    var tokens := TokensOf(usage);
    if tokens.None? {
      LinesAreFree(lines, who, payer);
    } else {
      var shown := if |lines| == 0 then [TextFrame(who, "")] else lines;
      FirstPays(shown[0].(tokens := tokens), shown[1..], who, payer);
    }
  }

  lemma WorkSpent(who: Option<string>, text: string, calls: seq<Call>, result: Option<(string, string)>,
                  usage: Usage, payer: Payer)
    requires who != Some("")
    ensures Spent(WorkFrames(who, text, calls, result, usage), payer) ==
            if payer.Covers(who) then OrZero(TokensOf(usage)) else NoTokens
  {
    WorkLines(who, text, calls, result);
    Stamped(StrippedText(who, text) + CallFrames(who, calls) + Output(who, result), who, usage, payer);
  }

  lemma WorkLines(who: Option<string>, text: string, calls: seq<Call>, result: Option<(string, string)>)
    ensures Lines(StrippedText(who, text) + CallFrames(who, calls) + Output(who, result), who)
  {
    CallsAreLines(who, calls);
    assert Lines(StrippedText(who, text), who) && Lines(Output(who, result), who);
  }

  lemma WorkSilent(who: Option<string>, text: string, calls: seq<Call>, result: Option<(string, string)>, usage: Usage)
    ensures forall f <- WorkFrames(who, text, calls, result, usage) :: Silent(f) && f.Work()
  {
    WorkLines(who, text, calls, result);
  }

  // ---- spending of a stream ------------------------------------------------

  lemma MessageSpent(m: Message, payer: Payer)
    ensures Spent(MessageFrames(m), payer) ==
            if m.Ai? && payer.Covers(None) then OrZero(TokensOf(m.usage)) else NoTokens
  {
    if m.Ai? {
      WorkSpent(None, m.text, m.calls, None, m.usage, payer);
    } else if m.Tool? && m.name != TASK {
      WorkSpent(None, "", [], Some((m.name, m.content)), NoUsage, payer);
    }
  }

  lemma MessageSilent(m: Message)
    ensures forall f <- MessageFrames(m) :: Silent(f)
  {
    if m.Ai? {
      WorkSilent(None, m.text, m.calls, None, m.usage);
    } else if m.Tool? && m.name != TASK {
      WorkSilent(None, "", [], Some((m.name, m.content)), NoUsage);
    }
  }

  lemma {:induction false} MessagesSilent(messages: seq<Message>)
    ensures forall f <- MessagesFrames(messages) :: Silent(f)
    decreases |messages|
  {
    if |messages| > 0 {
      MessagesSilent(messages[..|messages| - 1]);
      MessageSilent(messages[|messages| - 1]);
    }
  }

  lemma NoTokensAdded(t: Tokens)
    ensures NoTokens.Plus(t) == t && t.Plus(NoTokens) == t
  {
  }

  lemma {:induction false} MessagesSpent(messages: seq<Message>, payer: Payer)
    ensures Spent(MessagesFrames(messages), payer) == if payer.Covers(None) then MessagesUsage(messages) else NoTokens
    decreases |messages|
  {
    if |messages| > 0 {
      var front, m := messages[..|messages| - 1], messages[|messages| - 1];
      MessagesSpent(front, payer);
      MessageSpent(m, payer);
      SpentAppend(MessagesFrames(front), MessageFrames(m), payer);
      NoTokensAdded(Spent(MessagesFrames(front), payer));
    }
  }

  lemma {:induction false} NodesSpent(found: nat, nodes: seq<NodeUpdate>, payer: Payer)
    ensures Spent(NodesFrames(found, nodes), payer) == if payer.Covers(None) then NodesUsage(nodes) else NoTokens
    decreases |nodes|
  {
    if |nodes| > 0 {
      var front, u := nodes[..|nodes| - 1], nodes[|nodes| - 1];
      assert nodes == front + [u];
      NodesSpent(found, front, payer);
      NodesSpentNext(found, front, u, nodes, payer);
    }
  }

  lemma NodesSpentNext(found: nat, front: seq<NodeUpdate>, u: NodeUpdate, nodes: seq<NodeUpdate>, payer: Payer)
    requires nodes == front + [u]
    requires Spent(NodesFrames(found, front), payer) == if payer.Covers(None) then NodesUsage(front) else NoTokens
    ensures Spent(NodesFrames(found, nodes), payer) == if payer.Covers(None) then NodesUsage(nodes) else NoTokens
  {
    assert nodes[..|nodes| - 1] == front;
    MessagesSpent(u.messages, payer);
    NodesSpentLast(found, front, u, nodes, payer);
    if !payer.Covers(None) {
      PlusNothing(Spent(NodesFrames(found, nodes), payer), NoTokens);
    }
  }

  lemma NodesSpentLast(found: nat, front: seq<NodeUpdate>, u: NodeUpdate, nodes: seq<NodeUpdate>, payer: Payer)
    requires nodes == front + [u]
    ensures Spent(NodesFrames(found, nodes), payer) ==
            Spent(NodesFrames(found, front), payer).Plus(Spent(MessagesFrames(u.messages), payer))
  {
    var lines, end := MessagesFrames(u.messages), NodeFrame(u.node, found + FoundInNodes(nodes));
    NodesStep(found, front, u, nodes, lines);
    AddNode(NodesFrames(found, front), lines, end, payer);
  }

  lemma AddNode(a: seq<Frame>, b: seq<Frame>, end: Frame, payer: Payer)
    requires !end.Work()
    ensures Spent(a + b + [end], payer) == Spent(a, payer).Plus(Spent(b, payer))
  {
    SpentAppend(a, b, payer);
    SpentAppend(a + b, [end], payer);
    OneFrame(end, payer);
  }

  lemma StepSpent(id: string, e: Event, payer: Payer)
    requires id != ""
    ensures Spent(StepFrames(id, e), payer) == ChunkUsage(Custom(id, e), payer)
  {
    if e.AiStep? {
      WorkSpent(Some(id), e.text, e.calls, None, e.usage, payer);
    } else if e.ToolStep? {
      WorkSpent(Some(id), "", [], Some((e.name, e.text)), NoUsage, payer);
    }
  }

  lemma RunningFrames(tasks: map<string, Status>, id: string, e: Event)
    requires id != "" && e.Running()
    ensures CustomFrames(tasks, id, e) == Woken(tasks, id) + StepFrames(id, e)
  {
  }

  lemma WokenFree(tasks: map<string, Status>, id: string, payer: Payer)
    ensures Spent(Woken(tasks, id), payer) == NoTokens
  {
    if Woken(tasks, id) != [] {
      OneFrame(Woken(tasks, id)[0], payer);
    }
  }

  lemma CustomSpent(tasks: map<string, Status>, id: string, e: Event, payer: Payer)
    ensures Spent(CustomFrames(tasks, id, e), payer) == ChunkUsage(Custom(id, e), payer)
  {
    if id != "" && e.Running() {
      StepSpent(id, e, payer);
      RunningFrames(tasks, id, e);
      RunningSpent(Woken(tasks, id), StepFrames(id, e), payer, tasks, id);
    } else {
      NewsSpent(CustomFrames(tasks, id, e), payer);
    }
  }

  /** What is no work costs nothing. */
  lemma {:induction false} NewsSpent(frames: seq<Frame>, payer: Payer)
    requires forall f <- frames :: !f.Work()
    ensures Spent(frames, payer) == NoTokens
    decreases |frames|
  {
    if |frames| > 0 {
      NewsSpent(frames[..|frames| - 1], payer);
    }
  }

  lemma RunningSpent(woken: seq<Frame>, steps: seq<Frame>, payer: Payer, tasks: map<string, Status>, id: string)
    requires woken == Woken(tasks, id)
    ensures Spent(woken + steps, payer) == Spent(steps, payer)
  {
    WokenFree(tasks, id, payer);
    SpentAppend(woken, steps, payer);
    NothingPlus(Spent(woken + steps, payer), Spent(steps, payer));
  }

  lemma {:induction false} StreamSpent(chunks: seq<Chunk>, payer: Payer)
    ensures Spent(StreamFrames(chunks), payer) == StreamUsage(chunks, payer)
    decreases |chunks|
  {
    if |chunks| > 0 {
      var front, c := chunks[..|chunks| - 1], chunks[|chunks| - 1];
      StreamSpent(front, payer);
      var more := ChunkFrames(Found(front), Tasks(front), c);
      SpentAppend(StreamFrames(front), more, payer);
      if c.Custom? {
        CustomSpent(Tasks(front), c.taskId, c.event, payer);
      } else if c.Updates? {
        NodesSpent(Found(front), c.nodes, payer);
      }
    }
  }

  // ---- the graph's agents --------------------------------------------------

  lemma AgentStep(front: seq<Frame>, f: Frame, frames: seq<Frame>, id: string)
    requires frames == front + [f] && id != ""
    ensures AgentOf(frames, id).tokens == AgentOf(front, id).tokens.Plus(Paid(f, Only(Some(id))))
    ensures f.Work() && f.Who() == Some(id) ==> AgentOf(frames, id).work == AgentOf(front, id).work + [Line(f)]
    ensures !f.Work() || f.Who() != Some(id) ==> AgentOf(frames, id).work == AgentOf(front, id).work
  {
    assert frames[..|frames| - 1] == front;
    var a := AgentOf(front, id);
    if f.Work() && f.Who() == Some(id) {
      TouchedByWork(a, f, id);
    } else {
      NotTouchedByWork(a, f, id);
    }
  }

  lemma TouchedByWork(a: Agent, f: Frame, id: string)
    requires f.Work() && f.Who() == Some(id)
    ensures About(f, id) && Touch(a, f).tokens == a.tokens.Plus(Paid(f, Only(Some(id))))
    ensures Touch(a, f).work == a.work + [Line(f)]
  {
  }

  lemma NotTouchedByWork(a: Agent, f: Frame, id: string)
    requires !f.Work() || f.Who() != Some(id)
    ensures a.tokens == a.tokens.Plus(Paid(f, Only(Some(id))))
    ensures About(f, id) ==> Touch(a, f).tokens == a.tokens && Touch(a, f).work == a.work
  {
    PlusNothing(a.tokens.Plus(Paid(f, Only(Some(id)))), a.tokens);
  }

  lemma {:induction false} AgentShows(frames: seq<Frame>, id: string)
    requires id != ""
    ensures AgentOf(frames, id).tokens == Spent(frames, Only(Some(id)))
    ensures AgentOf(frames, id).work == WorkOf(frames, Some(id))
    decreases |frames|
  {
    if |frames| > 0 {
      var front, f := frames[..|frames| - 1], frames[|frames| - 1];
      assert frames == front + [f];
      AgentShows(front, id);
      AgentStep(front, f, frames, id);
    }
  }

  function SumOver(ids: seq<string>, frames: seq<Frame>): Tokens {
    if |ids| == 0 then NoTokens
    else SumOver(ids[..|ids| - 1], frames).Plus(Spent(frames, Only(Some(ids[|ids| - 1]))))
  }

  function SumTasks(tasks: seq<Agent>): Tokens {
    if |tasks| == 0 then NoTokens else SumTasks(tasks[..|tasks| - 1]).Plus(tasks[|tasks| - 1].tokens)
  }

  predicate Distinct(ids: seq<string>) { forall j, k :: 0 <= j < k < |ids| ==> ids[j] != ids[k] }

  /** What a frame adds to the sum over some agents: its tokens, if its agent is among them. */
  function Share(ids: seq<string>, f: Frame): Tokens {
    if f.Work() && f.Who().Some? && f.Who().value in ids then OrZero(f.tokens) else NoTokens
  }

  lemma {:induction false} SumOverStep(ids: seq<string>, frames: seq<Frame>, f: Frame, frames': seq<Frame>)
    requires Distinct(ids) && frames' == frames + [f]
    ensures SumOver(ids, frames') == SumOver(ids, frames).Plus(Share(ids, f))
    decreases |ids|
  {
    if |ids| == 0 {
      assert Share(ids, f) == NoTokens;
      NoTokensAdded(NoTokens);
    } else {
      var front, id := ids[..|ids| - 1], ids[|ids| - 1];
      SumOverStep(front, frames, f, frames');
      SpentSnoc(frames, f, frames', Only(Some(id)));
      assert ids == front + [id];
      ShareSplits(front, id, f);
      Exchange(SumOver(front, frames), Share(front, f), Spent(frames, Only(Some(id))), Paid(f, Only(Some(id))));
    }
  }

  lemma SpentSnoc(frames: seq<Frame>, f: Frame, frames': seq<Frame>, payer: Payer)
    requires frames' == frames + [f]
    ensures Spent(frames', payer) == Spent(frames, payer).Plus(Paid(f, payer))
  {
    assert frames'[..|frames'| - 1] == frames;
  }

  lemma ShareSplits(ids: seq<string>, id: string, f: Frame)
    requires id !in ids
    ensures Share(ids + [id], f) == Share(ids, f).Plus(Paid(f, Only(Some(id))))
  {
    NoTokensAdded(OrZero(f.tokens));
    NoTokensAdded(NoTokens);
  }

  lemma {:induction false} Unspent(ids: seq<string>)
    ensures SumOver(ids, []) == NoTokens
    decreases |ids|
  {
    if |ids| > 0 {
      Unspent(ids[..|ids| - 1]);
    }
  }

  /** Every work frame is the lead's or names one of the agents. */
  ghost predicate Covered(frames: seq<Frame>, ids: seq<string>) {
    forall f <- frames :: f.Work() && f.Who().Some? ==> f.Who().value in ids
  }

  lemma {:induction false} PartsMakeTheWhole(frames: seq<Frame>, ids: seq<string>)
    requires Distinct(ids) && Covered(frames, ids)
    ensures Spent(frames, Everyone) == Spent(frames, Only(None)).Plus(SumOver(ids, frames))
    decreases |frames|
  {
    if |frames| == 0 {
      Unspent(ids);
      NoTokensAdded(NoTokens);
    } else {
      var front, f := frames[..|frames| - 1], frames[|frames| - 1];
      assert frames == front + [f];
      PartsMakeTheWhole(front, ids);
      SumOverStep(ids, front, f, frames);
      LeadOrShare(f, ids);
      SpentSnoc(front, f, frames, Everyone);
      SpentSnoc(front, f, frames, Only(None));
      Exchange(Spent(front, Only(None)), SumOver(ids, front), Paid(f, Only(None)), Share(ids, f));
    }
  }

  lemma Exchange(a: Tokens, b: Tokens, c: Tokens, d: Tokens)
    ensures a.Plus(b).Plus(c.Plus(d)) == a.Plus(c).Plus(b.Plus(d))
  {
  }

  lemma LeadOrShare(f: Frame, ids: seq<string>)
    requires f.Work() && f.Who().Some? ==> f.Who().value in ids
    ensures Paid(f, Everyone) == Paid(f, Only(None)).Plus(Share(ids, f))
  {
    NoTokensAdded(OrZero(f.tokens));
    NoTokensAdded(NoTokens);
  }

  lemma {:induction false} MentionedCovers(frames: seq<Frame>)
    ensures Covered(frames, Mentioned(frames)) && "" !in Mentioned(frames)
    decreases |frames|
  {
    if |frames| > 0 {
      var front, f := frames[..|frames| - 1], frames[|frames| - 1];
      MentionedCovers(front);
      assert forall g <- front :: g.Work() && g.Who().Some? ==> g.Who().value in Mentioned(frames);
      assert frames == front + [f];
    }
  }

  lemma {:induction false} TasksSum(tasks: seq<Agent>, ids: seq<string>, frames: seq<Frame>)
    requires |tasks| == |ids| && "" !in ids
    requires forall k :: 0 <= k < |ids| ==> tasks[k] == AgentOf(frames, ids[k])
    ensures SumTasks(tasks) == SumOver(ids, frames)
    decreases |ids|
  {
    if |ids| > 0 {
      TasksSum(tasks[..|ids| - 1], ids[..|ids| - 1], frames);
      AgentShows(frames, ids[|ids| - 1]);
    }
  }

  ghost predicate HasTask(g: Graph, id: string) { exists k :: 0 <= k < |g.tasks| && g.tasks[k].taskId == id }

  /** The graph that a folded frame stream shows. */
  ghost predicate Shows(g: Graph, frames: seq<Frame>) { LeadIs(g, frames) && TasksAre(g.tasks, frames) }

  lemma TaskIds(g: Graph, frames: seq<Frame>)
    requires Shows(g, frames)
    ensures |g.tasks| == |Mentioned(frames)|
    ensures forall k :: 0 <= k < |g.tasks| ==> g.tasks[k].taskId == Mentioned(frames)[k]
  {
    forall k | 0 <= k < |g.tasks|
      ensures g.tasks[k].taskId == Mentioned(frames)[k]
    {
      AgentKeepsId(frames, Mentioned(frames)[k]);
    }
  }

  /** What the turn spent is what the lead and its subagents spent, and that is what the usage
      records of the run say, each counted once and charged to its agent; a subagent without a
      node used nothing. */
  lemma TokensConserved(chunks: seq<Chunk>, g: Graph)
    requires Shows(g, StreamFrames(chunks))
    ensures g.tokens == Sums(Records(chunks, Everyone)) && g.tokens == g.leadTokens.Plus(SumTasks(g.tasks))
    ensures g.leadTokens == Sums(Records(chunks, Only(None)))
    ensures forall j, k :: 0 <= j < k < |g.tasks| ==> g.tasks[j].taskId != g.tasks[k].taskId
    ensures forall k :: 0 <= k < |g.tasks| ==>
              g.tasks[k].tokens == Sums(Records(chunks, Only(Some(g.tasks[k].taskId))))
    ensures forall id :: id != "" && !HasTask(g, id) ==> Tokens(0, 0) == Sums(Records(chunks, Only(Some(id))))
  {
    var frames := StreamFrames(chunks);
    TaskIds(g, frames);
    PayerAddsUp(chunks, Everyone);
    PayerAddsUp(chunks, Only(None));
    MentionedOnce(frames);
    WholeIsParts(g, frames);
    NodesAddUpTo(chunks, g);
    forall id | id != "" && !HasTask(g, id)
      ensures Tokens(0, 0) == Sums(Records(chunks, Only(Some(id))))
    {
      UnmentionedAddsUp(chunks, g, id);
    }
  }

  lemma NodesAddUpTo(chunks: seq<Chunk>, g: Graph)
    requires Shows(g, StreamFrames(chunks))
    ensures forall k :: 0 <= k < |g.tasks| ==>
              g.tasks[k].tokens == Sums(Records(chunks, Only(Some(g.tasks[k].taskId))))
  {
    var ids := Mentioned(StreamFrames(chunks));
    TaskIds(g, StreamFrames(chunks));
    MentionedCovers(StreamFrames(chunks));
    forall k | 0 <= k < |g.tasks|
      ensures g.tasks[k].tokens == Sums(Records(chunks, Only(Some(g.tasks[k].taskId))))
    {
      AgentAddsUp(chunks, ids[k]);
    }
  }

  lemma UnmentionedAddsUp(chunks: seq<Chunk>, g: Graph, id: string)
    requires Shows(g, StreamFrames(chunks)) && id != "" && !HasTask(g, id)
    ensures Tokens(0, 0) == Sums(Records(chunks, Only(Some(id))))
  {
    TaskIds(g, StreamFrames(chunks));
    UnmentionedIsFresh(StreamFrames(chunks), id);
    AgentAddsUp(chunks, id);
  }

  lemma WholeIsParts(g: Graph, frames: seq<Frame>)
    requires Shows(g, frames)
    ensures g.tokens == g.leadTokens.Plus(SumTasks(g.tasks))
  {
    var ids := Mentioned(frames);
    MentionedOnce(frames);
    MentionedCovers(frames);
    PartsMakeTheWhole(frames, ids);
    TasksSum(g.tasks, ids, frames);
  }

  lemma PayerAddsUp(chunks: seq<Chunk>, payer: Payer)
    ensures Spent(StreamFrames(chunks), payer) == Sums(Records(chunks, payer))
  {
    StreamSpent(chunks, payer);
    StreamAddsUp(chunks, payer);
  }

  lemma AgentAddsUp(chunks: seq<Chunk>, id: string)
    ensures id != "" ==> AgentOf(StreamFrames(chunks), id).tokens == Sums(Records(chunks, Only(Some(id))))
  {
    if id != "" {
      AgentShows(StreamFrames(chunks), id);
      PayerAddsUp(chunks, Only(Some(id)));
    }
  }

  // ---- findings and statuses -----------------------------------------------

  lemma {:induction false} FindingsAppend(a: seq<Frame>, b: seq<Frame>, start: nat)
    ensures LastFindings(a + b, start) == LastFindings(b, LastFindings(a, start))
    decreases |b|
  {
    if |b| == 0 {
      assert a + b == a;
    } else {
      assert (a + b)[..|a + b| - 1] == a + b[..|b| - 1];
      FindingsAppend(a, b[..|b| - 1], start);
    }
  }

  lemma {:induction false} SilentFindings(frames: seq<Frame>, start: nat)
    requires forall f <- frames :: f.findings.None? || f.kind == TaskFinished || f.kind == TaskFailed
    ensures LastFindings(frames, start) == start
    decreases |frames|
  {
    if |frames| > 0 {
      SilentFindings(frames[..|frames| - 1], start);
    }
  }

  lemma {:induction false} NodesFindings(found: nat, nodes: seq<NodeUpdate>)
    ensures LastFindings(NodesFrames(found, nodes), found) == found + FoundInNodes(nodes)
    decreases |nodes|
  {
    if |nodes| > 0 {
      var u := nodes[|nodes| - 1];
      var end := NodeFrame(u.node, found + FoundInNodes(nodes));
      FindingsAppend(NodesFrames(found, nodes[..|nodes| - 1]) + MessagesFrames(u.messages), [end], found);
    }
  }

  lemma StepSilent(id: string, e: Event)
    ensures forall f <- StepFrames(id, e) :: Silent(f) && f.Work()
  {
    if e.AiStep? {
      WorkSilent(Some(id), e.text, e.calls, None, e.usage);
    } else if e.ToolStep? {
      WorkSilent(Some(id), "", [], Some((e.name, e.text)), NoUsage);
    }
  }

  lemma CustomFindings(tasks: map<string, Status>, id: string, e: Event, start: nat)
    ensures LastFindings(CustomFrames(tasks, id, e), start) == start
  {
    StepSilent(id, e);
    SilentFindings(CustomFrames(tasks, id, e), start);
  }

  /** The findings shown for the lead are the report_finding calls of its messages. */
  lemma {:induction false} FindingsShown(chunks: seq<Chunk>)
    ensures LastFindings(StreamFrames(chunks), 0) == Found(chunks)
    decreases |chunks|
  {
    if |chunks| > 0 {
      var front, c := chunks[..|chunks| - 1], chunks[|chunks| - 1];
      FindingsShown(front);
      FindingsAppend(StreamFrames(front), ChunkFrames(Found(front), Tasks(front), c), 0);
      if c.Custom? {
        CustomFindings(Tasks(front), c.taskId, c.event, Found(front));
      } else if c.Updates? {
        NodesFindings(Found(front), c.nodes);
      }
    }
  }

  predicate SetsStatus(f: Frame, id: string) {
    f.Task() && f.kind != TaskReport && f.Who() == Some(id) && f.status.Some?
  }

  function LastStatus(frames: seq<Frame>, id: string): Option<Status> {
    if |frames| == 0 then None
    else if SetsStatus(frames[|frames| - 1], id) then frames[|frames| - 1].status
    else LastStatus(frames[..|frames| - 1], id)
  }

  lemma {:induction false} AgentStatus(frames: seq<Frame>, id: string)
    ensures AgentOf(frames, id).status == if LastStatus(frames, id).Some? then LastStatus(frames, id).value else Queued
    decreases |frames|
  {
    if |frames| > 0 {
      AgentStatus(frames[..|frames| - 1], id);
    }
  }

  lemma {:induction false} StatusAppend(a: seq<Frame>, b: seq<Frame>, id: string)
    ensures LastStatus(a + b, id) == if LastStatus(b, id).Some? then LastStatus(b, id) else LastStatus(a, id)
    decreases |b|
  {
    if |b| == 0 {
      assert a + b == a;
    } else {
      assert (a + b)[..|a + b| - 1] == a + b[..|b| - 1];
      StatusAppend(a, b[..|b| - 1], id);
    }
  }

  lemma {:induction false} SilentStatus(frames: seq<Frame>, id: string)
    requires forall f <- frames :: !SetsStatus(f, id)
    ensures LastStatus(frames, id).None?
    decreases |frames|
  {
    if |frames| > 0 {
      SilentStatus(frames[..|frames| - 1], id);
    }
  }

  lemma {:induction false} NodesStatus(found: nat, nodes: seq<NodeUpdate>, id: string)
    ensures forall f <- NodesFrames(found, nodes) :: !SetsStatus(f, id)
    decreases |nodes|
  {
    if |nodes| > 0 {
      NodesStatus(found, nodes[..|nodes| - 1], id);
      MessagesSilent(nodes[|nodes| - 1].messages);
    }
  }

  lemma OneStatus(f: Frame, id: string)
    ensures LastStatus([f], id) == if SetsStatus(f, id) then f.status else None
  {
  }

  function At(tasks: map<string, Status>, id: string): Option<Status> { if id in tasks then Some(tasks[id]) else None }

  lemma CustomStatus(tasks: map<string, Status>, tid: string, e: Event, id: string)
    ensures var said := LastStatus(CustomFrames(tasks, tid, e), id);
            At(TasksAfter(tasks, Custom(tid, e)), id) == if said.Some? then said else At(tasks, id)
  {
    if tid != "" && e.Running() {
      RunningStatus(tasks, tid, e, id);
    } else if |CustomFrames(tasks, tid, e)| > 0 {
      OneStatus(CustomFrames(tasks, tid, e)[0], id);
    }
  }

  lemma RunningStatus(tasks: map<string, Status>, tid: string, e: Event, id: string)
    requires tid != "" && e.Running()
    ensures LastStatus(CustomFrames(tasks, tid, e), id) ==
            if id == tid && At(tasks, tid) == Some(Queued) then Some(Working) else None
  {
    StepSilent(tid, e);
    SilentStatus(StepFrames(tid, e), id);
    StatusAppend(Woken(tasks, tid), StepFrames(tid, e), id);
    RunningFrames(tasks, tid, e);
    WokenStatus(tasks, tid, id);
  }

  lemma WokenStatus(tasks: map<string, Status>, tid: string, id: string)
    requires tid != ""
    ensures LastStatus(Woken(tasks, tid), id) ==
            if id == tid && At(tasks, tid) == Some(Queued) then Some(Working) else None
  {
    if Woken(tasks, tid) != [] {
      OneStatus(Woken(tasks, tid)[0], id);
    }
  }

  lemma {:induction false} StatusShown(chunks: seq<Chunk>, id: string)
    ensures LastStatus(StreamFrames(chunks), id) == At(Tasks(chunks), id)
    decreases |chunks|
  {
    if |chunks| > 0 {
      var front, c := chunks[..|chunks| - 1], chunks[|chunks| - 1];
      StatusShown(front, id);
      StatusAppend(StreamFrames(front), ChunkFrames(Found(front), Tasks(front), c), id);
      if c.Custom? {
        CustomStatus(Tasks(front), c.taskId, c.event, id);
      } else if c.Updates? {
        NodesStatus(Found(front), c.nodes, id);
        SilentStatus(NodesFrames(Found(front), c.nodes), id);
      }
    }
  }

  /** The graph agrees with the collector: the lead's findings, and the status of every
      subagent the collector knows; any other node is still queued. */
  lemma CollectorAgrees(chunks: seq<Chunk>, g: Graph)
    requires Shows(g, StreamFrames(chunks))
    ensures g.leadFindings == Found(chunks)
    ensures forall k :: 0 <= k < |g.tasks| ==>
              var id := g.tasks[k].taskId;
              g.tasks[k].status == if id in Tasks(chunks) then Tasks(chunks)[id] else Queued
    ensures forall id <- Tasks(chunks).Keys :: HasTask(g, id)
  {
    var frames := StreamFrames(chunks);
    TaskIds(g, frames);
    FindingsShown(chunks);
    forall k | 0 <= k < |g.tasks|
      ensures var id := g.tasks[k].taskId;
              g.tasks[k].status == if id in Tasks(chunks) then Tasks(chunks)[id] else Queued
    {
      AgentStatus(frames, g.tasks[k].taskId);
      StatusShown(chunks, g.tasks[k].taskId);
    }
    forall id | id in Tasks(chunks).Keys
      ensures HasTask(g, id)
    {
      StatusShown(chunks, id);
      StatusMentions(frames, id);
      var k :| 0 <= k < |Mentioned(frames)| && Mentioned(frames)[k] == id;
      assert g.tasks[k].taskId == id;
    }
  }

  lemma {:induction false} StatusMentions(frames: seq<Frame>, id: string)
    ensures LastStatus(frames, id).Some? ==> id in Mentioned(frames)
    decreases |frames|
  {
    if |frames| > 0 {
      StatusMentions(frames[..|frames| - 1], id);
    }
  }
}
