/**
 The user interface's side of an activity turn: the frame stream folded into the lead and one
 node per subagent.  The fold is proved to be, for every agent, that agent's own frames folded
 alone, so nothing one agent spends is lost, doubled or charged to another.
 */
module ActivityFold {
  import opened Common
  import opened ActivityFrames

  datatype WorkLine = WorkLine(kind: Kind, text: string, tokens: Option<Tokens>)

  datatype Agent = Agent(taskId: string, description: Option<string>, status: Status, findings: Option<nat>,
                         error: Option<string>, report: Option<string>, work: seq<WorkLine>, tokens: Tokens)

  datatype Graph = Graph(started: bool, finished: bool, failed: bool, leadFindings: nat, error: Option<string>,
                         tasks: seq<Agent>, leadWork: seq<WorkLine>, leadTokens: Tokens, tokens: Tokens)

  function Fresh(id: string): Agent { Agent(id, None, Queued, None, None, None, [], NoTokens) }

  function Line(f: Frame): WorkLine {
    WorkLine(f.kind, if f.description.Some? then f.description.value else "", f.tokens)
  }

  predicate Says(text: Option<string>) { text.Some? && text.value != "" }

  /** The node of a subagent after a frame about it. */
  function Touch(a: Agent, f: Frame): Agent {
    if f.Work() then a.(work := a.work + [Line(f)], tokens := a.tokens.Plus(OrZero(f.tokens)))
    else if f.kind == TaskReport then a.(report := f.description)
    else
      var b := if f.status.Some? then a.(status := f.status.value) else a;
      if f.kind == TaskStarted then (if Says(f.description) then b.(description := f.description) else b)
      else
        b.(findings := if f.findings.Some? then f.findings else b.findings,
           error := if Says(f.description) then f.description else b.error)
  }

  // ---- the reference: one agent at a time ----------------------------------

  /** A frame that opens or updates the node of its subagent. */
  predicate About(f: Frame, id: string) { (f.Work() || f.Task()) && f.Who() == Some(id) }

  function AgentOf(frames: seq<Frame>, id: string): Agent {
    if |frames| == 0 then Fresh(id)
    else
      var a := AgentOf(frames[..|frames| - 1], id);
      if About(frames[|frames| - 1], id) then Touch(a, frames[|frames| - 1]) else a
  }

  function WorkOf(frames: seq<Frame>, who: Option<string>): seq<WorkLine> {
    if |frames| == 0 then []
    else
      var f := frames[|frames| - 1];
      WorkOf(frames[..|frames| - 1], who) + if f.Work() && f.Who() == who then [Line(f)] else []
  }

  /** The subagents in the order in which they are first mentioned. */
  function Mentioned(frames: seq<Frame>): seq<string> {
    if |frames| == 0 then []
    else
      var ids, f := Mentioned(frames[..|frames| - 1]), frames[|frames| - 1];
      if f.Who().Some? && About(f, f.Who().value) && f.Who().value !in ids then ids + [f.Who().value] else ids
  }

  /** The findings of the lead: the last count on a frame that does not end a subagent. */
  function LastFindings(frames: seq<Frame>, start: nat): nat {
    if |frames| == 0 then start
    else
      var f := frames[|frames| - 1];
      if f.findings.Some? && f.kind != TaskFinished && f.kind != TaskFailed then f.findings.value
      else LastFindings(frames[..|frames| - 1], start)
  }

  /** What the last failure said. */
  function FailureOf(frames: seq<Frame>): Option<string> {
    if |frames| == 0 then None
    else if frames[|frames| - 1].kind == RunFailed then frames[|frames| - 1].description
    else FailureOf(frames[..|frames| - 1])
  }

  ghost predicate HasKind(frames: seq<Frame>, kind: Kind) { exists k :: 0 <= k < |frames| && frames[k].kind == kind }

  /** The nodes are the mentioned subagents, each folded alone. */
  ghost predicate TasksAre(tasks: seq<Agent>, frames: seq<Frame>) {
    && |tasks| == |Mentioned(frames)|
    && forall k :: 0 <= k < |tasks| ==> tasks[k] == AgentOf(frames, Mentioned(frames)[k])
  }

  ghost predicate FlagsAre(g: Graph, frames: seq<Frame>) {
    && (g.started <==> HasKind(frames, RunStarted)) && (g.failed <==> HasKind(frames, RunFailed))
    && (g.finished <==> HasKind(frames, RunFinished) || HasKind(frames, RunFailed))
    && g.error == FailureOf(frames)
  }

  ghost predicate SpendingIs(g: Graph, frames: seq<Frame>) {
    && g.leadWork == WorkOf(frames, None) && g.leadTokens == Spent(frames, Only(None))
    && g.tokens == Spent(frames, Everyone)
  }

  /** What the lead's part of the graph shows. */
  ghost predicate LeadIs(g: Graph, frames: seq<Frame>) {
    FlagsAre(g, frames) && SpendingIs(g, frames) && g.leadFindings == LastFindings(frames, 0)
  }

  // ---- the fold ------------------------------------------------------------

  /** The lookup table names every node. */
  ghost predicate Indexed(byId: map<string, nat>, tasks: seq<Agent>) {
    && (forall id <- byId.Keys :: byId[id] < |tasks| && tasks[byId[id]].taskId == id)
    && (forall k :: 0 <= k < |tasks| ==> tasks[k].taskId in byId && byId[tasks[k].taskId] == k)
  }

  /** The node of a subagent, opened when it is new. */
  method Node(byId: map<string, nat>, tasks: seq<Agent>, id: string)
    returns (byId': map<string, nat>, tasks': seq<Agent>, at: nat)
    requires Indexed(byId, tasks)
    ensures Indexed(byId', tasks') && at < |tasks'| && tasks'[at].taskId == id
    ensures if id in byId then tasks' == tasks else tasks' == tasks + [Fresh(id)]
  {
    if id in byId {
      return byId, tasks, byId[id];
    }
    return byId[id := |tasks|], tasks + [Fresh(id)], |tasks|;
  }

  lemma {:induction false} AgentKeepsId(frames: seq<Frame>, id: string)
    ensures AgentOf(frames, id).taskId == id
    decreases |frames|
  {
    if |frames| > 0 {
      AgentKeepsId(frames[..|frames| - 1], id);
    }
  }

  lemma {:induction false} UnmentionedIsFresh(frames: seq<Frame>, id: string)
    ensures id !in Mentioned(frames) ==> AgentOf(frames, id) == Fresh(id)
    decreases |frames|
  {
    if |frames| > 0 {
      UnmentionedIsFresh(frames[..|frames| - 1], id);
    }
  }

  lemma {:induction false} MentionedOnce(frames: seq<Frame>)
    ensures forall j, k :: 0 <= j < k < |Mentioned(frames)| ==> Mentioned(frames)[j] != Mentioned(frames)[k]
    decreases |frames|
  {
    if |frames| > 0 {
      MentionedOnce(frames[..|frames| - 1]);
    }
  }

  /** A node updated by a frame about it, all others left alone. */
  lemma TasksStep(tasks: seq<Agent>, frames: seq<Frame>, f: Frame, nodes: seq<Agent>, at: nat)
    requires TasksAre(tasks, frames)
    requires f.Who().Some? && About(f, f.Who().value)
    requires var id := f.Who().value;
             nodes == if id in Mentioned(frames) then tasks else tasks + [Fresh(id)]
    requires at < |nodes| && nodes[at].taskId == f.Who().value
    ensures TasksAre(nodes[at := Touch(nodes[at], f)], frames + [f])
  {
    var id := f.Who().value;
    var frames' := frames + [f];
    assert frames'[..|frames' | - 1] == frames;
    var ids := Mentioned(frames');
    MentionedOnce(frames');
    UnmentionedIsFresh(frames, id);
    forall k | 0 <= k < |nodes|
      ensures nodes[k] == AgentOf(frames, ids[k]) && nodes[k].taskId == ids[k]
    {
      AgentKeepsId(frames, ids[k]);
    }
    assert ids[at] == id;
  }

  lemma TasksStay(tasks: seq<Agent>, frames: seq<Frame>, f: Frame)
    requires TasksAre(tasks, frames)
    requires f.Who().Some? ==> !About(f, f.Who().value)
    ensures TasksAre(tasks, frames + [f])
  {
    assert (frames + [f])[..|frames + [f]| - 1] == frames;
  }

  lemma IndexedMentions(byId: map<string, nat>, tasks: seq<Agent>, frames: seq<Frame>, id: string)
    requires Indexed(byId, tasks) && TasksAre(tasks, frames)
    ensures id in byId <==> id in Mentioned(frames)
  {
    forall k | 0 <= k < |tasks|
      ensures tasks[k].taskId == Mentioned(frames)[k]
    {
      AgentKeepsId(frames, Mentioned(frames)[k]);
    }
    if id in Mentioned(frames) {
      var k :| 0 <= k < |Mentioned(frames)| && Mentioned(frames)[k] == id;
      assert tasks[k].taskId == id;
    }
  }

  function FindingsStep(found: nat, f: Frame): nat {
    if f.findings.Some? && f.kind != TaskFinished && f.kind != TaskFailed then f.findings.value else found
  }

  function FlagStep(g: Graph, f: Frame): Graph {
    if f.kind == RunStarted then g.(started := true)
    else if f.kind == RunFinished then g.(finished := true)
    else if f.kind == RunFailed then g.(finished := true, failed := true, error := f.description)
    else g
  }

  function SpendingStep(g: Graph, f: Frame): Graph {
    if !f.Work() then g
    else if f.Who().Some? then g.(tokens := g.tokens.Plus(OrZero(f.tokens)))
    else
      g.(leadWork := g.leadWork + [Line(f)], leadTokens := g.leadTokens.Plus(OrZero(f.tokens)),
         tokens := g.tokens.Plus(OrZero(f.tokens)))
  }

  /** The lead's part of the graph after one frame. */
  function LeadStep(g: Graph, f: Frame): Graph {
    SpendingStep(FlagStep(g.(leadFindings := FindingsStep(g.leadFindings, f)), f), f)
  }

  lemma KindStep(frames: seq<Frame>, f: Frame, kind: Kind)
    ensures HasKind(frames + [f], kind) <==> HasKind(frames, kind) || f.kind == kind
  {
    var frames' := frames + [f];
    if HasKind(frames, kind) {
      var k :| 0 <= k < |frames| && frames[k].kind == kind;
      assert frames'[k].kind == kind;
    }
    if f.kind == kind {
      assert frames'[|frames|].kind == kind;
    }
  }

  lemma FlagsFollow(g: Graph, frames: seq<Frame>, f: Frame)
    requires FlagsAre(g, frames)
    ensures FlagsAre(FlagStep(g, f), frames + [f])
  {
    assert (frames + [f])[..|frames + [f]| - 1] == frames;
    KindStep(frames, f, RunStarted);
    KindStep(frames, f, RunFinished);
    KindStep(frames, f, RunFailed);
  }

  lemma SpendingSnoc(frames: seq<Frame>, f: Frame, frames': seq<Frame>)
    requires frames' == frames + [f]
    ensures !f.Work() ==> Spent(frames', Everyone) == Spent(frames, Everyone)
    ensures f.Work() ==> Spent(frames', Everyone) == Spent(frames, Everyone).Plus(OrZero(f.tokens))
    ensures !f.Work() || f.Who().Some? ==>
              WorkOf(frames', None) == WorkOf(frames, None) && Spent(frames', Only(None)) == Spent(frames, Only(None))
    ensures f.Work() && f.Who().None? ==>
              && WorkOf(frames', None) == WorkOf(frames, None) + [Line(f)]
              && Spent(frames', Only(None)) == Spent(frames, Only(None)).Plus(OrZero(f.tokens))
  {
    assert frames'[..|frames'| - 1] == frames;
  }

  lemma SpendingFollows(g: Graph, frames: seq<Frame>, f: Frame, frames': seq<Frame>)
    requires SpendingIs(g, frames) && frames' == frames + [f]
    ensures SpendingIs(SpendingStep(g, f), frames')
  {
    SpendingSnoc(frames, f, frames');
  }

  lemma NodesAside(g: Graph, tasks: seq<Agent>, frames: seq<Frame>)
    requires LeadIs(g, frames)
    ensures LeadIs(g.(tasks := tasks), frames)
  {
  }

  lemma StillIndexed(byId: map<string, nat>, tasks: seq<Agent>, at: nat, f: Frame)
    requires Indexed(byId, tasks) && at < |tasks|
    ensures Indexed(byId, tasks[at := Touch(tasks[at], f)])
  {
    assert Touch(tasks[at], f).taskId == tasks[at].taskId;
  }

  lemma FindingsFollow(frames: seq<Frame>, f: Frame)
    ensures LastFindings(frames + [f], 0) == FindingsStep(LastFindings(frames, 0), f)
  {
    assert (frames + [f])[..|frames + [f]| - 1] == frames;
  }

  lemma LeadFollows(g: Graph, frames: seq<Frame>, f: Frame)
    requires LeadIs(g, frames)
    ensures LeadIs(LeadStep(g, f), frames + [f]) && LeadStep(g, f).tasks == g.tasks
  {
    FindingsFollow(frames, f);
    var g1 := g.(leadFindings := FindingsStep(g.leadFindings, f));
    assert FlagsAre(g1, frames) && SpendingIs(g1, frames);
    FlagsFollow(g1, frames, f);
    var g2 := FlagStep(g1, f);
    assert SpendingIs(g2, frames);
    SpendingFollows(g2, frames, f, frames + [f]);
  }

  /** One frame: the lead's part, then the node it is about. */
  method Fold(graph: Graph, byId: map<string, nat>, f: Frame, ghost frames: seq<Frame>)
    returns (graph': Graph, byId': map<string, nat>)
    requires LeadIs(graph, frames) && TasksAre(graph.tasks, frames) && Indexed(byId, graph.tasks)
    ensures LeadIs(graph', frames + [f]) && TasksAre(graph'.tasks, frames + [f]) && Indexed(byId', graph'.tasks)
  {
    LeadFollows(graph, frames, f);
    graph', byId' := LeadStep(graph, f), byId;
    if (f.Work() || f.Task()) && f.Who().Some? {
      IndexedMentions(byId, graph.tasks, frames, f.Who().value);
      var index, tasks, at := Node(byId, graph.tasks, f.Who().value);
      TasksStep(graph.tasks, frames, f, tasks, at);
      StillIndexed(index, tasks, at, f);
      tasks := tasks[at := Touch(tasks[at], f)];
      NodesAside(graph', tasks, frames + [f]);
      byId', graph' := index, graph'.(tasks := tasks);
    } else {
      TasksStay(graph.tasks, frames, f);
    }
  }

  method FoldActivity(frames: seq<Frame>) returns (graph: Graph)
    ensures LeadIs(graph, frames) && TasksAre(graph.tasks, frames)
  {
    graph := Graph(false, false, false, 0, None, [], [], NoTokens, NoTokens);
    var byId: map<string, nat> := map[];
    for k := 0 to |frames|
      invariant LeadIs(graph, frames[..k])
      invariant TasksAre(graph.tasks, frames[..k]) && Indexed(byId, graph.tasks)
    {
      assert frames[..k + 1] == frames[..k] + [frames[k]];
      graph, byId := Fold(graph, byId, frames[k], frames[..k]);
    }
    assert frames[..|frames|] == frames;
  }
}
