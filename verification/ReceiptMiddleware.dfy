/** The middleware between the ledger's producer and its reader. */
module ReceiptMiddleware {
  import opened Common
  import opened Untyped
  import opened Ledger

  const RENDER_BUDGET: int := 2000

  function LeadingSystem(ms: seq<Message>): (k: nat)
    ensures k <= |ms| && forall j :: 0 <= j < k ==> ms[j].System?
    ensures k < |ms| ==> !ms[k].System?
  {
    if |ms| > 0 && ms[0].System? then 1 + LeadingSystem(ms[1..]) else 0
  }

  function Shown(ms: seq<Message>): seq<Receipt> { Rendered(Receipts(ms), RENDER_BUDGET).1 }

  /** The thread the model sees: the ledger goes right after the system messages. */
  function WithLedger(ms: seq<Message>): seq<Message> {
    var k := LeadingSystem(ms);
    if |Receipts(ms)| == 0 then ms
    else ms[..k] + [Human(Rendered(Receipts(ms), RENDER_BUDGET).0)] + ms[k..]
  }

  /** The thread as it stands, with one more message right behind the leading system messages. */
  ghost predicate OneMore(ms: seq<Message>, request: seq<Message>, m: Message) {
    exists k: nat ::
      && k < |request| && request[k] == m && request[..k] + request[k + 1..] == ms
      && (forall j :: 0 <= j < k ==> ms[j].System?) && (k < |ms| ==> !ms[k].System?)
  }

  /** The request keeps the whole thread: it gains the text of the ledger if there are receipts,
      and nothing otherwise. */
  lemma ThreadIsKept(ms: seq<Message>)
    ensures if |Receipts(ms)| == 0 then WithLedger(ms) == ms
            else OneMore(ms, WithLedger(ms), Human(Rendered(Receipts(ms), RENDER_BUDGET).0))
  {
    var k, request := LeadingSystem(ms), WithLedger(ms);
    if |Receipts(ms)| > 0 {
      assert request[k] == Human(Rendered(Receipts(ms), RENDER_BUDGET).0);
      assert request[..k] == ms[..k] && request[k + 1..] == ms[k..];
      assert ms[..k] + ms[k..] == ms;
    }
  }

  method InjectLedger(messages: seq<Message>) returns (request: seq<Message>, snapshot: seq<Any>)
    ensures if |Receipts(messages)| == 0 then request == messages
            else OneMore(messages, request, Human(Rendered(Receipts(messages), RENDER_BUDGET).0))
    ensures request == WithLedger(messages)
    ensures snapshot == AsDicts(Shown(messages))
  {
    ThreadIsKept(messages);
    var receipts := ExtractToolReceipts(messages);
    if |receipts| == 0 {
      return messages, [];
    }
    var rendered, retained := RenderToolReceipts(receipts, RENDER_BUDGET);
    RenderedNonempty(receipts, RENDER_BUDGET);
    if |rendered| == 0 {
      assert false;
    }
    var insertAt := 0;
    while insertAt < |messages| && messages[insertAt].System?
      invariant insertAt <= |messages|
      invariant forall j :: 0 <= j < insertAt ==> messages[j].System?
    {
      insertAt := insertAt + 1;
    }
    assert insertAt == LeadingSystem(messages);
    request := messages[..insertAt] + [Human(rendered)] + messages[insertAt..];
    snapshot := AsDicts(retained);
  }

  lemma RenderedNonempty(rs: seq<Receipt>, max: int)
    requires |rs| > 0
    ensures |Rendered(rs, max).0| > 0
  {
    RenderedLength(rs, max);
  }

  function StampedReply(reply: seq<Message>, snapshot: seq<Any>): seq<Message> {
    seq(|reply|, k requires 0 <= k < |reply| =>
      if |snapshot| > 0 && reply[k].AI? then AI(reply[k].kwargs[LEDGER_KEY := List(snapshot)]) else reply[k])
  }

  method StampResponse(reply: seq<Message>, snapshot: seq<Any>) returns (stamped: seq<Message>)
    ensures stamped == StampedReply(reply, snapshot)
    ensures |snapshot| == 0 ==> stamped == reply
    ensures |stamped| == |reply| && forall k :: 0 <= k < |reply| && !reply[k].AI? ==> stamped[k] == reply[k]
    ensures |snapshot| > 0 ==>
              forall k :: 0 <= k < |reply| && reply[k].AI? ==>
                && stamped[k].AI? && stamped[k].kwargs == reply[k].kwargs[LEDGER_KEY := List(snapshot)]
  {
    stamped := reply;
    if |snapshot| == 0 {
      return;
    }
    for k := 0 to |reply|
      invariant |stamped| == |reply|
      invariant forall j :: 0 <= j < k ==> stamped[j] == StampedReply(reply, snapshot)[j]
      invariant forall j :: k <= j < |reply| ==> stamped[j] == reply[j]
    {
      if reply[k].AI? {
        stamped := stamped[k := AI(reply[k].kwargs[LEDGER_KEY := List(snapshot)])];
      }
    }
  }

  /** A run of receipts whose ids count up is a strict ledger and reads back unchanged. */
  lemma RunReadsBack(rs: seq<Receipt>, first: nat)
    requires forall k :: 0 <= k < |rs| ==> rs[k].id == ReceiptId(first + k)
    ensures Consecutive(AsDicts(rs), first)
    ensures forall k :: 0 <= k < |rs| ==> Readable(AsDicts(rs)[k])
    ensures ReadBack(AsDicts(rs)) == rs
  {
    var items := AsDicts(rs);
    forall k | 0 <= k < |rs|
      ensures HasPosition(items[k], first + k) && Readable(items[k])
      ensures Typed(items[k].entries["id"].s, items[k]) == rs[k]
    {
      DictRoundTrip(rs[k]);
      assert items[k] == AsDict(rs[k]);
    }
    assert forall k :: 0 <= k < |rs| ==> ReadBack(items)[k] == rs[k];
  }

  lemma ShownIsNewest(ms: seq<Message>)
    ensures |Shown(ms)| <= |Receipts(ms)| && Shown(ms) == Newest(Receipts(ms), |Shown(ms)|)
  {
    if |Receipts(ms)| > 0 {
      SnapshotIsLongest(Receipts(ms), RENDER_BUDGET);
    }
  }

  /** The number of the oldest receipt shown. */
  function FirstShown(ms: seq<Message>): (first: nat)
    ensures first > 0
  {
    ShownIsNewest(ms);
    |Receipts(ms)| - |Shown(ms)| + 1
  }

  lemma ShownIds(ms: seq<Message>)
    ensures forall k :: 0 <= k < |Shown(ms)| ==> Shown(ms)[k].id == ReceiptId(FirstShown(ms) + k)
  {
    ShownIsNewest(ms);
    var rs, shown := Receipts(ms), Shown(ms);
    forall k | 0 <= k < |shown|
      ensures shown[k].id == ReceiptId(FirstShown(ms) + k)
    {
      assert shown[k] == rs[|rs| - |shown| + k];
    }
  }

  /** What is shown is a run of newest receipts, so its ids still count up by one. */
  lemma ShownConsecutive(ms: seq<Message>)
    ensures exists first: nat :: first > 0 && Consecutive(AsDicts(Shown(ms)), first)
    ensures forall k :: 0 <= k < |Shown(ms)| ==> Readable(AsDicts(Shown(ms))[k])
    ensures ReadBack(AsDicts(Shown(ms))) == Shown(ms)
  {
    ShownIds(ms);
    RunReadsBack(Shown(ms), FirstShown(ms));
  }

  predicate Unstamped(m: Message) { m.AI? ==> LEDGER_KEY !in m.kwargs }

  lemma {:induction false} LastLedgerSkips(ms: seq<Message>, tail: seq<Message>)
    requires forall m <- tail :: Unstamped(m)
    ensures LastLedger(ms + tail) == LastLedger(ms)
    decreases |tail|
  {
    if |tail| == 0 {
      assert ms + tail == ms;
    } else {
      var k := |tail| - 1;
      assert (ms + tail)[..|ms + tail| - 1] == ms + tail[..k];
      assert (ms + tail)[|ms + tail| - 1] == tail[k] && Unstamped(tail[k]);
      LastLedgerSkips(ms, tail[..k]);
    }
  }

  /** The last stamped AI message decides. */
  lemma {:induction false} LastLedgerStamped(ms: seq<Message>, reply: seq<Message>, snapshot: seq<Any>)
    requires |snapshot| > 0 && exists k :: 0 <= k < |reply| && reply[k].AI?
    ensures LastLedger(ms + StampedReply(reply, snapshot)) == Some(List(snapshot))
    decreases |reply|
  {
    var k, stamped := |reply| - 1, StampedReply(reply, snapshot);
    assert (ms + stamped)[|ms + stamped| - 1] == stamped[k];
    assert (ms + stamped)[..|ms + stamped| - 1] == ms + StampedReply(reply[..k], snapshot);
    if !reply[k].AI? {
      var j :| 0 <= j < |reply| && reply[j].AI?;
      assert reply[..k][j].AI?;
      LastLedgerStamped(ms, reply[..k], snapshot);
    }
  }

  predicate HasAI(reply: seq<Message>) { exists k :: 0 <= k < |reply| && reply[k].AI? }

  /** The thread after a model call on `ms` was answered with `reply` and unstamped messages
      followed. */
  function Thread(ms: seq<Message>, history: seq<Message>, reply: seq<Message>, tail: seq<Message>): seq<Message> {
    history + StampedReply(reply, AsDicts(Shown(ms))) + tail
  }

  /** For every thread, reply and later unstamped messages: the strict reader finds, accepts and
      returns unchanged exactly the receipts shown to the model; and where none were shown, or
      nothing in the reply could be stamped, the thread is as if the model had not been called
      with a ledger, so the reader falls back to the last older one. */
  lemma LedgerRoundTrip(ms: seq<Message>, history: seq<Message>, reply: seq<Message>, tail: seq<Message>)
    requires forall m <- tail :: Unstamped(m)
    ensures CitingReceipts(Thread(ms, history, reply, tail)) ==
            if |Shown(ms)| > 0 && HasAI(reply) then Some(Shown(ms)) else CitingReceipts(history + reply)
  {
    var snapshot := AsDicts(Shown(ms));
    LastLedgerSkips(history + StampedReply(reply, snapshot), tail);
    if |Shown(ms)| > 0 && HasAI(reply) {
      ShownConsecutive(ms);
      LastLedgerStamped(history, reply, snapshot);
    } else {
      assert StampedReply(reply, snapshot) == reply;
    }
  }
}
