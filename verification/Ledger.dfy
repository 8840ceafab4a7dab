/** Untyped values as they travel in message metadata. */
module Untyped {
  datatype Any =
    | Null
    | Bool(b: bool)
    | Int(n: int)
    | Str(s: string)
    | List(items: seq<Any>)
    | Dict(entries: map<string, Any>)

  predicate HasStr(d: map<string, Any>, key: string) { key in d && d[key].Str? }

  predicate HasInt(d: map<string, Any>, key: string) { key in d && d[key].Int? }
}

/**
 Receipts of a subagent's tool calls: numbered when they are collected, rendered into a
 budgeted ledger for the model, stamped on the reply as an exact snapshot, and read back by
 a strict reader that trusts nothing.
 */
module Ledger {
  import opened Common
  import opened Sequences
  import opened Untyped
  import Decimal

  const RECEIPT_KEY: string := "tool_receipt"
  const LEDGER_KEY: string := "tool_receipt_ledger"

  datatype Receipt = Receipt(
    id: string, toolCallId: string, toolName: string, status: string,
    argsSha256: string, outputSha256: string, outputBytes: int, createdAt: string)

  datatype Message =
    | System
    | Human(text: string)
    | AI(kwargs: map<string, Any>)
    | Tool(kwargs: map<string, Any>)

  function ReceiptId(position: nat): string { "r" + Decimal.Print(position) }

  // ---- typed and untyped receipts ------------------------------------------

  predicate IsValidReceipt(v: Any) {
    && v.Dict?
    && HasStr(v.entries, "tool_call_id") && HasStr(v.entries, "tool_name") && HasStr(v.entries, "status")
    && HasStr(v.entries, "args_sha256") && HasStr(v.entries, "output_sha256") && HasStr(v.entries, "created_at")
    && HasInt(v.entries, "output_bytes")
  }

  function Typed(id: string, v: Any): Receipt
    requires IsValidReceipt(v)
  {
    var d := v.entries;
    Receipt(id, d["tool_call_id"].s, d["tool_name"].s, d["status"].s,
            d["args_sha256"].s, d["output_sha256"].s, d["output_bytes"].n, d["created_at"].s)
  }

  function AsDict(r: Receipt): Any {
    Dict(map["id" := Str(r.id), "tool_call_id" := Str(r.toolCallId), "tool_name" := Str(r.toolName),
             "status" := Str(r.status), "args_sha256" := Str(r.argsSha256),
             "output_sha256" := Str(r.outputSha256), "output_bytes" := Int(r.outputBytes),
             "created_at" := Str(r.createdAt)])
  }

  /** A receipt survives the trip through an untyped dictionary. */
  lemma DictRoundTrip(r: Receipt)
    ensures IsValidReceipt(AsDict(r)) && Typed(r.id, AsDict(r)) == r
    ensures "id" in AsDict(r).entries && AsDict(r).entries["id"] == Str(r.id)
  {
  }

  function AsDicts(rs: seq<Receipt>): seq<Any> {
    seq(|rs|, k requires 0 <= k < |rs| => AsDict(rs[k]))
  }

  // ---- collecting ----------------------------------------------------------

  predicate Stamped(m: Message) {
    m.Tool? && RECEIPT_KEY in m.kwargs && IsValidReceipt(m.kwargs[RECEIPT_KEY])
  }

  /** The stamped receipts of a thread, in message order. */
  function StampedReceipts(ms: seq<Message>): seq<Any>
    ensures forall v <- StampedReceipts(ms) :: IsValidReceipt(v)
  {
    if |ms| == 0 then []
    else (if Stamped(ms[0]) then [ms[0].kwargs[RECEIPT_KEY]] else []) + StampedReceipts(ms[1..])
  }

  /** Display ids r1..rN by position. */
  function Numbered(vs: seq<Any>): seq<Receipt>
    requires forall v <- vs :: IsValidReceipt(v)
  {
    seq(|vs|, k requires 0 <= k < |vs| => Typed(ReceiptId(k + 1), vs[k]))
  }

  function Receipts(ms: seq<Message>): seq<Receipt> { Numbered(StampedReceipts(ms)) }

  lemma {:induction false} StampedSnoc(ms: seq<Message>, m: Message)
    ensures StampedReceipts(ms + [m]) == StampedReceipts(ms) + (if Stamped(m) then [m.kwargs[RECEIPT_KEY]] else [])
    decreases |ms|
  {
    if |ms| == 0 {
      assert ms + [m] == [m] && [m][1..] == [];
    } else {
      assert (ms + [m])[1..] == ms[1..] + [m];
      StampedSnoc(ms[1..], m);
      Associative(if Stamped(ms[0]) then [ms[0].kwargs[RECEIPT_KEY]] else [], StampedReceipts(ms[1..]),
                  if Stamped(m) then [m.kwargs[RECEIPT_KEY]] else []);
    }
  }

  method ExtractToolReceipts(messages: seq<Message>) returns (receipts: seq<Receipt>)
    ensures receipts == Receipts(messages)
    ensures forall k :: 0 <= k < |receipts| ==> receipts[k].id == ReceiptId(k + 1)
  {
    receipts := [];
    for k := 0 to |messages|
      invariant receipts == Receipts(messages[..k])
    {
      var m := messages[k];
      assert messages[..k + 1] == messages[..k] + [m];
      StampedSnoc(messages[..k], m);
      if m.Tool? && RECEIPT_KEY in m.kwargs && IsValidReceipt(m.kwargs[RECEIPT_KEY]) {
        receipts := receipts + [Typed(ReceiptId(|receipts| + 1), m.kwargs[RECEIPT_KEY])];
      }
    }
    assert messages[..|messages|] == messages;
  }

  /** Where the stamped messages of a thread are. */
  function StampedAt(ms: seq<Message>): seq<nat> {
    if |ms| == 0 then []
    else StampedAt(ms[..|ms| - 1]) + if Stamped(ms[|ms| - 1]) then [|ms| - 1] else []
  }

  /** Every stamped message is there once, in order, and nothing else is. */
  lemma {:induction false} StampedAtExactly(ms: seq<Message>)
    ensures forall j :: j in StampedAt(ms) <==> 0 <= j < |ms| && Stamped(ms[j])
    ensures forall j, k :: 0 <= j < k < |StampedAt(ms)| ==> StampedAt(ms)[j] < StampedAt(ms)[k]
    decreases |ms|
  {
    if |ms| > 0 {
      var front, at := ms[..|ms| - 1], StampedAt(ms[..|ms| - 1]);
      StampedAtExactly(front);
      assert forall k :: 0 <= k < |at| ==> at[k] in at;
      assert forall j :: 0 <= j < |front| ==> front[j] == ms[j];
    }
  }

  lemma {:induction false} StampedThere(ms: seq<Message>)
    ensures |StampedReceipts(ms)| == |StampedAt(ms)|
    ensures forall k :: 0 <= k < |StampedAt(ms)| ==>
              && StampedAt(ms)[k] < |ms| && Stamped(ms[StampedAt(ms)[k]])
              && StampedReceipts(ms)[k] == ms[StampedAt(ms)[k]].kwargs[RECEIPT_KEY]
    decreases |ms|
  {
    if |ms| > 0 {
      var front := ms[..|ms| - 1];
      StampedThere(front);
      StampedSnoc(front, ms[|ms| - 1]);
      assert ms == front + [ms[|ms| - 1]];
    }
  }

  /** The k-th receipt is that of the k-th stamped tool message, field by field, under its number. */
  lemma ReceiptsInOrder(ms: seq<Message>)
    ensures |Receipts(ms)| == |StampedAt(ms)|
    ensures forall k :: 0 <= k < |Receipts(ms)| ==>
              && StampedAt(ms)[k] < |ms| && Stamped(ms[StampedAt(ms)[k]])
              && var d, r := ms[StampedAt(ms)[k]].kwargs[RECEIPT_KEY].entries, Receipts(ms)[k];
              && r.id == "r" + Decimal.Print(k + 1)
              && d["tool_call_id"] == Str(r.toolCallId) && d["tool_name"] == Str(r.toolName)
              && d["status"] == Str(r.status) && d["created_at"] == Str(r.createdAt)
              && d["args_sha256"] == Str(r.argsSha256) && d["output_sha256"] == Str(r.outputSha256)
              && d["output_bytes"] == Int(r.outputBytes)
  {
    StampedThere(ms);
  }

  // ---- the strict reader ---------------------------------------------------

  /** A valid receipt that carries the display id of this position. */
  predicate HasPosition(v: Any, position: nat) {
    IsValidReceipt(v) && "id" in v.entries && v.entries["id"] == Str(ReceiptId(position))
  }

  predicate Consecutive(items: seq<Any>, first: nat) {
    forall k :: 0 <= k < |items| ==> HasPosition(items[k], first + k)
  }

  /** A list of receipts whose ids count up from some first position. */
  ghost predicate StrictLedger(raw: Any) {
    raw.List? && exists first: nat :: first > 0 && Consecutive(raw.items, first)
  }

  predicate Readable(v: Any) { IsValidReceipt(v) && HasStr(v.entries, "id") }

  function ReadBack(items: seq<Any>): seq<Receipt>
    requires forall k :: 0 <= k < |items| ==> Readable(items[k])
  {
    seq(|items|, k requires 0 <= k < |items| => assert Readable(items[k]); Typed(items[k].entries["id"].s, items[k]))
  }

  /** `r[1-9]\d*` */
  predicate IsReceiptId(s: string) { |s| > 0 && s[0] == 'r' && Decimal.Canonical(s[1..]) }

  /** An id is a receipt id exactly when it is the id of a positive position, and of one only. */
  lemma IdPosition(s: string, n: nat)
    ensures IsReceiptId(s) && n == Decimal.Parse(s[1..]) <==> s == ReceiptId(n) && n > 0
  {
    if IsReceiptId(s) && n == Decimal.Parse(s[1..]) {
      Decimal.PrintParse(s[1..]);
      assert s == [s[0]] + s[1..];
    }
    if s == ReceiptId(n) && n > 0 {
      assert s[1..] == Decimal.Print(n);
      Decimal.PrintIsDigits(n);
      Decimal.ParsePrint(n);
    }
  }

  lemma RejectShape(items: seq<Any>, index: nat, f: nat)
    requires index < |items| && f > 0
    requires !Readable(items[index]) || !IsReceiptId(items[index].entries["id"].s)
    ensures !Consecutive(items, f)
  {
    IdPosition(ReceiptId(f + index), f + index);
    assert !HasPosition(items[index], f + index);
  }

  lemma RejectPosition(items: seq<Any>, index: nat, first: nat, f: nat)
    requires index < |items| && f > 0
    requires HasPosition(items[0], first) && !HasPosition(items[index], first + index)
    ensures !Consecutive(items, f)
  {
    if Consecutive(items, f) {
      assert HasPosition(items[0], f + 0) && HasPosition(items[index], f + index);
      IdPosition(ReceiptId(f), f);
      assert ReceiptId(f)[1..] == Decimal.Print(f) && ReceiptId(first)[1..] == Decimal.Print(first);
      Decimal.PrintInjective(f, first);
      assert false;
    }
  }

  /** Accepts exactly the strict ledgers and returns their receipts as they stand. */
  method ReadLedger(raw: Any) returns (result: Option<seq<Receipt>>)
    ensures result.Some? <==> StrictLedger(raw)
    ensures result.Some? ==>
              (forall k :: 0 <= k < |raw.items| ==> Readable(raw.items[k])) && result.value == ReadBack(raw.items)
  {
    if !raw.List? {
      return None;
    }
    var items := raw.items;
    var receipts: seq<Receipt>, first: nat := [], 1;
    for index := 0 to |items|
      invariant first > 0
      invariant forall k :: 0 <= k < index ==> HasPosition(items[k], first + k)
      invariant receipts == ReadBack(items[..index])
    {
      var v := items[index];
      if !IsValidReceipt(v) || !("id" in v.entries && v.entries["id"].Str?) || !IsReceiptId(v.entries["id"].s) {
        forall f: nat | f > 0
          ensures !Consecutive(items, f)
        {
          RejectShape(items, index, f);
        }
        return None;
      }
      var rid := v.entries["id"].s;
      if index == 0 {
        first := Decimal.Parse(rid[1..]);
        IdPosition(rid, first);
      }
      if rid != ReceiptId(first + index) {
        forall f: nat | f > 0
          ensures !Consecutive(items, f)
        {
          RejectPosition(items, index, first, f);
        }
        return None;
      }
      assert items[..index + 1] == items[..index] + [v];
      receipts := receipts + [Typed(rid, v)];
    }
    assert items[..|items|] == items;
    assert Consecutive(items, first);
    result := Some(receipts);
  }

  /** The last AI message that carries a ledger. */
  function LastLedger(ms: seq<Message>): Option<Any> {
    if |ms| == 0 then None
    else
      var m := ms[|ms| - 1];
      if m.AI? && LEDGER_KEY in m.kwargs && !m.kwargs[LEDGER_KEY].Null? then Some(m.kwargs[LEDGER_KEY])
      else LastLedger(ms[..|ms| - 1])
  }

  predicate Carries(m: Message, v: Any) { m.AI? && LEDGER_KEY in m.kwargs && m.kwargs[LEDGER_KEY] == v && !v.Null? }

  /** It is the one no later AI message replaces. */
  lemma {:induction false} LastLedgerExactly(ms: seq<Message>, v: Any)
    ensures LastLedger(ms) == Some(v) <==>
            exists k :: 0 <= k < |ms| && Carries(ms[k], v)
                        && forall j :: k < j < |ms| ==> forall w :: !Carries(ms[j], w)
    decreases |ms|
  {
    if |ms| > 0 {
      var front, m := ms[..|ms| - 1], ms[|ms| - 1];
      LastLedgerExactly(front, v);
      if m.AI? && LEDGER_KEY in m.kwargs && !m.kwargs[LEDGER_KEY].Null? {
        assert Carries(m, m.kwargs[LEDGER_KEY]);
      } else {
        assert forall k :: 0 <= k < |front| ==> front[k] == ms[k];
      }
    }
  }

  /** The receipts of that ledger, if it is strict; an older one is not consulted. */
  ghost function CitingReceipts(ms: seq<Message>): Option<seq<Receipt>> {
    if LastLedger(ms).Some? && StrictLedger(LastLedger(ms).value)
    then StrictIsReadable(LastLedger(ms).value); Some(ReadBack(LastLedger(ms).value.items))
    else None
  }

  lemma StrictIsReadable(v: Any)
    requires StrictLedger(v)
    ensures v.List? && forall k :: 0 <= k < |v.items| ==> Readable(v.items[k])
  {
    var first: nat :| first > 0 && Consecutive(v.items, first);
    assert forall k :: 0 <= k < |v.items| ==> HasPosition(v.items[k], first + k);
  }

  method ExtractCitingTurnReceipts(messages: seq<Message>) returns (result: Option<seq<Receipt>>)
    ensures result == CitingReceipts(messages)
  {
    var k := |messages|;
    assert messages[..k] == messages;
    while k > 0
      invariant 0 <= k <= |messages|
      invariant LastLedger(messages) == LastLedger(messages[..k])
    {
      k := k - 1;
      var m := messages[k];
      assert messages[..k + 1][..k] == messages[..k] && messages[..k + 1][k] == m;
      if m.AI? && LEDGER_KEY in m.kwargs && !m.kwargs[LEDGER_KEY].Null? {
        result := ReadLedger(m.kwargs[LEDGER_KEY]);
        return;
      }
    }
    return None;
  }

  // ---- rendering -----------------------------------------------------------

  function Join(lines: seq<string>): string {
    if |lines| == 0 then "" else if |lines| == 1 then lines[0] else lines[0] + "\n" + Join(lines[1..])
  }

  /** Lines joined are the lines with a line break between each two. */
  lemma {:induction false} JoinAppend(a: seq<string>, b: seq<string>)
    requires |a| > 0 && |b| > 0
    ensures Join(a + b) == Join(a) + "\n" + Join(b)
    decreases |a|
  {
    if |a| == 1 {
      assert (a + b)[1..] == b;
    } else {
      assert (a + b)[1..] == a[1..] + b;
      JoinAppend(a[1..], b);
    }
  }

  lemma JoinOne(line: string)
    ensures Join([line]) == line && Join([]) == ""
  {
  }

  function FormatCitation(rid: string, tool: Option<string>): string {
    if tool.Some? && tool.value != "" then "[" + rid + " " + tool.value + "]" else "[" + rid + "]"
  }

  function Header(): seq<string> {
    ["## Tool receipts (execution record)",
     "Cite receipt ids (e.g. " + FormatCitation(ReceiptId(1), Some("sandbox_run")) + ") in your"
     + " final report for every claim about an action you took.",
     "Execution evidence only \U{2014} receipts record that a call happened and its status;"
     + " they do not validate claim correctness or task acceptance."]
  }

  const OMISSION: string := "- ... older receipts omitted (context budget)"

  function Line(r: Receipt): string {
    "- [" + r.id + "] " + r.toolName + " status=" + r.status + " args_sha256=" + r.argsSha256
    + " output_sha256=" + r.outputSha256 + " bytes=" + Decimal.PrintInt(r.outputBytes)
  }

  lemma SampleHead()
    ensures "- [" + "r1" + "] " + "t" + " status=" + "s" == "- [r1] t status=s"
  {
  }

  lemma SampleSums()
    ensures " args_sha256=" + "a" + " output_sha256=" + "o" + " bytes=" + "1" ==
            " args_sha256=a output_sha256=o bytes=1"
  {
  }

  lemma Grouped(head: string, a: string, b: string, c: string, d: string, e: string, f: string)
    ensures head + a + b + c + d + e + f == head + (a + b + c + d + e + f)
  {
  }

  /** A line, on a receipt no two fields of which are alike. */
  lemma SampleLine()
    ensures Line(Receipt("r1", "c", "t", "s", "a", "o", 1, "n")) ==
            "- [r1] t status=s" + " args_sha256=a output_sha256=o bytes=1"
  {
    SampleHead();
    SampleSums();
    assert Decimal.PrintInt(1) == "1";
    Grouped("- [r1] t status=s", " args_sha256=", "a", " output_sha256=", "o", " bytes=", "1");
  }

  function Lines(rs: seq<Receipt>): seq<string> { Map(Line, rs) }

  function Newest(rs: seq<Receipt>, k: nat): seq<Receipt>
    requires k <= |rs|
  {
    rs[|rs| - k..]
  }

  function FullText(rs: seq<Receipt>): string { Join(Header() + Lines(rs)) }

  function CutText(rs: seq<Receipt>): string { Join(Header() + [OMISSION] + Lines(rs)) }

  /** The newest receipts that fit together with the omission line, counted one by one. */
  function Kept(rs: seq<Receipt>, max: int, k: nat): nat
    requires k <= |rs|
    decreases |rs| - k
  {
    if k < |rs| && |CutText(Newest(rs, k + 1))| <= max then Kept(rs, max, k + 1) else k
  }

  function Clip(s: string, max: int): string {
    s[..if max < 4 then 0 else if max - 4 < |s| then max - 4 else |s|] + "\n..."
  }

  /** The text shown to the model and the receipts it shows in full. */
  function Rendered(rs: seq<Receipt>, max: int): (string, seq<Receipt>)
  {
    if |rs| == 0 then ("", [])
    else if |FullText(rs)| <= max then (FullText(rs), rs)
    else
      KeptBounds(rs, max, 0);
      var shown := Newest(rs, Kept(rs, max, 0));
      if |CutText(shown)| <= max then (CutText(shown), shown) else (Clip(CutText(shown), max), [])
  }

  lemma {:induction false} KeptBounds(rs: seq<Receipt>, max: int, k: nat)
    requires k <= |rs|
    ensures k <= Kept(rs, max, k) <= |rs|
    ensures Kept(rs, max, k) > k ==> |CutText(Newest(rs, Kept(rs, max, k)))| <= max
    decreases |rs| - k
  {
    if k < |rs| && |CutText(Newest(rs, k + 1))| <= max {
      KeptBounds(rs, max, k + 1);
    }
  }

  method RenderToolReceipts(receipts: seq<Receipt>, max: int) returns (rendered: string, retained: seq<Receipt>)
    ensures (rendered, retained) == Rendered(receipts, max)
  {
    if |receipts| == 0 {
      return "", [];
    }
    var lines, receiptLines := Header(), Lines(receipts);
    if |Join(lines + receiptLines)| <= max {
      return Join(lines + receiptLines), receipts;
    }
    var kept, keptLines := KeepNewest(receipts, max, lines, receiptLines);
    rendered := Join(lines + [OMISSION] + keptLines);
    retained := receipts[|receipts| - kept..];
    if |rendered| > max {
      rendered := rendered[..if max < 4 then 0 else max - 4] + "\n...";
      retained := [];
    }
  }

  /** Newest first, while the next line still fits. */
  method KeepNewest(receipts: seq<Receipt>, max: int, lines: seq<string>, receiptLines: seq<string>)
    returns (kept: nat, keptLines: seq<string>)
    requires lines == Header() && receiptLines == Lines(receipts)
    ensures kept == Kept(receipts, max, 0) <= |receipts|
    ensures keptLines == Lines(Newest(receipts, kept))
  {
    kept, keptLines := 0, [];
    var n := |receiptLines|;
    while kept < n
      invariant 0 <= kept <= n
      invariant keptLines == Lines(Newest(receipts, kept))
      invariant Kept(receipts, max, 0) == Kept(receipts, max, kept)
      decreases n - kept
    {
      var line := receiptLines[n - 1 - kept];
      OneMore(receipts, kept, line, keptLines);
      if |Join(lines + [OMISSION, line] + keptLines)| > max {
        break;
      }
      keptLines := [line] + keptLines;
      kept := kept + 1;
    }
  }

  /** Prepending the next line is rendering one receipt more. */
  lemma OneMore(rs: seq<Receipt>, kept: nat, line: string, keptLines: seq<string>)
    requires kept < |rs| && line == Line(rs[|rs| - 1 - kept]) && keptLines == Lines(Newest(rs, kept))
    ensures Lines(Newest(rs, kept + 1)) == [line] + keptLines
    ensures Join(Header() + [OMISSION, line] + keptLines) == CutText(Newest(rs, kept + 1))
  {
    NextLine(rs, kept, line, keptLines);
    Regroup(Header(), OMISSION, line, keptLines);
  }

  lemma NextLine(rs: seq<Receipt>, kept: nat, line: string, keptLines: seq<string>)
    requires kept < |rs| && line == Line(rs[|rs| - 1 - kept]) && keptLines == Lines(Newest(rs, kept))
    ensures Lines(Newest(rs, kept + 1)) == [line] + keptLines
  {
    var next := rs[|rs| - 1 - kept];
    assert Newest(rs, kept + 1) == [next] + Newest(rs, kept);
    MapOne(Line, next);
    MapAppend(Line, [next], Newest(rs, kept));
  }

  lemma Regroup(head: seq<string>, a: string, b: string, rest: seq<string>)
    ensures head + [a, b] + rest == head + [a] + ([b] + rest)
  {
  }

  // ---- lengths -------------------------------------------------------------

  function Total(lines: seq<string>): nat {
    if |lines| == 0 then 0 else |lines[0]| + 1 + Total(lines[1..])
  }

  lemma {:induction false} JoinLength(lines: seq<string>)
    requires |lines| > 0
    ensures |Join(lines)| == Total(lines) - 1
    decreases |lines|
  {
    if |lines| == 1 {
      assert lines[1..] == [];
    } else {
      JoinLength(lines[1..]);
    }
  }

  lemma {:induction false} TotalAppend(a: seq<string>, b: seq<string>)
    ensures Total(a + b) == Total(a) + Total(b)
    decreases |a|
  {
    if |a| == 0 {
      assert a + b == b;
    } else {
      assert (a + b)[1..] == a[1..] + b;
      TotalAppend(a[1..], b);
    }
  }

  lemma TextLengths(rs: seq<Receipt>)
    ensures |FullText(rs)| == Total(Header()) + Total(Lines(rs)) - 1
    ensures |CutText(rs)| == Total(Header()) + |OMISSION| + Total(Lines(rs))
  {
    var lines, head := Lines(rs), Header() + [OMISSION];
    TotalAppend(Header(), lines);
    JoinLength(Header() + lines);
    TotalAppend(head, lines);
    TotalAppend(Header(), [OMISSION]);
    JoinLength(head + lines);
    assert Total([OMISSION]) == |OMISSION| + 1;
  }

  /** More receipts make a longer text; the omission line makes it longer still. */
  lemma CutLonger(rs: seq<Receipt>, j: nat, k: nat)
    requires j <= k <= |rs|
    ensures |CutText(Newest(rs, j))| <= |CutText(Newest(rs, k))|
    ensures |FullText(Newest(rs, k))| < |CutText(Newest(rs, k))|
  {
    var more, fewer := Lines(Newest(rs, k)), Lines(Newest(rs, j));
    assert more == more[..k - j] + fewer;
    TotalAppend(more[..k - j], fewer);
    TextLengths(Newest(rs, j));
    TextLengths(Newest(rs, k));
  }

  lemma {:induction false} KeptStops(rs: seq<Receipt>, max: int, k: nat)
    requires k <= |rs|
    ensures k <= Kept(rs, max, k) <= |rs|
    ensures Kept(rs, max, k) < |rs| ==> |CutText(Newest(rs, Kept(rs, max, k) + 1))| > max
    decreases |rs| - k
  {
    if k < |rs| && |CutText(Newest(rs, k + 1))| <= max {
      KeptStops(rs, max, k + 1);
    }
  }

  /** The snapshot is exactly what the text shows in full: everything when everything fits;
      otherwise the longest run of newest receipts that fits with the omission line, or
      nothing when not even the heading fits. */
  lemma SnapshotIsLongest(rs: seq<Receipt>, max: int)
    requires |rs| > 0
    ensures var (text, shown) := Rendered(rs, max);
            if |FullText(rs)| <= max then text == FullText(rs) && shown == rs
            else
              && |shown| < |rs| && shown == Newest(rs, |shown|)
              && (|CutText([])| <= max ==> text == CutText(shown) && |text| <= max)
              && (|CutText([])| > max ==> shown == [] && text == Clip(CutText([]), max))
              && (forall j :: |shown| < j <= |rs| ==> |CutText(Newest(rs, j))| > max)
  {
    if |FullText(rs)| > max {
      var k := Kept(rs, max, 0);
      KeptBounds(rs, max, 0);
      KeptStops(rs, max, 0);
      CutLonger(rs, 0, |rs|);
      assert Newest(rs, |rs|) == rs && Newest(rs, 0) == [];
      CutLonger(rs, 0, k);
      forall j | k < j <= |rs|
        ensures |CutText(Newest(rs, j))| > max
      {
        CutLonger(rs, k + 1, j);
      }
      if |CutText([])| > max {
        forall j | 0 < j <= |rs|
          ensures |CutText(Newest(rs, j))| > max
        {
          CutLonger(rs, 0, j);
        }
      }
    }
  }

  /** The budget holds exactly from four characters up (an empty ledger needs none). */
  lemma BudgetHolds(rs: seq<Receipt>, max: int)
    ensures |Rendered(rs, max).0| <= max <==> max >= 4 || (rs == [] && max >= 0)
  {
    if |rs| > 0 {
      RenderedLength(rs, max);
    }
  }

  lemma RenderedLength(rs: seq<Receipt>, max: int)
    requires |rs| > 0
    ensures |Rendered(rs, max).0| >= 4 && (max >= 4 ==> |Rendered(rs, max).0| <= max)
  {
    KeptBounds(rs, max, 0);
    TextIsLong(rs);
    var shown := Newest(rs, Kept(rs, max, 0));
    TextIsLong(shown);
    ClipLength(CutText(shown), max);
  }

  lemma TextIsLong(rs: seq<Receipt>)
    ensures |FullText(rs)| >= 4 && |CutText(rs)| >= 4
  {
    TextLengths(rs);
    HeadingIsLong();
  }

  lemma ClipLength(s: string, max: int)
    ensures |Clip(s, max)| >= 4
    ensures max >= 4 && |s| > max ==> |Clip(s, max)| == max
  {
  }

  /** A clipped text keeps its beginning, up to the ellipsis on a line of its own. */
  lemma ClipKeepsHead(s: string, max: int)
    requires |s| > max >= 4
    ensures Clip(s, max)[..max - 4] == s[..max - 4] && Clip(s, max)[max - 4..] == "\n..."
  {
  }

  lemma HeadingIsLong()
    ensures Total(Header()) >= 5
  {
    assert |Header()[0]| >= 4;
  }
}
