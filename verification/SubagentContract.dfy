/**
 The result of a delegation: the holder whose first terminal write wins, the head-and-tail
 truncation of its texts, and the metadata that carries it to a reader that trusts nothing.
 */
module SubagentContract {
  import opened Common
  import opened Untyped

  datatype Status = Pending | Running | Completed | Failed | Cancelled | TimedOut {
    predicate Terminal() { Completed? || Failed? || Cancelled? || TimedOut? }
  }

  // ---- the holder ----------------------------------------------------------

  type Entry = map<string, Any>

  datatype Record = Record(status: Status, result: Option<string>, error: Option<string>, stopReason: Option<string>,
                           completed: bool, usage: seq<Entry>, receipts: Option<seq<Entry>>)

  datatype Op =
    | SetTerminal(status: Status, result: Option<string>, error: Option<string>, stopReason: Option<string>,
                  newReceipts: Option<seq<Entry>>, newUsage: Option<seq<Entry>>)
    | UpdateUsage(records: seq<Entry>)
    | UpdateReceipts(receipts: Option<seq<Entry>>)

  datatype Answer = Raised | Refused | Accepted | Nothing

  function Or<T>(a: Option<T>, b: Option<T>): Option<T> { if a.Some? then a else b }

  function Answers(r: Record, op: Op): Answer {
    if !op.SetTerminal? then Nothing
    else if !op.status.Terminal() then Raised
    else if r.status.Terminal() then Refused
    else Accepted
  }

  function Apply(r: Record, op: Op): Record {
    match op
    case SetTerminal(status, result, error, stopReason, receipts, usage) =>
      if Answers(r, op) != Accepted then r
      else
        Record(status, Or(result, r.result), Or(error, r.error), Or(stopReason, r.stopReason), true,
               if usage.Some? then usage.value else r.usage, Or(receipts, r.receipts))
    case UpdateUsage(records) => if r.status.Terminal() then r else r.(usage := records)
    case UpdateReceipts(receipts) => if receipts.None? || r.status.Terminal() then r else r.(receipts := receipts)
  }

  function Run(r: Record, ops: seq<Op>): Record {
    if |ops| == 0 then r else Apply(Run(r, ops[..|ops| - 1]), ops[|ops| - 1])
  }

  class SubagentResult {
    var status: Status
    var result: Option<string>
    var error: Option<string>
    var stopReason: Option<string>
    var completed: bool
    var usage: seq<Entry>
    var receipts: Option<seq<Entry>>

    ghost function View(): Record
      reads this
    {
      Record(status, result, error, stopReason, completed, usage, receipts)
    }

    constructor ()
      ensures View() == Record(Pending, None, None, None, false, [], None)
    {
      status, result, error, stopReason, completed, usage, receipts := Pending, None, None, None, false, [], None;
    }

    method TrySetTerminal(status: Status, result: Option<string>, error: Option<string>, stopReason: Option<string>,
                          receipts: Option<seq<Entry>>, usage: Option<seq<Entry>>) returns (answer: Answer)
      modifies this
      ensures var op := SetTerminal(status, result, error, stopReason, receipts, usage);
              answer == Answers(old(View()), op) && View() == Apply(old(View()), op)
    {
      if !status.Terminal() {
        return Raised;
      }
      if this.status.Terminal() {
        return Refused;
      }
      if result.Some? {
        this.result := result;
      }
      if error.Some? {
        this.error := error;
      }
      if stopReason.Some? {
        this.stopReason := stopReason;
      }
      if receipts.Some? {
        this.receipts := receipts;
      }
      if usage.Some? {
        this.usage := usage.value;
      }
      completed := true;
      this.status := status;
      return Accepted;
    }

    method UpdateTokenUsageRecords(records: seq<Entry>)
      modifies this`usage
      ensures View() == Apply(old(View()), UpdateUsage(records))
    {
      if !status.Terminal() {
        usage := records;
      }
    }

    method UpdateToolReceipts(receipts: Option<seq<Entry>>)
      modifies this`receipts
      ensures View() == Apply(old(View()), UpdateReceipts(receipts))
    {
      if receipts.Some? && !status.Terminal() {
        this.receipts := receipts;
      }
    }
  }

  // ---- the reference: the first terminal write -----------------------------

  predicate Legal(op: Op) { op.SetTerminal? && op.status.Terminal() }

  /** Index of the first terminal write, or the length of the run. */
  function FirstTerminal(ops: seq<Op>): (k: nat)
    ensures k <= |ops| && (k < |ops| ==> Legal(ops[k]))
    ensures forall j :: 0 <= j < k ==> !Legal(ops[j])
  {
    if |ops| == 0 then 0
    else
      var k := FirstTerminal(ops[..|ops| - 1]);
      if k < |ops| - 1 || Legal(ops[|ops| - 1]) then k else |ops|
  }

  function LastUsage(ops: seq<Op>, start: seq<Entry>): seq<Entry> {
    if |ops| == 0 then start
    else if ops[|ops| - 1].UpdateUsage? then ops[|ops| - 1].records
    else LastUsage(ops[..|ops| - 1], start)
  }

  function LastReceipts(ops: seq<Op>, start: Option<seq<Entry>>): Option<seq<Entry>> {
    if |ops| == 0 then start
    else if ops[|ops| - 1].UpdateReceipts? && ops[|ops| - 1].receipts.Some? then ops[|ops| - 1].receipts
    else LastReceipts(ops[..|ops| - 1], start)
  }

  lemma {:induction false} BeforeTerminal(r: Record, ops: seq<Op>)
    requires !r.status.Terminal() && forall op <- ops :: !Legal(op)
    ensures Run(r, ops) == r.(usage := LastUsage(ops, r.usage), receipts := LastReceipts(ops, r.receipts))
    decreases |ops|
  {
    if |ops| > 0 {
      assert !Legal(ops[|ops| - 1]);
      BeforeTerminal(r, ops[..|ops| - 1]);
    }
  }

  lemma {:induction false} TerminalIsFrozen(r: Record, ops: seq<Op>)
    requires r.status.Terminal()
    ensures Run(r, ops) == r
    decreases |ops|
  {
    if |ops| > 0 {
      TerminalIsFrozen(r, ops[..|ops| - 1]);
    }
  }

  lemma {:induction false} RunAppend(r: Record, a: seq<Op>, b: seq<Op>)
    ensures Run(r, a + b) == Run(Run(r, a), b)
    decreases |b|
  {
    if |b| == 0 {
      assert a + b == a;
    } else {
      assert (a + b)[..|a + b| - 1] == a + b[..|b| - 1];
      RunAppend(r, a, b[..|b| - 1]);
    }
  }

  /** What the run leaves behind is the first terminal write over the last updates before it;
      whatever is attempted later changes nothing. */
  lemma FirstWriteWins(r: Record, ops: seq<Op>)
    requires !r.status.Terminal()
    ensures var k := FirstTerminal(ops);
            var usage, receipts := LastUsage(ops[..k], r.usage), LastReceipts(ops[..k], r.receipts);
            Run(r, ops) ==
            if k == |ops| then r.(usage := usage, receipts := receipts)
            else
              var w := ops[k];
              Record(w.status, Or(w.result, r.result), Or(w.error, r.error), Or(w.stopReason, r.stopReason), true,
                     if w.newUsage.Some? then w.newUsage.value else usage, Or(w.newReceipts, receipts))
  {
    var k := FirstTerminal(ops);
    BeforeTerminal(r, ops[..k]);
    if k == |ops| {
      assert ops[..k] == ops;
    } else {
      var won := Run(r, ops[..k + 1]);
      assert ops[..k + 1][..k] == ops[..k];
      assert ops == ops[..k + 1] + ops[k + 1..];
      RunAppend(r, ops[..k + 1], ops[k + 1..]);
      TerminalIsFrozen(won, ops[k + 1..]);
    }
  }

  /** In any run exactly the first terminal write is told that it won. */
  lemma OnlyFirstAccepted(r: Record, ops: seq<Op>, j: nat)
    requires !r.status.Terminal() && j < |ops|
    ensures Answers(Run(r, ops[..j]), ops[j]) == Accepted <==> j == FirstTerminal(ops)
  {
    var k := FirstTerminal(ops);
    if j <= k {
      BeforeTerminal(r, ops[..j]);
    } else {
      FirstWriteWins(r, ops[..j]);
      assert ops[..j][k] == ops[k];
      assert FirstTerminal(ops[..j]) < j;
    }
  }

  // ---- truncation ----------------------------------------------------------

  const MAX_CHARS: int := 2000
  const CUT: string := "\n...\n"

  /** Where a slice index lands in a text of length `n`: negative ones count from the end. */
  function Landing(i: int, n: nat): (r: nat)
    ensures r <= n
  {
    if i < 0 then (if n + i < 0 then 0 else n + i) else if i < n then i else n
  }

  function Head(max: int): int { max * 2 / 3 }

  function Tail(max: int): int { max - Head(max) - |CUT| }

  function Truncate(text: string, max: int): string {
    if |text| <= max then text
    else text[..Landing(Head(max), |text|)] + CUT + text[Landing(-Tail(max), |text|)..]
  }

  /** The text fits exactly when it already did or the limit leaves room for a tail: below 16
      characters a slice from minus zero keeps the whole text. */
  lemma TruncateFits(text: string, max: int)
    ensures |Truncate(text, max)| <= max <==> |text| <= max || max >= 16
    ensures max >= 16 && |text| > max ==> |Truncate(text, max)| == max
  {
  }

  lemma TruncateIdempotent(text: string, max: int)
    requires |text| <= max || max >= 16
    ensures Truncate(Truncate(text, max), max) == Truncate(text, max)
  {
    TruncateFits(text, max);
  }

  /** A cut text keeps its first two thirds and its end. */
  lemma TruncateKeepsEnds(text: string, max: int)
    requires |text| > max >= 16
    ensures var r := Truncate(text, max);
            && r[..Head(max)] == text[..Head(max)]
            && Tail(max) > 0 && r[max - Tail(max)..] == text[|text| - Tail(max)..]
  {
    TruncateFits(text, max);
  }

  lemma ShortLimitKeepsAll(text: string)
    requires |text| > 15
    ensures |Truncate(text, 15)| == |text| + 15
  {
  }

  // ---- metadata ------------------------------------------------------------

  datatype Key = StatusKey | StopReasonKey | ErrorKey | BriefKey | DigestKey | ModelKey | UsageKey | ReceiptsKey
      | VerdictKey

  datatype Usage = Usage(input: nat, output: nat, total: nat)

  datatype Payload = Payload(status: Status, result: Option<string>, error: Option<string>, stopReason: Option<string>,
                             model: Option<string>, usage: Any, receipts: Option<seq<Entry>>, verdict: Option<Entry>)

  /** What a reader gets. */
  datatype Structured = Structured(status: string, stopReason: Option<string>, error: Option<string>,
                                   brief: Option<string>, digest: Option<string>, model: Option<string>,
                                   usage: Option<Usage>, receipts: Option<seq<Any>>, verdict: Option<Entry>)

  function Name(s: Status): string {
    match s
    case Pending => "pending"
    case Running => "running"
    case Completed => "completed"
    case Failed => "failed"
    case Cancelled => "cancelled"
    case TimedOut => "timed_out"
  }

  predicate IsStatus(s: string) { s == "completed" || s == "failed" || s == "cancelled" || s == "timed_out" }

  predicate IsStopReason(s: string) { s == "token_capped" || s == "turn_capped" || s == "loop_capped" }

  predicate IsHex(c: char) { '0' <= c <= '9' || 'a' <= c <= 'f' }

  predicate IsDigest(s: string) { |s| == 64 && forall k :: 0 <= k < |s| ==> IsHex(s[k]) }

  predicate Said(s: Option<string>) { s.Some? && s.value != "" }

  predicate Count(d: Entry, key: string) { HasInt(d, key) && d[key].n >= 0 }

  function NormalizeTokenUsage(v: Any): Option<Usage> {
    if !v.Dict? then None
    else if !Count(v.entries, "input_tokens") || !Count(v.entries, "output_tokens")
        || !Count(v.entries, "total_tokens") then None
    else Some(Usage(v.entries["input_tokens"].n, v.entries["output_tokens"].n, v.entries["total_tokens"].n))
  }

  function UsageDict(u: Usage): Any {
    Dict(map["input_tokens" := Int(u.input), "output_tokens" := Int(u.output), "total_tokens" := Int(u.total)])
  }

  function Dicts(rs: seq<Entry>): seq<Any> {
    if |rs| == 0 then [] else Dicts(rs[..|rs| - 1]) + [Dict(rs[|rs| - 1])]
  }

  function Put(d: map<Key, Any>, when: bool, key: Key, value: Any): map<Key, Any> {
    if when then d[key := value] else d
  }

  function Truncated(s: Option<string>): Any { if s.Some? then Str(Truncate(s.value, MAX_CHARS)) else Null }

  function Text(s: Option<string>): Any { if s.Some? then Str(s.value) else Null }

  /** The producer is strict: only terminal statuses and known stop reasons go on the wire.
      `digest` is the hash of the result. */
  function Make(p: Payload, digest: string): Option<map<Key, Any>> {
    if !IsStatus(Name(p.status)) || (p.stopReason.Some? && !IsStopReason(p.stopReason.value)) then None
    else
      Some(Rest(Texts(p, digest), p, NormalizeTokenUsage(p.usage)))
  }

  function Texts(p: Payload, digest: string): map<Key, Any> {
    var done := p.status.Completed? && Said(p.result);
    var d0 := map[StatusKey := Str(Name(p.status))];
    var d1 := Put(d0, p.stopReason.Some?, StopReasonKey, Text(p.stopReason));
    var d2 := Put(d1, Said(p.error) && !p.status.Completed?, ErrorKey, Truncated(p.error));
    var d3 := Put(d2, done, BriefKey, Truncated(p.result));
    Put(d3, done, DigestKey, Str(digest))
  }

  function Rest(d: map<Key, Any>, p: Payload, usage: Option<Usage>): map<Key, Any> {
    var d1 := Put(d, Said(p.model), ModelKey, Text(p.model));
    var d2 := Put(d1, usage.Some?, UsageKey, if usage.Some? then UsageDict(usage.value) else Null);
    var receipts := if p.receipts.Some? then List(Dicts(p.receipts.value)) else Null;
    var d3 := Put(d2, p.receipts.Some?, ReceiptsKey, receipts);
    Put(d3, p.verdict.Some?, VerdictKey, if p.verdict.Some? then Dict(p.verdict.value) else Null)
  }

  function Get(d: map<Key, Any>, key: Key): Any { if key in d then d[key] else Null }

  function OnlyDicts(vs: seq<Any>): seq<Any> {
    if |vs| == 0 then [] else OnlyDicts(vs[..|vs| - 1]) + if vs[|vs| - 1].Dict? then [vs[|vs| - 1]] else []
  }

  function ReadText(v: Any): Option<string> { if v.Str? && v.s != "" then Some(Truncate(v.s, MAX_CHARS)) else None }

  function Read(d: map<Key, Any>): Option<Structured> {
    var status := Get(d, StatusKey);
    if !status.Str? || !IsStatus(status.s) then None
    else
      var stop, digest, model := Get(d, StopReasonKey), Get(d, DigestKey), Get(d, ModelKey);
      var receipts, verdict := Get(d, ReceiptsKey), Get(d, VerdictKey);
      Some(Structured(status.s,
                      if stop.Str? && IsStopReason(stop.s) then Some(stop.s) else None,
                      ReadText(Get(d, ErrorKey)), ReadText(Get(d, BriefKey)),
                      if digest.Str? && IsDigest(digest.s) then Some(digest.s) else None,
                      if model.Str? && model.s != "" then Some(model.s) else None,
                      NormalizeTokenUsage(Get(d, UsageKey)),
                      if receipts.List? then Some(OnlyDicts(receipts.items)) else None,
                      if verdict.Dict? then Some(verdict.entries) else None))
  }

  /** What the reader should see of a payload, each text cut once. */
  function Expected(p: Payload, digest: string): Structured {
    var done := p.status.Completed? && Said(p.result);
    Structured(Name(p.status), p.stopReason,
               if Said(p.error) && !p.status.Completed? then Some(Truncate(p.error.value, MAX_CHARS)) else None,
               if done then Some(Truncate(p.result.value, MAX_CHARS)) else None,
               if done then Some(digest) else None,
               if Said(p.model) then p.model else None,
               NormalizeTokenUsage(p.usage),
               if p.receipts.Some? then Some(Dicts(p.receipts.value)) else None, p.verdict)
  }

  lemma UsageRoundTrip(u: Usage)
    ensures NormalizeTokenUsage(UsageDict(u)) == Some(u)
  {
  }

  lemma {:induction false} DictsPass(rs: seq<Entry>)
    ensures OnlyDicts(Dicts(rs)) == Dicts(rs)
    decreases |rs|
  {
    if |rs| > 0 {
      DictsPass(rs[..|rs| - 1]);
    }
  }

  lemma TextRoundTrip(text: string)
    requires text != ""
    ensures ReadText(Str(Truncate(text, MAX_CHARS))) == Some(Truncate(text, MAX_CHARS))
  {
    TruncateFits(text, MAX_CHARS);
    TruncateIdempotent(text, MAX_CHARS);
  }

  lemma NamesOnTheWire(s: Status)
    ensures IsStatus(Name(s)) <==> s.Terminal()
  {
  }

  function When(when: bool, value: Any): Any { if when then value else Null }

  /** What the producer leaves under each key. */
  lemma Sent(p: Payload, digest: string, d: map<Key, Any>)
    requires Make(p, digest) == Some(d)
    ensures var done, usage := p.status.Completed? && Said(p.result), NormalizeTokenUsage(p.usage);
            && Get(d, StatusKey) == Str(Name(p.status))
            && Get(d, StopReasonKey) == Text(p.stopReason)
            && Get(d, ErrorKey) == When(Said(p.error) && !p.status.Completed?, Truncated(p.error))
            && Get(d, BriefKey) == When(done, Truncated(p.result))
            && Get(d, DigestKey) == When(done, Str(digest))
            && Get(d, ModelKey) == When(Said(p.model), Text(p.model))
            && Get(d, UsageKey) == (if usage.Some? then UsageDict(usage.value) else Null)
            && Get(d, ReceiptsKey) == (if p.receipts.Some? then List(Dicts(p.receipts.value)) else Null)
            && Get(d, VerdictKey) == (if p.verdict.Some? then Dict(p.verdict.value) else Null)
  {
    SentTexts(p, digest, Texts(p, digest));
    SentRest(Texts(p, digest), p, NormalizeTokenUsage(p.usage), d);
  }

  lemma SentTexts(p: Payload, digest: string, d: map<Key, Any>)
    requires d == Texts(p, digest)
    ensures var done := p.status.Completed? && Said(p.result);
            && Get(d, StatusKey) == Str(Name(p.status))
            && Get(d, StopReasonKey) == Text(p.stopReason)
            && Get(d, ErrorKey) == When(Said(p.error) && !p.status.Completed?, Truncated(p.error))
            && Get(d, BriefKey) == When(done, Truncated(p.result))
            && Get(d, DigestKey) == When(done, Str(digest))
            && d.Keys <= {StatusKey, StopReasonKey, ErrorKey, BriefKey, DigestKey}
  {
  }

  lemma SentRest(d: map<Key, Any>, p: Payload, usage: Option<Usage>, d': map<Key, Any>)
    requires d.Keys <= {StatusKey, StopReasonKey, ErrorKey, BriefKey, DigestKey} && d' == Rest(d, p, usage)
    ensures Get(d', ModelKey) == When(Said(p.model), Text(p.model))
    ensures Get(d', UsageKey) == (if usage.Some? then UsageDict(usage.value) else Null)
    ensures Get(d', ReceiptsKey) == (if p.receipts.Some? then List(Dicts(p.receipts.value)) else Null)
    ensures Get(d', VerdictKey) == (if p.verdict.Some? then Dict(p.verdict.value) else Null)
    ensures forall k <- {StatusKey, StopReasonKey, ErrorKey, BriefKey, DigestKey} :: Get(d', k) == Get(d, k)
  {
  }

  lemma ReadSentText(s: Option<string>, when: bool)
    ensures ReadText(When(when && Said(s), Truncated(s))) ==
            if when && Said(s) then Some(Truncate(s.value, MAX_CHARS)) else None
  {
    if Said(s) {
      TextRoundTrip(s.value);
    }
  }

  /** Exactly the terminal payloads with a known stop reason are sent, and what is read back is
      what was sent, each text cut once. */
  lemma MetadataRoundTrip(p: Payload, digest: string)
    requires IsDigest(digest)
    ensures Make(p, digest).Some? <==> p.status.Terminal() && (p.stopReason.None? || IsStopReason(p.stopReason.value))
    ensures Make(p, digest).Some? ==> Read(Make(p, digest).value) == Some(Expected(p, digest))
  {
    NamesOnTheWire(p.status);
    if Make(p, digest).Some? {
      Sent(p, digest, Make(p, digest).value);
      ReadSentText(p.error, !p.status.Completed?);
      ReadSentText(p.result, p.status.Completed?);
      if NormalizeTokenUsage(p.usage).Some? {
        UsageRoundTrip(NormalizeTokenUsage(p.usage).value);
      }
      if p.receipts.Some? {
        DictsPass(p.receipts.value);
      }
    }
  }

  /** The reader trusts nothing: whatever the metadata, each field it returns is well formed. */
  lemma ReadIsSound(d: map<Key, Any>)
    ensures Read(d).Some? <==> Get(d, StatusKey).Str? && IsStatus(Get(d, StatusKey).s)
    ensures Read(d).Some? ==>
              var r := Read(d).value;
              && IsStatus(r.status) && (r.stopReason.Some? ==> IsStopReason(r.stopReason.value))
              && (r.error.Some? ==> 0 < |r.error.value| <= MAX_CHARS)
              && (r.brief.Some? ==> 0 < |r.brief.value| <= MAX_CHARS)
              && (r.digest.Some? ==> IsDigest(r.digest.value)) && (r.model.Some? ==> r.model.value != "")
              && (r.receipts.Some? ==> forall v <- r.receipts.value :: v.Dict?)
  {
    ReadTextFits(Get(d, ErrorKey));
    ReadTextFits(Get(d, BriefKey));
    if Get(d, ReceiptsKey).List? {
      OnlyDictsLeft(Get(d, ReceiptsKey).items);
    }
  }

  lemma ReadTextFits(v: Any)
    ensures ReadText(v).Some? ==> 0 < |ReadText(v).value| <= MAX_CHARS
  {
    if ReadText(v).Some? {
      TruncateFits(v.s, MAX_CHARS);
    }
  }

  lemma {:induction false} OnlyDictsLeft(vs: seq<Any>)
    ensures forall v <- OnlyDicts(vs) :: v.Dict?
    decreases |vs|
  {
    if |vs| > 0 {
      OnlyDictsLeft(vs[..|vs| - 1]);
    }
  }
}
