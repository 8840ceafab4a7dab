/**
 Receipt citations in a subagent's report: `[r3]` or `[r3 tool_name]`, found by a
 left-to-right scan, deduplicated, and checked against the receipts the model was shown.
 */
module Citations {
  import opened Common
  import opened Sequences
  import opened Text
  import opened Ledger
  import Decimal
  import ReceiptMiddleware

  const MAX_ID_DIGITS: nat := 10

  datatype Citation = Citation(id: string, anchor: Option<string>)

  // ---- the pattern ---------------------------------------------------------

  predicate IsLetter(c: char) { 'a' <= c <= 'z' || 'A' <= c <= 'Z' }
  predicate IsNameStart(c: char) { IsLetter(c) || c == '_' }
  predicate IsNameChar(c: char) { IsNameStart(c) || Decimal.IsDigit(c) || c == '.' || c == '-' }

  /** How many leading characters satisfy `p`. */
  function Run(s: string, p: char -> bool): (n: nat)
    ensures n <= |s| && forall k :: 0 <= k < n ==> p(s[k])
    ensures n < |s| ==> !p(s[n])
  {
    if |s| > 0 && p(s[0]) then 1 + Run(s[1..], p) else 0
  }

  datatype Match = Match(length: nat, digits: string, anchor: Option<string>)

  /** The citation pattern behind its digits. */
  function MatchRest(digits: string, rest: string): (m: Option<Match>)
    ensures m.Some? ==> m.value.digits == digits && 0 < m.value.length <= 2 + |digits| + |rest|
  {
    if |rest| == 0 then None
    else if rest[0] == ']' then Some(Match(3 + |digits|, digits, None))
    else
      var w := Run(rest, IsSpace);
      var name := rest[w..];
      if w == 0 || |name| == 0 || !IsNameStart(name[0]) then None
      else
        var n := Run(name, IsNameChar);
        if n < |name| && name[n] == ']' then Some(Match(3 + |digits| + w + n, digits, Some(name[..n]))) else None
  }

  /** The citation pattern anchored at the head of `s`. */
  function MatchHead(s: string): (m: Option<Match>)
    ensures m.Some? ==> 0 < m.value.length <= |s| && Decimal.AllDigits(m.value.digits)
  {
    if |s| < 2 || s[0] != '[' || s[1] != 'r' then None
    else
      var d := Run(s[2..], Decimal.IsDigit);
      if d == 0 then None else MatchRest(s[2..2 + d], s[2 + d..])
  }

  function ToCitation(m: Match): seq<Citation>
    requires Decimal.AllDigits(m.digits)
  {
    if |m.digits| > MAX_ID_DIGITS then [] else [Citation(ReceiptId(Decimal.Parse(m.digits)), m.anchor)]
  }

  /** All citations, leftmost first, without overlaps. */
  function Found(s: string): seq<Citation>
    decreases |s|
  {
    if |s| == 0 then []
    else
      var m := MatchHead(s);
      if m.Some? then ToCitation(m.value) + Found(s[m.value.length..]) else Found(s[1..])
  }

  /** Without repeats, each at its first place. */
  function Dedup<T(==)>(xs: seq<T>): seq<T> {
    if |xs| == 0 then []
    else
      var d := Dedup(xs[..|xs| - 1]);
      if xs[|xs| - 1] in d then d else d + [xs[|xs| - 1]]
  }

  function Cited(text: string): seq<Citation> { Dedup(Found(text)) }

  /** One step of the scan: past a citation, or past one character. */
  method Next(text: string, pos: nat) returns (next: nat, citation: Option<Citation>)
    requires pos < |text|
    ensures pos < next <= |text|
    ensures citation.None? ==> Found(text[pos..]) == Found(text[next..])
    ensures citation.Some? ==> Found(text[pos..]) == [citation.value] + Found(text[next..])
  {
    var m := MatchHead(text[pos..]);
    if m.None? {
      assert text[pos..][1..] == text[pos + 1..];
      return pos + 1, None;
    }
    next := pos + m.value.length;
    assert text[pos..][m.value.length..] == text[next..];
    citation := if |m.value.digits| > MAX_ID_DIGITS then None
                else Some(Citation(ReceiptId(Decimal.Parse(m.value.digits)), m.value.anchor));
  }

  method ParseCitations(text: string) returns (citations: seq<Citation>)
    ensures citations == Cited(text)
  {
    citations := [];
    var seen: set<Citation> := {};
    var pos := 0;
    ghost var done: seq<Citation> := [];
    assert text[0..] == text;
    while pos < |text|
      invariant pos <= |text|
      invariant done + Found(text[pos..]) == Found(text)
      invariant citations == Dedup(done)
      invariant forall c :: c in seen <==> c in citations
      decreases |text| - pos
    {
      var next, citation := Next(text, pos);
      if citation.Some? {
        var c := citation.value;
        DedupSnoc(done, c);
        Associative(done, [c], Found(text[next..]));
        done := done + [c];
        if c !in seen {
          seen := seen + {c};
          citations := citations + [c];
        }
      }
      pos := next;
    }
    assert done + [] == done;
  }

  lemma DedupSnoc<T>(xs: seq<T>, x: T)
    ensures Dedup(xs + [x]) == if x in Dedup(xs) then Dedup(xs) else Dedup(xs) + [x]
  {
    assert (xs + [x])[..|xs|] == xs;
  }

  /** Deduplication keeps every element once, in order of first appearance. */
  lemma {:induction false} DedupFirstSeen<T>(xs: seq<T>)
    ensures forall x :: x in Dedup(xs) <==> x in xs
    ensures forall j, k :: 0 <= j < k < |Dedup(xs)| ==> Dedup(xs)[j] != Dedup(xs)[k]
    decreases |xs|
  {
    if |xs| > 0 {
      DedupFirstSeen(xs[..|xs| - 1]);
      assert xs == xs[..|xs| - 1] + [xs[|xs| - 1]];
    }
  }

  /** ... so it is the identity exactly on lists without repeats, and commutes with prefixes. */
  lemma {:induction false} DedupPrefix<T>(xs: seq<T>, ys: seq<T>)
    ensures Dedup(xs) <= Dedup(xs + ys)
    decreases |ys|
  {
    if |ys| == 0 {
      assert xs + ys == xs;
    } else {
      assert (xs + ys)[..|xs + ys| - 1] == xs + ys[..|ys| - 1];
      DedupPrefix(xs, ys[..|ys| - 1]);
    }
  }

  // ---- printing and parsing ------------------------------------------------

  /** Bracket-free prose followed by one citation. */
  datatype Piece = Piece(prose: string, position: nat, tool: Option<string>)

  predicate WellFormedName(s: string) {
    |s| > 0 && IsNameStart(s[0]) && forall k :: 0 <= k < |s| ==> IsNameChar(s[k])
  }

  predicate WellFormed(p: Piece) {
    '[' !in p.prose && (p.tool.Some? ==> WellFormedName(p.tool.value))
  }

  function Report(pieces: seq<Piece>, tail: string): string {
    if |pieces| == 0 then tail
    else pieces[0].prose + FormatCitation(ReceiptId(pieces[0].position), pieces[0].tool) + Report(pieces[1..], tail)
  }

  /** The printed citations whose ids the parser reads at all. */
  function Printed(pieces: seq<Piece>): seq<Citation> {
    if |pieces| == 0 then []
    else
      (if |Decimal.Print(pieces[0].position)| <= MAX_ID_DIGITS
       then [Citation(ReceiptId(pieces[0].position), pieces[0].tool)] else [])
      + Printed(pieces[1..])
  }

  lemma {:induction false} RunOver(xs: string, ys: string, p: char -> bool)
    requires forall k :: 0 <= k < |xs| ==> p(xs[k])
    requires |ys| > 0 ==> !p(ys[0])
    ensures Run(xs + ys, p) == |xs|
    decreases |xs|
  {
    if |xs| == 0 {
      assert xs + ys == ys;
    } else {
      assert (xs + ys)[1..] == xs[1..] + ys;
      RunOver(xs[1..], ys, p);
    }
  }

  lemma MatchBare(s: string, digits: string, rest: string)
    requires |digits| > 0 && Decimal.AllDigits(digits) && s == "[r" + digits + "]" + rest
    ensures MatchHead(s) == Some(Match(|s| - |rest|, digits, None))
  {
    var after := "]" + rest;
    assert s[2..] == digits + after;
    RunOver(digits, after, Decimal.IsDigit);
    assert s[2..2 + |digits|] == digits && s[2 + |digits|..] == after;
  }

  predicate Gap(s: string) { |s| > 0 && forall k :: 0 <= k < |s| ==> IsSpace(s[k]) }

  lemma MatchAnchored(s: string, digits: string, gap: string, name: string, rest: string)
    requires |digits| > 0 && Decimal.AllDigits(digits) && Gap(gap) && WellFormedName(name)
    requires s == "[r" + digits + gap + name + "]" + rest
    ensures MatchHead(s) == Some(Match(|s| - |rest|, digits, Some(name)))
  {
    var close := "]" + rest;
    var named := name + close;
    var after := gap + named;
    SplitAnchored(s, digits, gap, name, rest);
    RunOver(digits, after, Decimal.IsDigit);
    RunOver(gap, named, IsSpace);
    RunOver(name, close, IsNameChar);
  }

  lemma SplitAnchored(s: string, digits: string, gap: string, name: string, rest: string)
    requires |name| > 0 && |gap| > 0 && s == "[r" + digits + gap + name + "]" + rest
    ensures var named := name + ("]" + rest);
            var after := gap + named;
            && s[0] == '[' && s[1] == 'r' && s[2..] == digits + after
            && s[2..2 + |digits|] == digits && s[2 + |digits|..] == after && after[0] == gap[0]
            && after[|gap|..] == named && named[0] == name[0] && named[..|name|] == name && named[|name|] == ']'
  {
  }

  /** `[r3]` or `[r3 tool_name]`: the bracketed text with its digits and name. */
  ghost predicate Pattern(head: string, digits: string, anchor: Option<string>) {
    && |digits| > 0 && Decimal.AllDigits(digits)
    && match anchor
       case None => head == "[r" + digits + "]"
       case Some(name) =>
         WellFormedName(name) && exists gap: string :: Gap(gap) && head == "[r" + digits + gap + name + "]"
  }

  /** A text starts with a citation exactly when some prefix is one. */
  lemma MatchExactly(s: string, m: Match)
    ensures MatchHead(s) == Some(m) <==> m.length <= |s| && Pattern(s[..m.length], m.digits, m.anchor)
  {
    if MatchHead(s) == Some(m) {
      MatchIsPattern(s, m);
    }
    if m.length <= |s| && Pattern(s[..m.length], m.digits, m.anchor) {
      var head, rest := s[..m.length], s[m.length..];
      assert s == head + rest;
      if m.anchor.None? {
        MatchBare(s, m.digits, rest);
      } else {
        var gap: string :| Gap(gap) && head == "[r" + m.digits + gap + m.anchor.value + "]";
        MatchAnchored(s, m.digits, gap, m.anchor.value, rest);
      }
    }
  }

  lemma MatchIsPattern(s: string, m: Match)
    requires MatchHead(s) == Some(m)
    ensures Pattern(s[..m.length], m.digits, m.anchor)
  {
    var d := Run(s[2..], Decimal.IsDigit);
    assert s[..2] == "[r" && s == s[..2] + s[2..2 + d] + s[2 + d..];
    RestIsPattern(s, m, s[2 + d..]);
  }

  lemma RestIsPattern(s: string, m: Match, rest: string)
    requires s == "[r" + m.digits + rest && |m.digits| > 0 && Decimal.AllDigits(m.digits)
    requires MatchRest(m.digits, rest) == Some(m)
    ensures Pattern(s[..m.length], m.digits, m.anchor)
  {
    if m.anchor.None? {
      assert s[..m.length] == "[r" + m.digits + "]";
    } else {
      var w := Run(rest, IsSpace);
      AnchorIsPattern(s, m, rest, w, Run(rest[w..], IsNameChar));
    }
  }

  lemma AnchorIsPattern(s: string, m: Match, rest: string, w: nat, n: nat)
    requires |m.digits| > 0 && Decimal.AllDigits(m.digits) && s == "[r" + m.digits + rest
    requires 0 < w && w + n < |rest| && rest[w + n] == ']' && m.length == 3 + |m.digits| + w + n
    requires forall k :: 0 <= k < w ==> IsSpace(rest[k])
    requires m.anchor == Some(rest[w..][..n]) && WellFormedName(rest[w..][..n])
    ensures Pattern(s[..m.length], m.digits, m.anchor)
  {
    AnchoredHead(s, m.digits, rest, w, n);
    assert Gap(rest[..w]);
  }

  lemma AnchoredHead(s: string, digits: string, rest: string, w: nat, n: nat)
    requires s == "[r" + digits + rest && w + n < |rest| && rest[w + n] == ']'
    ensures s[..3 + |digits| + w + n] == "[r" + digits + rest[..w] + rest[w..][..n] + "]"
  {
    assert rest[..w + n + 1] == rest[..w] + rest[w..][..n] + "]";
    assert s[..2 + |digits| + (w + n + 1)] == "[r" + digits + rest[..w + n + 1];
  }

  /** The id of a citation is that of its number, however many zeros lead it; more than ten digits
      cite nothing. */
  lemma CitationNumber(head: string, digits: string, anchor: Option<string>, rest: string)
    requires Pattern(head, digits, anchor)
    ensures Found(head + rest) ==
            (if |digits| <= 10 then [Citation("r" + Decimal.Print(Decimal.Parse(digits)), anchor)] else [])
            + Found(rest)
  {
    var s, m := head + rest, Match(|head|, digits, anchor);
    assert s[..|head|] == head && s[|head|..] == rest;
    MatchExactly(s, m);
  }

  function Bracketed(digits: string, tool: Option<string>): string {
    if tool.Some? then "[r" + digits + " " + tool.value + "]" else "[r" + digits + "]"
  }

  lemma CitationText(n: nat, tool: Option<string>)
    requires tool.Some? ==> tool.value != ""
    ensures FormatCitation(ReceiptId(n), tool) == Bracketed(Decimal.Print(n), tool)
  {
  }

  lemma MatchPrinted(s: string, n: nat, tool: Option<string>, rest: string)
    requires tool.Some? ==> WellFormedName(tool.value)
    requires s == FormatCitation(ReceiptId(n), tool) + rest
    ensures MatchHead(s) == Some(Match(|s| - |rest|, Decimal.Print(n), tool))
  {
    CitationText(n, tool);
    Decimal.PrintIsDigits(n);
    if tool.None? {
      MatchBare(s, Decimal.Print(n), rest);
    } else {
      MatchAnchored(s, Decimal.Print(n), " ", tool.value, rest);
    }
  }

  lemma {:induction false} FoundSkipsProse(prose: string, rest: string)
    requires '[' !in prose
    ensures Found(prose + rest) == Found(rest)
    decreases |prose|
  {
    if |prose| == 0 {
      assert prose + rest == rest;
    } else {
      assert (prose + rest)[0] == prose[0] && (prose + rest)[1..] == prose[1..] + rest;
      FoundSkipsProse(prose[1..], rest);
    }
  }

  /** Parsing a report gives back the citations printed in it, deduplicated in first-seen
      order; an id of more than ten digits is the only thing it drops. */
  lemma {:induction false} FoundIsPrinted(pieces: seq<Piece>, tail: string)
    requires (forall p <- pieces :: WellFormed(p)) && '[' !in tail
    ensures Found(Report(pieces, tail)) == Printed(pieces)
    decreases |pieces|
  {
    if |pieces| == 0 {
      FoundSkipsProse(tail, "");
      assert tail + "" == tail;
    } else {
      var p, rest := pieces[0], Report(pieces[1..], tail);
      var c := FormatCitation(ReceiptId(p.position), p.tool);
      assert p in pieces && Report(pieces, tail) == p.prose + (c + rest);
      FoundSkipsProse(p.prose, c + rest);
      MatchPrinted(c + rest, p.position, p.tool, rest);
      assert (c + rest)[|c|..] == rest;
      Decimal.ParsePrint(p.position);
      FoundIsPrinted(pieces[1..], tail);
    }
  }

  lemma CitationRoundTrip(pieces: seq<Piece>, tail: string)
    requires (forall p <- pieces :: WellFormed(p)) && '[' !in tail
    ensures Cited(Report(pieces, tail)) == Dedup(Printed(pieces))
  {
    FoundIsPrinted(pieces, tail);
  }

  // ---- the verdict ---------------------------------------------------------

  datatype Failure = Failure(id: string, reason: string)

  datatype Verdict = Verdict(
    citationResolved: bool, cited: seq<string>, resolved: seq<string>,
    failed: seq<Failure>, unknown: seq<string>, noCitationClaims: bool)

  /** Later receipts shadow earlier ones with the same id. */
  function Lookup(receipts: seq<Receipt>, id: string): Option<Receipt> {
    if |receipts| == 0 then None
    else if receipts[|receipts| - 1].id == id then Some(receipts[|receipts| - 1])
    else Lookup(receipts[..|receipts| - 1], id)
  }

  datatype Class = Resolved | BadStatus(status: string) | BadAnchor(cited: string, actual: string) | Unknown

  function Classify(c: Citation, receipts: seq<Receipt>): Class {
    match Lookup(receipts, c.id)
    case None => Unknown
    case Some(r) =>
      if r.status != "success" then BadStatus(r.status)
      else if c.anchor.Some? && c.anchor.value != r.toolName then BadAnchor(c.anchor.value, r.toolName)
      else Resolved
  }

  /** Nothing for the classes that are no failure. */
  function Reason(id: string, c: Class): seq<Failure> {
    match c
    case BadStatus(status) => [Failure(id, "receipt status=" + status)]
    case BadAnchor(cited, actual) =>
      [Failure(id, "anchor mismatch: cited as " + cited + ", receipt " + id + " is " + actual)]
    case _ => []
  }

  // ---- what a citation is worth --------------------------------------------

  /** The receipt at `k` is the last with this id. */
  predicate LastAt(receipts: seq<Receipt>, id: string, k: int) {
    && 0 <= k < |receipts| && receipts[k].id == id
    && forall j :: k < j < |receipts| ==> receipts[j].id != id
  }

  predicate Anchored(c: Citation, r: Receipt) { c.anchor.None? || c.anchor.value == r.toolName }

  /** The cited call was made and succeeded, and it is the one the anchor says. */
  predicate Backed(c: Citation, receipts: seq<Receipt>) {
    exists k :: 0 <= k < |receipts| && LastAt(receipts, c.id, k)
                && receipts[k].status == "success" && Anchored(c, receipts[k])
  }

  predicate Fabricated(c: Citation, receipts: seq<Receipt>) { forall r <- receipts :: r.id != c.id }

  /** The call was made and failed, or it is another than the anchor says; and why. */
  predicate FailsWith(c: Citation, receipts: seq<Receipt>, f: Failure) {
    && f.id == c.id
    && exists k :: 0 <= k < |receipts| && LastAt(receipts, c.id, k)
                   && (if receipts[k].status != "success" then f.reason == "receipt status=" + receipts[k].status
                       else
                         && !Anchored(c, receipts[k])
                         && f.reason == "anchor mismatch: cited as " + c.anchor.value + ", receipt " + c.id
                                        + " is " + receipts[k].toolName)
  }

  /** The cited ids of some citations, in citation order and as often as cited. */
  function Those(cs: seq<Citation>, p: Citation -> bool): seq<string> {
    if |cs| == 0 then [] else Those(cs[..|cs| - 1], p) + Only(cs[|cs| - 1].id, p(cs[|cs| - 1]))
  }

  /** One failure for each citation that is neither backed nor fabricated, in citation order. */
  predicate Explains(fs: seq<Failure>, cs: seq<Citation>, receipts: seq<Receipt>) {
    if |cs| == 0 then fs == []
    else if Backed(cs[|cs| - 1], receipts) || Fabricated(cs[|cs| - 1], receipts) then
      Explains(fs, cs[..|cs| - 1], receipts)
    else
      && |fs| > 0 && FailsWith(cs[|cs| - 1], receipts, fs[|fs| - 1])
      && Explains(fs[..|fs| - 1], cs[..|cs| - 1], receipts)
  }

  lemma {:induction false} LookupIsLast(receipts: seq<Receipt>, id: string)
    ensures Lookup(receipts, id).None? <==> forall r <- receipts :: r.id != id
    ensures forall k :: LastAt(receipts, id, k) ==> Lookup(receipts, id) == Some(receipts[k])
    ensures Lookup(receipts, id).Some? ==> exists k :: 0 <= k < |receipts| && LastAt(receipts, id, k)
    decreases |receipts|
  {
    if |receipts| > 0 {
      var n := |receipts| - 1;
      var front := receipts[..n];
      LookupIsLast(front, id);
      assert receipts == front + [receipts[n]];
      if receipts[n].id == id {
        assert LastAt(receipts, id, n);
      } else {
        forall k
          ensures LastAt(receipts, id, k) <==> LastAt(front, id, k)
        {
          assert forall j :: 0 <= j < n ==> front[j] == receipts[j];
        }
      }
    }
  }

  /** The classes mean what they say. */
  lemma ClassifyExactly(c: Citation, receipts: seq<Receipt>)
    ensures Classify(c, receipts) == Resolved <==> Backed(c, receipts)
    ensures Classify(c, receipts) == Unknown <==> Fabricated(c, receipts)
    ensures !Backed(c, receipts) && !Fabricated(c, receipts) ==>
              && |Reason(c.id, Classify(c, receipts))| == 1
              && FailsWith(c, receipts, Reason(c.id, Classify(c, receipts))[0])
    ensures Backed(c, receipts) || Fabricated(c, receipts) ==> Reason(c.id, Classify(c, receipts)) == []
  {
    LookupIsLast(receipts, c.id);
  }

  lemma {:induction false} IdsOfThose(cs: seq<Citation>, receipts: seq<Receipt>)
    ensures IdsOf(cs, receipts, Resolved) == Those(cs, c => Backed(c, receipts))
    ensures IdsOf(cs, receipts, Unknown) == Those(cs, c => Fabricated(c, receipts))
    ensures Explains(Failures(cs, receipts), cs, receipts)
    decreases |cs|
  {
    if |cs| > 0 {
      var front, c := cs[..|cs| - 1], cs[|cs| - 1];
      IdsOfThose(front, receipts);
      ClassifyExactly(c, receipts);
      var fs, more := Failures(front, receipts), Reason(c.id, Classify(c, receipts));
      if Backed(c, receipts) || Fabricated(c, receipts) {
        assert fs + more == fs;
      } else {
        assert more == [more[0]];
        assert (fs + more)[..|fs + more| - 1] == fs;
      }
    }
  }

  function Ids(cs: seq<Citation>): seq<string> {
    if |cs| == 0 then [] else Ids(cs[..|cs| - 1]) + [cs[|cs| - 1].id]
  }

  function Only(id: string, keep: bool): seq<string> { if keep then [id] else [] }

  /** The cited ids of one class, in citation order. */
  function IdsOf(cs: seq<Citation>, receipts: seq<Receipt>, wanted: Class): seq<string> {
    if |cs| == 0 then []
    else IdsOf(cs[..|cs| - 1], receipts, wanted) + Only(cs[|cs| - 1].id, Classify(cs[|cs| - 1], receipts) == wanted)
  }

  function Failures(cs: seq<Citation>, receipts: seq<Receipt>): seq<Failure> {
    if |cs| == 0 then []
    else Failures(cs[..|cs| - 1], receipts) + Reason(cs[|cs| - 1].id, Classify(cs[|cs| - 1], receipts))
  }

  const NONTRIVIAL_REPORT_CHARS: nat := 240

  predicate Unbacked(text: string, receipts: seq<Receipt>, actionClaims: bool) {
    actionClaims || (|receipts| > 0 && |Strip(text)| >= NONTRIVIAL_REPORT_CHARS)
  }

  /** `actionClaims`: the prose matches one of the action-verb or file-path patterns. */
  method VerifyReceiptCitations(text: string, receipts: seq<Receipt>, actionClaims: bool) returns (v: Verdict)
    ensures v.cited == Ids(Cited(text))
    ensures v.resolved == Those(Cited(text), c => Backed(c, receipts))
    ensures v.unknown == Those(Cited(text), c => Fabricated(c, receipts))
    ensures Explains(v.failed, Cited(text), receipts)
    ensures v.noCitationClaims <==> Cited(text) == [] && Unbacked(text, receipts, actionClaims)
    ensures v.citationResolved <==> Passes(text, receipts, actionClaims)
    ensures multiset(v.cited) == multiset(v.resolved) + multiset(FailedIds(v.failed)) + multiset(v.unknown)
  {
    var citations := ParseCitations(text);
    var cited, resolved, failed, unknown := Sort(citations, receipts);
    IdsOfThose(citations, receipts);
    AllResolved(citations, receipts);
    VerdictPartitions(citations, receipts);
    var noCitationClaims := |cited| == 0
        && (actionClaims || (|receipts| > 0 && |Strip(text)| >= NONTRIVIAL_REPORT_CHARS));
    var citationResolved := if |cited| > 0 then |failed| == 0 && |unknown| == 0 else !noCitationClaims;
    v := Verdict(citationResolved, cited, resolved, failed, unknown, noCitationClaims);
  }

  method Sort(citations: seq<Citation>, receipts: seq<Receipt>)
    returns (cited: seq<string>, resolved: seq<string>, failed: seq<Failure>, unknown: seq<string>)
    ensures cited == Ids(citations) && |cited| == |citations|
    ensures resolved == IdsOf(citations, receipts, Resolved)
    ensures unknown == IdsOf(citations, receipts, Unknown)
    ensures failed == Failures(citations, receipts)
  {
    cited, resolved, failed, unknown := [], [], [], [];
    for k := 0 to |citations|
      invariant cited == Ids(citations[..k]) && |cited| == k
      invariant resolved == IdsOf(citations[..k], receipts, Resolved)
      invariant unknown == IdsOf(citations[..k], receipts, Unknown)
      invariant failed == Failures(citations[..k], receipts)
    {
      var c := citations[k];
      VerdictSnoc(citations[..k], c, citations[..k + 1], receipts);
      cited := cited + [c.id];
      var good, bad, lost := Place(c, receipts);
      resolved, failed, unknown := resolved + good, failed + bad, unknown + lost;
    }
    assert citations[..|citations|] == citations;
  }

  /** The list a citation belongs on: one of the three. */
  method Place(c: Citation, receipts: seq<Receipt>)
    returns (resolved: seq<string>, failed: seq<Failure>, unknown: seq<string>)
    ensures resolved == Only(c.id, Classify(c, receipts) == Resolved)
    ensures failed == Reason(c.id, Classify(c, receipts))
    ensures unknown == Only(c.id, Classify(c, receipts) == Unknown)
  {
    resolved, failed, unknown := [], [], [];
    var found := Lookup(receipts, c.id);
    if found.None? {
      unknown := [c.id];
      return;
    }
    var receipt := found.value;
    if receipt.status != "success" {
      failed := [Failure(c.id, "receipt status=" + receipt.status)];
      return;
    }
    if c.anchor.Some? && c.anchor.value != receipt.toolName {
      failed := [Failure(c.id, "anchor mismatch: cited as " + c.anchor.value + ", receipt " + c.id + " is "
          + receipt.toolName)];
      return;
    }
    resolved := [c.id];
  }

  lemma VerdictSnoc(front: seq<Citation>, c: Citation, cs: seq<Citation>, receipts: seq<Receipt>)
    requires cs == front + [c]
    ensures Ids(cs) == Ids(front) + [c.id]
    ensures forall wanted ::
              IdsOf(cs, receipts, wanted) ==
              IdsOf(front, receipts, wanted) + Only(c.id, Classify(c, receipts) == wanted)
    ensures Failures(cs, receipts) == Failures(front, receipts) + Reason(c.id, Classify(c, receipts))
  {
    assert cs[..|cs| - 1] == front;
  }

  /** A report with citations passes when all of them resolve; one without passes when it
      claims nothing that needs backing. */
  predicate Passes(text: string, receipts: seq<Receipt>, actionClaims: bool) {
    if Cited(text) == [] then !Unbacked(text, receipts, actionClaims)
    else AllResolve(Cited(text), receipts)
  }

  predicate AllResolve(cs: seq<Citation>, receipts: seq<Receipt>) { forall c <- cs :: Backed(c, receipts) }

  lemma ResolveSnoc(front: seq<Citation>, c: Citation, cs: seq<Citation>, receipts: seq<Receipt>)
    requires cs == front + [c]
    ensures AllResolve(cs, receipts) <==> AllResolve(front, receipts) && Backed(c, receipts)
  {
    assert c in cs && forall d <- front :: d in cs;
  }

  lemma {:induction false} AllResolved(cs: seq<Citation>, receipts: seq<Receipt>)
    ensures Failures(cs, receipts) == [] && IdsOf(cs, receipts, Unknown) == [] <==> AllResolve(cs, receipts)
    decreases |cs|
  {
    if |cs| > 0 {
      var front, c := cs[..|cs| - 1], cs[|cs| - 1];
      assert cs == front + [c];
      AllResolved(front, receipts);
      VerdictSnoc(front, c, cs, receipts);
      BothEmpty(Failures(front, receipts), Reason(c.id, Classify(c, receipts)));
      BothEmpty(IdsOf(front, receipts, Unknown), Only(c.id, Classify(c, receipts) == Unknown));
      ResolvedIsQuiet(c.id, Classify(c, receipts));
      ResolveSnoc(front, c, cs, receipts);
      ClassifyExactly(c, receipts);
    }
  }

  lemma ResolvedIsQuiet(id: string, c: Class)
    ensures c.Resolved? <==> Reason(id, c) == [] && Only(id, c == Unknown) == []
  {
  }

  lemma BothEmpty<T>(a: seq<T>, b: seq<T>)
    ensures a + b == [] <==> a == [] && b == []
  {
    assert |a + b| == |a| + |b|;
  }

  function FailedIds(fs: seq<Failure>): seq<string> {
    if |fs| == 0 then [] else FailedIds(fs[..|fs| - 1]) + [fs[|fs| - 1].id]
  }

  /** No citation is lost and none is counted twice. */
  lemma {:induction false} VerdictPartitions(cs: seq<Citation>, receipts: seq<Receipt>)
    ensures multiset(Ids(cs)) ==
            multiset(IdsOf(cs, receipts, Resolved)) + multiset(FailedIds(Failures(cs, receipts)))
                + multiset(IdsOf(cs, receipts, Unknown))
    decreases |cs|
  {
    if |cs| > 0 {
      var k := |cs| - 1;
      VerdictPartitions(cs[..k], receipts);
      FailedIdsSnoc(Failures(cs[..k], receipts), cs[k].id, Classify(cs[k], receipts));
      OnePlace(cs[k].id, Classify(cs[k], receipts));
    }
  }

  lemma OnePlace(id: string, c: Class)
    ensures multiset([id]) ==
            multiset(Only(id, c == Resolved)) + multiset(Only(id, !c.Resolved? && !c.Unknown?))
                + multiset(Only(id, c == Unknown))
  {
  }

  lemma FailedIdsSnoc(fs: seq<Failure>, id: string, c: Class)
    ensures FailedIds(fs + Reason(id, c)) == FailedIds(fs) + Only(id, !c.Resolved? && !c.Unknown?)
  {
    if c.Resolved? || c.Unknown? {
      assert fs + Reason(id, c) == fs;
    } else {
      assert (fs + Reason(id, c))[..|fs|] == fs;
    }
  }

  // ---- ledger to verdict ---------------------------------------------------

  /** The piece cites a receipt the model was shown, under no anchor or its own tool. */
  predicate CitesShown(p: Piece, r: Receipt) {
    r.id == ReceiptId(p.position) && (p.tool.None? || p.tool.value == r.toolName)
  }

  /** Where ids are distinct, the receipt with the id decides. */
  lemma BackedByReceipt(c: Citation, receipts: seq<Receipt>)
    requires IdsDistinct(receipts)
    ensures Backed(c, receipts) <==>
            exists r <- receipts ::
              r.id == c.id && r.status == "success" && (c.anchor.None? || c.anchor.value == r.toolName)
  {
    forall k | 0 <= k < |receipts|
      ensures LastAt(receipts, receipts[k].id, k)
    {
    }
  }

  lemma IdsDiffer(a: nat, b: nat)
    requires a != b
    ensures ReceiptId(a) != ReceiptId(b)
  {
    assert ReceiptId(a)[1..] == Decimal.Print(a) && ReceiptId(b)[1..] == Decimal.Print(b);
    if Decimal.Print(a) == Decimal.Print(b) {
      Decimal.PrintInjective(a, b);
      assert false;
    }
  }

  lemma ShownIdsDiffer(ms: seq<Message>)
    ensures IdsDistinct(ReceiptMiddleware.Shown(ms))
  {
    var shown := ReceiptMiddleware.Shown(ms);
    var base := ReceiptMiddleware.FirstShown(ms);
    ReceiptMiddleware.ShownIds(ms);
    forall j, k | 0 <= j < k < |shown|
      ensures shown[j].id != shown[k].id
    {
      IdsDiffer(base + j, base + k);
    }
  }

  lemma {:induction false} PrintedMembers(pieces: seq<Piece>)
    requires forall p <- pieces :: |Decimal.Print(p.position)| <= MAX_ID_DIGITS
    ensures forall p <- pieces :: Cite(p) in Printed(pieces)
    ensures forall c <- Printed(pieces) :: exists p <- pieces :: c == Cite(p)
    decreases |pieces|
  {
    if |pieces| > 0 {
      PrintedMembers(pieces[1..]);
      assert pieces == [pieces[0]] + pieces[1..];
      forall c <- Printed(pieces)
        ensures exists p <- pieces :: c == Cite(p)
      {
        if c in Printed(pieces[1..]) {
          var p :| p in pieces[1..] && c == Cite(p);
          assert p in pieces;
        } else {
          assert pieces[0] in pieces;
        }
      }
    }
  }

  /** From the ledger through the strict reader to the verdict: a report that cites only receipts
      its model was shown, anchored to their own tools or not at all, passes exactly when every
      cited call succeeded. */
  lemma HonestReportPasses(ms: seq<Message>, history: seq<Message>, reply: seq<Message>, later: seq<Message>,
                           pieces: seq<Piece>, tail: string, actionClaims: bool)
    requires ReceiptMiddleware.HasAI(reply) && forall m <- later :: ReceiptMiddleware.Unstamped(m)
    requires |pieces| > 0 && '[' !in tail
    requires forall p <- pieces :: WellFormed(p) && |Decimal.Print(p.position)| <= MAX_ID_DIGITS
    requires forall p <- pieces :: exists r <- ReceiptMiddleware.Shown(ms) :: CitesShown(p, r)
    ensures var read := CitingReceipts(ReceiptMiddleware.Thread(ms, history, reply, later));
            && read.Some?
            && (Passes(Report(pieces, tail), read.value, actionClaims) <==>
                forall p <- pieces, r <- read.value :: CitesShown(p, r) ==> r.status == "success")
  {
    assert pieces[0] in pieces;
    ReceiptMiddleware.LedgerRoundTrip(ms, history, reply, later);
    ShownReportPasses(ms, pieces, tail, actionClaims);
  }

  lemma ShownReportPasses(ms: seq<Message>, pieces: seq<Piece>, tail: string, actionClaims: bool)
    requires |pieces| > 0 && '[' !in tail
    requires forall p <- pieces :: WellFormed(p) && |Decimal.Print(p.position)| <= MAX_ID_DIGITS
    requires forall p <- pieces :: exists r <- ReceiptMiddleware.Shown(ms) :: CitesShown(p, r)
    ensures Passes(Report(pieces, tail), ReceiptMiddleware.Shown(ms), actionClaims) <==>
            forall p <- pieces, r <- ReceiptMiddleware.Shown(ms) :: CitesShown(p, r) ==> r.status == "success"
  {
    ShownIdsDiffer(ms);
    ReportCites(pieces, tail);
    assert pieces[0] in pieces;
    CitedPass(Cited(Report(pieces, tail)), pieces, ReceiptMiddleware.Shown(ms));
  }

  /** A report cites what was printed in it. */
  lemma ReportCites(pieces: seq<Piece>, tail: string)
    requires '[' !in tail
    requires forall p <- pieces :: WellFormed(p) && |Decimal.Print(p.position)| <= MAX_ID_DIGITS
    ensures forall p <- pieces :: Cite(p) in Cited(Report(pieces, tail))
    ensures forall c <- Cited(Report(pieces, tail)) :: exists p <- pieces :: c == Cite(p)
  {
    CitationRoundTrip(pieces, tail);
    PrintedMembers(pieces);
    DedupFirstSeen(Printed(pieces));
  }

  function Cite(p: Piece): Citation { Citation(ReceiptId(p.position), p.tool) }

  predicate IdsDistinct(receipts: seq<Receipt>) {
    forall j, k :: 0 <= j < k < |receipts| ==> receipts[j].id != receipts[k].id
  }

  /** The citations of some pieces all resolve exactly when every receipt they cite succeeded. */
  lemma CitedPass(cited: seq<Citation>, pieces: seq<Piece>, shown: seq<Receipt>)
    requires IdsDistinct(shown) && forall p <- pieces :: exists r <- shown :: CitesShown(p, r)
    requires (forall p <- pieces :: Cite(p) in cited) && forall c <- cited :: exists p <- pieces :: c == Cite(p)
    ensures AllResolve(cited, shown) <==>
            forall p <- pieces, r <- shown :: CitesShown(p, r) ==> r.status == "success"
  {
    forall p <- pieces, r <- shown | CitesShown(p, r)
      ensures Backed(Cite(p), shown) <==> r.status == "success"
    {
      BackedByReceipt(Cite(p), shown);
    }
    forall c <- cited
      ensures exists p <- pieces, r <- shown :: CitesShown(p, r) && c == Cite(p)
    {
      var p :| p in pieces && c == Cite(p);
      var r :| r in shown && CitesShown(p, r);
    }
  }
}
