/** The porcelain printer, and the line counts the reduction makes of what it prints. */
module BlamePorcelain {
  import opened Common
  import opened Sequences
  import opened Blame
  import Decimal

  /** A commit's metadata.  The reduction reads four texts and the time; git prints the lines
      of `committer` before the summary and those of `trailer` (filename and others) after it. */
  datatype Commit = Commit(author: string, mail: string, time: nat, tz: string, committer: seq<string>,
                           summary: string, trailer: seq<string>)

  /** One blamed line; git closes the header with the group size when a group starts. */
  datatype Blamed = Blamed(sha: string, orig: nat, final: nat, group: Option<nat>, code: string)

  type History = map<string, Commit>

  function Header(b: Blamed): string {
    b.sha + " " + Decimal.Print(b.orig) + " " + Decimal.Print(b.final)
    + (if b.group.Some? then " " + Decimal.Print(b.group.value) else "")
  }

  function AuthorLines(c: Commit): seq<string> {
    [KeyName(Author) + " " + c.author, KeyName(AuthorMail) + " " + ("<" + c.mail + ">"),
     KeyName(AuthorTime) + " " + Decimal.Print(c.time), KeyName(AuthorTz) + " " + c.tz]
  }

  /** The metadata as git prints it. */
  function MetaLines(c: Commit): seq<string> {
    AuthorLines(c) + c.committer + [KeyName(Summary) + " " + c.summary] + c.trailer
  }

  function Joined(lines: seq<string>): string {
    if |lines| == 0 then "" else lines[0] + "\n" + Joined(lines[1..])
  }

  /** Metadata is printed when the sha appears for the first time. */
  function PrintOne(h: History, b: Blamed, first: bool): string
    requires b.sha in h
  {
    Joined([Header(b)] + (if first then MetaLines(h[b.sha]) else [])) + ("\t" + b.code + "\n")
  }

  function Print(h: History, lines: seq<Blamed>): string
    requires forall b <- lines :: b.sha in h
  {
    if |lines| == 0 then ""
    else
      var k := |lines| - 1;
      Print(h, lines[..k]) + PrintOne(h, lines[k], !Seen(lines[..k], lines[k].sha))
  }

  /** How many lines a commit brought in. */
  function Count(lines: seq<Blamed>, sha: string): nat {
    if |lines| == 0 then 0 else Count(lines[..|lines| - 1], sha) + (if lines[|lines| - 1].sha == sha then 1 else 0)
  }

  predicate Seen(lines: seq<Blamed>, sha: string) { Count(lines, sha) > 0 }

  /** Object names are 40 hexadecimal digits; nothing else is asked of what git prints. */
  predicate Proper(h: History, lines: seq<Blamed>) { forall b <- lines :: b.sha in h && IsSha(b.sha) }

  // ---- what the reader makes of a printed line -----------------------------

  /** The pieces a printed line falls into: names, subjects and source lines may contain
      carriage returns, form feeds and other characters that end a line for the reader but
      not for git. */
  function Pieces(line: string): seq<string> { SplitLines(line + "\n") }

  function AllPieces(lines: seq<string>): seq<string> {
    if |lines| == 0 then [] else Pieces(lines[0]) + AllPieces(lines[1..])
  }

  function MetaPieces(c: Commit): seq<string> { AllPieces(MetaLines(c)) }

  function CodePieces(b: Blamed): seq<string> { Pieces("\t" + b.code) }

  predicate NoHeader(pieces: seq<string>) { forall k :: 0 <= k < |pieces| ==> !IsHeader(pieces[k]) }

  /** No piece of a printed metadata line or code line poses as a header. */
  predicate NothingPoses(h: History, lines: seq<Blamed>)
    requires Proper(h, lines)
  {
    forall b <- lines :: NoHeader(CodePieces(b)) && NoHeader(MetaPieces(h[b.sha]))
  }

  lemma PiecesOfPlain(line: string)
    requires NoBreak(line)
    ensures Pieces(line) == [line]
  {
    SplitPlainLine(line + "\n", line, "");
  }

  lemma {:induction false} WordOf(w: string, rest: string)
    requires ' ' !in w
    ensures Word(w + " " + rest) == w && After(w + " " + rest) == rest
    ensures Word(w) == w
    decreases |w|
  {
    var s := w + " " + rest;
    if |w| > 0 {
      assert s[1..] == w[1..] + " " + rest;
      WordOf(w[1..], rest);
    }
    assert s[|w| + 1..] == rest;
  }

  lemma DigitsPlain(n: nat)
    ensures IsNumber(Decimal.Print(n)) && ' ' !in Decimal.Print(n) && NoBreak(Decimal.Print(n))
  {
    Decimal.PrintIsDigits(n);
    assert forall k :: 0 <= k < |Decimal.Print(n)| ==> Decimal.Print(n)[k] in Decimal.Print(n);
  }

  function HeaderTail(b: Blamed): string {
    Decimal.Print(b.final) + (if b.group.Some? then " " + Decimal.Print(b.group.value) else "")
  }

  lemma TailWord(b: Blamed)
    ensures Word(HeaderTail(b)) == Decimal.Print(b.final) && NoBreak(HeaderTail(b))
  {
    DigitsPlain(b.final);
    if b.group.Some? {
      DigitsPlain(b.group.value);
      assert HeaderTail(b) == Decimal.Print(b.final) + " " + Decimal.Print(b.group.value);
      WordOf(Decimal.Print(b.final), Decimal.Print(b.group.value));
    } else {
      assert HeaderTail(b) == Decimal.Print(b.final);
      WordOf(Decimal.Print(b.final), "");
    }
  }

  lemma ShaPlain(sha: string)
    requires IsSha(sha)
    ensures ' ' !in sha && NoBreak(sha) && sha[0] != '\t'
  {
    assert forall k :: 0 <= k < |sha| ==> sha[k] in sha;
  }

  lemma HeaderShape(s: string, sha: string, orig: string, tail: string)
    requires IsSha(sha) && ' ' !in sha && IsNumber(orig) && ' ' !in orig && IsNumber(Word(tail))
    requires s == sha + " " + (orig + " " + tail)
    ensures IsHeader(s) && Word(s) == sha
  {
    WordOf(sha, orig + " " + tail);
    WordOf(orig, tail);
  }

  lemma HeaderQuiet(s: string, sha: string, orig: string, tail: string)
    requires IsSha(sha) && NoBreak(sha) && sha[0] != '\t' && NoBreak(orig) && NoBreak(tail)
    requires s == sha + " " + (orig + " " + tail)
    ensures NoBreak(s) && !IsCode(s)
  {
    assert s[0] == sha[0];
  }

  lemma HeaderForm(b: Blamed)
    ensures Header(b) == b.sha + " " + (Decimal.Print(b.orig) + " " + HeaderTail(b))
  {
  }

  lemma HeaderIsHeader(b: Blamed)
    requires IsSha(b.sha)
    ensures IsHeader(Header(b)) && Word(Header(b)) == b.sha && NoBreak(Header(b)) && !IsCode(Header(b))
  {
    ShaPlain(b.sha);
    DigitsPlain(b.orig);
    DigitsPlain(b.final);
    TailWord(b);
    HeaderForm(b);
    HeaderShape(Header(b), b.sha, Decimal.Print(b.orig), HeaderTail(b));
    HeaderQuiet(Header(b), b.sha, Decimal.Print(b.orig), HeaderTail(b));
  }

  /** A header is a name of 40 hexadecimal digits and two numbers, each closed by a space or, at
      the last, the end of the line. */
  ghost predicate IsHeaderText(line: string) {
    exists sha: string, orig: string, tail: string ::
      IsSha(sha) && IsNumber(orig) && IsNumber(Word(tail)) && line == sha + " " + (orig + " " + tail)
  }

  lemma HeaderExactly(line: string)
    ensures IsHeader(line) <==> IsHeaderText(line)
  {
    if IsHeader(line) {
      var rest := After(line);
      Rejoined(line);
      Rejoined(rest);
      assert line == Word(line) + " " + (Word(rest) + " " + After(rest));
    }
    if IsHeaderText(line) {
      var sha: string, orig: string, tail: string :|
        IsSha(sha) && IsNumber(orig) && IsNumber(Word(tail)) && line == sha + " " + (orig + " " + tail);
      NoSpaces(sha);
      NoSpaces(orig);
      WordOf(sha, orig + " " + tail);
      WordOf(orig, tail);
    }
  }

  lemma Rejoined(s: string)
    requires |Word(s)| < |s|
    ensures s == Word(s) + " " + After(s)
  {
  }

  lemma NoSpaces(s: string)
    requires IsSha(s) || IsNumber(s)
    ensures ' ' !in s
  {
  }

  lemma {:induction false} SplitJoined(lines: seq<string>, rest: string)
    ensures SplitLines(Joined(lines) + rest) == AllPieces(lines) + SplitLines(rest)
    decreases |lines|
  {
    if |lines| == 0 {
      assert Joined(lines) + rest == rest;
    } else {
      var more := Joined(lines[1..]) + rest;
      JoinedHead(lines, rest);
      SplitAtNewline(lines[0] + "\n" + more, lines[0] + "\n", lines[0], more);
      SplitJoined(lines[1..], rest);
      Associative(Pieces(lines[0]), AllPieces(lines[1..]), SplitLines(rest));
    }
  }

  lemma JoinedHead(lines: seq<string>, rest: string)
    requires |lines| > 0
    ensures Joined(lines) + rest == lines[0] + "\n" + (Joined(lines[1..]) + rest)
  {
  }

  /** The lines the reader sees for one blamed line. */
  function ReadOne(h: History, b: Blamed, first: bool): seq<string>
    requires b.sha in h
  {
    [Header(b)] + (if first then MetaPieces(h[b.sha]) else []) + CodePieces(b)
  }

  lemma SplitOne(h: History, b: Blamed, first: bool)
    requires b.sha in h && IsSha(b.sha)
    ensures SplitLines(PrintOne(h, b, first)) == ReadOne(h, b, first)
  {
    var meta := if first then MetaLines(h[b.sha]) else [];
    HeaderIsHeader(b);
    PiecesOfPlain(Header(b));
    SplitJoined([Header(b)] + meta, "\t" + b.code + "\n");
    assert ([Header(b)] + meta)[1..] == meta;
  }

  lemma {:induction false} SplitPrintAppend(h: History, lines: seq<Blamed>, rest: string)
    requires forall b <- lines :: b.sha in h
    ensures SplitLines(Print(h, lines) + rest) == SplitLines(Print(h, lines)) + SplitLines(rest)
  {
    if |lines| == 0 {
      assert Print(h, lines) + rest == rest;
    } else {
      var text := Print(h, lines);
      PrintEnds(h, lines);
      var body := text[..|text| - 1];
      assert text == body + "\n";
      SplitAtNewline(text + rest, text, body, rest);
    }
  }

  lemma PrintEnds(h: History, lines: seq<Blamed>)
    requires |lines| > 0 && (forall b <- lines :: b.sha in h)
    ensures |Print(h, lines)| > 0 && Print(h, lines)[|Print(h, lines)| - 1] == '\n'
  {
    var k := |lines| - 1;
    var code := "\t" + lines[k].code + "\n";
    assert code[|code| - 1] == '\n';
    assert Print(h, lines) == Print(h, lines[..k]) + PrintOne(h, lines[k], !Seen(lines[..k], lines[k].sha));
  }

  /** The lines the reader sees for a whole blame. */
  function ReadAll(h: History, lines: seq<Blamed>): seq<string>
    requires forall b <- lines :: b.sha in h
  {
    if |lines| == 0 then []
    else
      var k := |lines| - 1;
      ReadAll(h, lines[..k]) + ReadOne(h, lines[k], !Seen(lines[..k], lines[k].sha))
  }

  lemma {:induction false} SplitPrint(h: History, lines: seq<Blamed>)
    requires Proper(h, lines)
    ensures SplitLines(Print(h, lines)) == ReadAll(h, lines)
    decreases |lines|
  {
    if |lines| > 0 {
      var k := |lines| - 1;
      SplitPrint(h, lines[..k]);
      SplitPrintLast(h, lines[..k], lines[k], !Seen(lines[..k], lines[k].sha));
    }
  }

  lemma SplitPrintLast(h: History, front: seq<Blamed>, b: Blamed, first: bool)
    requires Proper(h, front) && b.sha in h && IsSha(b.sha)
    ensures SplitLines(Print(h, front) + PrintOne(h, b, first)) == SplitLines(Print(h, front)) + ReadOne(h, b, first)
  {
    SplitPrintAppend(h, front, PrintOne(h, b, first));
    SplitOne(h, b, first);
  }

  lemma CountSnoc(lines: seq<Blamed>, b: Blamed, sha: string)
    ensures Count(lines + [b], sha) == Count(lines, sha) + (if b.sha == sha then 1 else 0)
  {
    assert (lines + [b])[..|lines|] == lines;
  }

  lemma {:induction false} CountMember(lines: seq<Blamed>, b: Blamed)
    requires b in lines
    ensures Count(lines, b.sha) > 0
    decreases |lines|
  {
    var k := |lines| - 1;
    if lines[k] != b {
      assert lines == lines[..k] + [lines[k]];
      CountMember(lines[..k], b);
    }
  }

  lemma {:induction false} SeenMember(lines: seq<Blamed>, sha: string) returns (b: Blamed)
    requires Seen(lines, sha)
    ensures b in lines && b.sha == sha
    decreases |lines|
  {
    var k := |lines| - 1;
    b := lines[k];
    if b.sha != sha {
      b := SeenMember(lines[..k], sha);
    }
  }

  // ---- headers and forged headers ------------------------------------------

  /** The commit a line is a header of. */
  function ShaOf(line: string): Option<string> { if IsHeader(line) then Some(Word(line)) else None }

  function Shas(ls: seq<string>): seq<Option<string>> { Map(ShaOf, ls) }

  function HeadersOf(ls: seq<string>, sha: string): nat { multiset(Shas(ls))[Some(sha)] }

  function TallyOf(acc: Acc, sha: string): nat { if sha in acc.tally then acc.tally[sha] else 0 }

  lemma HeaderIsNoCode(s: string)
    requires IsHeader(s)
    ensures !IsCode(s)
  {
    assert Word(s)[0] in Word(s) && s[0] == Word(s)[0];
  }

  lemma HeadersAppend(a: seq<string>, b: seq<string>, sha: string)
    ensures HeadersOf(a + b, sha) == HeadersOf(a, sha) + HeadersOf(b, sha)
  {
    MapAppend(ShaOf, a, b);
  }

  lemma HeadersOne(line: string, sha: string)
    ensures HeadersOf([line], sha) == if ShaOf(line) == Some(sha) then 1 else 0
  {
    assert Shas([line]) == [ShaOf(line)];
  }

  lemma FeedTally(acc: Acc, line: string, sha: string)
    requires Consistent(acc)
    ensures TallyOf(Feed(acc, line), sha) == TallyOf(acc, sha) + (if ShaOf(line) == Some(sha) then 1 else 0)
  {
    if IsHeader(line) {
      HeaderIsNoCode(line);
    }
  }

  lemma {:induction false} TallyCounts(ls: seq<string>, sha: string)
    ensures TallyOf(FeedAll(EMPTY, ls), sha) == HeadersOf(ls, sha)
    decreases |ls|
  {
    if |ls| > 0 {
      var k := |ls| - 1;
      TallyCounts(ls[..k], sha);
      assert ls == ls[..k] + [ls[k]];
      FeedAppend(EMPTY, ls[..k], [ls[k]]);
      FeedOne(FeedAll(EMPTY, ls[..k]), ls[k]);
      FeedTally(FeedAll(EMPTY, ls[..k]), ls[k], sha);
      HeadersAppend(ls[..k], [ls[k]], sha);
      HeadersOne(ls[k], sha);
    }
  }

  lemma NoHeaders(ls: seq<string>)
    ensures (forall sha :: HeadersOf(ls, sha) == 0) <==> forall k :: 0 <= k < |ls| ==> !IsHeader(ls[k])
  {
    if forall sha :: HeadersOf(ls, sha) == 0 {
      forall k | 0 <= k < |ls|
        ensures !IsHeader(ls[k])
      {
        HeaderCounts(ls, k);
      }
    }
    if forall k :: 0 <= k < |ls| ==> !IsHeader(ls[k]) {
      forall sha
        ensures HeadersOf(ls, sha) == 0
      {
        MapLacks(ShaOf, ls, Some(sha));
      }
    }
  }

  lemma HeaderCounts(ls: seq<string>, k: nat)
    requires k < |ls|
    ensures IsHeader(ls[k]) ==> HeadersOf(ls, Word(ls[k])) > 0
  {
    MapHas(ShaOf, ls, k);
  }

  /** Headers of this sha forged inside metadata, which is printed once, and inside code. */
  function Forged(h: History, lines: seq<Blamed>, sha: string): nat
    requires Proper(h, lines)
  {
    if |lines| == 0 then 0
    else
      var k := |lines| - 1;
      Forged(h, lines[..k], sha) + ForgedIn(h, lines[k], !Seen(lines[..k], lines[k].sha), sha)
  }

  function ForgedIn(h: History, b: Blamed, first: bool, sha: string): nat
    requires b.sha in h
  {
    (if first then HeadersOf(MetaPieces(h[b.sha]), sha) else 0) + HeadersOf(CodePieces(b), sha)
  }

  lemma {:induction false} HeadersRead(h: History, lines: seq<Blamed>, sha: string)
    requires Proper(h, lines)
    ensures HeadersOf(ReadAll(h, lines), sha) == Count(lines, sha) + Forged(h, lines, sha)
    decreases |lines|
  {
    if |lines| > 0 {
      var k := |lines| - 1;
      HeadersRead(h, lines[..k], sha);
      HeadersReadLast(ReadAll(h, lines[..k]), h, lines[k], !Seen(lines[..k], lines[k].sha), sha);
    }
  }

  lemma HeadersReadLast(read: seq<string>, h: History, b: Blamed, first: bool, sha: string)
    requires b.sha in h && IsSha(b.sha)
    ensures HeadersOf(read + ReadOne(h, b, first), sha) ==
            HeadersOf(read, sha) + (if b.sha == sha then 1 else 0) + ForgedIn(h, b, first, sha)
  {
    HeadersReadOne(h, b, first, sha);
    HeadersAppend(read, ReadOne(h, b, first), sha);
  }

  lemma HeadersReadOne(h: History, b: Blamed, first: bool, sha: string)
    requires b.sha in h && IsSha(b.sha)
    ensures HeadersOf(ReadOne(h, b, first), sha) ==
            (if b.sha == sha then 1 else 0) + ForgedIn(h, b, first, sha)
  {
    var meta := if first then MetaPieces(h[b.sha]) else [];
    HeadersAppend([Header(b)] + meta, CodePieces(b), sha);
    HeadersAppend([Header(b)], meta, sha);
    HeaderIsHeader(b);
    HeadersOne(Header(b), sha);
  }

  /** For every content of metadata and code: a commit is credited with its lines plus the
      headers that are forged for it. */
  lemma TallyIsCountPlusForged(h: History, lines: seq<Blamed>, sha: string)
    requires Proper(h, lines)
    ensures TallyOf(FeedAll(EMPTY, SplitLines(Print(h, lines))), sha) == Count(lines, sha) + Forged(h, lines, sha)
  {
    SplitPrint(h, lines);
    TallyCounts(ReadAll(h, lines), sha);
    HeadersRead(h, lines, sha);
  }

  // ---- exactly when the counts are right -----------------------------------

  lemma {:induction false} NothingForged(h: History, lines: seq<Blamed>, sha: string)
    requires Proper(h, lines) && NothingPoses(h, lines)
    ensures Forged(h, lines, sha) == 0
    decreases |lines|
  {
    if |lines| > 0 {
      var k := |lines| - 1;
      assert lines[k] in lines;
      NothingForged(h, lines[..k], sha);
      NoHeaders(CodePieces(lines[k]));
      NoHeaders(MetaPieces(h[lines[k].sha]));
    }
  }

  lemma {:induction false} ForgedGrows(h: History, lines: seq<Blamed>, j: nat, sha: string)
    requires Proper(h, lines) && j < |lines|
    ensures Forged(h, lines, sha) >= ForgedIn(h, lines[j], !Seen(lines[..j], lines[j].sha), sha)
    decreases |lines|
  {
    var k := |lines| - 1;
    if j < k {
      SamePrefix(lines, lines[..k], lines[k..], j);
      ForgedGrows(h, lines[..k], j, sha);
    }
  }

  /** The line at which a commit's metadata is printed. */
  lemma {:induction false} FirstLine(lines: seq<Blamed>, sha: string) returns (j: nat)
    requires Seen(lines, sha)
    ensures j < |lines| && lines[j].sha == sha && !Seen(lines[..j], sha)
    decreases |lines|
  {
    var k := |lines| - 1;
    if Seen(lines[..k], sha) {
      j := FirstLine(lines[..k], sha);
      assert lines[..k][..j] == lines[..j];
    } else {
      j := k;
    }
  }

  ghost predicate CountsTrue(h: History, lines: seq<Blamed>)
    requires Proper(h, lines)
  {
    forall sha :: TallyOf(FeedAll(EMPTY, SplitLines(Print(h, lines))), sha) == Count(lines, sha)
  }

  lemma PosingPiece(pieces: seq<string>) returns (sha: string)
    requires !NoHeader(pieces)
    ensures HeadersOf(pieces, sha) > 0
  {
    var k :| 0 <= k < |pieces| && IsHeader(pieces[k]);
    sha := Word(pieces[k]);
    HeaderCounts(pieces, k);
  }

  /** A piece of a line that poses as a header is a forged one. */
  lemma SomethingForged(h: History, lines: seq<Blamed>, b: Blamed)
    requires Proper(h, lines) && b in lines
    ensures (NoHeader(CodePieces(b)) && NoHeader(MetaPieces(h[b.sha]))) || exists sha :: Forged(h, lines, sha) > 0
  {
    if !NoHeader(CodePieces(b)) {
      var j :| 0 <= j < |lines| && lines[j] == b;
      var sha := PosingPiece(CodePieces(b));
      ForgedGrows(h, lines, j, sha);
    } else if !NoHeader(MetaPieces(h[b.sha])) {
      CountMember(lines, b);
      var j := FirstLine(lines, b.sha);
      var sha := PosingPiece(MetaPieces(h[b.sha]));
      ForgedGrows(h, lines, j, sha);
    }
  }

  /** Whatever the metadata and the code contain: the line counts the reduction works with are
      the true ones if and only if no piece of a printed line looks like a header. */
  lemma CountsExactlyWhenNothingPoses(h: History, lines: seq<Blamed>)
    requires Proper(h, lines)
    ensures CountsTrue(h, lines) <==> NothingPoses(h, lines)
  {
    if NothingPoses(h, lines) {
      forall sha
        ensures TallyOf(FeedAll(EMPTY, SplitLines(Print(h, lines))), sha) == Count(lines, sha)
      {
        TallyIsCountPlusForged(h, lines, sha);
        NothingForged(h, lines, sha);
      }
    } else {
      var b :| b in lines && !(NoHeader(CodePieces(b)) && NoHeader(MetaPieces(h[b.sha])));
      SomethingForged(h, lines, b);
      var sha :| Forged(h, lines, sha) > 0;
      TallyIsCountPlusForged(h, lines, sha);
    }
  }

  // ---- a forged header -----------------------------------------------------

  lemma {:induction false} BreakAfter(p: string, rest: string)
    requires NoBreak(p)
    ensures BreakAt(p + rest) == |p| + BreakAt(rest)
    decreases |p|
  {
    if |p| == 0 {
      assert p + rest == rest;
    } else {
      assert (p + rest)[0] == p[0] && (p + rest)[1..] == p[1..] + rest;
      BreakAfter(p[1..], rest);
    }
  }

  /** A carriage return ends a line for the reader. */
  lemma SplitAtReturn(p: string, rest: string)
    requires NoBreak(p) && |rest| > 0 && rest[0] != '\n'
    ensures SplitLines(p + "\r" + rest) == [p] + SplitLines(rest)
  {
    var s := p + "\r" + rest;
    assert s == p + ("\r" + rest);
    BreakAfter(p, "\r" + rest);
    assert BreakAt("\r" + rest) == 0;
    assert s[|p|] == '\r' && s[|p| + 1] == rest[0];
    SplitFirst(s, |p|, 1);
    assert s[..|p|] == p && s[|p| + 1..] == rest;
  }

  lemma {:induction false} PieceOfLine(lines: seq<string>, j: nat, k: nat) returns (at: nat)
    requires j < |lines| && k < |Pieces(lines[j])|
    ensures at < |AllPieces(lines)| && AllPieces(lines)[at] == Pieces(lines[j])[k]
    decreases j
  {
    if j == 0 {
      at := k;
    } else {
      at := PieceOfLine(lines[1..], j - 1, k);
      at := at + |Pieces(lines[0])|;
    }
  }

  /** A subject line with a carriage return and a header behind it credits a commit that
      brought in nothing. */
  lemma SummaryForges(h: History, b: Blamed, x: string, other: Blamed)
    requires b.sha in h && IsSha(b.sha) && IsSha(other.sha) && other.sha != b.sha
    requires NoBreak(x) && h[b.sha].summary == x + "\r" + Header(other)
    ensures Proper(h, [b]) && !NothingPoses(h, [b])
    ensures Count([b], other.sha) == 0 < TallyOf(FeedAll(EMPTY, SplitLines(Print(h, [b]))), other.sha)
  {
    var c := h[b.sha];
    var p, lines := KeyName(Summary) + " " + x, MetaLines(c);
    var j := 4 + |c.committer|;
    HeaderIsHeader(other);
    SplitSummary(c, p, x, Header(other));
    assert lines[j] == KeyName(Summary) + " " + c.summary;
    var at := PieceOfLine(lines, j, 1);
    HeaderCounts(MetaPieces(c), at);
    TallyIsCountPlusForged(h, [b], other.sha);
    CountSnoc([], b, other.sha);
    assert [] + [b] == [b];
    ForgedGrows(h, [b], 0, other.sha);
  }

  lemma SplitSummary(c: Commit, p: string, x: string, header: string)
    requires NoBreak(x) && c.summary == x + "\r" + header && p == KeyName(Summary) + " " + x
    requires |header| > 0 && header[0] != '\n' && NoBreak(header)
    ensures Pieces(KeyName(Summary) + " " + c.summary) == [p, header]
  {
    assert KeyName(Summary) + " " + c.summary + "\n" == p + "\r" + (header + "\n");
    SplitAtReturn(p, header + "\n");
    PiecesOfPlain(header);
  }

  function Name(c: char): string { seq(40, _ => c) }

  lemma ForgedSummary()
    ensures var other := Blamed(Name('b'), 1, 1, None, "");
            var h := map[Name('a') := Commit("a", "m", 0, "+0000", [], "x" + "\r" + Header(other), [])];
            var lines := [Blamed(Name('a'), 1, 1, None, "")];
            && Proper(h, lines)
            && Count(lines, Name('b')) == 0 < TallyOf(FeedAll(EMPTY, SplitLines(Print(h, lines))), Name('b'))
  {
    var other, b := Blamed(Name('b'), 1, 1, None, ""), Blamed(Name('a'), 1, 1, None, "");
    var h := map[Name('a') := Commit("a", "m", 0, "+0000", [], "x" + "\r" + Header(other), [])];
    assert Name('a')[0] != Name('b')[0];
    SummaryForges(h, b, "x", other);
  }
}
