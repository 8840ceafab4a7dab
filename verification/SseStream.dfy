/**
 The server-sent event stream: the printer that replays stored frames and the browser's
 incremental parser, which sees the text in arbitrary chunks.  A frame is one
 `data: <payload>` line closed by an empty line (sections 9.2.5 and 9.2.6 of the WHATWG
 HTML Living Standard, the subset without other fields).
 */
module SseStream {
  import opened Common
  import opened Sequences

  const PREFIX: string := "data: "
  const DONE: string := "{\"kind\": \"done\"}"

  // ---- the printer ---------------------------------------------------------

  function Frame(payload: string): string { PREFIX + payload + "\n\n" }

  function Frames(payloads: seq<string>): string {
    if |payloads| == 0 then "" else Frame(payloads[0]) + Frames(payloads[1..])
  }

  lemma {:induction false} FramesSnoc(payloads: seq<string>, p: string)
    ensures Frames(payloads + [p]) == Frames(payloads) + Frame(p)
    decreases |payloads|
  {
    if |payloads| == 0 {
      assert payloads + [p] == [p] && [p][1..] == [];
    } else {
      assert (payloads + [p])[1..] == payloads[1..] + [p];
      FramesSnoc(payloads[1..], p);
    }
  }

  /** The body of a replayed turn: its frames and the terminal `done`. */
  method ReplayStream(frames: seq<string>) returns (body: string)
    ensures body == Frames(frames + [DONE])
  {
    body := "";
    for k := 0 to |frames|
      invariant body == Frames(frames[..k])
    {
      assert frames[..k + 1] == frames[..k] + [frames[k]];
      FramesSnoc(frames[..k], frames[k]);
      body := body + "data: ";
      body := body + frames[k];
      body := body + "\n\n";
    }
    assert frames[..|frames|] == frames;
    FramesSnoc(frames, DONE);
    body := body + "data: {\"kind\": \"done\"}\n\n";
  }

  // ---- the parser ----------------------------------------------------------

  /** Position of the first empty line's break, or the length if there is none. */
  function Break(s: string): (k: nat)
    ensures k <= |s|
    ensures k < |s| ==> k + 1 < |s| && s[k] == '\n' && s[k + 1] == '\n'
  {
    if |s| < 2 then |s| else if s[0] == '\n' && s[1] == '\n' then 0 else 1 + Break(s[1..])
  }

  lemma {:induction false} BreakIsFirst(s: string, j: nat)
    requires j + 1 < |s| && s[j] == '\n' && s[j + 1] == '\n'
    ensures Break(s) <= j
    decreases |s|
  {
    if !(s[0] == '\n' && s[1] == '\n') {
      BreakIsFirst(s[1..], j - 1);
    }
  }

  /** The first line of a frame that starts with the prefix, without it. */
  function DataLine(frame: string): Option<string> {
    var k := LineEnd(frame);
    if PREFIX <= frame[..k] then Some(frame[|PREFIX|..k])
    else if k < |frame| then DataLine(frame[k + 1..])
    else None
  }

  function LineEnd(s: string): (k: nat)
    ensures k <= |s| && forall j :: 0 <= j < k ==> s[j] != '\n'
    ensures k < |s| ==> s[k] == '\n'
  {
    if |s| == 0 || s[0] == '\n' then 0 else 1 + LineEnd(s[1..])
  }

  /** The lines of a text. */
  function Lines(s: string): (lines: seq<string>)
    ensures |lines| > 0
  {
    var k := LineEnd(s);
    [s[..k]] + if k < |s| then Lines(s[k + 1..]) else []
  }

  function Unlines(lines: seq<string>): string {
    if |lines| == 0 then "" else if |lines| == 1 then lines[0] else lines[0] + "\n" + Unlines(lines[1..])
  }

  lemma {:induction false} LinesExactly(s: string)
    ensures Unlines(Lines(s)) == s && forall l <- Lines(s) :: '\n' !in l
    decreases |s|
  {
    var k := LineEnd(s);
    if k < |s| {
      LinesExactly(s[k + 1..]);
      assert Lines(s)[1..] == Lines(s[k + 1..]);
      assert s == s[..k] + "\n" + s[k + 1..];
    }
  }

  /** The line at `j` is the first that starts with the prefix. */
  predicate FirstData(lines: seq<string>, j: int) {
    0 <= j < |lines| && PREFIX <= lines[j] && forall i :: 0 <= i < j ==> !(PREFIX <= lines[i])
  }

  /** The payload is what follows the prefix on that line. */
  lemma {:induction false} DataLineExactly(frame: string, p: string)
    ensures DataLine(frame) == Some(p) <==>
            exists j :: 0 <= j < |Lines(frame)| && FirstData(Lines(frame), j) && Lines(frame)[j] == PREFIX + p
    decreases |frame|
  {
    var k, lines := LineEnd(frame), Lines(frame);
    assert lines[0] == frame[..k];
    if PREFIX <= frame[..k] {
      assert FirstData(lines, 0) && lines[0] == PREFIX + frame[|PREFIX|..k];
    } else if k < |frame| {
      var rest := Lines(frame[k + 1..]);
      assert lines == [lines[0]] + rest;
      DataLineExactly(frame[k + 1..], p);
      forall j | 0 <= j < |rest|
        ensures FirstData(lines, j + 1) <==> FirstData(rest, j)
        ensures lines[j + 1] == rest[j]
      {
        SkipLine(lines[0], rest, j);
      }
    }
  }

  lemma SkipLine(l: string, rest: seq<string>, j: int)
    requires !(PREFIX <= l)
    ensures FirstData([l] + rest, j + 1) <==> FirstData(rest, j)
  {
    var lines := [l] + rest;
    assert forall i :: 0 <= i < |rest| ==> lines[i + 1] == rest[i];
    if FirstData(rest, j) {
      assert forall i :: 0 < i < j + 1 ==> lines[i] == rest[i - 1];
    }
  }

  function Payload(frame: string): seq<string> {
    match DataLine(frame) case None => [] case Some(p) => [p]
  }

  /** Payloads of the complete frames of a text, and the unfinished rest. */
  function Parsed(s: string): seq<string>
    decreases |s|
  {
    var k := Break(s);
    if k < |s| then Payload(s[..k]) + Parsed(s[k + 2..]) else []
  }

  function Rest(s: string): string
    decreases |s|
  {
    var k := Break(s);
    if k < |s| then Rest(s[k + 2..]) else s
  }

  function Concat(chunks: seq<string>): string {
    if |chunks| == 0 then "" else Concat(chunks[..|chunks| - 1]) + chunks[|chunks| - 1]
  }

  lemma {:induction false} BreakStable(s: string, more: string)
    requires Break(s) < |s|
    ensures Break(s + more) == Break(s)
    decreases |s|
  {
    if !(s[0] == '\n' && s[1] == '\n') {
      assert (s + more)[1..] == s[1..] + more;
      BreakStable(s[1..], more);
    }
  }

  /** Parsing what is buffered and then the rest with more text is parsing it all. */
  lemma {:induction false} ParsedAppend(s: string, more: string)
    ensures Parsed(s + more) == Parsed(s) + Parsed(Rest(s) + more)
    ensures Rest(s + more) == Rest(Rest(s) + more)
    decreases |s|
  {
    var k := Break(s);
    if k < |s| {
      BreakStable(s, more);
      var all, tail := s + more, s[k + 2..];
      assert all[..k] == s[..k] && all[k + 2..] == tail + more;
      FirstFrame(s, k);
      FirstFrame(all, k);
      ParsedAppend(tail, more);
      Associative(Payload(s[..k]), Parsed(tail), Parsed(Rest(tail) + more));
    }
  }

  /** The inner loop: hand on every complete frame of the buffer, keep the rest. */
  method DrainBuffer<E>(all: string, decode: string -> Option<E>) returns (events: seq<E>, buf: string)
    ensures events == Decoded(Parsed(all), decode)
    ensures buf == Rest(all)
  {
    events, buf := [], all;
    var idx := Break(buf);
    while idx < |buf|
      invariant idx == Break(buf)
      invariant events + Decoded(Parsed(buf), decode) == Decoded(Parsed(all), decode)
      invariant Rest(buf) == Rest(all)
      decreases |buf|
    {
      var frame := buf[..idx];
      FirstFrame(buf, idx);
      DecodedAppend(Payload(frame), Parsed(buf[idx + 2..]), decode);
      buf := buf[idx + 2..];
      var event := EventOf(frame, decode);
      events := events + event;
      idx := Break(buf);
    }
    assert events + [] == events;
  }

  /** Malformed payloads are skipped. */
  method EventOf<E>(frame: string, decode: string -> Option<E>) returns (event: seq<E>)
    ensures event == Decoded(Payload(frame), decode)
  {
    DecodedPayload(frame, decode);
    var line := DataLine(frame);
    if line.None? {
      return [];
    }
    var e := decode(line.value);
    event := if e.Some? then [e.value] else [];
  }

  lemma FirstFrame(buf: string, k: nat)
    requires k == Break(buf) && k < |buf|
    ensures Parsed(buf) == Payload(buf[..k]) + Parsed(buf[k + 2..])
    ensures Rest(buf) == Rest(buf[k + 2..])
  {
  }

  /** The reading loop: however the text is cut into chunks, the frames handed on are those of
      the whole text, in order, once each.  `onEvent` receives the payloads that decode. */
  method StreamSSE<E>(chunks: seq<string>, decode: string -> Option<E>) returns (events: seq<E>)
    ensures events == Decoded(Parsed(Concat(chunks)), decode)
  {
    events := [];
    var buf := "";
    for n := 0 to |chunks|
      invariant events == Decoded(Parsed(Concat(chunks[..n])), decode)
      invariant buf == Rest(Concat(chunks[..n]))
    {
      ghost var before := Concat(chunks[..n]);
      assert chunks[..n + 1][..n] == chunks[..n];
      ParsedAppend(before, chunks[n]);
      DecodedAppend(Parsed(before), Parsed(buf + chunks[n]), decode);
      var more;
      more, buf := DrainBuffer(buf + chunks[n], decode);
      events := events + more;
    }
    assert chunks[..|chunks|] == chunks;
  }

  lemma DecodedPayload<E>(frame: string, decode: string -> Option<E>)
    ensures Decoded(Payload(frame), decode) ==
            match DataLine(frame)
            case None => []
            case Some(p) => (match decode(p) case None => [] case Some(e) => [e])
  {
    if DataLine(frame).Some? {
      assert Payload(frame)[1..] == [];
    }
  }

  function Decoded<E>(payloads: seq<string>, decode: string -> Option<E>): seq<E> {
    if |payloads| == 0 then []
    else (match decode(payloads[0]) case None => [] case Some(e) => [e]) + Decoded(payloads[1..], decode)
  }

  lemma {:induction false} DecodedAppend<E>(a: seq<string>, b: seq<string>, decode: string -> Option<E>)
    ensures Decoded(a + b, decode) == Decoded(a, decode) + Decoded(b, decode)
    decreases |a|
  {
    if |a| == 0 {
      assert a + b == b;
    } else {
      assert (a + b)[1..] == a[1..] + b;
      DecodedAppend(a[1..], b, decode);
    }
  }

  // ---- printer against parser ----------------------------------------------

  predicate OneLine(s: string) { '\n' !in s }

  lemma {:induction false} BreakAfterLine(line: string, rest: string)
    requires OneLine(line)
    ensures Break(line + "\n\n" + rest) == |line|
    decreases |line|
  {
    var s := line + "\n\n" + rest;
    if |line| > 0 {
      assert s[0] == line[0] && s[1..] == line[1..] + "\n\n" + rest;
      BreakAfterLine(line[1..], rest);
    }
  }

  lemma {:induction false} LineEndWhole(s: string)
    requires OneLine(s)
    ensures LineEnd(s) == |s|
    decreases |s|
  {
    if |s| > 0 {
      LineEndWhole(s[1..]);
    }
  }

  lemma FrameParses(payload: string, rest: string)
    requires OneLine(payload)
    ensures Parsed(Frame(payload) + rest) == [payload] + Parsed(rest)
    ensures Rest(Frame(payload) + rest) == Rest(rest)
  {
    var line, s := PREFIX + payload, Frame(payload) + rest;
    assert s == line + "\n\n" + rest;
    BreakAfterLine(line, rest);
    LineEndWhole(line);
    assert s[..|line|] == line && s[|line| + 2..] == rest;
    assert line[..|line|] == line && line[|PREFIX|..|line|] == payload;
    assert Payload(line) == [payload];
  }

  lemma {:induction false} FramesParse(payloads: seq<string>)
    requires forall p <- payloads :: OneLine(p)
    ensures Parsed(Frames(payloads)) == payloads && Rest(Frames(payloads)) == ""
    decreases |payloads|
  {
    if |payloads| > 0 {
      FrameParses(payloads[0], Frames(payloads[1..]));
      FramesParse(payloads[1..]);
    }
  }

  /** A parsed payload never contains a line break. */
  lemma {:induction false} DataLineIsOneLine(frame: string)
    ensures DataLine(frame).Some? ==> OneLine(DataLine(frame).value)
    decreases |frame|
  {
    var k := LineEnd(frame);
    if !(PREFIX <= frame[..k]) && k < |frame| {
      DataLineIsOneLine(frame[k + 1..]);
    }
  }

  lemma {:induction false} ParsedAreOneLine(s: string)
    ensures forall p <- Parsed(s) :: OneLine(p)
    decreases |s|
  {
    var k := Break(s);
    if k < |s| {
      FirstFrame(s, k);
      DataLineIsOneLine(s[..k]);
      ParsedAreOneLine(s[k + 2..]);
    }
  }

  /** For every split of a replayed turn into chunks the parser hands on exactly the printed
      payloads and the final `done`, in order and once each -- if and only if no payload
      contains a line break. */
  lemma StreamRoundTrip(payloads: seq<string>, chunks: seq<string>)
    requires Concat(chunks) == Frames(payloads + [DONE])
    ensures Parsed(Concat(chunks)) == payloads + [DONE] <==> forall p <- payloads :: OneLine(p)
    ensures (forall p <- payloads :: OneLine(p)) ==> Rest(Concat(chunks)) == ""
  {
    if forall p <- payloads :: OneLine(p) {
      FramesParse(payloads + [DONE]);
    } else {
      ParsedAreOneLine(Concat(chunks));
      var p :| p in payloads && !OneLine(p);
      assert p in payloads + [DONE];
    }
  }
}
