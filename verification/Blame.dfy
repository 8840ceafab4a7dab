/**
 Reduction of `git blame --porcelain` to the one commit that brought in most of the blamed
 lines ("THE PORCELAIN FORMAT" in git-blame(1)): a header per line, the commit's metadata at
 its first appearance, and the code line behind a tab.
 */
module Blame {
  import opened Common
  import opened Sequences
  import Text
  import Decimal

  // ---- text to lines -------------------------------------------------------

  /** The line boundaries of `splitlines`. */
  predicate IsBreak(c: char) {
    '\n' <= c <= '\r' || '\U{1c}' <= c <= '\U{1e}' || c == '\U{85}' || c == '\U{2028}' || c == '\U{2029}'
  }

  predicate NoBreak(s: string) { forall k :: 0 <= k < |s| ==> !IsBreak(s[k]) }

  function BreakAt(s: string): (k: nat)
    ensures k <= |s| && (k < |s| ==> IsBreak(s[k]))
  {
    if |s| == 0 || IsBreak(s[0]) then 0 else 1 + BreakAt(s[1..])
  }

  function BreakWidth(s: string, k: nat): nat
    requires k < |s|
  {
    if s[k] == '\r' && k + 1 < |s| && s[k + 1] == '\n' then 2 else 1
  }

  function SplitLines(s: string): seq<string>
    decreases |s|
  {
    var k := BreakAt(s);
    if |s| == 0 then [] else if k == |s| then [s] else [s[..k]] + SplitLines(s[k + BreakWidth(s, k)..])
  }

  lemma {:induction false} BreakAtAppend(s: string, more: string)
    requires BreakAt(s) < |s|
    ensures BreakAt(s + more) == BreakAt(s)
    decreases |s|
  {
    if !IsBreak(s[0]) {
      assert (s + more)[1..] == s[1..] + more;
      BreakAtAppend(s[1..], more);
    } else {
      assert (s + more)[0] == s[0];
    }
  }

  lemma {:induction false} BreakAtNewline(s: string)
    ensures BreakAt(s + "\n") <= |s| && (NoBreak(s) ==> BreakAt(s + "\n") == |s|)
    decreases |s|
  {
    if |s| > 0 && !IsBreak(s[0]) {
      assert (s + "\n")[1..] == s[1..] + "\n";
      BreakAtNewline(s[1..]);
    }
  }

  lemma SplitFirst(s: string, k: nat, w: nat)
    requires |s| > 0 && k == BreakAt(s) && k < |s| && w == BreakWidth(s, k)
    ensures SplitLines(s) == [s[..k]] + SplitLines(s[k + w..])
  {
  }

  /** The first line of a text is the first line of its first newline-closed part. */
  lemma SplitHead(all: string, line: string, s: string, rest: string) returns (k: nat, n: nat)
    requires line == s + "\n" && all == line + rest
    ensures k < n <= |line|
    ensures SplitLines(line) == [line[..k]] + SplitLines(line[n..])
    ensures SplitLines(all) == [line[..k]] + SplitLines(all[n..])
  {
    k := BreakAt(line);
    BreakAtNewline(s);
    BreakAtAppend(line, rest);
    n := k + BreakWidth(line, k);
    SplitFirst(line, k, n - k);
    SplitFirst(all, k, n - k);
    SamePrefix(all, line, rest, k);
  }

  /** A newline closes a line whatever stands before it. */
  lemma {:induction false} SplitAtNewline(all: string, line: string, s: string, rest: string)
    requires line == s + "\n" && all == line + rest
    ensures SplitLines(all) == SplitLines(line) + SplitLines(rest)
    decreases |s|
  {
    var k, n := SplitHead(all, line, s, rest);
    SplitRest(all, line, s, rest, n);
    ConsAppend(SplitLines(all), SplitLines(line), line[..k], SplitLines(line[n..]), SplitLines(rest));
  }

  lemma {:induction false} SplitRest(all: string, line: string, s: string, rest: string, n: nat)
    requires line == s + "\n" && all == line + rest && 0 < n <= |line|
    ensures SplitLines(all[n..]) == SplitLines(line[n..]) + SplitLines(rest)
    decreases |s|, 0
  {
    if n == |line| {
      assert all[n..] == rest && line[n..] == "";
    } else {
      assert line[n..] == s[n..] + "\n" && all[n..] == line[n..] + rest;
      SplitAtNewline(all[n..], line[n..], s[n..], rest);
    }
  }

  lemma SplitPlainLine(all: string, s: string, rest: string)
    requires NoBreak(s) && all == s + "\n" + rest
    ensures SplitLines(all) == [s] + SplitLines(rest)
  {
    var line := s + "\n";
    BreakAtNewline(s);
    BreakAtAppend(line, rest);
    SplitFirst(all, |s|, 1);
    assert all[..|s|] == s && all[|s| + 1..] == rest;
  }

  // ---- one line ------------------------------------------------------------

  /** Up to the first space, and what follows it. */
  function Word(s: string): (w: string)
    ensures w <= s && ' ' !in w
    ensures |w| < |s| ==> s[|w|] == ' '
  {
    if |s| == 0 || s[0] == ' ' then "" else [s[0]] + Word(s[1..])
  }

  function After(s: string): string {
    if |Word(s)| < |s| then s[|Word(s)| + 1..] else ""
  }

  predicate IsHex(c: char) { '0' <= c <= '9' || 'a' <= c <= 'f' }

  predicate IsSha(s: string) { |s| == 40 && forall c <- s :: IsHex(c) }

  predicate IsNumber(s: string) { |s| > 0 && Decimal.AllDigits(s) }

  /** `<sha> <orig> <final> ...` */
  predicate IsHeader(line: string) {
    && IsSha(Word(line)) && |Word(line)| < |line|
    && var rest := After(line);
    && IsNumber(Word(rest)) && |Word(rest)| < |rest|
    && IsNumber(Word(After(rest)))
  }

  predicate IsCode(line: string) { |line| > 0 && line[0] == '\t' }

  datatype Key = Author | AuthorMail | AuthorTime | AuthorTz | Summary

  function KeyName(k: Key): string {
    match k
    case Author => "author"
    case AuthorMail => "author-mail"
    case AuthorTime => "author-time"
    case AuthorTz => "author-tz"
    case Summary => "summary"
  }

  function KeyOf(w: string): Option<Key> {
    if w == "author" then Some(Author)
    else if w == "author-mail" then Some(AuthorMail)
    else if w == "author-time" then Some(AuthorTime)
    else if w == "author-tz" then Some(AuthorTz)
    else if w == "summary" then Some(Summary)
    else None
  }

  type Info = map<Key, string>

  datatype Acc = Acc(commits: map<string, Info>, tally: map<string, nat>, current: Option<string>)

  predicate Consistent(acc: Acc) {
    acc.commits.Keys == acc.tally.Keys && (acc.current.Some? ==> acc.current.value in acc.commits)
  }

  /** A header: one more line of this commit, whose metadata follows if it is new. */
  function FeedHeader(acc: Acc, sha: string): (next: Acc)
    requires Consistent(acc)
    ensures Consistent(next)
  {
    Acc(if sha in acc.commits then acc.commits else acc.commits[sha := map[]],
        acc.tally[sha := 1 + if sha in acc.tally then acc.tally[sha] else 0],
        Some(sha))
  }

  /** A metadata line: the first value of a key stays. */
  function FeedValue(acc: Acc, key: Option<Key>, value: string): (next: Acc)
    requires Consistent(acc)
    ensures Consistent(next)
  {
    if acc.current.None? || key.None? || key.value in acc.commits[acc.current.value] then acc
    else
      var sha := acc.current.value;
      acc.(commits := acc.commits[sha := acc.commits[sha][key.value := Text.Strip(value)]])
  }

  function Feed(acc: Acc, line: string): (next: Acc)
    requires Consistent(acc)
    ensures Consistent(next)
  {
    if IsCode(line) then acc
    else if IsHeader(line) then FeedHeader(acc, Word(line))
    else FeedValue(acc, KeyOf(Word(line)), After(line))
  }

  function FeedAll(acc: Acc, lines: seq<string>): (next: Acc)
    requires Consistent(acc)
    ensures Consistent(next)
    decreases |lines|
  {
    if |lines| == 0 then acc else FeedAll(Feed(acc, lines[0]), lines[1..])
  }

  lemma {:induction false} FeedAppend(acc: Acc, a: seq<string>, b: seq<string>)
    requires Consistent(acc)
    ensures FeedAll(acc, a + b) == FeedAll(FeedAll(acc, a), b)
    decreases |a|
  {
    if |a| == 0 {
      assert a + b == b;
    } else {
      assert (a + b)[1..] == a[1..] + b;
      FeedAppend(Feed(acc, a[0]), a[1..], b);
    }
  }

  lemma FeedOne(acc: Acc, line: string)
    requires Consistent(acc)
    ensures FeedAll(acc, [line]) == Feed(acc, line)
  {
    assert FeedAll(Feed(acc, line), [line][1..]) == Feed(acc, line);
  }

  const EMPTY: Acc := Acc(map[], map[], None)

  // ---- the verdict ---------------------------------------------------------

  const UNCOMMITTED: string := "0000000000000000000000000000000000000000"

  function Lookup(info: Info, key: Key): string { if key in info then info[key] else "" }

  /** `int(...)`: digits with an optional sign, or an error. */
  function ToInt(s: string): Option<int> {
    if IsNumber(s) then Some(Decimal.Parse(s))
    else if |s| > 0 && s[0] == '-' && IsNumber(s[1..]) then Some(-(Decimal.Parse(s[1..]) as int))
    else if |s| > 0 && s[0] == '+' && IsNumber(s[1..]) then Some(Decimal.Parse(s[1..]))
    else None
  }

  /** The author time a commit is compared by; a missing one is zero, a malformed one an error. */
  function TimeOf(info: Info): Option<int> {
    var t := Lookup(info, AuthorTime);
    if t == "" then Some(0) else ToInt(t)
  }

  /** Code point order. */
  predicate Leq(a: string, b: string) {
    |a| == 0 || (|b| > 0 && (a[0] < b[0] || (a[0] == b[0] && Leq(a[1..], b[1..]))))
  }

  lemma {:induction false} LeqTotal(a: string, b: string)
    ensures Leq(a, b) || Leq(b, a)
    ensures Leq(a, b) && Leq(b, a) ==> a == b
    decreases |a|
  {
    if |a| > 0 && |b| > 0 && a[0] == b[0] {
      LeqTotal(a[1..], b[1..]);
      assert a == [a[0]] + a[1..] && b == [b[0]] + b[1..];
    }
  }

  lemma {:induction false} LeqTransitive(a: string, b: string, c: string)
    requires Leq(a, b) && Leq(b, c)
    ensures Leq(a, c)
    decreases |a|
  {
    if |a| > 0 && a[0] == b[0] == c[0] {
      LeqTransitive(a[1..], b[1..], c[1..]);
    }
  }

  datatype Rank = Rank(lines: nat, time: int, sha: string)

  /** Tuple order: line count, then author time, then sha. */
  predicate RankLeq(a: Rank, b: Rank) {
    || a.lines < b.lines
    || (a.lines == b.lines && (a.time < b.time || (a.time == b.time && Leq(a.sha, b.sha))))
  }

  /** Code point order, strictly: the first difference decides, and a prefix comes first. */
  ghost predicate Earlier(a: string, b: string) {
    exists k: nat :: k <= |a| && k < |b| && a[..k] == b[..k] && (k == |a| || a[k] < b[k])
  }

  lemma SameStart(a: string, b: string, k: nat)
    requires 0 < k <= |a| && k <= |b| && a[..k] == b[..k]
    ensures a[0] == b[0]
  {
    assert a[0] == a[..k][0];
  }

  lemma EarlierPast(a: string, b: string)
    requires |a| > 0 && |b| > 0 && a[0] == b[0]
    ensures Earlier(a[1..], b[1..]) ==> Earlier(a, b)
  {
    if Earlier(a[1..], b[1..]) {
      var k: nat :| k <= |a| - 1 && k < |b| - 1 && a[1..][..k] == b[1..][..k]
                    && (k == |a| - 1 || a[1..][k] < b[1..][k]);
      assert a[..k + 1] == [a[0]] + a[1..][..k] && b[..k + 1] == [b[0]] + b[1..][..k];
    }
  }

  lemma EarlierBack(a: string, b: string)
    requires |a| > 0 && |b| > 0 && a[0] == b[0]
    ensures Earlier(a, b) ==> Earlier(a[1..], b[1..])
  {
    if Earlier(a, b) {
      var k: nat :| k <= |a| && k < |b| && a[..k] == b[..k] && (k == |a| || a[k] < b[k]);
      assert a[1..][..k - 1] == a[..k][1..] && b[1..][..k - 1] == b[..k][1..];
    }
  }

  lemma EarlierAtOnce(a: string, b: string)
    requires |a| > 0 && |b| > 0 && a[0] != b[0]
    ensures Earlier(a, b) <==> a[0] < b[0]
  {
    assert a[..0] == b[..0];
    if Earlier(a, b) {
      var k: nat :| k <= |a| && k < |b| && a[..k] == b[..k] && (k == |a| || a[k] < b[k]);
      if k > 0 {
        SameStart(a, b, k);
      }
    }
  }

  lemma {:induction false} LeqIsEarlier(a: string, b: string)
    ensures Leq(a, b) <==> a == b || Earlier(a, b)
    decreases |a|
  {
    if |a| == 0 {
      assert |b| > 0 ==> a[..0] == b[..0];
    } else if |b| > 0 && a[0] == b[0] {
      LeqIsEarlier(a[1..], b[1..]);
      EarlierPast(a, b);
      EarlierBack(a, b);
      assert a == [a[0]] + a[1..] && b == [b[0]] + b[1..];
    } else if |b| > 0 {
      EarlierAtOnce(a, b);
    }
  }

  /** Fewer lines; as many and an earlier time; the same time and an earlier name. */
  ghost predicate Below(a: Rank, b: Rank) {
    || a.lines < b.lines
    || (a.lines == b.lines && a.time < b.time)
    || (a.lines == b.lines && a.time == b.time && Earlier(a.sha, b.sha))
  }

  lemma LeqIsBelow(a: Rank, b: Rank)
    ensures RankLeq(a, b) <==> a == b || Below(a, b)
  {
    LeqIsEarlier(a.sha, b.sha);
  }

  lemma RankTransitive(a: Rank, b: Rank, c: Rank)
    requires RankLeq(a, b) && RankLeq(b, c)
    ensures RankLeq(a, c)
  {
    if a.sha != b.sha && b.sha != c.sha && Leq(a.sha, b.sha) && Leq(b.sha, c.sha) {
      LeqTransitive(a.sha, b.sha, c.sha);
    }
  }

  function RankOf(acc: Acc, sha: string): Rank
    requires Consistent(acc) && sha in acc.tally && TimeOf(acc.commits[sha]).Some?
  {
    Rank(acc.tally[sha], TimeOf(acc.commits[sha]).value, sha)
  }

  function StripAngles(s: string): string {
    if |s| > 0 && (s[0] == '<' || s[0] == '>') then StripAngles(s[1..])
    else if |s| > 0 && (s[|s| - 1] == '<' || s[|s| - 1] == '>') then StripAngles(s[..|s| - 1])
    else s
  }

  function OrNone(s: string): Option<string> { if s == "" then None else Some(s) }

  /** `Raised`: an author time that is no integer. `time` and `tz` go through the date
      formatter, which is not part of this model. */
  datatype Outcome =
    | Raised
    | Nothing
    | Found(commit: string, author: Option<string>, email: Option<string>, message: Option<string>,
            time: string, tz: string)

  function Describe(sha: string, info: Info): Outcome {
    Found(sha, OrNone(Lookup(info, Author)), OrNone(StripAngles(Lookup(info, AuthorMail))),
          OrNone(Lookup(info, Summary)), Lookup(info, AuthorTime),
          if AuthorTz in info then info[AuthorTz] else "+0000")
  }

  /** A text that is missing or empty is not given. */
  predicate Gives(shown: Option<string>, claim: Option<string>) {
    shown == if claim == Some("") then None else claim
  }

  predicate IsAngle(c: char) { c == '<' || c == '>' }

  /** `s` is `bare` with only angle brackets around it. */
  ghost predicate Bracketed(s: string, bare: string) {
    exists a: string, b: string :: s == a + bare + b && forall c <- a + b :: IsAngle(c)
  }

  /** `bare` is `s` without the angle brackets around it. */
  ghost predicate Unbracketed(s: string, bare: string) {
    Bracketed(s, bare) && (|bare| > 0 ==> !IsAngle(bare[0]) && !IsAngle(bare[|bare| - 1]))
  }

  lemma BracketLeft(c: char, s: string, bare: string)
    requires IsAngle(c) && Bracketed(s, bare)
    ensures Bracketed([c] + s, bare)
  {
    var a: string, b: string :| s == a + bare + b && forall x <- a + b :: IsAngle(x);
    assert [c] + s == ([c] + a) + bare + b;
    assert forall x <- ([c] + a) + b :: x == c || x in a + b;
  }

  lemma BracketRight(s: string, c: char, bare: string)
    requires IsAngle(c) && Bracketed(s, bare)
    ensures Bracketed(s + [c], bare)
  {
    var a: string, b: string :| s == a + bare + b && forall x <- a + b :: IsAngle(x);
    assert s + [c] == a + bare + (b + [c]);
    assert forall x <- a + (b + [c]) :: x == c || x in a + b;
  }

  lemma {:induction false} StripUnbrackets(s: string)
    ensures Unbracketed(s, StripAngles(s))
    decreases |s|
  {
    if |s| > 0 && IsAngle(s[0]) {
      StripUnbrackets(s[1..]);
      BracketLeft(s[0], s[1..], StripAngles(s));
      assert s == [s[0]] + s[1..];
    } else if |s| > 0 && IsAngle(s[|s| - 1]) {
      var n := |s| - 1;
      StripUnbrackets(s[..n]);
      BracketRight(s[..n], s[n], StripAngles(s));
      assert s == s[..n] + [s[n]];
    } else {
      var none := "";
      assert s == none + s + none && forall c <- none + none :: IsAngle(c);
    }
  }

  /** The answer holds, field by field, what is claimed of the commit. */
  ghost predicate Tells(out: Outcome, sha: string, claim: Key -> Option<string>) {
    && out.Found? && out.commit == sha
    && Gives(out.author, claim(Author)) && Gives(out.message, claim(Summary))
    && (exists bare: string :: Gives(out.email, Some(bare)) && Unbracketed(OrEmpty(claim(AuthorMail)), bare))
    && out.time == OrEmpty(claim(AuthorTime))
    && out.tz == (if claim(AuthorTz).Some? then claim(AuthorTz).value else "+0000")
  }

  function OrEmpty(claim: Option<string>): string { if claim.Some? then claim.value else "" }

  function Claim(info: Info, key: Key): Option<string> { if key in info then Some(info[key]) else None }

  lemma DescribeTells(sha: string, info: Info)
    ensures Tells(Describe(sha, info), sha, key => Claim(info, key))
  {
    StripUnbrackets(Lookup(info, AuthorMail));
    assert Gives(Describe(sha, info).email, Some(StripAngles(Lookup(info, AuthorMail))));
  }

  /** The number a signed numeral stands for. */
  ghost predicate Signed(s: string, n: int) { exists d: string :: IsNumber(d) && Numeral(s, d, n) }

  predicate Numeral(s: string, d: string, n: int)
    requires IsNumber(d)
  {
    var v: int := Decimal.Parse(d);
    ((s == d || s == "+" + d) && n == v) || (s == "-" + d && n == -v)
  }

  lemma SignedIs(s: string, n: int)
    ensures ToInt(s) == Some(n) <==> Signed(s, n)
  {
    assert |s| > 0 ==> s == [s[0]] + s[1..];
    if ToInt(s) == Some(n) {
      var d := if IsNumber(s) then s else s[1..];
      assert IsNumber(d) && Numeral(s, d, n);
    }
    if Signed(s, n) {
      var d :| IsNumber(d) && Numeral(s, d, n);
      if s != d {
        assert s[1..] == d && s[0] in s;
      }
    }
  }

  /** The time compared: none or an empty one is zero, and only a signed numeral is a number. */
  lemma TimeSays(info: Info, t: int)
    ensures TimeOf(info) == Some(t) <==>
            if OrEmpty(Claim(info, AuthorTime)) == "" then t == 0 else Signed(info[AuthorTime], t)
  {
    SignedIs(Lookup(info, AuthorTime), t);
  }

  predicate Committed(acc: Acc, sha: string) { sha in acc.tally && sha != UNCOMMITTED }

  /** What the reduction must answer for the parsed blame. */
  ghost predicate Answers(acc: Acc, out: Outcome)
    requires Consistent(acc)
  {
    match out
    case Raised => exists sha :: Committed(acc, sha) && TimeOf(acc.commits[sha]).None?
    case Nothing => forall sha :: !Committed(acc, sha)
    case Found(best, _, _, _, _, _) =>
      && Committed(acc, best) && Tells(out, best, key => Claim(acc.commits[best], key))
      && (forall sha :: Committed(acc, sha) ==>
            TimeOf(acc.commits[sha]).Some? && TimeOf(acc.commits[best]).Some?
                && (sha == best || Below(RankOf(acc, sha), RankOf(acc, best))))
  }

  method ParseBlamePorcelain(text: string) returns (out: Outcome)
    ensures Answers(FeedAll(EMPTY, SplitLines(text)), out)
  {
    var lines := SplitLines(text);
    var commits: map<string, Info>, tally: map<string, nat> := map[], map[];
    var current: Option<string> := None;
    for k := 0 to |lines|
      invariant Consistent(Acc(commits, tally, current))
      invariant Acc(commits, tally, current) == FeedAll(EMPTY, lines[..k])
    {
      var raw := lines[k];
      ghost var acc := Acc(commits, tally, current);
      FeedAppend(EMPTY, lines[..k], [raw]);
      assert lines[..k + 1] == lines[..k] + [raw];
      FeedOne(acc, raw);
      if raw != "" && raw[0] == '\t' {
        continue;
      }
      if IsHeader(raw) {
        var sha := Word(raw);
        current := Some(sha);
        tally := tally[sha := (if sha in tally then tally[sha] else 0) + 1];
        if sha !in commits {
          var fresh_: Info := map[];
          commits := commits[sha := fresh_];
        }
        continue;
      }
      if current.None? {
        continue;
      }
      var key, value := KeyOf(Word(raw)), After(raw);
      if key.Some? {
        var info := commits[current.value];
        if key.value !in info {
          commits := commits[current.value := info[key.value := Text.Strip(value)]];
        }
      }
    }
    assert lines[..|lines|] == lines;
    out := Best(Acc(commits, tally, current));
  }

  /** `max` over the candidates. */
  method Best(acc: Acc) returns (out: Outcome)
    requires Consistent(acc)
    ensures Answers(acc, out)
  {
    var todo := acc.tally.Keys - {UNCOMMITTED};
    var best: Option<Rank> := None;
    while todo != {}
      invariant todo <= acc.tally.Keys - {UNCOMMITTED}
      invariant forall sha :: Committed(acc, sha) && sha !in todo ==>
                  && TimeOf(acc.commits[sha]).Some?
                  && best.Some? && Committed(acc, best.value.sha)
                  && TimeOf(acc.commits[best.value.sha]).Some? && best.value == RankOf(acc, best.value.sha)
                  && RankLeq(RankOf(acc, sha), best.value)
      invariant best.Some? ==> Committed(acc, best.value.sha) && best.value.sha !in todo
      decreases |todo|
    {
      var sha :| sha in todo;
      var time := TimeOf(acc.commits[sha]);
      if time.None? {
        assert Committed(acc, sha);
        return Raised;
      }
      var rank := Rank(acc.tally[sha], time.value, sha);
      ghost var before, was := todo, best;
      todo := todo - {sha};
      LeqTotal(sha, if best.Some? then best.value.sha else sha);
      if best.None? || RankLeq(best.value, rank) {
        best := Some(rank);
      }
      forall s | Committed(acc, s) && s !in todo
        ensures TimeOf(acc.commits[s]).Some? && RankLeq(RankOf(acc, s), best.value)
      {
        if s == sha {
          LeqTotal(sha, sha);
        } else {
          assert s !in before;
          if best != was {
            RankTransitive(RankOf(acc, s), was.value, rank);
          }
        }
      }
    }
    if best.None? {
      return Nothing;
    }
    var sha := best.value.sha;
    out := Describe(sha, acc.commits[sha]);
    DescribeTells(sha, acc.commits[sha]);
    forall s | Committed(acc, s) && s != sha
      ensures Below(RankOf(acc, s), RankOf(acc, sha))
    {
      LeqIsBelow(RankOf(acc, s), best.value);
    }
  }
}
