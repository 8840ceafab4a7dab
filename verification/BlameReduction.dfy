/**
 What the reduction answers, for any content of metadata and code.  Every piece that is no
 header is read under the last header before it, forged or not; those pieces decide a
 commit's metadata, and with it whether the reduction fails and what it describes.
 */
module BlameReduction {
  import opened Common
  import opened Sequences
  import opened Blame
  import opened BlamePorcelain
  import opened BlameMetadata
  import Text
  import Decimal

  // ---- who a piece is read under -------------------------------------------

  /** The commit of the last header. */
  function Current(ls: seq<string>): Option<string> {
    if |ls| == 0 then None
    else if IsHeader(ls[|ls| - 1]) then Some(Word(ls[|ls| - 1]))
    else Current(ls[..|ls| - 1])
  }

  /** The pieces read while a commit is the current one. */
  function Attributed(ls: seq<string>, sha: string): seq<string> {
    if |ls| == 0 then []
    else
      var front, last := ls[..|ls| - 1], ls[|ls| - 1];
      Attributed(front, sha) + if !IsHeader(last) && Current(front) == Some(sha) then [last] else []
  }

  ghost predicate ReadsAt(acc: Acc, ls: seq<string>, sha: string) {
    if sha in acc.commits then acc.commits[sha] == ReadInfo(map[], Attributed(ls, sha)) else Attributed(ls, sha) == []
  }

  ghost predicate Reads(acc: Acc, ls: seq<string>) {
    Consistent(acc) && acc.current == Current(ls) && forall sha :: ReadsAt(acc, ls, sha)
  }

  lemma AttributedSnoc(ls: seq<string>, l: string, sha: string)
    ensures !IsHeader(l) && Current(ls) == Some(sha) ==> Attributed(ls + [l], sha) == Attributed(ls, sha) + [l]
    ensures IsHeader(l) || Current(ls) != Some(sha) ==> Attributed(ls + [l], sha) == Attributed(ls, sha)
    ensures Current(ls + [l]) == if IsHeader(l) then Some(Word(l)) else Current(ls)
  {
    assert (ls + [l])[..|ls + [l]| - 1] == ls;
  }

  lemma ReadsHeader(acc: Acc, ls: seq<string>, l: string)
    requires Reads(acc, ls) && IsHeader(l)
    ensures Reads(FeedHeader(acc, Word(l)), ls + [l])
  {
    AttributedSnoc(ls, l, "");
    forall sha
      ensures ReadsAt(FeedHeader(acc, Word(l)), ls + [l], sha)
    {
      AttributedSnoc(ls, l, sha);
      assert ReadsAt(acc, ls, sha);
    }
  }

  lemma {:induction false} ReadInfoSnoc(info: Info, pieces: seq<string>, l: string)
    ensures ReadInfo(info, pieces + [l]) == Noted(ReadInfo(info, pieces), l)
  {
    ReadInfoAppend(info, pieces, [l]);
    assert [l][1..] == [];
  }

  /** A piece that is no header changes the metadata of the current commit alone. */
  lemma FeedPiece(acc: Acc, l: string)
    requires Consistent(acc) && !IsHeader(l)
    ensures var next := Feed(acc, l);
            && Consistent(next) && next.current == acc.current && next.commits.Keys == acc.commits.Keys
            && forall sha <- acc.commits ::
                 next.commits[sha] == if acc.current == Some(sha) then Noted(acc.commits[sha], l) else acc.commits[sha]
  {
  }

  lemma ReadsPiece(acc: Acc, ls: seq<string>, l: string)
    requires Reads(acc, ls) && !IsHeader(l)
    ensures Reads(Feed(acc, l), ls + [l])
  {
    AttributedSnoc(ls, l, "");
    FeedPiece(acc, l);
    forall sha
      ensures ReadsAt(Feed(acc, l), ls + [l], sha)
    {
      AttributedSnoc(ls, l, sha);
      assert ReadsAt(acc, ls, sha);
      ReadInfoSnoc(map[], Attributed(ls, sha), l);
    }
  }

  /** Any lines: the parser's metadata of a commit is what its attributed pieces claim first. */
  lemma {:induction false} FeedReads(ls: seq<string>)
    ensures Reads(FeedAll(EMPTY, ls), ls)
    decreases |ls|
  {
    if |ls| > 0 {
      var front, l := ls[..|ls| - 1], ls[|ls| - 1];
      assert ls == front + [l];
      FeedReads(front);
      FeedAppend(EMPTY, front, [l]);
      FeedOne(FeedAll(EMPTY, front), l);
      if IsHeader(l) {
        HeaderIsNoCode(l);
        ReadsHeader(FeedAll(EMPTY, front), front, l);
      } else {
        ReadsPiece(FeedAll(EMPTY, front), front, l);
      }
    }
  }

  predicate Positive(acc: Acc) { forall sha <- acc.tally :: acc.tally[sha] > 0 }

  lemma {:induction false} FeedPositive(acc: Acc, ls: seq<string>)
    requires Consistent(acc) && Positive(acc)
    ensures Positive(FeedAll(acc, ls))
    decreases |ls|
  {
    if |ls| > 0 {
      FeedPositive(Feed(acc, ls[0]), ls[1..]);
    }
  }

  // ---- the reduction -------------------------------------------------------

  /** Lines a commit is credited with: its own and those forged for it. */
  function Credit(h: History, lines: seq<Blamed>, sha: string): nat
    requires Proper(h, lines)
  {
    Count(lines, sha) + Forged(h, lines, sha)
  }

  function Given(h: History, lines: seq<Blamed>, sha: string): seq<string>
    requires Proper(h, lines)
  {
    Attributed(ReadAll(h, lines), sha)
  }

  function InfoGiven(h: History, lines: seq<Blamed>, sha: string): Info
    requires Proper(h, lines)
  {
    ReadInfo(map[], Given(h, lines, sha))
  }

  function TimeGiven(h: History, lines: seq<Blamed>, sha: string): Option<int>
    requires Proper(h, lines)
  {
    TimeOf(InfoGiven(h, lines, sha))
  }

  predicate Candidate(h: History, lines: seq<Blamed>, sha: string)
    requires Proper(h, lines)
  {
    sha != UNCOMMITTED && Credit(h, lines, sha) > 0
  }

  /** The reduction of the printed blame may answer `out`. */
  ghost predicate Reduces(h: History, lines: seq<Blamed>, out: Outcome)
    requires Proper(h, lines)
  {
    Answers(FeedAll(EMPTY, SplitLines(Print(h, lines))), out)
  }

  lemma CandidateIs(h: History, lines: seq<Blamed>, acc: Acc, sha: string)
    requires Proper(h, lines) && acc == FeedAll(EMPTY, SplitLines(Print(h, lines)))
    ensures Consistent(acc) && (Committed(acc, sha) <==> Candidate(h, lines, sha))
    ensures Candidate(h, lines, sha) ==>
              && sha in acc.tally && acc.tally[sha] == Credit(h, lines, sha)
              && sha in acc.commits && acc.commits[sha] == InfoGiven(h, lines, sha)
  {
    TallyIsCountPlusForged(h, lines, sha);
    SplitPrint(h, lines);
    FeedReads(ReadAll(h, lines));
    FeedPositive(EMPTY, ReadAll(h, lines));
    assert ReadsAt(acc, ReadAll(h, lines), sha);
  }

  ghost predicate Unreadable(h: History, lines: seq<Blamed>)
    requires Proper(h, lines)
  {
    exists sha :: Candidate(h, lines, sha) && TimeGiven(h, lines, sha).None?
  }

  function RankGiven(h: History, lines: seq<Blamed>, sha: string): Rank
    requires Proper(h, lines) && TimeGiven(h, lines, sha).Some?
  {
    Rank(Credit(h, lines, sha), TimeGiven(h, lines, sha).value, sha)
  }

  /** The candidate above all others, told field by field as first claimed under it. */
  ghost predicate IsBest(h: History, lines: seq<Blamed>, out: Outcome)
    requires Proper(h, lines)
  {
    && out.Found? && Candidate(h, lines, out.commit)
    && Tells(out, out.commit, key => FirstClaim(Given(h, lines, out.commit), key))
    && TimeGiven(h, lines, out.commit).Some?
    && forall sha :: Candidate(h, lines, sha) && sha != out.commit ==>
         TimeGiven(h, lines, sha).Some? && Below(RankGiven(h, lines, sha), RankGiven(h, lines, out.commit))
  }

  /** For any content of metadata and code, forged or not: the reduction fails exactly when the
      author time given for a candidate is no number, is empty exactly when there is no
      candidate, and is the best candidate otherwise. */
  lemma BlameReduces(h: History, lines: seq<Blamed>, out: Outcome)
    requires Proper(h, lines) && Reduces(h, lines, out)
    ensures out.Raised? <==> Unreadable(h, lines)
    ensures out.Nothing? <==> forall sha :: !Candidate(h, lines, sha)
    ensures out.Found? ==> IsBest(h, lines, out)
  {
    var acc := FeedAll(EMPTY, SplitLines(Print(h, lines)));
    forall sha
      ensures Committed(acc, sha) <==> Candidate(h, lines, sha)
      ensures Candidate(h, lines, sha) ==>
                && sha in acc.tally && acc.tally[sha] == Credit(h, lines, sha)
                && sha in acc.commits && acc.commits[sha] == InfoGiven(h, lines, sha)
    {
      CandidateIs(h, lines, acc, sha);
    }
    match out {
      case Raised =>
        var sha :| Committed(acc, sha) && TimeOf(acc.commits[sha]).None?;
        assert Candidate(h, lines, sha) && TimeGiven(h, lines, sha).None?;
      case Nothing =>
      case Found(best, _, _, _, _, _) =>
        assert Committed(acc, best);
        TellsGiven(h, lines, out, best);
    }
  }

  lemma ClaimGiven(h: History, lines: seq<Blamed>, sha: string, key: Key)
    requires Proper(h, lines)
    ensures Claim(InfoGiven(h, lines, sha), key) == FirstClaim(Given(h, lines, sha), key)
  {
    ReadInfoAt(map[], Given(h, lines, sha), key);
  }

  lemma TellsGiven(h: History, lines: seq<Blamed>, out: Outcome, sha: string)
    requires Proper(h, lines) && Tells(out, sha, key => Claim(InfoGiven(h, lines, sha), key))
    ensures Tells(out, sha, key => FirstClaim(Given(h, lines, sha), key))
  {
    forall key: Key
      ensures Claim(InfoGiven(h, lines, sha), key) == FirstClaim(Given(h, lines, sha), key)
    {
      ClaimGiven(h, lines, sha, key);
    }
  }

  lemma GivenTells(h: History, lines: seq<Blamed>, out: Outcome, sha: string)
    requires Proper(h, lines) && Tells(out, sha, key => FirstClaim(Given(h, lines, sha), key))
    ensures Tells(out, sha, key => Claim(InfoGiven(h, lines, sha), key))
  {
    forall key: Key
      ensures Claim(InfoGiven(h, lines, sha), key) == FirstClaim(Given(h, lines, sha), key)
    {
      ClaimGiven(h, lines, sha, key);
    }
  }

  // ---- whose metadata it is ------------------------------------------------

  lemma GivenAt(h: History, lines: seq<Blamed>, sha: string, key: Key)
    requires Proper(h, lines)
    ensures var info, claim := InfoGiven(h, lines, sha), FirstClaim(Given(h, lines, sha), key);
            if claim.Some? then key in info && info[key] == claim.value else key !in info
  {
    ReadInfoAt(map[], Given(h, lines, sha), key);
  }

  /** For any content: what is read of a commit is its own metadata if and only if, for every
      key, the first piece attributed to it that starts with the key carries its own value. */
  lemma OwnExactly(h: History, lines: seq<Blamed>, sha: string)
    requires Proper(h, lines) && sha in h
    ensures IsOwn(InfoGiven(h, lines, sha), h[sha]) <==>
            forall key: Key :: FirstSays(Given(h, lines, sha), key, Text.Strip(Own(h[sha], key)))
  {
    forall key: Key
      ensures FirstSays(Given(h, lines, sha), key, Text.Strip(Own(h[sha], key))) <==>
              key in InfoGiven(h, lines, sha) && InfoGiven(h, lines, sha)[key] == Text.Strip(Own(h[sha], key))
    {
      GivenAt(h, lines, sha, key);
      FirstClaimSays(Given(h, lines, sha), key, Text.Strip(Own(h[sha], key)));
    }
  }

  /** What is read under a header. */
  lemma {:induction false} AttributedMore(ls: seq<string>, cur: string, pieces: seq<string>, sha: string)
    requires Current(ls) == Some(cur) && NoHeader(pieces)
    ensures Current(ls + pieces) == Some(cur)
    ensures cur == sha ==> Attributed(ls + pieces, sha) == Attributed(ls, sha) + pieces
    ensures cur != sha ==> Attributed(ls + pieces, sha) == Attributed(ls, sha)
    decreases |pieces|
  {
    if |pieces| == 0 {
      assert ls + pieces == ls;
    } else {
      var front, l := pieces[..|pieces| - 1], pieces[|pieces| - 1];
      assert pieces == front + [l];
      AttributedMore(ls, cur, front, sha);
      Associative(ls, front, [l]);
      AttributedSnoc(ls + front, l, sha);
      Associative(Attributed(ls, sha), front, [l]);
    }
  }

  lemma AttributedBlock(ls: seq<string>, header: string, pieces: seq<string>, sha: string)
    requires IsHeader(header) && NoHeader(pieces)
    ensures Word(header) == sha ==> Attributed(ls + ([header] + pieces), sha) == Attributed(ls, sha) + pieces
    ensures Word(header) != sha ==> Attributed(ls + ([header] + pieces), sha) == Attributed(ls, sha)
  {
    AttributedSnoc(ls, header, sha);
    AttributedMore(ls + [header], Word(header), pieces, sha);
    Associative(ls, [header], pieces);
  }

  /** The pieces of one blamed line. */
  function Block(h: History, b: Blamed, first: bool): seq<string>
    requires b.sha in h
  {
    (if first then MetaPieces(h[b.sha]) else []) + CodePieces(b)
  }

  lemma GivenNext(read: seq<string>, h: History, b: Blamed, first: bool, sha: string)
    requires b.sha in h && IsSha(b.sha) && NoHeader(CodePieces(b)) && NoHeader(MetaPieces(h[b.sha]))
    ensures b.sha == sha ==> Attributed(read + ReadOne(h, b, first), sha) == Attributed(read, sha) + Block(h, b, first)
    ensures b.sha != sha ==> Attributed(read + ReadOne(h, b, first), sha) == Attributed(read, sha)
  {
    HeaderIsHeader(b);
    Associative([Header(b)], if first then MetaPieces(h[b.sha]) else [], CodePieces(b));
    AttributedBlock(read, Header(b), Block(h, b, first), sha);
  }

  /** Where nothing poses as a header, a commit is given its own printed metadata first. */
  lemma {:induction false} MetadataFirst(h: History, lines: seq<Blamed>, sha: string)
    requires Proper(h, lines) && NothingPoses(h, lines)
    ensures Seen(lines, sha) ==> sha in h && MetaPieces(h[sha]) <= Given(h, lines, sha)
    ensures !Seen(lines, sha) ==> Given(h, lines, sha) == []
    decreases |lines|
  {
    if |lines| > 0 {
      var k := |lines| - 1;
      assert lines[k] in lines;
      MetadataFirst(h, lines[..k], sha);
      GivenNext(ReadAll(h, lines[..k]), h, lines[k], !Seen(lines[..k], lines[k].sha), sha);
    }
  }

  lemma PrefixClaims(meta: seq<string>, given: seq<string>, key: Key)
    requires meta <= given && FirstClaim(meta, key).Some?
    ensures FirstClaim(given, key) == FirstClaim(meta, key)
  {
    assert given == meta + given[|meta|..];
    ClaimAppend(meta, given[|meta|..], key);
  }

  lemma PlainIsOwn(h: History, lines: seq<Blamed>, sha: string)
    requires Proper(h, lines) && NothingPoses(h, lines) && Seen(lines, sha) && sha in h && PlainCommit(h[sha])
    ensures IsOwn(InfoGiven(h, lines, sha), h[sha])
  {
    MetadataFirst(h, lines, sha);
    forall key: Key
      ensures key in InfoGiven(h, lines, sha) && InfoGiven(h, lines, sha)[key] == Text.Strip(Own(h[sha], key))
    {
      PlainClaimsOwn(h[sha], key);
      PrefixClaims(MetaPieces(h[sha]), Given(h, lines, sha), key);
      GivenAt(h, lines, sha, key);
    }
  }

  lemma OwnTime(c: Commit, info: Info)
    requires IsOwn(info, c)
    ensures TimeOf(info) == Some(c.time)
  {
    var s := Decimal.Print(c.time);
    Decimal.ParsePrint(c.time);
    DigitsPlain(c.time);
    assert s[0] in s && s[|s| - 1] in s;
    StripKeeps(s);
    assert info[AuthorTime] == Text.Strip(Own(c, AuthorTime));
  }

  ghost predicate AllPlain(h: History, lines: seq<Blamed>)
    requires Proper(h, lines)
  {
    forall b <- lines :: PlainCommit(h[b.sha])
  }

  lemma PlainCandidate(h: History, lines: seq<Blamed>, sha: string)
    requires Proper(h, lines) && NothingPoses(h, lines) && AllPlain(h, lines)
    ensures Candidate(h, lines, sha) <==> Seen(lines, sha) && sha != UNCOMMITTED
    ensures Seen(lines, sha) ==>
              && sha in h && Credit(h, lines, sha) == Count(lines, sha)
              && IsOwn(InfoGiven(h, lines, sha), h[sha]) && TimeGiven(h, lines, sha) == Some(h[sha].time)
  {
    NothingForged(h, lines, sha);
    if Seen(lines, sha) {
      var b := SeenMember(lines, sha);
      PlainIsOwn(h, lines, sha);
      OwnTime(h[sha], InfoGiven(h, lines, sha));
    }
  }

  /** The commit really brought in most of the committed lines, the later one among equals. */
  ghost predicate TrulyBest(h: History, lines: seq<Blamed>, best: string)
    requires Proper(h, lines)
  {
    && Seen(lines, best) && best != UNCOMMITTED && best in h
    && forall b <- lines :: b.sha != UNCOMMITTED && b.sha != best ==>
         Below(Rank(Count(lines, b.sha), h[b.sha].time, b.sha), Rank(Count(lines, best), h[best].time, best))
  }

  /** The answer holds what the commit says, field by field. */
  ghost predicate Truthful(out: Outcome, c: Commit) {
    && out.Found?
    && Gives(out.author, Some(Text.Strip(c.author))) && Gives(out.message, Some(Text.Strip(c.summary)))
    && (exists bare: string :: Gives(out.email, Some(bare)) && Unbracketed(c.mail, bare))
    && out.time == Decimal.Print(c.time) && out.tz == Text.Strip(c.tz)
  }

  lemma UnbracketInner(mail: string, bare: string)
    requires Unbracketed("<" + mail + ">", bare)
    ensures Unbracketed(mail, bare)
  {
    var s := "<" + mail + ">";
    var a, b :| s == a + bare + b && (forall c <- a + b :: IsAngle(c));
    if bare == "" {
      assert s == a + b;
      assert mail == mail + bare + "";
      forall c <- mail + ""
        ensures IsAngle(c)
      {
        assert c in s;
      }
    } else {
      OuterAngles(s, a, bare, b);
      assert mail == s[1..|s| - 1] == a[1..] + bare + b[..|b| - 1];
      assert forall c <- a[1..] + b[..|b| - 1] :: c in a + b;
    }
  }

  lemma OuterAngles(s: string, a: string, bare: string, b: string)
    requires s == a + bare + b && |bare| > 0 && !IsAngle(bare[0]) && !IsAngle(bare[|bare| - 1])
    requires IsAngle(s[0]) && IsAngle(s[|s| - 1])
    ensures |a| > 0 && |b| > 0
  {
  }

  lemma OwnIsTruthful(out: Outcome, c: Commit, info: Info)
    requires out.Found? && Tells(out, out.commit, key => Claim(info, key)) && IsOwn(info, c)
    ensures Truthful(out, c)
  {
    assert forall key: Key :: Claim(info, key) == Some(Text.Strip(Own(c, key)));
    DigitsPlain(c.time);
    Decimal.PrintIsDigits(c.time);
    var s := Decimal.Print(c.time);
    assert s[0] in s && s[|s| - 1] in s;
    StripKeeps(s);
    StripKeeps("<" + c.mail + ">");
    var bare :| Gives(out.email, Some(bare)) && Unbracketed("<" + c.mail + ">", bare);
    UnbracketInner(c.mail, bare);
  }

  /** Where nothing poses as a header and no metadata holds a line separator: the reduction never
      fails, is empty exactly when every line is uncommitted, and otherwise is the truly best
      commit with its own metadata. */
  lemma PlainBlameReduces(h: History, lines: seq<Blamed>, out: Outcome)
    requires Proper(h, lines) && NothingPoses(h, lines) && AllPlain(h, lines) && Reduces(h, lines, out)
    ensures !out.Raised?
    ensures out.Nothing? <==> forall b <- lines :: b.sha == UNCOMMITTED
    ensures out.Found? ==> TrulyBest(h, lines, out.commit) && Truthful(out, h[out.commit])
  {
    BlameReduces(h, lines, out);
    PlainReadable(h, lines);
    PlainNothing(h, lines);
    if out.Found? {
      PlainBest(h, lines, out);
    }
  }

  lemma PlainReadable(h: History, lines: seq<Blamed>)
    requires Proper(h, lines) && NothingPoses(h, lines) && AllPlain(h, lines)
    ensures !Unreadable(h, lines)
  {
    forall sha | Candidate(h, lines, sha)
      ensures TimeGiven(h, lines, sha).Some?
    {
      PlainCandidate(h, lines, sha);
    }
  }

  lemma PlainNothing(h: History, lines: seq<Blamed>)
    requires Proper(h, lines) && NothingPoses(h, lines) && AllPlain(h, lines)
    ensures (forall sha :: !Candidate(h, lines, sha)) <==> forall b <- lines :: b.sha == UNCOMMITTED
  {
    forall b <- lines | b.sha != UNCOMMITTED
      ensures Candidate(h, lines, b.sha)
    {
      CountMember(lines, b);
      PlainCandidate(h, lines, b.sha);
    }
    forall sha | Candidate(h, lines, sha)
      ensures exists b <- lines :: b.sha != UNCOMMITTED
    {
      PlainCandidate(h, lines, sha);
      var b := SeenMember(lines, sha);
    }
  }

  lemma PlainBest(h: History, lines: seq<Blamed>, out: Outcome)
    requires Proper(h, lines) && NothingPoses(h, lines) && AllPlain(h, lines) && IsBest(h, lines, out)
    ensures TrulyBest(h, lines, out.commit) && Truthful(out, h[out.commit])
  {
    PlainCandidate(h, lines, out.commit);
    GivenTells(h, lines, out, out.commit);
    OwnIsTruthful(out, h[out.commit], InfoGiven(h, lines, out.commit));
    forall b <- lines | b.sha != UNCOMMITTED && b.sha != out.commit
      ensures Below(Rank(Count(lines, b.sha), h[b.sha].time, b.sha),
                    Rank(Count(lines, out.commit), h[out.commit].time, out.commit))
    {
      PlainBelow(h, lines, out, b);
    }
  }

  lemma PlainBelow(h: History, lines: seq<Blamed>, out: Outcome, b: Blamed)
    requires Proper(h, lines) && NothingPoses(h, lines) && AllPlain(h, lines) && IsBest(h, lines, out)
    requires b in lines && b.sha != UNCOMMITTED && b.sha != out.commit
    ensures out.commit in h
    ensures Below(Rank(Count(lines, b.sha), h[b.sha].time, b.sha),
                  Rank(Count(lines, out.commit), h[out.commit].time, out.commit))
  {
    PlainCandidate(h, lines, out.commit);
    CountMember(lines, b);
    PlainCandidate(h, lines, b.sha);
    assert Below(RankGiven(h, lines, b.sha), RankGiven(h, lines, out.commit));
  }

  // ---- forged failures -----------------------------------------------------

  /** Whatever is claimed first under a candidate as its author time, unless it is a number, makes
      the reduction fail. */
  lemma ClaimedTimeFails(h: History, lines: seq<Blamed>, sha: string, time: string, out: Outcome)
    requires Proper(h, lines) && Reduces(h, lines, out) && Candidate(h, lines, sha)
    requires FirstClaim(Given(h, lines, sha), AuthorTime) == Some(time) && time != "" && ToInt(time).None?
    ensures out.Raised?
  {
    GivenAt(h, lines, sha, AuthorTime);
    assert TimeGiven(h, lines, sha).None?;
    BlameReduces(h, lines, out);
  }

  /** A forged author time in an author's name fails the reduction of any blame with a committed
      line of that commit. */
  lemma AuthorForgeryFails(h: History, lines: seq<Blamed>, b: Blamed, x: string, time: string, out: Outcome)
    requires Proper(h, lines) && NothingPoses(h, lines) && b in lines && b.sha != UNCOMMITTED
    requires NoBreak(x) && NoBreak(KeyName(AuthorTime) + " " + time)
    requires h[b.sha].author == x + "\r" + (KeyName(AuthorTime) + " " + time)
    requires Text.Strip(time) != "" && ToInt(Text.Strip(time)).None? && Reduces(h, lines, out)
    ensures out.Raised?
  {
    CountMember(lines, b);
    MetadataFirst(h, lines, b.sha);
    AuthorForgesTime(h[b.sha], x, time);
    PrefixClaims(MetaPieces(h[b.sha]), Given(h, lines, b.sha), AuthorTime);
    ClaimedTimeFails(h, lines, b.sha, Text.Strip(time), out);
  }

  /** A code line that holds a header and a line for it, behind carriage returns. */
  predicate Forging(b: Blamed, x: string, other: Blamed, line: string) {
    && NoBreak(x) && NoBreak(line) && |line| > 0 && IsSha(other.sha)
    && b.code == x + "\r" + Header(other) + "\r" + line
  }

  lemma ForgingPieces(b: Blamed, x: string, other: Blamed, line: string)
    requires Forging(b, x, other, line)
    ensures CodePieces(b) == ["\t" + x, Header(other), line]
  {
    HeaderIsHeader(other);
    BehindTab(b.code, x, Header(other), line);
    ThreePieces("\t" + x, Header(other), line, "\t" + b.code);
  }

  lemma BehindTab(code: string, x: string, q: string, r: string)
    requires code == x + "\r" + q + "\r" + r && NoBreak(x)
    ensures "\t" + code == "\t" + x + "\r" + q + "\r" + r && NoBreak("\t" + x)
  {
  }

  /** Carriage returns end lines for the reader. */
  lemma ThreePieces(p: string, q: string, r: string, text: string)
    requires NoBreak(p) && NoBreak(q) && NoBreak(r) && |q| > 0 && |r| > 0
    requires text == p + "\r" + q + "\r" + r
    ensures Pieces(text) == [p, q, r]
  {
    var rest := r + "\n";
    var more := q + "\r" + rest;
    Regrouped(p, q, r, text, more);
    SplitAtReturn(p, more);
    SplitAtReturn(q, rest);
    PiecesOfPlain(r);
  }

  lemma Regrouped(p: string, q: string, r: string, text: string, more: string)
    requires text == p + "\r" + q + "\r" + r && more == q + "\r" + (r + "\n")
    ensures text + "\n" == p + "\r" + more
  {
  }

  lemma ForgingReads(h: History, b: Blamed, x: string, other: Blamed, line: string)
    requires b.sha in h && Forging(b, x, other, line)
    ensures ReadAll(h, [b]) == [] + ([Header(b)] + (MetaPieces(h[b.sha]) + ["\t" + x])) + ([Header(other)] + [line])
  {
    ForgingPieces(b, x, other, line);
    var meta, code, end := MetaPieces(h[b.sha]), ["\t" + x], [Header(other)] + [line];
    Associative(meta, code, end);
    assert CodePieces(b) == code + end;
    ReadOfOne(h, b, meta + code, end);
  }

  lemma ForgingGives(h: History, b: Blamed, x: string, other: Blamed, line: string)
    requires b.sha in h && IsSha(b.sha) && other.sha != b.sha && NoHeader(MetaPieces(h[b.sha])) && !IsHeader(line)
    requires Forging(b, x, other, line)
    ensures Given(h, [b], other.sha) == [line]
  {
    HeaderIsHeader(b);
    HeaderIsHeader(other);
    CodeIsNoHeader("\t" + x);
    NoHeaderAppend(MetaPieces(h[b.sha]), ["\t" + x]);
    ForgingReads(h, b, x, other, line);
    TwoBlocks(Header(b), MetaPieces(h[b.sha]) + ["\t" + x], Header(other), line, other.sha);
  }

  /** Only what follows its own header is given to a commit. */
  lemma TwoBlocks(first: string, start: seq<string>, second: string, line: string, sha: string)
    requires IsHeader(first) && Word(first) != sha && IsHeader(second) && Word(second) == sha
    requires NoHeader(start) && !IsHeader(line)
    ensures Attributed([] + ([first] + start) + ([second] + [line]), sha) == [line]
  {
    AttributedBlock([], first, start, sha);
    AttributedBlock([] + ([first] + start), second, [line], sha);
  }

  lemma CodeIsNoHeader(s: string)
    requires IsCode(s)
    ensures !IsHeader(s)
  {
    if IsHeader(s) {
      HeaderIsNoCode(s);
    }
  }

  lemma ReadOfOne(h: History, b: Blamed, start: seq<string>, end: seq<string>)
    requires b.sha in h && start + end == MetaPieces(h[b.sha]) + CodePieces(b)
    ensures ReadAll(h, [b]) == [] + ([Header(b)] + start) + end
  {
    assert [b][..0] == [];
    assert ReadAll(h, [b]) == [] + ReadOne(h, b, true);
    Associative([Header(b)], MetaPieces(h[b.sha]), CodePieces(b));
    Associative([Header(b)], start, end);
  }

  /** Such a code line fails the reduction, however plain the metadata. */
  lemma CodeForgeryFails(h: History, b: Blamed, x: string, other: Blamed, time: string, out: Outcome)
    requires b.sha in h && IsSha(b.sha) && other.sha != b.sha && other.sha != UNCOMMITTED
    requires NoHeader(MetaPieces(h[b.sha])) && Forging(b, x, other, KeyName(AuthorTime) + " " + time)
    requires Text.Strip(time) != "" && ToInt(Text.Strip(time)).None? && Reduces(h, [b], out)
    ensures out.Raised?
  {
    var line := KeyName(AuthorTime) + " " + time;
    KeyWord(AuthorTime, time);
    ForgingGives(h, b, x, other, line);
    OneClaim(AuthorTime, time, [], AuthorTime);
    assert [line] + [] == [line];
    ForgingCredits(h, b, x, other, line);
    ClaimedTimeFails(h, [b], other.sha, Text.Strip(time), out);
  }

  lemma ForgingCredits(h: History, b: Blamed, x: string, other: Blamed, line: string)
    requires b.sha in h && IsSha(b.sha) && Forging(b, x, other, line)
    ensures Credit(h, [b], other.sha) > 0
  {
    ForgingPieces(b, x, other, line);
    HeaderIsHeader(other);
    HeaderCounts(CodePieces(b), 1);
    ForgedGrows(h, [b], 0, other.sha);
  }

  lemma NoHeaderAppend(a: seq<string>, b: seq<string>)
    requires NoHeader(a) && NoHeader(b)
    ensures NoHeader(a + b)
  {
  }

  lemma KeyedLine(key: Key, value: string, rest: seq<string>)
    requires NoHeader(rest)
    ensures NoHeader([KeyName(key) + " " + value] + rest)
  {
    KeyWord(key, value);
  }

  lemma KeyedIsNoHeader(c: Commit)
    requires PlainCommit(c) && c.committer == [] && c.trailer == []
    ensures NoHeader(MetaPieces(c))
  {
    AuthorLinesPlain(c);
    assert NoBreak(KeyName(Summary) + " " + c.summary);
    PlainPieces(MetaLines(c));
    var summary := [KeyName(Summary) + " " + c.summary] + [];
    KeyedLine(Summary, c.summary, []);
    var tz := [KeyName(AuthorTz) + " " + c.tz] + summary;
    KeyedLine(AuthorTz, c.tz, summary);
    var time := [KeyName(AuthorTime) + " " + Decimal.Print(c.time)] + tz;
    KeyedLine(AuthorTime, Decimal.Print(c.time), tz);
    var mail := [KeyName(AuthorMail) + " " + ("<" + c.mail + ">")] + time;
    KeyedLine(AuthorMail, "<" + c.mail + ">", time);
    KeyedLine(Author, c.author, mail);
    assert MetaLines(c) == [KeyName(Author) + " " + c.author] + mail;
  }

  function PlainSample(): Commit { Commit("a", "m", 7, "+0000", [], "s", []) }

  function Victim(): Blamed { Blamed(Name('b'), 1, 1, None, "") }

  function ForgingSample(): Blamed {
    Blamed(Name('a'), 1, 1, None, "x" + "\r" + Header(Victim()) + "\r" + (KeyName(AuthorTime) + " " + "q"))
  }

  lemma SampleIsForging()
    ensures Forging(ForgingSample(), "x", Victim(), KeyName(AuthorTime) + " " + "q")
    ensures IsSha(ForgingSample().sha) && Victim().sha != ForgingSample().sha && Victim().sha != UNCOMMITTED
  {
    assert Name('a')[0] != Name('b')[0] && Name('b')[0] != UNCOMMITTED[0];
  }

  lemma SampleIsPlain()
    ensures PlainCommit(PlainSample()) && Text.Strip("q") == "q" && ToInt("q").None?
  {
  }

  /** One committed line, plain metadata, and a reduction that fails. */
  lemma ForgedTimeRaises(out: Outcome)
    ensures var h, lines := map[ForgingSample().sha := PlainSample()], [ForgingSample()];
            Proper(h, lines) && AllPlain(h, lines) && (Reduces(h, lines, out) ==> out.Raised?)
  {
    var b := ForgingSample();
    var h := map[b.sha := PlainSample()];
    SampleIsForging();
    SampleIsPlain();
    KeyedIsNoHeader(PlainSample());
    if Reduces(h, [b], out) {
      CodeForgeryFails(h, b, "x", Victim(), "q", out);
    }
  }
}
