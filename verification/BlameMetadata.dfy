/** What the pieces of a printed blame claim about a commit, key by key. */
module BlameMetadata {
  import opened Common
  import opened Sequences
  import opened Blame
  import opened BlamePorcelain
  import Text
  import Decimal

  // ---- what is read of the metadata ----------------------------------------

  predicate Claims(piece: string, key: Key) { !IsCode(piece) && KeyOf(Word(piece)) == Some(key) }

  /** What the first piece that starts with the key says. */
  function FirstClaim(pieces: seq<string>, key: Key): Option<string> {
    if |pieces| == 0 then None
    else if Claims(pieces[0], key) then Some(Text.Strip(After(pieces[0])))
    else FirstClaim(pieces[1..], key)
  }

  /** One piece that is no header, read under the current commit. */
  function Noted(info: Info, piece: string): Info {
    if IsCode(piece) || KeyOf(Word(piece)).None? || KeyOf(Word(piece)).value in info then info
    else info[KeyOf(Word(piece)).value := Text.Strip(After(piece))]
  }

  function ReadInfo(info: Info, pieces: seq<string>): Info
    decreases |pieces|
  {
    if |pieces| == 0 then info else ReadInfo(Noted(info, pieces[0]), pieces[1..])
  }

  lemma {:induction false} ReadInfoAt(info: Info, pieces: seq<string>, key: Key)
    ensures var r := ReadInfo(info, pieces);
            if key in info then key in r && r[key] == info[key]
            else if FirstClaim(pieces, key).Some? then key in r && r[key] == FirstClaim(pieces, key).value
            else key !in r
    decreases |pieces|
  {
    if |pieces| > 0 {
      ReadInfoAt(Noted(info, pieces[0]), pieces[1..], key);
    }
  }

  lemma {:induction false} ReadInfoAppend(info: Info, a: seq<string>, b: seq<string>)
    ensures ReadInfo(info, a + b) == ReadInfo(ReadInfo(info, a), b)
    decreases |a|
  {
    if |a| == 0 {
      assert a + b == b;
    } else {
      assert (a + b)[1..] == a[1..] + b;
      ReadInfoAppend(Noted(info, a[0]), a[1..], b);
    }
  }

  lemma {:induction false} ClaimAppend(a: seq<string>, b: seq<string>, key: Key)
    ensures FirstClaim(a + b, key) == if FirstClaim(a, key).Some? then FirstClaim(a, key) else FirstClaim(b, key)
    decreases |a|
  {
    if |a| == 0 {
      assert a + b == b;
    } else {
      assert (a + b)[1..] == a[1..] + b;
      ClaimAppend(a[1..], b, key);
    }
  }

  lemma KeyWord(key: Key, value: string)
    ensures var line := KeyName(key) + " " + value;
            KeyOf(Word(line)) == Some(key) && After(line) == value && !IsCode(line) && !IsHeader(line)
  {
    assert ' ' !in KeyName(key);
    WordOf(KeyName(key), value);
    assert |KeyName(key)| < 40;
  }

  // ---- declaratively -------------------------------------------------------

  /** The piece at `j` is the first that starts with the key. */
  predicate FirstAt(pieces: seq<string>, key: Key, j: nat) {
    j < |pieces| && Claims(pieces[j], key) && forall i :: 0 <= i < j ==> !Claims(pieces[i], key)
  }

  /** The first piece that starts with the key carries the value. */
  ghost predicate FirstSays(pieces: seq<string>, key: Key, value: string) {
    exists j: nat :: FirstAt(pieces, key, j) && Text.Strip(After(pieces[j])) == value
  }

  lemma {:induction false} ClaimAt(pieces: seq<string>, key: Key, j: nat)
    requires FirstAt(pieces, key, j)
    ensures FirstClaim(pieces, key) == Some(Text.Strip(After(pieces[j])))
    decreases j
  {
    if j > 0 {
      assert !Claims(pieces[0], key);
      ClaimAt(pieces[1..], key, j - 1);
    }
  }

  lemma {:induction false} FindClaim(pieces: seq<string>, key: Key) returns (j: nat)
    requires FirstClaim(pieces, key).Some?
    ensures FirstAt(pieces, key, j)
    decreases |pieces|
  {
    if Claims(pieces[0], key) {
      j := 0;
    } else {
      var k := FindClaim(pieces[1..], key);
      j := k + 1;
      forall i | 0 <= i < j
        ensures !Claims(pieces[i], key)
      {
        assert i > 0 ==> pieces[i] == pieces[1..][i - 1];
      }
    }
  }

  lemma FirstClaimSays(pieces: seq<string>, key: Key, value: string)
    ensures FirstClaim(pieces, key) == Some(value) <==> FirstSays(pieces, key, value)
  {
    if FirstClaim(pieces, key) == Some(value) {
      var j := FindClaim(pieces, key);
      ClaimAt(pieces, key, j);
    }
    if FirstSays(pieces, key, value) {
      var j: nat :| FirstAt(pieces, key, j) && Text.Strip(After(pieces[j])) == value;
      ClaimAt(pieces, key, j);
    }
  }

  // ---- printed metadata ----------------------------------------------------

  function Own(c: Commit, key: Key): string {
    match key
    case Author => c.author
    case AuthorMail => "<" + c.mail + ">"
    case AuthorTime => Decimal.Print(c.time)
    case AuthorTz => c.tz
    case Summary => c.summary
  }

  ghost predicate IsOwn(info: Info, c: Commit) {
    forall key: Key :: key in info && info[key] == Text.Strip(Own(c, key))
  }

  predicate PlainLine(s: string) { NoBreak(s) && KeyOf(Word(s)).None? }

  /** Nothing that ends a line for the reader in the texts, nor a key in the committer's. */
  predicate PlainCommit(c: Commit) {
    && NoBreak(c.author) && NoBreak(c.mail) && NoBreak(c.tz) && NoBreak(c.summary)
    && forall s <- c.committer :: PlainLine(s)
  }

  lemma {:induction false} AllPiecesAppend(a: seq<string>, b: seq<string>)
    ensures AllPieces(a + b) == AllPieces(a) + AllPieces(b)
    decreases |a|
  {
    if |a| == 0 {
      assert a + b == b;
    } else {
      assert (a + b)[1..] == a[1..] + b;
      AllPiecesAppend(a[1..], b);
      Associative(Pieces(a[0]), AllPieces(a[1..]), AllPieces(b));
    }
  }

  lemma {:induction false} PlainPieces(lines: seq<string>)
    requires forall s <- lines :: NoBreak(s)
    ensures AllPieces(lines) == lines
    decreases |lines|
  {
    if |lines| > 0 {
      PiecesOfPlain(lines[0]);
      PlainPieces(lines[1..]);
    }
  }

  lemma {:induction false} PlainClaimsNothing(lines: seq<string>, key: Key)
    requires forall s <- lines :: PlainLine(s)
    ensures FirstClaim(lines, key).None?
    decreases |lines|
  {
    if |lines| > 0 {
      assert PlainLine(lines[0]);
      PlainClaimsNothing(lines[1..], key);
    }
  }

  lemma OneClaim(k: Key, value: string, rest: seq<string>, key: Key)
    ensures FirstClaim([KeyName(k) + " " + value] + rest, key) ==
            if k == key then Some(Text.Strip(value)) else FirstClaim(rest, key)
  {
    KeyWord(k, value);
    assert ([KeyName(k) + " " + value] + rest)[1..] == rest;
  }

  lemma AuthorClaims(c: Commit, key: Key)
    ensures FirstClaim(AuthorLines(c), key) == if key == Summary then None else Some(Text.Strip(Own(c, key)))
  {
    var tz := [KeyName(AuthorTz) + " " + c.tz];
    var time := [KeyName(AuthorTime) + " " + Decimal.Print(c.time)] + tz;
    var mail := [KeyName(AuthorMail) + " " + ("<" + c.mail + ">")] + time;
    OneClaim(AuthorTz, c.tz, [], key);
    assert tz + [] == tz;
    OneClaim(AuthorTime, Decimal.Print(c.time), tz, key);
    OneClaim(AuthorMail, "<" + c.mail + ">", time, key);
    OneClaim(Author, c.author, mail, key);
    assert AuthorLines(c) == [KeyName(Author) + " " + c.author] + mail;
  }

  lemma AuthorLinesPlain(c: Commit)
    requires PlainCommit(c)
    ensures forall s <- AuthorLines(c) :: NoBreak(s)
  {
    DigitsPlain(c.time);
    assert NoBreak("<" + c.mail + ">");
  }

  lemma PlainHeadClaims(c: Commit, head: seq<string>, key: Key)
    requires PlainCommit(c) && head == AuthorLines(c) + c.committer + [KeyName(Summary) + " " + c.summary]
    ensures FirstClaim(head, key) == Some(Text.Strip(Own(c, key)))
  {
    AuthorClaims(c, key);
    PlainClaimsNothing(c.committer, key);
    ClaimAppend(AuthorLines(c), c.committer, key);
    ClaimAppend(AuthorLines(c) + c.committer, [KeyName(Summary) + " " + c.summary], key);
    OneClaim(Summary, c.summary, [], key);
    assert [KeyName(Summary) + " " + c.summary] + [] == [KeyName(Summary) + " " + c.summary];
  }

  /** Texts without line breaks are claimed first by their own lines, whatever the trailing
      lines hold. */
  lemma PlainClaimsOwn(c: Commit, key: Key)
    requires PlainCommit(c)
    ensures FirstClaim(MetaPieces(c), key) == Some(Text.Strip(Own(c, key)))
  {
    var head := AuthorLines(c) + c.committer + [KeyName(Summary) + " " + c.summary];
    AuthorLinesPlain(c);
    assert NoBreak(KeyName(Summary) + " " + c.summary);
    PlainPieces(head);
    AllPiecesAppend(head, c.trailer);
    PlainHeadClaims(c, head, key);
    ClaimAppend(head, AllPieces(c.trailer), key);
  }

  /** An author name with a carriage return and an author time behind it claims that time. */
  lemma AuthorForgesTime(c: Commit, x: string, time: string)
    requires NoBreak(x) && NoBreak(KeyName(AuthorTime) + " " + time)
    requires c.author == x + "\r" + (KeyName(AuthorTime) + " " + time)
    ensures FirstClaim(MetaPieces(c), AuthorTime) == Some(Text.Strip(time))
  {
    var rest := AllPieces(MetaLines(c)[1..]);
    var forged := KeyName(AuthorTime) + " " + time;
    AuthorSplits(c, x, forged);
    OneClaim(Author, x, [forged] + rest, AuthorTime);
    OneClaim(AuthorTime, time, rest, AuthorTime);
  }

  lemma AuthorSplits(c: Commit, x: string, forged: string)
    requires NoBreak(x) && NoBreak(forged) && |forged| > 0 && c.author == x + "\r" + forged
    ensures MetaPieces(c) == [KeyName(Author) + " " + x] + ([forged] + AllPieces(MetaLines(c)[1..]))
  {
    var p := KeyName(Author) + " " + x;
    assert MetaLines(c)[0] == KeyName(Author) + " " + c.author;
    assert KeyName(Author) + " " + c.author + "\n" == p + "\r" + (forged + "\n");
    SplitAtReturn(p, forged + "\n");
    PiecesOfPlain(forged);
    Associative([p], [forged], AllPieces(MetaLines(c)[1..]));
  }

  lemma StripKeeps(s: string)
    requires |s| > 0 ==> !Text.IsSpace(s[0]) && !Text.IsSpace(s[|s| - 1])
    ensures Text.Strip(s) == s
  {
  }

  /** The address comes out of its angle brackets. */
  lemma MailRoundTrip(mail: string)
    requires |mail| > 0 && mail[0] !in {'<', '>'} && mail[|mail| - 1] !in {'<', '>'}
    ensures StripAngles(Text.Strip("<" + mail + ">")) == mail
  {
    var s := "<" + mail + ">";
    StripKeeps(s);
    assert s[1..] == mail + ">";
    assert (mail + ">")[..|mail|] == mail;
    assert StripAngles(mail) == mail;
    assert StripAngles(mail + ">") == mail;
  }
}
