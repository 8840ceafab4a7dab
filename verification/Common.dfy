/** Shared value types. */
module Common {
  datatype Option<+T> = None | Some(value: T)
}

/** Whitespace handling of strings (ASCII). */
module Text {
  predicate IsSpace(c: char) { c == ' ' || '\t' <= c <= '\r' }

  /** Without leading and trailing whitespace. */
  function Strip(s: string): string {
    if |s| > 0 && IsSpace(s[0]) then Strip(s[1..])
    else if |s| > 0 && IsSpace(s[|s| - 1]) then Strip(s[..|s| - 1])
    else s
  }

  predicate Blank(s: string) { forall c <- s :: IsSpace(c) }

  /** The text is `kept` with only whitespace around it. */
  ghost predicate Padded(s: string, kept: string) {
    exists lead: string, trail: string :: s == lead + kept + trail && Blank(lead) && Blank(trail)
  }

  lemma PaddedLeft(c: char, s: string, kept: string)
    requires IsSpace(c) && Padded(s, kept)
    ensures Padded([c] + s, kept)
  {
    var lead: string, trail: string :| s == lead + kept + trail && Blank(lead) && Blank(trail);
    var lead' := [c] + lead;
    assert Blank(lead') && [c] + s == lead' + kept + trail;
  }

  lemma PaddedRight(s: string, c: char, kept: string)
    requires IsSpace(c) && Padded(s, kept)
    ensures Padded(s + [c], kept)
  {
    var lead: string, trail: string :| s == lead + kept + trail && Blank(lead) && Blank(trail);
    var trail' := trail + [c];
    assert Blank(trail') && s + [c] == lead + kept + trail';
  }

  lemma {:induction false} StripPads(s: string)
    ensures Padded(s, Strip(s))
    decreases |s|
  {
    if |s| > 0 && IsSpace(s[0]) {
      StripPads(s[1..]);
      PaddedLeft(s[0], s[1..], Strip(s[1..]));
      assert s == [s[0]] + s[1..];
    } else if |s| > 0 && IsSpace(s[|s| - 1]) {
      var n := |s| - 1;
      StripPads(s[..n]);
      PaddedRight(s[..n], s[n], Strip(s[..n]));
      assert s == s[..n] + [s[n]];
    } else {
      var none := "";
      assert Blank(none) && s == none + s + none;
    }
  }

  lemma {:induction false} StripEnds(s: string)
    ensures |Strip(s)| > 0 ==> !IsSpace(Strip(s)[0]) && !IsSpace(Strip(s)[|Strip(s)| - 1])
    decreases |s|
  {
    if |s| > 0 && IsSpace(s[0]) {
      StripEnds(s[1..]);
    } else if |s| > 0 && IsSpace(s[|s| - 1]) {
      StripEnds(s[..|s| - 1]);
    }
  }

  /** Only whitespace goes, and none is left at either end. */
  lemma StripExactly(s: string)
    ensures Padded(s, Strip(s))
    ensures |Strip(s)| > 0 ==> !IsSpace(Strip(s)[0]) && !IsSpace(Strip(s)[|Strip(s)| - 1])
  {
    StripPads(s);
    StripEnds(s);
  }

  lemma StripTwice(s: string)
    ensures Strip(Strip(s)) == Strip(s)
  {
    StripExactly(s);
  }
}

/** Facts about sequences that proofs over concatenations need spelled out. */
module Sequences {
  lemma Associative<T>(a: seq<T>, b: seq<T>, c: seq<T>)
    ensures a + b + c == a + (b + c)
  {
  }

  function Map<A, B>(f: A -> B, xs: seq<A>): seq<B> {
    seq(|xs|, k requires 0 <= k < |xs| => f(xs[k]))
  }

  lemma MapAppend<A, B>(f: A -> B, a: seq<A>, b: seq<A>)
    ensures Map(f, a + b) == Map(f, a) + Map(f, b)
  {
  }

  lemma MapOne<A, B>(f: A -> B, x: A)
    ensures Map(f, [x]) == [f(x)]
  {
  }

  lemma MapHas<A, B>(f: A -> B, xs: seq<A>, k: nat)
    requires k < |xs|
    ensures multiset(Map(f, xs))[f(xs[k])] > 0
  {
    assert Map(f, xs)[k] in multiset(Map(f, xs));
  }

  lemma MapLacks<A, B>(f: A -> B, xs: seq<A>, y: B)
    requires forall k :: 0 <= k < |xs| ==> f(xs[k]) != y
    ensures multiset(Map(f, xs))[y] == 0
  {
    assert y !in Map(f, xs);
  }

  lemma SamePrefix<T>(all: seq<T>, front: seq<T>, rest: seq<T>, k: nat)
    requires all == front + rest && k <= |front|
    ensures all[..k] == front[..k]
  {
  }

  lemma ConsAppend<T>(whole: seq<T>, part: seq<T>, x: T, xs: seq<T>, more: seq<T>)
    requires part == [x] + xs && whole == [x] + (xs + more)
    ensures whole == part + more
  {
  }
}
