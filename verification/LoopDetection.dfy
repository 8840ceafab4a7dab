/**
 The loop detector: a sliding window over the fingerprints of the model's tool-call sets
 and over the tools they call, with one warning per fingerprint and per tool and a hard
 stop that strips the calls.  Fingerprints are opaque.
 */
module LoopDetection {
  // ---- windows and counts --------------------------------------------------

  /** The contents of a bounded deque that received `xs`. */
  function Last<T>(xs: seq<T>, n: nat): seq<T> { if |xs| <= n then xs else xs[|xs| - n..] }

  function Count<T(==)>(xs: seq<T>, x: T): nat {
    if |xs| == 0 then 0 else Count(xs[..|xs| - 1], x) + (if xs[|xs| - 1] == x then 1 else 0)
  }

  /** Counting is how often an element occurs. */
  lemma {:induction false} CountIs<T>(xs: seq<T>, x: T)
    ensures Count(xs, x) == multiset(xs)[x]
    decreases |xs|
  {
    if |xs| > 0 {
      CountIs(xs[..|xs| - 1], x);
      assert xs == xs[..|xs| - 1] + [xs[|xs| - 1]];
    }
  }

  lemma PushLast<T>(xs: seq<T>, x: T, n: nat)
    ensures Last(Last(xs, n) + [x], n) == Last(xs + [x], n)
  {
  }

  lemma {:induction false} CountAppend<T>(xs: seq<T>, ys: seq<T>, x: T)
    ensures Count(xs + ys, x) == Count(xs, x) + Count(ys, x)
    decreases |ys|
  {
    if |ys| == 0 {
      assert xs + ys == xs;
    } else {
      assert (xs + ys)[..|xs + ys| - 1] == xs + ys[..|ys| - 1];
      CountAppend(xs, ys[..|ys| - 1], x);
    }
  }

  lemma {:induction false} CountAbsent<T>(xs: seq<T>, x: T)
    ensures Count(xs, x) > 0 <==> x in xs
    decreases |xs|
  {
    if |xs| > 0 {
      CountAbsent(xs[..|xs| - 1], x);
      assert xs == xs[..|xs| - 1] + [xs[|xs| - 1]];
    }
  }

  // ---- what the hard stop guarantees ---------------------------------------

  /** Turns of fingerprint `f` in [a, b) that kept their tool calls. */
  function KeptIn(fps: seq<string>, kept: seq<bool>, a: nat, b: nat, f: string): nat
    requires a <= b <= |fps| == |kept|
    decreases b - a
  {
    if a == b then 0 else KeptIn(fps, kept, a, b - 1, f) + (if kept[b - 1] && fps[b - 1] == f then 1 else 0)
  }

  /** A kept turn had fewer than `hard` turns of its fingerprint in its window. */
  ghost predicate Guarded(fps: seq<string>, kept: seq<bool>, window: nat, hard: int) {
    && |kept| == |fps|
    && forall t :: 0 <= t < |fps| && kept[t] ==> Count(Last(fps[..t + 1], window), fps[t]) < hard
  }

  lemma {:induction false} KeptAtMostCount(fps: seq<string>, kept: seq<bool>, a: nat, b: nat, f: string)
    requires a <= b <= |fps| == |kept|
    ensures KeptIn(fps, kept, a, b, f) <= Count(fps[a..b], f)
    decreases b - a
  {
    if a < b {
      KeptAtMostCount(fps, kept, a, b - 1, f);
      assert fps[a..b][..b - a - 1] == fps[a..b - 1];
    }
  }

  lemma SuffixSplit<T>(xs: seq<T>, a: nat, b: nat, n: nat)
    requires a <= b <= |xs| && b - a <= n
    ensures b - a <= |Last(xs[..b], n)|
    ensures Last(xs[..b], n) == Last(xs[..b], n)[..|Last(xs[..b], n)| - (b - a)] + xs[a..b]
  {
  }

  lemma WindowCount(fps: seq<string>, a: nat, b: nat, window: nat, f: string)
    requires a <= b <= |fps| && b - a <= window
    ensures Count(fps[a..b], f) <= Count(Last(fps[..b], window), f)
  {
    SuffixSplit(fps, a, b, window);
    var recent := Last(fps[..b], window);
    CountAppend(recent[..|recent| - (b - a)], fps[a..b], f);
  }

  /** Among any `window` consecutive tool-calling turns at most `hard - 1` of one fingerprint
      keep their calls. */
  lemma {:induction false} WindowBound(fps: seq<string>, kept: seq<bool>, window: nat, hard: int,
                                       a: nat, b: nat, f: string)
    requires Guarded(fps, kept, window, hard)
    requires a <= b <= |fps| && b - a <= window
    ensures KeptIn(fps, kept, a, b, f) <= if hard >= 1 then hard - 1 else 0
    decreases b - a
  {
    if a < b {
      if kept[b - 1] && fps[b - 1] == f {
        WindowCount(fps, a, b, window, f);
        KeptAtMostCount(fps, kept, a, b, f);
      } else {
        WindowBound(fps, kept, window, hard, a, b - 1, f);
      }
    }
  }

  // ---- the detector --------------------------------------------------------

  datatype Warning = SameCalls(fp: string) | BusyTool(tool: string)

  function Max(a: int, b: int): int { if a < b then b else a }

  ghost predicate NoRepeats(warnings: seq<Warning>) {
    forall j, k :: 0 <= j < k < |warnings| ==> warnings[j] != warnings[k]
  }

  /** The warnings after a turn that was let through: at most one more, and never a repeat. */
  ghost predicate Judged(before: seq<Warning>, after: seq<Warning>, fp: string, repeats: bool, hot: string,
                         busy: bool)
  {
    after ==
      if repeats && SameCalls(fp) !in before then before + [SameCalls(fp)]
      else if busy && BusyTool(hot) !in before then before + [BusyTool(hot)]
      else before
  }

  /** The same, for the tool that leads the window `recent`. */
  ghost predicate JudgedByWindow(before: seq<Warning>, after: seq<Warning>, fp: string, repeats: bool,
                                 recent: seq<string>, freqWarn: int)
  {
    exists hot: string, n: nat :: IsHottest(recent, hot, n) && Judged(before, after, fp, repeats, hot, n >= freqWarn)
  }

  class Detector {
    const window: nat
    const identicalWarn: int
    const identicalHard: int
    const freqWarn: int
    const freqHard: int
    var history: seq<string>
    var toolHistory: seq<string>
    var warnedHashes: set<string>
    var warnedTools: set<string>
    var pending: seq<Warning>
    var stopped: bool

    // the run so far
    ghost var fps: seq<string>
    ghost var tools: seq<string>
    ghost var kept: seq<bool>
    ghost var warnings: seq<Warning>
    ghost var injected: seq<Warning>

    ghost predicate Valid()
      reads this
    {
      && history == Last(fps, window) && toolHistory == Last(tools, window)
      && Guarded(fps, kept, window, identicalHard)
      && WarningsKept()
    }

    /** Every warning ever queued is recorded, injected or still pending, and none twice. */
    ghost predicate WarningsKept()
      reads this
    {
      && (forall f :: f in warnedHashes <==> SameCalls(f) in warnings)
      && (forall t :: t in warnedTools <==> BusyTool(t) in warnings)
      && NoRepeats(warnings)
      && warnings == injected + pending
    }

    constructor (window: int, identicalWarn: int, identicalHard: int, freqWarn: int, freqHard: int)
      requires window >= 0 || identicalHard >= 0 || freqHard >= 0
      ensures Valid() && fps == [] && warnings == []
      ensures window <= this.window && identicalHard <= this.window && freqHard <= this.window
      ensures this.window in {window, identicalHard, freqHard}
      ensures this.identicalWarn == identicalWarn && this.identicalHard == identicalHard
      ensures this.freqWarn == freqWarn && this.freqHard == freqHard
    {
      this.window := Max(window, Max(identicalHard, freqHard));
      this.identicalWarn, this.identicalHard := identicalWarn, identicalHard;
      this.freqWarn, this.freqHard := freqWarn, freqHard;
      history, toolHistory, warnedHashes, warnedTools, pending, stopped := [], [], {}, {}, [], false;
      fps, tools, kept, warnings, injected := [], [], [], [], [];
    }

    /** The last AI message called `names` with fingerprint `fp`; no calls, nothing to judge.
        The calls are stripped exactly when the fingerprint or some tool fills its window. */
    method AfterModel(fp: string, names: seq<string>) returns (stripped: bool)
      requires Valid()
      modifies this
      ensures Valid() && injected == old(injected)
      ensures |names| == 0 ==>
                && !stripped && fps == old(fps) && tools == old(tools) && kept == old(kept)
                && warnings == old(warnings) && stopped == old(stopped)
      ensures |names| > 0 ==>
                && fps == old(fps) + [fp] && tools == old(tools) + names && kept == old(kept) + [!stripped]
                && stopped == (stripped || old(stopped))
                && (stripped <==> || Count(Last(fps, window), fp) >= identicalHard
                                  || SomeToolReaches(Last(tools, window), freqHard))
                && (stripped ==> warnings == old(warnings))
      ensures |names| > 0 && !stripped ==>
                JudgedByWindow(old(warnings), warnings, fp, Count(Last(fps, window), fp) >= identicalWarn,
                               Last(tools, window), freqWarn)
    {
      if |names| == 0 {
        return false;
      }
      Observe(fp, names);
      stripped := Decide(fp);
      Extend(old(fps), old(kept), fp, !stripped);
      kept := kept + [!stripped];
    }

    /** Stop, warn or let the turn through, from the two windows alone. */
    method Decide(fp: string) returns (stripped: bool)
      requires WarningsKept()
      modifies this`stopped, this`warnedHashes, this`warnedTools, this`pending, this`warnings
      ensures WarningsKept()
      ensures stripped <==> Count(history, fp) >= identicalHard || SomeToolReaches(toolHistory, freqHard)
      ensures stopped == (stripped || old(stopped))
      ensures stripped ==> warnings == old(warnings)
      ensures !stripped ==>
                JudgedByWindow(old(warnings), warnings, fp, Count(history, fp) >= identicalWarn, toolHistory, freqWarn)
    {
      var identical := Count(history, fp);
      var hot, hotCount := MostCommon(toolHistory);
      HottestReaches(toolHistory, hot, hotCount, freqHard);
      stripped := identical >= identicalHard || hotCount >= freqHard;
      if stripped {
        stopped := true;
      } else {
        Warn(fp, identical >= identicalWarn, hot, hotCount >= freqWarn);
      }
    }

    method Warn(fp: string, repeats: bool, hot: string, busy: bool)
      requires WarningsKept()
      modifies this`warnedHashes, this`warnedTools, this`pending, this`warnings
      ensures WarningsKept() && Judged(old(warnings), warnings, fp, repeats, hot, busy)
    {
      if repeats && fp !in warnedHashes {
        warnedHashes := warnedHashes + {fp};
        pending := pending + [SameCalls(fp)];
        warnings := warnings + [SameCalls(fp)];
      } else if busy && hot !in warnedTools {
        warnedTools := warnedTools + {hot};
        pending := pending + [BusyTool(hot)];
        warnings := warnings + [BusyTool(hot)];
      }
    }

    method Observe(fp: string, names: seq<string>)
      requires history == Last(fps, window) && toolHistory == Last(tools, window)
      modifies this`fps, this`history, this`tools, this`toolHistory
      ensures fps == old(fps) + [fp] && tools == old(tools) + names
      ensures history == Last(fps, window) && toolHistory == Last(tools, window)
    {
      PushLast(fps, fp, window);
      history := Last(history + [fp], window);
      fps := fps + [fp];
      PushTools(names);
    }

    method PushTools(names: seq<string>)
      requires toolHistory == Last(tools, window)
      modifies this`tools, this`toolHistory
      ensures tools == old(tools) + names && toolHistory == Last(tools, window)
    {
      for k := 0 to |names|
        invariant tools == old(tools) + names[..k]
        invariant toolHistory == Last(tools, window)
      {
        PushLast(tools, names[k], window);
        toolHistory := Last(toolHistory + [names[k]], window);
        tools := tools + [names[k]];
      }
    }

    lemma Extend(fps: seq<string>, kept: seq<bool>, fp: string, keep: bool)
      requires Guarded(fps, kept, window, identicalHard)
      requires keep ==> Count(Last(fps + [fp], window), fp) < identicalHard
      ensures Guarded(fps + [fp], kept + [keep], window, identicalHard)
    {
      var fps' := fps + [fp];
      forall t | 0 <= t < |fps'| && (kept + [keep])[t]
        ensures Count(Last(fps'[..t + 1], window), fps'[t]) < identicalHard
      {
        if t < |fps| {
          assert fps'[..t + 1] == fps[..t + 1];
        } else {
          assert fps'[..t + 1] == fps';
        }
      }
    }

    /** At any point of any run: in no window do `identicalHard` turns of one fingerprint keep
        their calls. */
    lemma KeptBound(a: nat, b: nat, f: string)
      requires Valid() && a <= b <= |fps| && b - a <= window
      ensures KeptIn(fps, kept, a, b, f) <= if identicalHard >= 1 then identicalHard - 1 else 0
    {
      WindowBound(fps, kept, window, identicalHard, a, b, f);
    }

    /** Before the next model call the queued warnings are injected, each once. */
    method Drain() returns (texts: seq<Warning>)
      requires Valid()
      modifies this`pending, this`injected
      ensures Valid() && pending == [] && texts == old(pending) && injected == old(injected) + texts
    {
      texts := pending;
      injected := injected + pending;
      pending := [];
    }

    method ConsumeStopReason() returns (reason: bool)
      requires Valid()
      modifies this`stopped
      ensures Valid() && reason == old(stopped) && !stopped
    {
      reason := stopped;
      stopped := false;
    }
  }

  /** `best` is the most frequent element, the first seen among equals. */
  ghost predicate IsHottest(xs: seq<string>, best: string, count: nat) {
    if |xs| == 0 then best == "" && count == 0
    else
      exists at :: 0 <= at < |xs| && Leads(xs, |xs|, at, count) && best == xs[at]
  }

  /** Among the first `k` elements the one at `at` is the first of the greatest count. */
  ghost predicate Leads(xs: seq<string>, k: nat, at: nat, count: nat) {
    && at < k <= |xs| && count == Count(xs, xs[at])
    && (forall j :: 0 <= j < k ==> Count(xs, xs[j]) <= count)
    && (forall j :: 0 <= j < at ==> Count(xs, xs[j]) < count)
  }

  ghost predicate SomeToolReaches(xs: seq<string>, limit: int) {
    limit <= 0 || exists j :: 0 <= j < |xs| && Count(xs, xs[j]) >= limit
  }

  method MostCommon(xs: seq<string>) returns (best: string, count: nat)
    ensures IsHottest(xs, best, count)
  {
    best, count := "", 0;
    ghost var at := 0;
    for k := 0 to |xs|
      invariant k == 0 ==> best == "" && count == 0
      invariant k > 0 ==> Leads(xs, k, at, count) && best == xs[at]
    {
      var c := Count(xs, xs[k]);
      CountAbsent(xs, xs[k]);
      if c > count {
        best, count, at := xs[k], c, k;
      }
    }
  }

  lemma HottestReaches(xs: seq<string>, best: string, count: nat, limit: int)
    requires IsHottest(xs, best, count)
    ensures count >= limit <==> SomeToolReaches(xs, limit)
  {
  }
}
