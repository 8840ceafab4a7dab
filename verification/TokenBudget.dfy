/**
 The token budget: a running total over message histories that are observed again and
 again.  The incremental total is proved equal to the sum, over message ids, of the largest
 usage ever seen for the id, which depends only on the set of observations.
 */
module TokenBudget {
  import opened Common

  datatype Message = Message(ai: bool, id: Option<string>, usage: int, calls: nat)

  datatype Seen = Seen(id: string, usage: int)

  /** The observations that count: AI messages with an id and a positive usage. */
  function Counted(messages: seq<Message>): (r: seq<Seen>) {
    if |messages| == 0 then []
    else
      var m := messages[|messages| - 1];
      Counted(messages[..|messages| - 1]) + if Counts(m) then [Seen(m.id.value, m.usage)] else []
  }

  predicate Counts(m: Message) { m.ai && m.id.Some? && m.usage > 0 }

  predicate AllSeen(messages: seq<Message>, obs: seq<Seen>) {
    forall m <- messages :: Counts(m) ==> Seen(m.id.value, m.usage) in obs
  }

  lemma CountedStep(messages: seq<Message>, k: nat)
    requires k < |messages|
    ensures var m := messages[k];
            && (Counts(m) ==> Counted(messages[..k + 1]) == Counted(messages[..k]) + [Seen(m.id.value, m.usage)])
            && (!Counts(m) ==> Counted(messages[..k + 1]) == Counted(messages[..k]))
  {
    assert messages[..k + 1][..k] == messages[..k];
  }

  // ---- the reference: largest usage per id ---------------------------------

  /** `m` maps every observed id, and no other, to its largest observed usage. */
  ghost predicate IsLargest(m: map<string, nat>, obs: seq<Seen>) {
    && (forall o <- obs :: o.id in m && o.usage <= m[o.id])
    && (forall id <- m.Keys :: exists o <- obs :: o.id == id && o.usage == m[id])
  }

  /** Sum of the values of a map. */
  ghost function Sum(m: map<string, nat>): nat
    decreases |m|
  {
    if m == map[] then 0
    else
      var k :| k in m;
      m[k] + Sum(m - {k})
  }

  lemma {:induction false} SumWithout(m: map<string, nat>, k: string)
    requires k in m
    ensures Sum(m) == m[k] + Sum(m - {k})
    decreases |m|
  {
    var c :| c in m && Sum(m) == m[c] + Sum(m - {c});
    if c != k {
      SumWithout(m - {c}, k);
      SumWithout(m - {k}, c);
      assert m - {c} - {k} == m - {k} - {c};
    }
  }

  lemma SumUpdate(m: map<string, nat>, k: string, v: nat)
    ensures Sum(m[k := v]) == Sum(m) - (if k in m then m[k] else 0) + v
  {
    var m' := m[k := v];
    SumWithout(m', k);
    if k in m {
      SumWithout(m, k);
      assert m' - {k} == m - {k};
    } else {
      assert m' - {k} == m;
    }
  }

  /** The largest-usage map is determined by which observations were made: order and
      repetition do not matter. */
  lemma LargestUnique(m1: map<string, nat>, obs1: seq<Seen>, m2: map<string, nat>, obs2: seq<Seen>)
    requires IsLargest(m1, obs1) && IsLargest(m2, obs2)
    requires forall o :: o in obs1 <==> o in obs2
    ensures m1 == m2
  {
    LargestWithin(m1, obs1, m2, obs2);
    LargestWithin(m2, obs2, m1, obs1);
    assert m1.Keys == m2.Keys;
    forall id | id in m1
      ensures m1[id] == m2[id]
    {
    }
  }

  /** More observations only raise the entries. */
  lemma LargestWithin(m1: map<string, nat>, obs1: seq<Seen>, m2: map<string, nat>, obs2: seq<Seen>)
    requires IsLargest(m1, obs1) && IsLargest(m2, obs2)
    requires forall o <- obs1 :: o in obs2
    ensures forall id <- m1.Keys :: id in m2 && m1[id] <= m2[id]
  {
    forall id | id in m1.Keys
      ensures id in m2 && m1[id] <= m2[id]
    {
      var o :| o in obs1 && o.id == id && o.usage == m1[id];
      assert o in obs2;
    }
  }

  lemma {:induction false} SumMonotone(m1: map<string, nat>, m2: map<string, nat>)
    requires forall id <- m1.Keys :: id in m2 && m1[id] <= m2[id]
    ensures Sum(m1) <= Sum(m2)
    decreases |m1|
  {
    if m1 != map[] {
      var k :| k in m1 && Sum(m1) == m1[k] + Sum(m1 - {k});
      SumWithout(m2, k);
      SumMonotone(m1 - {k}, m2 - {k});
    }
  }

  /** More observations never lower the total. */
  lemma MoreObserved(m1: map<string, nat>, obs1: seq<Seen>, m2: map<string, nat>, obs2: seq<Seen>)
    requires IsLargest(m1, obs1) && IsLargest(m2, obs2)
    requires forall o <- obs1 :: o in obs2
    ensures Sum(m1) <= Sum(m2)
  {
    LargestWithin(m1, obs1, m2, obs2);
    SumMonotone(m1, m2);
  }

  lemma {:induction false} CountedFrom(messages: seq<Message>, o: Seen)
    ensures o in Counted(messages) <==>
            exists m <- messages :: m.ai && m.id == Some(o.id) && m.usage == o.usage && m.usage > 0
    decreases |messages|
  {
    if |messages| > 0 {
      var front, m := messages[..|messages| - 1], messages[|messages| - 1];
      assert messages == front + [m];
      CountedFrom(front, o);
    }
  }

  /** Observing a history again, in any order and with any repetition, changes nothing. */
  lemma Reobserved(m1: map<string, nat>, m2: map<string, nat>, before: seq<Seen>, again: seq<Message>)
    requires IsLargest(m1, before) && IsLargest(m2, before + Counted(again))
    requires AllSeen(again, before)
    ensures m1 == m2 && Sum(m1) == Sum(m2)
  {
    forall o
      ensures o in before <==> o in before + Counted(again)
    {
      CountedFrom(again, o);
    }
    LargestUnique(m1, before, m2, before + Counted(again));
  }

  // ---- the middleware ------------------------------------------------------

  /** What one call decides: strip the calls of the last message, fail while formatting the
      warning (a zero budget), or nothing visible. */
  datatype Verdict = Quiet | Stripped | Raised

  /** `int(...)` of a float. */
  function Truncated(x: real): int { if x >= 0.0 then x.Floor else -((-x).Floor) }

  /** The nearest integer towards zero. */
  lemma TruncatedTowardsZero(x: real)
    ensures x >= 0.0 ==> 0 <= Truncated(x) && Truncated(x) as real <= x < Truncated(x) as real + 1.0
    ensures x <= 0.0 ==> Truncated(x) <= 0 && Truncated(x) as real - 1.0 < x <= Truncated(x) as real
  {
  }

  class Budget {
    const budget: int
    const warnAt: int
    var seen: map<string, nat>
    var total: nat
    var warned: bool
    var pending: nat
    var stopped: bool

    ghost var obs: seq<Seen>
    ghost var injected: nat

    ghost predicate Valid()
      reads this
    {
      && IsLargest(seen, obs) && total == Sum(seen)
      && pending + injected == (if warned && budget != 0 then 1 else 0)
      && (budget == 0 ==> warnAt == 0)
    }

    constructor (budget: int, warnFraction: real)
      ensures Valid() && total == 0 && obs == [] && !warned && !stopped
      ensures this.budget == budget && this.warnAt == Truncated(budget as real * warnFraction)
    {
      this.budget, this.warnAt := budget, Truncated(budget as real * warnFraction);
      seen, total, warned, pending, stopped := map[], 0, false, 0, false;
      obs, injected := [], 0;
    }

    /** Adds a history to the total: the total stays the sum of the largest usages. */
    method Observe(messages: seq<Message>)
      requires Valid()
      modifies this`seen, this`total, this`obs
      ensures Valid() && obs == old(obs) + Counted(messages)
      ensures total >= old(total)
      ensures AllSeen(messages, old(obs)) ==> total == old(total)
    {
      for k := 0 to |messages|
        invariant Valid() && total >= old(total)
        invariant obs == old(obs) + Counted(messages[..k])
      {
        var m := messages[k];
        CountedStep(messages, k);
        if Counts(m) {
          Add(m.id.value, m.usage);
        }
      }
      assert messages[..|messages|] == messages;
      if AllSeen(messages, old(obs)) {
        Reobserved(old(seen), seen, old(obs), messages);
      }
    }

    method Add(id: string, current: nat)
      requires Valid()
      modifies this`seen, this`total, this`obs
      ensures Valid() && obs == old(obs) + [Seen(id, current)] && total >= old(total)
    {
      var known := if id in seen then seen[id] else 0;
      var diff := if current > known then current - known else 0;
      SumUpdate(seen, id, if current > known then current else known);
      Largest(seen, obs, id, current);
      seen := seen[id := if current > known then current else known];
      total := total + diff;
      obs := obs + [Seen(id, current)];
    }

    static lemma Largest(m: map<string, nat>, obs: seq<Seen>, id: string, current: nat)
      requires IsLargest(m, obs)
      ensures IsLargest(m[id := if id in m && current <= m[id] then m[id] else current], obs + [Seen(id, current)])
    {
      var m' := m[id := if id in m && current <= m[id] then m[id] else current];
      var obs' := obs + [Seen(id, current)];
      forall k | k in m'.Keys
        ensures exists o <- obs' :: o.id == k && o.usage == m'[k]
      {
        if k == id && m'[k] == current {
          assert obs'[|obs|] == Seen(id, current);
        } else {
          var o :| o in obs && o.id == k && o.usage == m[k];
          assert o in obs';
        }
      }
    }

    method AfterModel(messages: seq<Message>) returns (verdict: Verdict)
      requires Valid()
      modifies this
      ensures Valid() && obs == old(obs) + Counted(messages) && total >= old(total) && injected == old(injected)
      ensures verdict == Stripped <==>
              |messages| > 0 && messages[|messages| - 1].ai && messages[|messages| - 1].calls > 0 && total >= budget
      ensures verdict == Stripped ==> stopped && warned == old(warned)
      ensures verdict != Stripped ==> stopped == old(stopped)
      ensures verdict != Stripped ==>
                warned == (old(warned) || (|messages| > 0 && messages[|messages| - 1].ai && total >= warnAt))
      ensures verdict == Raised <==>
              && budget == 0 && !old(warned)
              && |messages| > 0 && messages[|messages| - 1].ai && messages[|messages| - 1].calls == 0
    {
      Observe(messages);
      if |messages| == 0 || !messages[|messages| - 1].ai {
        return Quiet;
      }
      var last := messages[|messages| - 1];
      if total >= budget && last.calls > 0 {
        stopped := true;
        return Stripped;
      }
      if total >= warnAt && !warned {
        warned := true;
        if budget == 0 {
          return Raised;
        }
        pending := pending + 1;
      }
      return Quiet;
    }

    /** Before the next model call the queued warning is injected: once in a run. */
    method Drain() returns (n: nat)
      requires Valid()
      modifies this`pending, this`injected
      ensures Valid() && n == old(pending) && pending == 0 && injected == old(injected) + n && injected <= 1
    {
      n := pending;
      injected := injected + n;
      pending := 0;
    }
  }

  /** With a zero budget the first reply without calls fails, whatever the fraction. */
  method ZeroBudgetRaises(warnFraction: real, reply: Message) returns (verdict: Verdict)
    requires reply.ai && reply.calls == 0
    ensures verdict == Raised
  {
    var budget := new Budget(0, warnFraction);
    verdict := budget.AfterModel([reply]);
  }
}
