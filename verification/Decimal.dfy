/** Decimal numerals: the printer and the parser of the ids the system writes into text. */
module Decimal {
  predicate IsDigit(c: char) { '0' <= c <= '9' }

  predicate AllDigits(s: string) { forall c <- s :: IsDigit(c) }

  function Digit(d: nat): char
    requires d < 10
  {
    '0' + d as char
  }

  function Value(c: char): (d: nat)
    requires IsDigit(c)
    ensures d < 10 && Digit(d) == c
  {
    (c as int - '0' as int) as nat
  }

  /** The shortest numeral: no leading zero except for zero itself. */
  function Print(n: nat): string {
    if n < 10 then [Digit(n)] else Print(n / 10) + [Digit(n % 10)]
  }

  /** `int(...)` on a run of digits; leading zeros are allowed. */
  function Parse(s: string): nat
    requires AllDigits(s)
  {
    if |s| == 0 then 0 else 10 * Parse(s[..|s| - 1]) + Value(s[|s| - 1])
  }

  /** The numerals `[1-9]\d*`. */
  predicate Canonical(s: string) { |s| > 0 && AllDigits(s) && s[0] != '0' }

  lemma {:induction false} PrintIsDigits(n: nat)
    ensures |Print(n)| > 0 && AllDigits(Print(n))
    ensures n > 0 ==> Print(n)[0] != '0'
    decreases n
  {
    if n >= 10 {
      PrintIsDigits(n / 10);
    }
  }

  /** Printing and parsing are inverse. */
  lemma {:induction false} ParsePrint(n: nat)
    ensures AllDigits(Print(n)) && Parse(Print(n)) == n
    decreases n
  {
    PrintIsDigits(n);
    if n >= 10 {
      ParsePrint(n / 10);
      assert Print(n)[..|Print(n)| - 1] == Print(n / 10);
    }
  }

  /** ... both ways, on numerals without a leading zero. */
  lemma {:induction false} PrintParse(s: string)
    requires Canonical(s)
    ensures Parse(s) > 0 && Print(Parse(s)) == s
    decreases |s|
  {
    var k := |s| - 1;
    if k == 0 {
      assert s == [s[0]] && s[..0] == [];
      assert Parse(s) == Value(s[0]);
    } else {
      assert s[..k][0] == s[0];
      PrintParse(s[..k]);
      var n := Parse(s);
      assert n / 10 == Parse(s[..k]) && n % 10 == Value(s[k]);
      assert n >= 10;
      assert s == s[..k] + [s[k]];
    }
  }

  lemma PrintInjective(m: nat, n: nat)
    requires Print(m) == Print(n)
    ensures m == n
  {
    ParsePrint(m);
    ParsePrint(n);
  }

  function Power10(k: nat): nat { if k == 0 then 1 else 10 * Power10(k - 1) }

  /** A number below 10^k has at most k digits. */
  lemma {:induction false} PrintLength(n: nat, k: nat)
    requires k > 0
    ensures |Print(n)| <= k <==> n < Power10(k)
    decreases k
  {
    if k == 1 {
      assert Power10(1) == 10 * Power10(0);
      if n >= 10 {
        PrintIsDigits(n / 10);
      }
    } else if n >= 10 {
      PrintLength(n / 10, k - 1);
      assert n < 10 * Power10(k - 1) <==> n / 10 < Power10(k - 1);
    } else {
      PrintLength(n, k - 1);
    }
  }

  /** Signed integers, as the ledger prints byte counts. */
  function PrintInt(n: int): string { if n < 0 then "-" + Print(-n) else Print(n) }
}
