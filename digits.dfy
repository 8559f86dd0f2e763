/**
 * Order and reservation numbers: a random six-digit number printed in decimal
 * after a tag (`ORD-…`, `RES-…`).
 */
module Digits {

  /** `Math.floor(100000 + Math.random() * 900000)`, the draw in [0, 1) passed in. */
  function IdNumber(random: real): (n: int)
    requires 0.0 <= random < 1.0
    ensures 100000 <= n <= 999999
  {
    (100000.0 + random * 900000.0).Floor
  }

  predicate IsDigit(c: char) { '0' <= c <= '9' }

  function DigitChar(d: nat): (c: char)
    requires d < 10
    ensures IsDigit(c) && c as int - '0' as int == d
  {
    ('0' as int + d) as char
  }

  /** The decimal text of `n`, without leading zeros, as a template literal prints it. */
  function DecimalString(n: nat): (s: string)
    ensures |s| >= 1
    ensures forall i :: 0 <= i < |s| ==> IsDigit(s[i])
  {
    if n < 10 then [DigitChar(n)] else DecimalString(n / 10) + [DigitChar(n % 10)]
  }

  /** Reads a string of decimal digits back as a number. */
  function ParseDecimal(s: string): nat
    requires forall i :: 0 <= i < |s| ==> IsDigit(s[i])
  {
    if s == [] then 0
    else
      assert IsDigit(s[|s| - 1]);
      ParseDecimal(s[..|s| - 1]) * 10 + (s[|s| - 1] as int - '0' as int)
  }

  /** Printing then reading a number gives it back. */
  lemma {:induction false} ParseDecimalString(n: nat)
    ensures ParseDecimal(DecimalString(n)) == n
  {
    var s := DecimalString(n);
    if n >= 10 {
      ParseDecimalString(n / 10);
      assert s[..|s| - 1] == DecimalString(n / 10);
    }
  }

  function Pow10(k: nat): (p: nat)
    ensures p >= 1
  {
    if k == 0 then 1 else 10 * Pow10(k - 1)
  }

  /** A number in [10^(k-1), 10^k) prints with exactly k digits. */
  lemma {:induction false} DigitCount(n: nat, k: nat)
    requires k >= 1 && Pow10(k - 1) <= n < Pow10(k)
    ensures |DecimalString(n)| == k
  {
    if k > 1 {
      DigitCount(n / 10, k - 1);
    }
  }

  /** A tag followed by the number's digits. */
  function TaggedId(tag: string, n: nat): (id: string)
    ensures |id| > |tag| && id[..|tag|] == tag
  {
    tag + DecimalString(n)
  }

  /** Two numbers give the same id under one tag only if they are equal. */
  lemma TaggedIdInjective(tag: string, a: nat, b: nat)
    requires TaggedId(tag, a) == TaggedId(tag, b)
    ensures a == b
  {
    assert TaggedId(tag, a)[|tag|..] == DecimalString(a);
    assert TaggedId(tag, b)[|tag|..] == DecimalString(b);
    ParseDecimalString(a);
    ParseDecimalString(b);
  }

  /** A drawn id number is printed with exactly six digits. */
  lemma DrawnIdLength(tag: string, random: real)
    requires 0.0 <= random < 1.0
    ensures |TaggedId(tag, IdNumber(random))| == |tag| + 6
  {
    assert Pow10(5) == 100000 && Pow10(6) == 1000000;
    DigitCount(IdNumber(random), 6);
  }
}
