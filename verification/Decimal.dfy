/** Strings of decimal digits and the numbers they spell. */
module Decimal {
  import opened Text

  predicate IsDigit(c: char) {
    '0' <= c <= '9'
  }

  predicate AllDigits(s: string) {
    forall i :: 0 <= i < |s| ==> IsDigit(s[i])
  }

  function Digit(c: char): nat
    requires IsDigit(c)
  {
    c as int - '0' as int
  }

  function Pow10(n: nat): (p: nat)
    ensures p >= 1
  {
    if n == 0 then 1 else 10 * Pow10(n - 1)
  }

  /** The number a string of digits spells; the empty string spells zero. */
  function Val(s: string): nat
    requires AllDigits(s)
  {
    if s == [] then 0 else Val(s[..|s| - 1]) * 10 + Digit(s[|s| - 1])
  }

  lemma {:induction false} Pow10Adds(a: nat, b: nat)
    ensures Pow10(a + b) == Pow10(a) * Pow10(b)
  {
    if a > 0 { Pow10Adds(a - 1, b); }
  }

  lemma {:induction false} Pow10Monotone(a: nat, b: nat)
    requires a <= b
    ensures Pow10(a) <= Pow10(b)
  {
    if a < b {
      Pow10Monotone(a, b - 1);
    }
  }

  lemma {:induction false} ValOfConcat(a: string, b: string)
    requires AllDigits(a) && AllDigits(b)
    ensures AllDigits(a + b) && Val(a + b) == Val(a) * Pow10(|b|) + Val(b)
  {
    if b == [] {
      assert a + b == a;
    } else {
      var init, last := b[..|b| - 1], Digit(b[|b| - 1]);
      ValOfConcat(a, init);
      assert (a + b)[..|a + b| - 1] == a + init;
      assert Val(a + b) == Val(a + init) * 10 + last;
      ShiftDistributes(Val(a), Pow10(|init|), Val(init), last);
    }
  }

  /** Appending a digit shifts both halves by one place. */
  lemma ShiftDistributes(v: int, p: int, w: int, d: int)
    ensures (v * p + w) * 10 + d == v * (10 * p) + (w * 10 + d)
  {
  }

  lemma {:induction false} ValBound(s: string)
    requires AllDigits(s)
    ensures Val(s) < Pow10(|s|)
  {
    if s != [] { ValBound(s[..|s| - 1]); }
  }

  lemma {:induction false} ValOfZeros(n: nat)
    ensures AllDigits(Repeat('0', n)) && Val(Repeat('0', n)) == 0
  {
    if n > 0 {
      ValOfZeros(n - 1);
      ValOfConcat(['0'], Repeat('0', n - 1));
      assert Val(['0']) == Val([]) * 10 + 0 by { assert ['0'][..0] == []; }
    }
  }

  /** Digits of one length spell different numbers unless they are the same digits. */
  lemma {:induction false} ValIsInjective(a: string, b: string)
    requires AllDigits(a) && AllDigits(b) && |a| == |b| && Val(a) == Val(b)
    ensures a == b
  {
    if a != [] {
      var n := |a| - 1;
      assert Digit(a[n]) == Val(a) % 10 == Digit(b[n]);
      ValIsInjective(a[..n], b[..n]);
      assert a == a[..n] + [a[n]] && b == b[..n] + [b[n]];
    }
  }

  /** Leading zeros spell nothing. */
  lemma {:induction false} LeadingZerosDoNotCount(s: string)
    requires AllDigits(s)
    ensures AllDigits(TrimLeading(s, '0')) && Val(TrimLeading(s, '0')) == Val(s)
  {
    if s != [] && s[0] == '0' {
      LeadingZerosDoNotCount(s[1..]);
      assert s == ['0'] + s[1..];
      ValOfConcat(['0'], s[1..]);
      assert ['0'][..0] == [];
    }
  }

  /** A number with a non-zero first digit is at least that power of ten. */
  lemma LeadingDigitBounds(s: string)
    requires AllDigits(s) && s != [] && s[0] != '0'
    ensures Pow10(|s| - 1) <= Val(s)
  {
    assert s == [s[0]] + s[1..];
    ValOfConcat([s[0]], s[1..]);
    assert [s[0]][..0] == [];
    assert Val([s[0]]) >= 1;
  }

  /** Without spare leading zeros, a number has one spelling. */
  lemma SpellingIsUnique(a: string, b: string)
    requires AllDigits(a) && AllDigits(b) && Val(a) == Val(b)
    requires (a == [] || a[0] != '0') && (b == [] || b[0] != '0')
    ensures a == b
  {
    ValBound(a);
    ValBound(b);
    if |a| < |b| {
      LeadingDigitBounds(b);
      Pow10Monotone(|a|, |b| - 1);
    } else if |b| < |a| {
      LeadingDigitBounds(a);
      Pow10Monotone(|b|, |a| - 1);
    }
    ValIsInjective(a, b);
  }

  // ----- Printing

  /** `String(n)` for a whole number. */
  function Print(n: nat): (s: string)
    ensures s != [] && AllDigits(s) && Val(s) == n
    ensures |s| > 1 ==> s[0] != '0'
  {
    var last := ['0' + (n % 10) as char];
    if n < 10 then
      assert last[..0] == [];
      last
    else
      var init := Print(n / 10);
      assert (init + last)[..|init|] == init;
      assert |init| > 1 || init[0] != '0' by {
        if |init| == 1 { assert init[..0] == []; }
      }
      init + last
  }
}
