/** `cards.card_number_key`, the generated column `ltrim(split_part(card_number, '/', 1), '0')`. */
module CardNumbers {
  import opened Text
  import opened Decimal

  function CardNumberKey(number: string): string {
    TrimLeading(Before(number, '/'), '0')
  }

  lemma {:induction false} TrimLeadingStops(s: string, c: char)
    ensures TrimLeading(s, c) == [] || TrimLeading(s, c)[0] != c
    ensures forall d :: d !in s ==> d !in TrimLeading(s, c)
  {
    if s != [] && s[0] == c {
      TrimLeadingStops(s[1..], c);
    }
  }

  /** Zeros before the key, and nothing or a slash and more after it. */
  predicate Surrounds(number: string, zeros: string, key: string, rest: string) {
    && number == zeros + key + rest
    && (forall i :: 0 <= i < |zeros| ==> zeros[i] == '0')
    && (rest == "" || rest[0] == '/')
  }

  /** The key of any number: what stands before the first slash, without its leading zeros. */
  lemma KeyIs(number: string, key: string)
    ensures CardNumberKey(number) == key <==>
              && (key == "" || key[0] != '0') && '/' !in key
              && exists zeros, rest :: Surrounds(number, zeros, key, rest)
  {
    if CardNumberKey(number) == key {
      var zeros, rest := WhatKeyLeavesOut(number);
      BeforeAndAfter(number, '/');
      TrimLeadingStops(Before(number, '/'), '0');
      assert Surrounds(number, zeros, key, rest);
    }
    forall zeros, rest | (key == "" || key[0] != '0') && '/' !in key && Surrounds(number, zeros, key, rest)
      ensures CardNumberKey(number) == key
    {
      KeyOf(zeros, key, rest);
    }
    hide CardNumberKey, Surrounds;
  }

  lemma KeyOf(zeros: string, key: string, rest: string)
    requires (key == "" || key[0] != '0') && '/' !in key
    requires forall i :: 0 <= i < |zeros| ==> zeros[i] == '0'
    requires rest == "" || rest[0] == '/'
    ensures CardNumberKey(zeros + key + rest) == key
  {
    if rest == "" {
      assert zeros + key + rest == zeros + key;
      BeforeAndAfter(zeros + key, '/');
    } else {
      assert zeros + key + rest == (zeros + key) + ['/'] + rest[1..];
      SplitAt(zeros + key, '/', rest[1..]);
    }
    LeadingTaken(zeros, key, '0');
  }

  lemma WhatKeyLeavesOut(number: string) returns (zeros: string, rest: string)
    ensures forall i :: 0 <= i < |zeros| ==> zeros[i] == '0'
    ensures rest == "" || rest[0] == '/'
    ensures number == zeros + CardNumberKey(number) + rest
  {
    BeforeAndAfter(number, '/');
    zeros := WhatTrimLeadingTakes(Before(number, '/'), '0');
    rest := if '/' in number then ['/'] + After(number, '/') else [];
  }

  lemma {:induction false} WhatTrimLeadingTakes(s: string, c: char) returns (taken: string)
    ensures forall i :: 0 <= i < |taken| ==> taken[i] == c
    ensures s == taken + TrimLeading(s, c)
  {
    if s != [] && s[0] == c {
      var rest := WhatTrimLeadingTakes(s[1..], c);
      taken := [c] + rest;
    } else {
      taken := [];
    }
  }

  lemma {:induction false} LeadingTaken(taken: string, rest: string, c: char)
    requires forall i :: 0 <= i < |taken| ==> taken[i] == c
    requires rest == "" || rest[0] != c
    ensures TrimLeading(taken + rest, c) == rest
  {
    if taken != [] {
      LeadingTaken(taken[1..], rest, c);
      assert (taken + rest)[1..] == taken[1..] + rest;
    } else {
      assert taken + rest == rest;
    }
  }

  /** A key is its own key: matching on it is stable under generating it again. */
  lemma KeyIsIdempotent(number: string)
    ensures CardNumberKey(CardNumberKey(number)) == CardNumberKey(number)
  {
    var key := CardNumberKey(number);
    BeforeAndAfter(number, '/');
    TrimLeadingStops(Before(number, '/'), '0');
    BeforeAndAfter(key, '/');
  }

  /** Whatever is printed from the first slash on makes no difference. */
  lemma KeyIgnoresTheDenominator(numerator: string, rest: string)
    requires '/' !in numerator
    ensures CardNumberKey(numerator + ['/'] + rest) == CardNumberKey(numerator)
  {
    SplitAt(numerator, '/', rest);
  }

  lemma {:induction false} DigitsHaveNoSlash(s: string)
    requires AllDigits(s)
    ensures '/' !in s && Before(s, '/') == s
  {
    BeforeAndAfter(s, '/');
  }

  /**
    For numbers printed with digits, of any length, two cards share a key exactly when their numerators are
    the same number.
   */
  lemma KeysAgreeIffNumeratorsDo(a: string, b: string, restA: string, restB: string)
    requires AllDigits(a) && AllDigits(b)
    ensures CardNumberKey(a + ['/'] + restA) == CardNumberKey(b + ['/'] + restB) <==> Val(a) == Val(b)
  {
    DigitsHaveNoSlash(a);
    DigitsHaveNoSlash(b);
    KeyIgnoresTheDenominator(a, restA);
    KeyIgnoresTheDenominator(b, restB);
    LeadingZerosDoNotCount(a);
    LeadingZerosDoNotCount(b);
    TrimLeadingStops(a, '0');
    TrimLeadingStops(b, '0');
    if Val(a) == Val(b) {
      SpellingIsUnique(TrimLeading(a, '0'), TrimLeading(b, '0'));
    }
  }

  /** What a user types off the card finds it: the key of a printed number is its numerator as it is said. */
  lemma TypedNumberFindsTheCard(n: nat, zeros: nat, rest: string)
    requires n > 0
    ensures CardNumberKey(Repeat('0', zeros) + Print(n) + ['/'] + rest) == Print(n)
  {
    hide Print;
    var numerator := Repeat('0', zeros) + Print(n);
    ValOfZeros(zeros);
    ValOfConcat(Repeat('0', zeros), Print(n));
    DigitsHaveNoSlash(numerator);
    KeyIgnoresTheDenominator(numerator, rest);
    LeadingZerosDoNotCount(numerator);
    TrimLeadingStops(numerator, '0');
    PrintedNumbersStartWithADigit(n);
    SpellingIsUnique(TrimLeading(numerator, '0'), Print(n));
  }

  lemma PrintedNumbersStartWithADigit(n: nat)
    requires n > 0
    ensures Print(n)[0] != '0'
  {
    if |Print(n)| == 1 {
      assert Print(n)[..0] == [];
      assert Val(Print(n)) == Digit(Print(n)[0]);
    }
  }
}
