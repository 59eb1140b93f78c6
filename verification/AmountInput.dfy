/** Money and percentages typed into a field, read as strings of digits and never as floats. */
module AmountInput {
  import opened Text
  import opened Decimal

  datatype ParsedAmount = Blank | Amount(value: string) | Invalid

  const PROPORTION_PLACES := 4

  // ----- Grammars

  function Whole(s: string): string {
    Before(s, '.')
  }

  /** The second piece of `s.split(".")`, empty when there is none. */
  function FractionPart(s: string): string {
    Before(After(s, '.'), '.')
  }

  /** `\d{low,high}` on the whole, then optionally a point and one or two digits: the shape of both field grammars. */
  predicate MatchesField(s: string, longest: nat) {
    && 1 <= |Whole(s)| <= longest && AllDigits(Whole(s))
    && ('.' in s ==> 1 <= |After(s, '.')| <= 2 && AllDigits(After(s, '.')))
  }

  /** The regular expression `^\d+(?:\.\d{1,2})?$`. */
  predicate MatchesAmount(s: string) {
    MatchesField(s, |s|)
  }

  /** The regular expression `^\d{1,3}(?:\.\d{1,2})?$`. */
  predicate MatchesPercent(s: string) {
    MatchesField(s, 3)
  }

  /** The grammar, written forwards: some digits, alone or with a point and one or two more. */
  lemma FieldsAre(s: string, longest: nat)
    ensures MatchesField(s, longest) <==>
              exists whole, cents ::
                && 1 <= |whole| <= longest && AllDigits(whole) && AllDigits(cents)
                && (s == whole || (1 <= |cents| <= 2 && s == whole + "." + cents))
  {
    if MatchesField(s, longest) {
      BeforeAndAfter(s, '.');
      assert [] + s == s;
      if '.' in s {
        assert s == Whole(s) + "." + After(s, '.');
      } else {
        assert s == Whole(s) && AllDigits("");
      }
    }
    forall whole, cents |
      && 1 <= |whole| <= longest && AllDigits(whole) && AllDigits(cents)
      && (s == whole || (1 <= |cents| <= 2 && s == whole + "." + cents))
      ensures MatchesField(s, longest)
    {
      assert '.' !in whole && '.' !in cents;
      SplitAt(whole, '.', cents);
    }
  }

  /** A money field takes any number of digits before the point, a percentage at most three. */
  lemma FieldGrammars(s: string)
    ensures MatchesAmount(s) <==>
              exists whole, cents ::
                && whole != "" && AllDigits(whole) && AllDigits(cents)
                && (s == whole || (1 <= |cents| <= 2 && s == whole + "." + cents))
    ensures MatchesPercent(s) <==>
              exists whole, cents ::
                && 1 <= |whole| <= 3 && AllDigits(whole) && AllDigits(cents)
                && (s == whole || (1 <= |cents| <= 2 && s == whole + "." + cents))
  {
    FieldsAre(s, |s|);
    FieldsAre(s, 3);
    hide MatchesField;
  }

  // ----- The source's functions

  function ParseAmount(raw: string): ParsedAmount {
    var trimmed := Trim(raw);
    if trimmed == "" then Blank
    else if MatchesAmount(trimmed) then Amount(trimmed)
    else Invalid
  }

  /** The digits of a percent moved up two places. */
  function PercentDigits(s: string): string {
    Whole(s) + PadEnd(FractionPart(s), 2, '0')
  }

  /** A point put in front of the last `places` characters. */
  function Pointed(s: string, places: nat): string
    requires places <= |s|
  {
    s[..|s| - places] + "." + s[|s| - places..]
  }

  lemma PercentDigitsAreDigits(s: string)
    requires MatchesPercent(s)
    ensures AllDigits(PercentDigits(s)) && |PercentDigits(s)| <= 5
  {
    FractionIsDigits(s, 3);
    ValOfZeros(2 - |FractionPart(s)|);
  }

  lemma FractionIsDigits(s: string, longest: nat)
    requires MatchesField(s, longest)
    ensures FractionPart(s) == After(s, '.') && AllDigits(FractionPart(s)) && |FractionPart(s)| <= 2
  {
    BeforeAndAfter(s, '.');
    BeforeAndAfter(After(s, '.'), '.');
  }

  function ParsePercent(raw: string): ParsedAmount {
    var trimmed := Trim(raw);
    if trimmed == "" then Blank
    else if !MatchesPercent(trimmed) then Invalid
    else
      PercentDigitsAreDigits(trimmed);
      var digits := PercentDigits(trimmed);
      if Val(digits) > 10000 then Invalid
      else Amount(Pointed(PadStart(digits, PROPORTION_PLACES + 1, '0'), PROPORTION_PLACES))
  }

  /** `replace(/^0+(?=\d)/, "")`: leading zeros go while a digit follows them. */
  function StripLeadingZeros(s: string): string {
    if |s| > 1 && s[0] == '0' && IsDigit(s[1]) then StripLeadingZeros(s[1..]) else s
  }

  function TrimTrailing(s: string, c: char): string {
    if s != [] && s[|s| - 1] == c then TrimTrailing(s[..|s| - 1], c) else s
  }

  /** `replace(/\.?0+$/, "")`: trailing zeros go, and a point left bare with them. */
  function StripTrailingZeros(s: string): string {
    var rest := TrimTrailing(s, '0');
    if rest == s then s
    else if rest != [] && rest[|rest| - 1] == '.' then rest[..|rest| - 1]
    else rest
  }

  /** The digits of a proportion, cut or filled to four places. */
  function ProportionDigits(s: string): string {
    Whole(s) + PadEnd(FractionPart(s), PROPORTION_PLACES, '0')[..PROPORTION_PLACES]
  }

  function ProportionToPercent(proportion: string): string {
    var padded := PadStart(ProportionDigits(Trim(proportion)), 3, '0');
    var point := |padded| - 2;
    StripTrailingZeros(StripLeadingZeros(padded[..point]) + "." + padded[point..])
  }

  // ----- What the strings mean

  /** Digits, then optionally a point and more digits. */
  predicate IsDecimal(s: string) {
    Whole(s) != "" && AllDigits(Whole(s)) && AllDigits(After(s, '.'))
  }

  function Units(s: string): nat
    requires IsDecimal(s)
  {
    ValOfConcat(Whole(s), After(s, '.'));
    Val(Whole(s) + After(s, '.'))
  }

  function Quotient(a: nat, b: nat): real
    requires b > 0
  {
    a as real / b as real
  }

  /** The number a decimal spells, exactly. */
  function ValueOf(s: string): real
    requires IsDecimal(s)
  {
    Quotient(Units(s), Pow10(|After(s, '.')|))
  }

  /** The shortest spelling: no spare leading zero, no trailing fraction zero, no dangling point. */
  predicate Canonical(s: string) {
    && IsDecimal(s)
    && (|Whole(s)| > 1 ==> Whole(s)[0] != '0')
    && ('.' in s ==> After(s, '.') != "" && After(s, '.')[|After(s, '.')| - 1] != '0')
  }

  lemma FieldIsDecimal(s: string, longest: nat)
    requires MatchesField(s, longest)
    ensures IsDecimal(s)
  {
    BeforeAndAfter(s, '.');
  }

  /** A number written with a point reads back as its two parts. */
  lemma PointedParts(whole: string, fraction: string)
    requires whole != "" && AllDigits(whole) && AllDigits(fraction)
    ensures var s := whole + "." + fraction;
            && Whole(s) == whole && After(s, '.') == fraction && '.' in s
            && IsDecimal(s) && AllDigits(whole + fraction) && Units(s) == Val(whole + fraction)
            && ValueOf(s) == Quotient(Val(whole + fraction), Pow10(|fraction|))
  {
    assert '.' !in whole && '.' !in fraction;
    SplitAt(whole, '.', fraction);
    hide Quotient, Val;
    ValOfConcat(whole, fraction);
  }

  lemma PointedIsDecimal(digits: string, places: nat)
    requires AllDigits(digits) && places < |digits|
    ensures var s := Pointed(digits, places);
            && Whole(s) == digits[..|digits| - places] && After(s, '.') == digits[|digits| - places..]
            && IsDecimal(s) && Units(s) == Val(digits)
            && ValueOf(s) == Quotient(Val(digits), Pow10(places))
  {
    var whole, fraction := digits[..|digits| - places], digits[|digits| - places..];
    assert digits == whole + fraction;
    hide Val, Quotient, IsDecimal;
    PointedParts(whole, fraction);
  }

  lemma PadStartKeepsTheNumber(s: string, n: nat)
    requires AllDigits(s)
    ensures AllDigits(PadStart(s, n, '0')) && Val(PadStart(s, n, '0')) == Val(s)
    ensures |PadStart(s, n, '0')| == if |s| >= n then |s| else n
  {
    if |s| < n {
      ValOfZeros(n - |s|);
      ValOfConcat(Repeat('0', n - |s|), s);
    }
  }

  // ----- Reading a percentage

  lemma SameRatio(a: nat, b: nat, c: nat, d: nat)
    requires b > 0 && d > 0 && a * d == c * b
    ensures Quotient(a, b) == Quotient(c, d)
  {
    var ra, rb, rc, rd := a as real, b as real, c as real, d as real;
    assert ra * rd == (a * d) as real == (c * b) as real == rc * rb;
    var q := rc / rd;
    assert q * rd == rc;
    assert (ra - q * rb) * rd == 0.0;
    assert ra == q * rb;
  }

  lemma PowersOfTen()
    ensures Pow10(0) == 1 && Pow10(1) == 10 && Pow10(2) == 100 && Pow10(3) == 1000 && Pow10(4) == 10000
  {
    assert Pow10(1) == 10 * Pow10(0) && Pow10(2) == 10 * Pow10(1) && Pow10(3) == 10 * Pow10(2)
        && Pow10(4) == 10 * Pow10(3);
  }

  lemma FilledToTwoPlaces(whole: string, fraction: string)
    requires AllDigits(whole) && AllDigits(fraction) && |fraction| <= 2
    ensures var digits := whole + PadEnd(fraction, 2, '0');
            && AllDigits(digits) && AllDigits(whole + fraction)
            && Val(digits) == Val(whole + fraction) * Pow10(2 - |fraction|)
  {
    var zeros := Repeat('0', 2 - |fraction|);
    ValOfZeros(2 - |fraction|);
    ValOfConcat(whole, fraction);
    ValOfConcat(whole + fraction, zeros);
    assert whole + PadEnd(fraction, 2, '0') == whole + fraction + zeros;
  }

  /** The digits are the percentage in hundredths. */
  lemma PercentDigitsAreHundredths(s: string)
    requires MatchesPercent(s)
    ensures AllDigits(PercentDigits(s)) && IsDecimal(s)
    ensures ValueOf(s) == Quotient(Val(PercentDigits(s)), 100)
  {
    FieldIsDecimal(s, 3);
    FractionIsDigits(s, 3);
    PowersOfTen();
    var places := |FractionPart(s)|;
    FilledToTwoPlaces(Whole(s), FractionPart(s));
    hide MatchesPercent, Whole, FractionPart, After, IsDigit, Val, Quotient, AllDigits;
    assert Pow10(places) * Pow10(2 - places) == 100;
    assert Units(s) * 100 == Units(s) * Pow10(2 - places) * Pow10(places);
    SameRatio(Units(s), Pow10(places), Val(PercentDigits(s)), 100);
  }

  /** The stored form of a rate: one digit, a point, four digits. */
  predicate IsStoredRate(s: string) {
    IsDecimal(s) && |Whole(s)| == 1 && |After(s, '.')| == 4
  }

  lemma PaddedPercent(s: string)
    requires MatchesPercent(s) && AllDigits(PercentDigits(s))
    ensures var v := Pointed(PadStart(PercentDigits(s), PROPORTION_PLACES + 1, '0'), PROPORTION_PLACES);
            IsStoredRate(v) && Units(v) == Val(PercentDigits(s)) && ValueOf(v) == Quotient(Val(PercentDigits(s)), 10000)
  {
    PercentDigitsAreDigits(s);
    PadStartKeepsTheNumber(PercentDigits(s), 5);
    PointedIsDecimal(PadStart(PercentDigits(s), 5, '0'), 4);
    PowersOfTen();
  }

  lemma HundredthOf(n: nat)
    ensures Quotient(n, 10000) == Quotient(n, 100) / 100.0
    ensures Quotient(n, 100) <= 100.0 <==> n <= 10000
    ensures n <= 10000 ==> 0.0 <= Quotient(n, 10000) <= 1.0
  {
  }

  /**
    A percentage is taken exactly when it is in the grammar and at most 100, and what is sent is exactly a
    hundredth of what was typed, in the column's own form and inside its CHECK.
   */
  lemma ParsePercentIsExact(raw: string)
    ensures var typed := Trim(raw);
            var parsed := ParsePercent(raw);
            && (parsed.Blank? <==> typed == "")
            && (parsed.Amount? <==> MatchesPercent(typed) && IsDecimal(typed) && ValueOf(typed) <= 100.0)
            && (parsed.Amount? ==>
                  && IsStoredRate(parsed.value)
                  && ValueOf(parsed.value) == ValueOf(typed) / 100.0
                  && 0.0 <= ValueOf(parsed.value) <= 1.0)
  {
    var typed := Trim(raw);
    if MatchesPercent(typed) {
      assert typed != "";
      PercentDigitsAreHundredths(typed);
      PaddedPercent(typed);
      hide MatchesPercent, IsDecimal, IsStoredRate, ValueOf, Pointed, PadStart, PercentDigits, Trim;
      HundredthOf(Val(PercentDigits(typed)));
    }
  }

  /** A money field sends what was typed, untouched, and only if it is a whole number of cents. */
  lemma ParseAmountSendsWhatWasTyped(raw: string)
    ensures var typed := Trim(raw);
            && (ParseAmount(raw).Blank? <==> typed == "")
            && (ParseAmount(raw) == Amount(typed) <==> MatchesAmount(typed))
            && (ParseAmount(raw).Amount? ==>
                  ParseAmount(raw).value == typed && IsDecimal(typed) && IsWholeCents(ValueOf(typed)))
  {
    var typed := Trim(raw);
    if MatchesAmount(typed) {
      assert typed != "";
      FieldIsDecimal(typed, |typed|);
      FractionIsDigits(typed, |typed|);
      PowersOfTen();
      var places := |After(typed, '.')|;
      var cents := Units(typed) * Pow10(2 - places);
      SameRatio(Units(typed), Pow10(places), cents, 100);
      assert ValueOf(typed) * 100.0 == cents as real;
    }
  }

  predicate IsWholeCents(value: real) {
    value >= 0.0 && value * 100.0 == (value * 100.0).Floor as real
  }

  // ----- Showing a proportion

  function Product(x: real, y: real): real {
    x * y
  }

  lemma FloorIs(x: real, n: int)
    requires n as real <= x < n as real + 1.0
    ensures x.Floor == n
  {
  }

  lemma FloorOfQuotient(a: nat, b: nat, q: nat)
    requires b > 0 && q * b <= a < (q + 1) * b
    ensures Quotient(a, b).Floor == q
  {
    QuotientTimes(a, b);
    BoundsAsReals(q * b, a, b);
    RealOfProduct(q, b);
    hide Quotient, Product;
    BoundsByFactor(q as real, Quotient(a, b), b as real);
    FloorIs(Quotient(a, b), q);
  }

  lemma BoundsAsReals(low: nat, a: nat, b: nat)
    requires low <= a < low + b
    ensures low as real <= a as real < low as real + b as real
  {
  }

  lemma RealOfProduct(a: nat, b: nat)
    ensures (a * b) as real == Product(a as real, b as real)
  {
  }

  lemma BoundsByFactor(q: real, x: real, d: real)
    requires d > 0.0 && Product(q, d) <= Product(x, d) < Product(q, d) + d
    ensures q <= x < q + 1.0
  {
    OrderByFactor(q, x, d);
    assert (q + 1.0) * d == q * d + d;
    OrderByFactor(q + 1.0, x, d);
  }

  lemma QuotientTimes(a: nat, b: nat)
    requires b > 0
    ensures Product(Quotient(a, b), b as real) == a as real
  {
  }

  lemma OrderByFactor(x: real, y: real, k: real)
    requires k > 0.0
    ensures x * k <= y * k <==> x <= y
  {
    if x > y { assert (x - y) * k > 0.0; }
    if x <= y { assert (y - x) * k >= 0.0; }
  }

  /** Ten thousand times a quotient. */
  lemma ScaledQuotient(a: nat, b: nat)
    requires b > 0
    ensures Quotient(a, b) * 10000.0 == Quotient(a * 10000, b)
  {
    QuotientTimes(a, b);
    var x := Quotient(a, b) * 10000.0;
    assert x * b as real == Quotient(a, b) * b as real * 10000.0;
    QuotientIs(a * 10000, b, x);
  }

  lemma QuotientIs(a: nat, b: nat, x: real)
    requires b > 0 && x * b as real == a as real
    ensures Quotient(a, b) == x
  {
    assert x * b as real / b as real == x;
  }

  lemma ScaledFloorExact(units: nat, low: nat, high: nat)
    requires low > 0 && low * high == 10000
    ensures (Quotient(units, low) * 10000.0).Floor == units * high
  {
    ScaledQuotient(units, low);
    assert units * 10000 == units * high * low;
    hide Quotient;
    FloorOfQuotient(units * 10000, low, units * high);
  }

  lemma ScaledFloorCut(units: nat, low: nat, kept: nat)
    requires low > 0 && kept * low <= units < (kept + 1) * low
    ensures (Quotient(units, 10000 * low) * 10000.0).Floor == kept
  {
    ScaledQuotient(units, 10000 * low);
    SameRatio(units * 10000, 10000 * low, units, low);
    hide Quotient;
    FloorOfQuotient(units, low, kept);
  }

  /** The value in whole ten-thousandths, rounded down: four places of proportion, two of percent. */
  function TenThousandths(s: string): nat
    requires IsDecimal(s)
  {
    ProportionDigitsRoundDown(s);
    (ValueOf(s) * 10000.0).Floor
  }

  /** Cut or filled to four places, the digits are the value in ten-thousandths, rounded down. */
  lemma ProportionDigitsRoundDown(s: string)
    requires IsDecimal(s)
    ensures AllDigits(ProportionDigits(s)) && |ProportionDigits(s)| == |Whole(s)| + 4
    ensures Val(ProportionDigits(s)) == (ValueOf(s) * 10000.0).Floor
  {
    BeforeAndAfter(After(s, '.'), '.');
    assert FractionPart(s) == After(s, '.');
    hide Quotient, IsDigit, Val;
    if |After(s, '.')| <= 4 {
      FilledDigits(s);
    } else {
      CutDigits(s);
    }
  }

  lemma FilledDigits(s: string)
    requires IsDecimal(s) && FractionPart(s) == After(s, '.') && |After(s, '.')| <= 4
    ensures AllDigits(ProportionDigits(s)) && |ProportionDigits(s)| == |Whole(s)| + 4
    ensures Val(ProportionDigits(s)) == (ValueOf(s) * 10000.0).Floor
  {
    hide Quotient, IsDigit, Val;
    var whole, fraction := Whole(s), After(s, '.');
    var zeros := Repeat('0', 4 - |fraction|);
    PowersOfTen();
    ValOfConcat(whole, fraction);
    ValOfZeros(4 - |fraction|);
    ValOfConcat(whole + fraction, zeros);
    assert PadEnd(fraction, 4, '0')[..4] == fraction + zeros;
    assert ProportionDigits(s) == whole + fraction + zeros;
    Pow10Adds(|fraction|, 4 - |fraction|);
    ScaledFloorExact(Units(s), Pow10(|fraction|), Pow10(4 - |fraction|));
  }

  lemma CutDigits(s: string)
    requires IsDecimal(s) && FractionPart(s) == After(s, '.') && |After(s, '.')| > 4
    ensures AllDigits(ProportionDigits(s)) && |ProportionDigits(s)| == |Whole(s)| + 4
    ensures Val(ProportionDigits(s)) == (ValueOf(s) * 10000.0).Floor
  {
    hide Quotient, IsDigit, Val;
    var whole, fraction := Whole(s), After(s, '.');
    var kept, cut := fraction[..4], fraction[4..];
    PowersOfTen();
    assert fraction == kept + cut;
    assert ProportionDigits(s) == whole + kept;
    ValOfConcat(whole, kept);
    ValOfConcat(whole + kept, cut);
    assert whole + fraction == whole + kept + cut;
    ValBound(cut);
    Pow10Adds(4, |cut|);
    var n, low := Val(whole + kept), Pow10(|cut|);
    assert n * low <= Units(s) < n * low + low == (n + 1) * low;
    ScaledFloorCut(Units(s), low, n);
  }

  lemma {:induction false} StripLeadingZerosIsCanonical(s: string)
    requires s != "" && AllDigits(s)
    ensures var r := StripLeadingZeros(s);
            r != "" && AllDigits(r) && Val(r) == Val(s) && (|r| > 1 ==> r[0] != '0')
  {
    if |s| > 1 && s[0] == '0' {
      StripLeadingZerosIsCanonical(s[1..]);
      assert s == ['0'] + s[1..];
      ValOfConcat(['0'], s[1..]);
      assert ['0'][..0] == [];
    }
  }

  lemma BareWhole(whole: string)
    requires whole != "" && AllDigits(whole)
    ensures Whole(whole) == whole && After(whole, '.') == "" && '.' !in whole && IsDecimal(whole)
    ensures ValueOf(whole) == Quotient(Val(whole), 1)
  {
    BeforeAndAfter(whole, '.');
    assert whole + "" == whole;
  }

  lemma DroppedZero(digits: string)
    requires AllDigits(digits)
    ensures AllDigits(digits + "0") && Val(digits + "0") == Val(digits) * 10
  {
    assert (digits + "0")[..|digits|] == digits;
  }

  /** Trailing zeros after the point spell nothing, and nothing else is taken away. */
  lemma StripTrailingZerosIsCanonical(whole: string, a: char, b: char)
    requires whole != "" && AllDigits(whole) && (|whole| > 1 ==> whole[0] != '0')
    requires IsDigit(a) && IsDigit(b)
    ensures var r := StripTrailingZeros(whole + "." + [a, b]);
            AllDigits(whole + [a, b]) && Canonical(r) && |After(r, '.')| <= 2
                && ValueOf(r) == Quotient(Val(whole + [a, b]), 100)
  {
    assert a != '.' && b != '.';
    hide Quotient, Val, StripTrailingZeros, ValueOf, Canonical, IsDigit;
    StripsTo(whole, a, b);
    if b != '0' {
      TwoPlaces(whole, a, b);
    } else if a != '0' {
      OnePlace(whole, a);
    } else {
      NoPlaces(whole);
    }
  }

  lemma CanonicalPointed(whole: string, fraction: string)
    requires whole != "" && AllDigits(whole) && (|whole| > 1 ==> whole[0] != '0')
    requires fraction != "" && AllDigits(fraction) && fraction[|fraction| - 1] != '0'
    ensures var r := whole + "." + fraction;
            Canonical(r) && After(r, '.') == fraction && AllDigits(whole + fraction)
            && ValueOf(r) == Quotient(Val(whole + fraction), Pow10(|fraction|))
  {
    hide Quotient, Val, ValueOf, Whole, After, IsDecimal;
    PointedParts(whole, fraction);
  }

  lemma TwoPlaces(whole: string, a: char, b: char)
    requires whole != "" && AllDigits(whole) && (|whole| > 1 ==> whole[0] != '0') && IsDigit(a) && IsDigit(b)
            && b != '0'
    ensures var r := whole + "." + [a, b];
            AllDigits(whole + [a, b]) && Canonical(r) && |After(r, '.')| <= 2
                && ValueOf(r) == Quotient(Val(whole + [a, b]), 100)
  {
    hide Quotient, Val, ValueOf, Canonical, IsDigit;
    PowersOfTen();
    CanonicalPointed(whole, [a, b]);
  }

  lemma OnePlace(whole: string, a: char)
    requires whole != "" && AllDigits(whole) && (|whole| > 1 ==> whole[0] != '0') && IsDigit(a) && a != '0'
    ensures var r := whole + "." + [a];
            AllDigits(whole + [a, '0']) && Canonical(r) && |After(r, '.')| <= 2
                && ValueOf(r) == Quotient(Val(whole + [a, '0']), 100)
  {
    hide Quotient, Val, ValueOf, Canonical, IsDigit;
    PowersOfTen();
    CanonicalPointed(whole, [a]);
    var kept := whole + [a];
    assert kept + "0" == whole + [a, '0'];
    DroppedZero(kept);
    hide AllDigits;
    SameRatio(Val(kept), 10, Val(kept + "0"), 100);
  }

  lemma NoPlaces(whole: string)
    requires whole != "" && AllDigits(whole) && (|whole| > 1 ==> whole[0] != '0')
    ensures AllDigits(whole + ['0', '0']) && Canonical(whole) && After(whole, '.') == ""
            && ValueOf(whole) == Quotient(Val(whole + ['0', '0']), 100)
  {
    hide Quotient, Val, ValueOf, Whole, After, IsDecimal;
    BareWhole(whole);
    DroppedZero(whole);
    DroppedZero(whole + "0");
    assert whole + "0" + "0" == whole + ['0', '0'];
    hide AllDigits;
    SameRatio(Val(whole), 1, Val(whole + "0" + "0"), 100);
  }

  lemma TrimTrailingStep(s: string, last: char)
    ensures TrimTrailing(s + [last], '0') == if last == '0' then TrimTrailing(s, '0') else s + [last]
  {
    assert (s + [last])[..|s|] == s;
  }

  lemma StripsTo(whole: string, a: char, b: char)
    requires a != '.' && b != '.'
    ensures StripTrailingZeros(whole + "." + [a, b])
            == if b != '0' then whole + "." + [a, b] else if a != '0' then whole + "." + [a] else whole
  {
    var dangling := whole + ".";
    var s := dangling + [a, b];
    TrimTrailingStep(whole, '.');
    TrimTrailingStep(dangling, a);
    TrimTrailingStep(dangling + [a], b);
    assert s == dangling + [a] + [b];
    assert dangling[..|whole|] == whole;
    hide TrimTrailing;
    var rest := TrimTrailing(s, '0');
    assert rest == if b != '0' then s else if a != '0' then dangling + [a] else dangling;
    assert |rest| == |s| <==> b != '0';
  }

  /**
    A non-negative proportion of any length is shown as the canonical spelling of a hundred times its
    value, cut to four places of proportion.
   */
  lemma ProportionToPercentIsExact(proportion: string)
    requires IsDecimal(Trim(proportion))
    ensures var shown := ProportionToPercent(proportion);
            && Canonical(shown) && |After(shown, '.')| <= 2
            && ValueOf(shown) == Quotient(TenThousandths(Trim(proportion)), 100)
  {
    hide Quotient, Val, ValueOf, StripTrailingZeros, StripLeadingZeros;
    var s := Trim(proportion);
    ProportionDigitsRoundDown(s);
    var digits := ProportionDigits(s);
    var point := |digits| - 2;
    assert PadStart(digits, 3, '0') == digits;
    assert digits[point..] == [digits[point], digits[point + 1]];
    assert digits == digits[..point] + digits[point..];
    ValOfConcat(digits[..point], digits[point..]);
    StripLeadingZerosIsCanonical(digits[..point]);
    var stripped := StripLeadingZeros(digits[..point]);
    ValOfConcat(stripped, digits[point..]);
    StripTrailingZerosIsCanonical(stripped, digits[point], digits[point + 1]);
  }

  // ----- There and back

  lemma EqualQuotients(a: nat, b: nat, c: nat, d: nat)
    requires b > 0 && d > 0 && Quotient(a, b) == Quotient(c, d)
    ensures a * d == c * b
  {
    QuotientTimes(a, b);
    QuotientTimes(c, d);
    var x, rb, rd := Quotient(a, b), b as real, d as real;
    hide Quotient;
    assert x * rb * rd == x * rd * rb;
    RealOfProduct(a, d);
    RealOfProduct(c, b);
  }

  lemma WholeIsUnique(a: string, b: string)
    requires a != "" && b != "" && AllDigits(a) && AllDigits(b) && Val(a) == Val(b)
    requires (|a| > 1 ==> a[0] != '0') && (|b| > 1 ==> b[0] != '0')
    ensures a == b
  {
    ValBound(a);
    ValBound(b);
    if |a| < |b| {
      LeadingDigitBounds(b);
      Pow10Monotone(|a|, |b| - 1);
    } else if |b| < |a| {
      LeadingDigitBounds(a);
      Pow10Monotone(|b|, |a| - 1);
    } else {
      ValIsInjective(a, b);
    }
  }

  lemma QuotientAndRemainder(a: nat, b: nat, c: nat, d: nat, n: nat)
    requires b < n && d < n && a * n + b == c * n + d
    ensures a == c && b == d
  {
    assert a < c ==> (a + 1) * n <= c * n;
    assert c < a ==> (c + 1) * n <= a * n;
  }

  lemma CancelNat(a: nat, b: nat, k: nat)
    requires k > 0 && a * k == b * k
    ensures a == b
  {
    assert a < b ==> (a + 1) * k <= b * k;
    assert b < a ==> (b + 1) * k <= a * k;
  }

  /** With a fraction that does not end in zero, the units are not a multiple of ten. */
  lemma LastDigitShows(s: string)
    requires Canonical(s) && After(s, '.') != ""
    ensures Units(s) % 10 != 0
  {
    BeforeAndAfter(s, '.');
    var digits := Whole(s) + After(s, '.');
    var last := digits[|digits| - 1];
    assert last == After(s, '.')[|After(s, '.')| - 1];
    assert Val(digits) == Val(digits[..|digits| - 1]) * 10 + Digit(last);
    LastDigit(Val(digits[..|digits| - 1]), Digit(last));
  }

  lemma LastDigit(n: nat, d: nat)
    requires d < 10
    ensures (n * 10 + d) % 10 == d
  {
  }

  lemma SamePlaces(a: string, b: string)
    requires Canonical(a) && Canonical(b) && ValueOf(a) == ValueOf(b)
    ensures |After(a, '.')| >= |After(b, '.')|
  {
    hide Quotient, Units, Val, Whole, After, IsDecimal;
    var p, q := |After(a, '.')|, |After(b, '.')|;
    if p < q {
      EqualQuotients(Units(a), Pow10(p), Units(b), Pow10(q));
      Pow10Adds(p, q - p);
      MoreUnits(Units(a), Units(b), Pow10(p), Pow10(q - p - 1));
      LastDigitShows(b);
    }
  }

  lemma MoreUnits(a: nat, b: nat, low: nat, high: nat)
    requires low > 0 && a * (low * (10 * high)) == b * low
    ensures b % 10 == 0
  {
    assert a * (low * (10 * high)) == 10 * (a * high) * low;
    CancelNat(b, 10 * (a * high), low);
  }

  /** A value has exactly one canonical spelling. */
  lemma CanonicalSpellingIsUnique(a: string, b: string)
    requires Canonical(a) && Canonical(b) && ValueOf(a) == ValueOf(b)
    ensures a == b
  {
    SamePlaces(a, b);
    SamePlaces(b, a);
    var places := |After(a, '.')|;
    hide Quotient, Val, Whole, After, Pow10;
    EqualQuotients(Units(a), Pow10(places), Units(b), Pow10(places));
    CancelNat(Units(a), Units(b), Pow10(places));
    hide ValueOf;
    ValOfConcat(Whole(a), After(a, '.'));
    ValOfConcat(Whole(b), After(b, '.'));
    ValBound(After(a, '.'));
    ValBound(After(b, '.'));
    QuotientAndRemainder(Val(Whole(a)), Val(After(a, '.')), Val(Whole(b)), Val(After(b, '.')), Pow10(places));
    WholeIsUnique(Whole(a), Whole(b));
    ValIsInjective(After(a, '.'), After(b, '.'));
    BeforeAndAfter(a, '.');
    BeforeAndAfter(b, '.');
  }

  lemma DecimalsAreTrimmed(s: string)
    requires IsDecimal(s)
    ensures Trim(s) == s
  {
    BeforeAndAfter(s, '.');
    TrimReachesAFixedPoint(s);
  }

  lemma FloorOfHundredth(n: nat)
    ensures (Quotient(n, 10000) * 10000.0).Floor == n
  {
    assert Quotient(n, 10000) * 10000.0 == n as real;
  }

  /**
    A percentage sent and shown again is the canonical spelling of what was typed, so a canonical entry comes
    back as it was.
   */
  lemma TypedPercentComesBack(raw: string)
    requires ParsePercent(raw).Amount?
    ensures IsDecimal(Trim(raw))
    ensures var back := ProportionToPercent(ParsePercent(raw).value);
            && Canonical(back) && ValueOf(back) == ValueOf(Trim(raw))
            && (Canonical(Trim(raw)) ==> back == Trim(raw))
  {
    var typed := Trim(raw);
    ParsePercentIsExact(raw);
    var v := ParsePercent(raw).value;
    PercentDigitsAreHundredths(typed);
    PaddedPercent(typed);
    DecimalsAreTrimmed(v);
    var n := Val(PercentDigits(typed));
    FloorOfHundredth(n);
    ProportionToPercentIsExact(v);
    var back := ProportionToPercent(v);
    if Canonical(typed) {
      CanonicalSpellingIsUnique(back, typed);
    }
  }

  lemma WholeIsShort(s: string)
    requires Canonical(s) && ValueOf(s) <= 100.0
    ensures |Whole(s)| <= 3
  {
    var p := Pow10(|After(s, '.')|);
    ValOfConcat(Whole(s), After(s, '.'));
    AtMostAHundred(Units(s), p);
    assert Val(Whole(s)) * p <= 100 * p;
    SmallFactor(Val(Whole(s)), 100, p);
    PowersOfTen();
    hide Val, Whole, After, Units, ValueOf, Pow10;
    if |Whole(s)| > 3 {
      LeadingDigitBounds(Whole(s));
      Pow10Monotone(3, |Whole(s)| - 1);
    }
  }

  lemma AtMostAHundred(units: nat, p: nat)
    requires p > 0 && Quotient(units, p) <= 100.0
    ensures units <= 100 * p
  {
    QuotientTimes(units, p);
    hide Quotient;
    ProductMonotone(Quotient(units, p), 100.0, p as real);
    assert Product(100.0, p as real) == (100 * p) as real;
  }

  lemma ProductMonotone(x: real, y: real, d: real)
    requires x <= y && d >= 0.0
    ensures Product(x, d) <= Product(y, d)
  {
    assert (y - x) * d >= 0.0;
  }

  lemma SmallFactor(a: nat, b: nat, k: nat)
    requires k > 0 && a * k <= b * k
    ensures a <= b
  {
    assert b < a ==> (b + 1) * k <= a * k;
  }

  lemma ShortCanonicalMatchesPercent(s: string)
    requires Canonical(s) && |After(s, '.')| <= 2
    ensures ValueOf(s) <= 100.0 ==> MatchesPercent(s)
  {
    if ValueOf(s) <= 100.0 {
      WholeIsShort(s);
    }
  }

  lemma StoredRateIsUnique(a: string, b: string)
    requires IsStoredRate(a) && IsStoredRate(b) && ValueOf(a) == ValueOf(b)
    ensures a == b
  {
    EqualQuotients(Units(a), Pow10(4), Units(b), Pow10(4));
    assert Pow10(4) > 0;
    BeforeAndAfter(a, '.');
    BeforeAndAfter(b, '.');
    ValIsInjective(Whole(a) + After(a, '.'), Whole(b) + After(b, '.'));
    assert Whole(a) == (Whole(a) + After(a, '.'))[..1] && After(a, '.') == (Whole(a) + After(a, '.'))[1..];
    assert Whole(b) == (Whole(b) + After(b, '.'))[..1] && After(b, '.') == (Whole(b) + After(b, '.'))[1..];
  }

  /**
    A proportion shown and typed again is accepted exactly when it is at most 1 at four places, and gives
    its four-place value back; a stored rate comes back character for character.
   */
  lemma ShownProportionComesBack(proportion: string)
    requires IsDecimal(Trim(proportion))
    ensures var stored := Trim(proportion);
            var parsed := ParsePercent(ProportionToPercent(proportion));
            && (parsed.Amount? <==> TenThousandths(stored) <= 10000)
            && (parsed.Amount? ==>
                  IsStoredRate(parsed.value) && ValueOf(parsed.value) == Quotient(TenThousandths(stored), 10000))
            && (parsed.Amount? && IsStoredRate(stored) ==> parsed.value == stored)
  {
    var stored := Trim(proportion);
    var shown := ProportionToPercent(proportion);
    ProportionToPercentIsExact(proportion);
    DecimalsAreTrimmed(shown);
    ParsePercentIsExact(shown);
    ShortCanonicalMatchesPercent(shown);
    var n := TenThousandths(stored);
    HundredthOf(n);
    var parsed := ParsePercent(shown);
    if parsed.Amount? && IsStoredRate(stored) {
      StoredTenThousandths(stored);
      StoredRateIsUnique(parsed.value, stored);
    }
  }

  lemma StoredTenThousandths(s: string)
    requires IsStoredRate(s)
    ensures ValueOf(s) == Quotient(TenThousandths(s), 10000)
  {
    PowersOfTen();
    FloorOfHundredth(Units(s));
  }
}
