/** The string operations the codecs share, on strings as sequences of code units. */
module Text {

  /** What `String.prototype.trim` removes. */
  predicate IsSpace(c: char) {
    || c as int in {0x09, 0x0A, 0x0B, 0x0C, 0x0D, 0x20, 0xA0, 0x1680, 0x2028, 0x2029, 0x202F, 0x205F, 0x3000, 0xFEFF}
    || 0x2000 <= c as int <= 0x200A
  }

  function TrimStart(s: string): string {
    if s != [] && IsSpace(s[0]) then TrimStart(s[1..]) else s
  }

  function TrimEnd(s: string): string {
    if s != [] && IsSpace(s[|s| - 1]) then TrimEnd(s[..|s| - 1]) else s
  }

  function Trim(s: string): string {
    TrimEnd(TrimStart(s))
  }

  /** Nothing left to trim. */
  predicate Trimmed(s: string) {
    s == [] || (!IsSpace(s[0]) && !IsSpace(s[|s| - 1]))
  }

  lemma {:induction false} TrimStartStops(s: string)
    ensures TrimStart(s) == [] || !IsSpace(TrimStart(s)[0])
  {
    if s != [] && IsSpace(s[0]) {
      TrimStartStops(s[1..]);
    }
  }

  lemma {:induction false} TrimEndKeepsTheStart(s: string)
    requires s == [] || !IsSpace(s[0])
    ensures Trimmed(TrimEnd(s))
  {
    if s != [] && IsSpace(s[|s| - 1]) {
      TrimEndKeepsTheStart(s[..|s| - 1]);
    }
  }

  /** The trimmed strings are exactly the fixed points of `trim`, and `trim` always reaches one. */
  lemma TrimReachesAFixedPoint(s: string)
    ensures Trimmed(Trim(s))
    ensures Trim(s) == s <==> Trimmed(s)
  {
    TrimStartStops(s);
    TrimEndKeepsTheStart(TrimStart(s));
    if Trimmed(s) {
      assert TrimStart(s) == s && TrimEnd(s) == s;
    }
  }

  predicate AllSpaces(s: string) {
    forall i :: 0 <= i < |s| ==> IsSpace(s[i])
  }

  /** `trim` takes off all the space at both ends, and nothing else. */
  lemma TrimIs(s: string, t: string)
    ensures Trim(s) == t <==> Trimmed(t) && exists a, b :: AllSpaces(a) && AllSpaces(b) && s == a + t + b
  {
    var a, b := WhatTrimTakes(s);
    TrimReachesAFixedPoint(s);
    forall a, b | Trimmed(t) && AllSpaces(a) && AllSpaces(b) && s == a + t + b ensures Trim(s) == t {
      TrimTakesBoth(a, t, b);
    }
    hide Trim, Trimmed, AllSpaces;
  }

  lemma WhatTrimTakes(s: string) returns (a: string, b: string)
    ensures AllSpaces(a) && AllSpaces(b) && s == a + Trim(s) + b
  {
    a := WhatTrimStartTakes(s);
    b := WhatTrimEndTakes(TrimStart(s));
  }

  lemma {:induction false} WhatTrimStartTakes(s: string) returns (a: string)
    ensures AllSpaces(a) && s == a + TrimStart(s)
  {
    if s != [] && IsSpace(s[0]) {
      var rest := WhatTrimStartTakes(s[1..]);
      a := [s[0]] + rest;
    } else {
      a := [];
    }
  }

  lemma {:induction false} WhatTrimEndTakes(s: string) returns (b: string)
    ensures AllSpaces(b) && s == TrimEnd(s) + b
  {
    if s != [] && IsSpace(s[|s| - 1]) {
      var rest := WhatTrimEndTakes(s[..|s| - 1]);
      b := rest + [s[|s| - 1]];
    } else {
      b := [];
    }
  }

  lemma TrimTakesBoth(a: string, t: string, b: string)
    requires AllSpaces(a) && Trimmed(t) && AllSpaces(b)
    ensures Trim(a + t + b) == t
  {
    assert a + t + b == a + (t + b);
    if t == [] {
      TrimStartTakes(a + b, []);
      assert a + t + b == a + b + [];
    } else {
      TrimStartTakes(a, t + b);
      TrimEndTakes(t, b);
    }
  }

  lemma {:induction false} TrimStartTakes(a: string, rest: string)
    requires AllSpaces(a) && (rest == [] || !IsSpace(rest[0]))
    ensures TrimStart(a + rest) == rest
  {
    if a != [] {
      TrimStartTakes(a[1..], rest);
      assert (a + rest)[1..] == a[1..] + rest;
    } else {
      assert a + rest == rest;
    }
  }

  lemma {:induction false} TrimEndTakes(rest: string, b: string)
    requires AllSpaces(b) && (rest == [] || !IsSpace(rest[|rest| - 1]))
    ensures TrimEnd(rest + b) == rest
  {
    if b != [] {
      TrimEndTakes(rest, b[..|b| - 1]);
      assert (rest + b)[..|rest + b| - 1] == rest + b[..|b| - 1];
    } else {
      assert rest + b == rest;
    }
  }

  /** The part before the first `separator`, or all of it. */
  function Before(s: string, separator: char): string {
    if s == [] || s[0] == separator then [] else [s[0]] + Before(s[1..], separator)
  }

  /** The part after the first `separator`, or nothing. */
  function After(s: string, separator: char): string {
    if s == [] then [] else if s[0] == separator then s[1..] else After(s[1..], separator)
  }

  lemma {:induction false} BeforeAndAfter(s: string, separator: char)
    ensures separator !in Before(s, separator)
    ensures separator in s ==> s == Before(s, separator) + [separator] + After(s, separator)
    ensures separator !in s ==> s == Before(s, separator) && After(s, separator) == []
  {
    if s != [] && s[0] != separator {
      BeforeAndAfter(s[1..], separator);
      assert s == [s[0]] + s[1..];
    } else if s != [] {
      assert s == [separator] + s[1..];
    }
  }

  lemma {:induction false} SplitAt(a: string, separator: char, b: string)
    requires separator !in a
    ensures Before(a + [separator] + b, separator) == a == Before(a, separator)
    ensures After(a + [separator] + b, separator) == b && After(a, separator) == []
  {
    var s := a + [separator] + b;
    if a == [] {
      assert s[1..] == b;
    } else {
      assert s[1..] == a[1..] + [separator] + b;
      SplitAt(a[1..], separator, b);
      assert a == [a[0]] + a[1..];
    }
  }

  /** SQL's `ltrim(s, c)`. */
  function TrimLeading(s: string, c: char): string {
    if s != [] && s[0] == c then TrimLeading(s[1..], c) else s
  }

  function Repeat(c: char, n: nat): (s: string)
    ensures |s| == n && forall i :: 0 <= i < n ==> s[i] == c
  {
    if n == 0 then [] else [c] + Repeat(c, n - 1)
  }

  function PadStart(s: string, n: nat, c: char): string {
    if |s| >= n then s else Repeat(c, n - |s|) + s
  }

  function PadEnd(s: string, n: nat, c: char): string {
    if |s| >= n then s else s + Repeat(c, n - |s|)
  }
}
