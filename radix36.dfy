/** Rendering of a Java `long` in radix 36, as `Long.toString(v, 36)` does,
    followed by `String.toUpperCase()`, and the inverse parse
    (`Long.parseLong(s, 36)`). */
module Radix36 {
  import opened Wrappers

  const Radix: nat := 36

  /** The digit character `Character.forDigit(d, 36)` yields: lower case. */
  function LowerDigit(d: nat): (c: char)
    requires d < Radix
  {
    if d < 10 then ('0' as int + d) as char else ('a' as int + d - 10) as char
  }

  /** The same digit after upper-casing. */
  function UpperDigit(d: nat): (c: char)
    requires d < Radix
  {
    if d < 10 then ('0' as int + d) as char else ('A' as int + d - 10) as char
  }

  /** Value of a digit character in radix 36 (`Character.digit(c, 36)` on
      ASCII), accepting both cases. */
  function DigitValue(c: char): (r: Option<nat>)
    ensures r.Some? ==> r.value < Radix
    ensures r.Some? ==> LowerDigit(r.value) == c || UpperDigit(r.value) == c
  {
    if '0' <= c <= '9' then Some(c as int - '0' as int)
    else if 'a' <= c <= 'z' then Some(c as int - 'a' as int + 10)
    else if 'A' <= c <= 'Z' then Some(c as int - 'A' as int + 10)
    else None
  }

  /** ASCII upper-casing of one character. */
  function UpperChar(c: char): char
  {
    if 'a' <= c <= 'z' then (c as int - 'a' as int + 'A' as int) as char else c
  }

  /** `String.toUpperCase()` restricted to the characters a radix rendering
      can contain. */
  function ToUpperCase(s: string): (r: string)
    ensures |r| == |s|
  {
    seq(|s|, i requires 0 <= i < |s| => UpperChar(s[i]))
  }

  /** Digits of a natural number in radix 36, most significant first,
      lower case, no leading zero. */
  function LowerDigits(n: nat): string
    decreases n
  {
    if n < Radix then [LowerDigit(n)] else LowerDigits(n / Radix) + [LowerDigit(n % Radix)]
  }

  /** The same digits in upper case. */
  function UpperDigits(n: nat): string
    decreases n
  {
    if n < Radix then [UpperDigit(n)] else UpperDigits(n / Radix) + [UpperDigit(n % Radix)]
  }

  /** `Long.toString(v, 36)`: a minus sign, then the digits of the magnitude. */
  function LongToString(v: int): string
  {
    if v < 0 then "-" + LowerDigits(-v) else LowerDigits(v)
  }

  /** `Long.toString(v, 36).toUpperCase()`: the suffix of a tracking ID. */
  function Render(v: int): string
  {
    ToUpperCase(LongToString(v))
  }

  /** Value of a non-empty string of radix-36 digits. */
  function ParseDigits(s: string): (r: Option<nat>)
    decreases |s|
  {
    if |s| == 0 then None
    else
      var last := DigitValue(s[|s| - 1]);
      if last.None? then None
      else if |s| == 1 then last
      else
        match ParseDigits(s[..|s| - 1])
        case None => None
        case Some(high) => Some(high * Radix + last.value)
  }

  /** `Long.parseLong(s, 36)` without the 64-bit range check: an optional
      sign followed by at least one digit. */
  function Parse(s: string): (r: Option<int>)
  {
    if |s| > 0 && (s[0] == '-' || s[0] == '+') then
      match ParseDigits(s[1..])
      case None => None
      case Some(n) =>
        var v: int := if s[0] == '-' then 0 - n else n;
        Some(v)
    else
      match ParseDigits(s)
      case None => None
      case Some(n) => Some(n)
  }

  predicate IsUpperDigit(c: char)
  {
    '0' <= c <= '9' || 'A' <= c <= 'Z'
  }

  /** The strings `Render` produces on non-negative values: upper-case
      digits, at least one, and no leading zero unless the value is zero. */
  predicate CanonicalDigits(s: string)
  {
    && |s| > 0
    && (forall i :: 0 <= i < |s| ==> IsUpperDigit(s[i]))
    && (|s| > 1 ==> s[0] != '0')
  }

  /** The strings `Render` produces on any value. */
  predicate Canonical(s: string)
  {
    if |s| > 0 && s[0] == '-' then CanonicalDigits(s[1..]) && s[1..] != "0"
    else CanonicalDigits(s)
  }

  // ---------------------------------------------------------------------
  // Upper-casing the Java rendering gives the upper-case digits.

  lemma UpperOfConcat(a: string, b: string)
    ensures ToUpperCase(a + b) == ToUpperCase(a) + ToUpperCase(b)
  {
  }

  lemma {:induction false} UpperOfLowerDigits(n: nat)
    ensures ToUpperCase(LowerDigits(n)) == UpperDigits(n)
    decreases n
  {
    if n >= Radix {
      UpperOfLowerDigits(n / Radix);
      UpperOfConcat(LowerDigits(n / Radix), [LowerDigit(n % Radix)]);
    }
  }

  /** The tracking-ID suffix is the sign (if any) and the upper-case digits
      of the magnitude. */
  lemma RenderIsUpperDigits(v: int)
    ensures Render(v) == if v < 0 then "-" + UpperDigits(-v) else UpperDigits(v)
  {
    if v < 0 {
      UpperOfLowerDigits(-v);
      UpperOfConcat("-", LowerDigits(-v));
    } else {
      UpperOfLowerDigits(v);
    }
  }

  // ---------------------------------------------------------------------
  // Round trips.

  lemma {:induction false} UpperDigitsCanonical(n: nat)
    ensures CanonicalDigits(UpperDigits(n))
    ensures UpperDigits(n) == "0" <==> n == 0
    decreases n
  {
    if n >= Radix {
      UpperDigitsCanonical(n / Radix);
      var s := UpperDigits(n);
      assert s == UpperDigits(n / Radix) + [UpperDigit(n % Radix)];
      assert s[0] == UpperDigits(n / Radix)[0];
    }
  }

  lemma {:induction false} ParseUpperDigits(n: nat)
    ensures ParseDigits(UpperDigits(n)) == Some(n)
    decreases n
  {
    if n >= Radix {
      ParseUpperDigits(n / Radix);
      var s := UpperDigits(n);
      assert s[..|s| - 1] == UpperDigits(n / Radix);
    }
  }

  /** Parsing the suffix of a tracking ID in radix 36 yields the counter
      value back. */
  lemma ParseRender(v: int)
    ensures Parse(Render(v)) == Some(v)
  {
    RenderIsUpperDigits(v);
    if v < 0 {
      ParseNegative(-v);
    } else {
      ParseNonNegative(v);
    }
  }

  lemma ParseNonNegative(n: nat)
    ensures Parse(UpperDigits(n)) == Some(n)
  {
    ParseUpperDigits(n);
    UpperDigitsCanonical(n);
    assert IsUpperDigit(UpperDigits(n)[0]);
  }

  lemma ParseNegative(n: nat)
    ensures Parse("-" + UpperDigits(n)) == Some(-(n as int))
  {
    var digits := UpperDigits(n);
    ParseUpperDigits(n);
    assert ("-" + digits)[0] == '-' && ("-" + digits)[1..] == digits;
  }

  /** Every rendering is canonical. */
  lemma RenderCanonical(v: int)
    ensures Canonical(Render(v))
  {
    RenderIsUpperDigits(v);
    UpperDigitsCanonical(if v < 0 then -v else v);
    if v < 0 {
      assert ("-" + UpperDigits(-v))[1..] == UpperDigits(-v);
    }
  }

  lemma {:induction false} ParseDigitsPositive(s: string)
    requires CanonicalDigits(s) && s[0] != '0'
    requires ParseDigits(s).Some?
    ensures ParseDigits(s).value >= 1
    decreases |s|
  {
    if |s| > 1 {
      var init := s[..|s| - 1];
      assert init[0] == s[0];
      ParseDigitsPositive(init);
    }
  }

  lemma {:induction false} CanonicalDigitsRoundTrip(s: string)
    requires CanonicalDigits(s)
    ensures ParseDigits(s).Some?
    ensures UpperDigits(ParseDigits(s).value) == s
    decreases |s|
  {
    var d := DigitValue(s[|s| - 1]).value;
    if |s| > 1 {
      var init := s[..|s| - 1];
      assert init[0] == s[0];
      CanonicalDigitsRoundTrip(init);
      ParseDigitsPositive(init);
      var high := ParseDigits(init).value;
      var n := high * Radix + d;
      assert n / Radix == high && n % Radix == d;
      assert s == init + [s[|s| - 1]];
    }
  }

  /** The converse round trip: a canonical string is the rendering of the
      value it parses to. */
  lemma RenderParse(s: string)
    requires Canonical(s)
    ensures Parse(s).Some? && Render(Parse(s).value) == s
  {
    if |s| > 0 && s[0] == '-' {
      CanonicalDigitsRoundTrip(s[1..]);
      var n: int := ParseDigits(s[1..]).value;
      assert n != 0;
      RenderIsUpperDigits(-n);
      assert s == "-" + s[1..];
    } else {
      CanonicalDigitsRoundTrip(s);
      RenderIsUpperDigits(ParseDigits(s).value);
    }
  }

  /** Distinct values have distinct renderings. */
  lemma RenderInjective(a: int, b: int)
    requires Render(a) == Render(b)
    ensures a == b
  {
    ParseRender(a);
    ParseRender(b);
  }
}
