/**
 * String helpers with the semantics of the Python string methods and literal
 * conversions the client relies on: str.startswith/endswith/upper/strip/rstrip/
 * split/isdigit, str(int), int(str) and float(str).
 */
module Text {
  import opened Results

  predicate StartsWith(s: string, p: string) {
    |p| <= |s| && s[..|p|] == p
  }

  predicate EndsWith(s: string, p: string) {
    |p| <= |s| && s[|s| - |p|..] == p
  }

  /** Two strings that start differently cannot both be prefixes of one string. */
  lemma StartsWithFirstChar(s: string, p: string)
    requires StartsWith(s, p) && p != []
    ensures s[0] == p[0]
  {
    assert s[..|p|][0] == s[0];
  }

  /** ASCII upper-casing, as str.upper() does for ASCII letters. */
  function UpperChar(c: char): char {
    if 'a' <= c <= 'z' then (c as int - 32) as char else c
  }

  function Upper(s: string): (r: string)
    ensures |r| == |s|
    ensures forall i :: 0 <= i < |s| ==> r[i] == UpperChar(s[i])
  {
    if s == [] then [] else [UpperChar(s[0])] + Upper(s[1..])
  }

  /** The ASCII characters str.isspace() accepts. */
  predicate IsSpace(c: char) {
    // space, tab, line feed, vertical tab, form feed, carriage return, and the four separators
    c == ' ' || 9 <= c as int <= 13 || 28 <= c as int <= 31
  }

  /** str.lstrip() with no argument. */
  function LStripSpace(s: string): (r: string)
    ensures |r| <= |s|
    ensures r != [] ==> !IsSpace(r[0])
  {
    if s != [] && IsSpace(s[0]) then LStripSpace(s[1..]) else s
  }

  /** str.rstrip() with no argument. */
  function RStripSpace(s: string): (r: string)
    ensures StartsWith(s, r)
    ensures r != [] ==> !IsSpace(r[|r| - 1])
  {
    if s != [] && IsSpace(s[|s| - 1]) then RStripSpace(s[..|s| - 1]) else s
  }

  /** str.strip() with no argument. */
  function Strip(s: string): string {
    RStripSpace(LStripSpace(s))
  }

  /** str.rstrip(chars): drops trailing characters that occur in chars. */
  function RStrip(s: string, chars: string): (r: string)
    ensures StartsWith(s, r)
    ensures forall i :: |r| <= i < |s| ==> s[i] in chars
    ensures r != [] ==> r[|r| - 1] !in chars
  {
    if s != [] && s[|s| - 1] in chars then RStrip(s[..|s| - 1], chars) else s
  }

  /** str.replace(c, ''): every occurrence of c removed. */
  function RemoveChar(s: string, c: char): (r: string)
    ensures c !in r
    ensures |r| <= |s|
    ensures c !in s ==> r == s
  {
    if s == [] then [] else (if s[0] == c then [] else [s[0]]) + RemoveChar(s[1..], c)
  }

  predicate IsDigit(c: char) {
    '0' <= c <= '9'
  }

  /** str.isdigit() on ASCII: non-empty and every character a digit. */
  predicate AllDigits(s: string) {
    s != [] && forall i :: 0 <= i < |s| ==> IsDigit(s[i])
  }

  function DigitValue(c: char): nat
    requires IsDigit(c)
  {
    c as int - '0' as int
  }

  function DigitChar(d: nat): (c: char)
    requires d < 10
    ensures IsDigit(c) && DigitValue(c) == d
  {
    ('0' as int + d) as char
  }

  /** The number a run of decimal digits denotes (leading zeros allowed). */
  function DigitsValue(s: string): nat
    requires forall i :: 0 <= i < |s| ==> IsDigit(s[i])
  {
    if s == [] then 0 else DigitsValue(s[..|s| - 1]) * 10 + DigitValue(s[|s| - 1])
  }

  /** str(n) for a natural number. */
  function NatToString(n: nat): (r: string)
    ensures AllDigits(r)
    ensures n >= 10 ==> |r| >= 2
    ensures r[0] == '0' ==> n == 0
  {
    if n < 10 then [DigitChar(n)] else NatToString(n / 10) + [DigitChar(n % 10)]
  }

  /** str(i) for any integer. */
  function IntToString(i: int): (r: string)
    ensures r != []
    ensures i >= 0 ==> AllDigits(r)
    ensures i < 0 ==> r[0] == '-' && AllDigits(r[1..])
  {
    if i < 0 then "-" + NatToString(-i) else NatToString(i)
  }

  /** str() inverts to the number: decimal printing is a faithful encoding. */
  lemma {:induction false} NatToStringRoundTrip(n: nat)
    ensures DigitsValue(NatToString(n)) == n
  {
    if n >= 10 {
      NatToStringRoundTrip(n / 10);
      var s := NatToString(n);
      assert s[..|s| - 1] == NatToString(n / 10);
    }
  }

  lemma NatToStringInjective(a: nat, b: nat)
    requires NatToString(a) == NatToString(b)
    ensures a == b
  {
    NatToStringRoundTrip(a);
    NatToStringRoundTrip(b);
  }

  /** Splits a leading '+' or '-' off; the flag says whether it was '-'. */
  function SplitSign(t: string): (bool, string) {
    if t != [] && (t[0] == '+' || t[0] == '-') then (t[0] == '-', t[1..]) else (false, t)
  }

  /** int(s) for a string: optional surrounding whitespace, optional sign, decimal digits. */
  function ParseInt(s: string): (r: Option<int>)
    ensures r.Some? ==> Strip(s) != []
  {
    var (neg, body) := SplitSign(Strip(s));
    if AllDigits(body) then Some(if neg then -(DigitsValue(body) as int) else DigitsValue(body) as int)
    else None
  }

  lemma StripNoSpace(s: string)
    requires s != [] && !IsSpace(s[0]) && !IsSpace(s[|s| - 1])
    ensures Strip(s) == s
  {
  }

  /** A string starting with a letter (no space, sign or digit) is not an integer literal. */
  lemma ParseIntNeedsDigitOrSign(s: string)
    requires s != [] && !IsSpace(s[0]) && !IsDigit(s[0]) && s[0] != '+' && s[0] != '-'
    ensures ParseInt(s) == None
  {
    assert LStripSpace(s) == s;
    var t := Strip(s);
    if t != [] {
      assert t[0] == s[0];
    }
  }

  lemma IntToStringParses(i: int)
    ensures ParseInt(IntToString(i)) == Some(i)
  {
    var s := IntToString(i);
    StripNoSpace(s);
    if i < 0 {
      NatToStringRoundTrip(-i);
      assert SplitSign(s) == (true, NatToString(-i));
    } else {
      NatToStringRoundTrip(i);
      assert SplitSign(s) == (false, NatToString(i));
    }
  }

  /** Length of the run of digits at the start of s. */
  function DigitRun(s: string): (k: nat)
    ensures k <= |s|
    ensures forall i :: 0 <= i < k ==> IsDigit(s[i])
    ensures k < |s| ==> !IsDigit(s[k])
  {
    if s != [] && IsDigit(s[0]) then 1 + DigitRun(s[1..]) else 0
  }

  /** isdigit() as a run of digits that covers the whole text. */
  lemma AllDigitsRun(s: string)
    ensures AllDigits(s) <==> s != [] && DigitRun(s) == |s|
  {
  }

  function Pow10(n: nat): (p: nat)
    ensures p >= 1
  {
    if n == 0 then 1 else 10 * Pow10(n - 1)
  }

  /** 10 raised to an integer exponent, as a real. */
  function Scale10(e: int): (r: real)
    ensures r > 0.0
  {
    if e >= 0 then Pow10(e) as real else 1.0 / (Pow10(-e) as real)
  }

  /** The exponent part of a float literal: empty, or e/E, an optional sign and digits. */
  function ParseExponent(s: string): Option<int> {
    if s == [] then Some(0)
    else if s[0] == 'e' || s[0] == 'E' then
      var (neg, body) := SplitSign(s[1..]);
      if AllDigits(body) then Some(if neg then -(DigitsValue(body) as int) else DigitsValue(body) as int)
      else None
    else None
  }

  /** A mantissa scaled by a parsed exponent; a bad exponent makes the literal bad. */
  function Scaled(m: real, e: Option<int>): Option<real> {
    match e
    case None => None
    case Some(x) => Some(m * Scale10(x))
  }

  /** A literal without an exponent keeps its mantissa. */
  lemma ScaledByZero(m: real)
    ensures Scaled(m, ParseExponent([])) == Some(m)
  {
    assert Pow10(0) == 1;
  }

  /** The unsigned part of a float literal: digits, an optional fraction, an optional exponent. */
  function ParseUnsignedFloat(u: string): Option<real> {
    var ip := DigitRun(u);
    if ip < |u| && u[ip] == '.' then ParseFraction(u[..ip], u[ip + 1..])
    else if ip == 0 then None
    else Scaled(DigitsValue(u[..ip]) as real, ParseExponent(u[ip..]))
  }

  /** What follows the point: fraction digits (at least one digit in all) and an optional exponent. */
  function ParseFraction(whole: string, f: string): Option<real>
    requires forall i :: 0 <= i < |whole| ==> IsDigit(whole[i])
  {
    var fp := DigitRun(f);
    if |whole| + fp == 0 then None
    else Scaled(DigitsValue(whole) as real + FractionValue(f[..fp]), ParseExponent(f[fp..]))
  }

  /** The value of fraction digits d1 d2 ... dn read after a decimal point. */
  function FractionValue(digits: string): (r: real)
    requires forall i :: 0 <= i < |digits| ==> IsDigit(digits[i])
    ensures 0.0 <= r < 1.0
  {
    if digits == [] then 0.0 else (DigitValue(digits[0]) as real + FractionValue(digits[1..])) / 10.0
  }


  /**
   * float(s) for a decimal literal: optional surrounding whitespace, optional sign,
   * digits with an optional fraction (at least one digit in all), optional exponent.
   */
  function ParseFloat(s: string): Option<real> {
    var (neg, u) := SplitSign(Strip(s));
    match ParseUnsignedFloat(u)
    case None => None
    case Some(m) => Some(if neg then -m else m)
  }

  /** A plain unsigned integer literal reads as that number. */
  lemma ParseFloatOfNat(n: nat)
    ensures ParseFloat(NatToString(n)) == Some(n as real)
  {
    var s := NatToString(n);
    StripNoSpace(s);
    assert SplitSign(s) == (false, s);
    DigitRunAll(s);
    assert s[..|s|] == s;
    assert s[|s|..] == [];
    NatToStringRoundTrip(n);
  }

  lemma {:induction false} DigitRunAll(s: string)
    requires forall i :: 0 <= i < |s| ==> IsDigit(s[i])
    ensures DigitRun(s) == |s|
  {
    if s != [] {
      DigitRunAll(s[1..]);
    }
  }

  lemma {:induction false} DigitRunStops(a: string, rest: string)
    requires forall i :: 0 <= i < |a| ==> IsDigit(a[i])
    requires rest != [] && !IsDigit(rest[0])
    ensures DigitRun(a + rest) == |a|
  {
    if a != [] {
      assert (a + rest)[1..] == a[1..] + rest;
      DigitRunStops(a[1..], rest);
    }
  }

  /** Digits, a point, and more: the part after the point is read as a fraction. */
  lemma UnsignedSplitsAtPoint(a: string, b: string)
    requires forall i :: 0 <= i < |a| ==> IsDigit(a[i])
    ensures ParseUnsignedFloat(a + "." + b) == ParseFraction(a, b)
  {
    var u := a + ("." + b);
    assert u == a + "." + b;
    DigitRunStops(a, "." + b);
    assert u[..|a|] == a && u[|a|] == '.' && u[|a| + 1..] == b;
  }

  /** Fraction digits with nothing after them. */
  lemma FractionOnly(a: string, b: string)
    requires forall i :: 0 <= i < |a| ==> IsDigit(a[i])
    requires AllDigits(b)
    ensures ParseFraction(a, b) == Some(DigitsValue(a) as real + FractionValue(b))
  {
    DigitRunAll(b);
    assert b[..|b|] == b && b[|b|..] == [];
    ScaledByZero(DigitsValue(a) as real + FractionValue(b));
  }

  lemma DigitsExcludeChar(s: string, c: char)
    requires forall i :: 0 <= i < |s| ==> IsDigit(s[i])
    requires !IsDigit(c)
    ensures c !in s
  {
  }

  /** A literal digits.digits reads as the whole part plus the fraction over its power of ten. */
  lemma ParseFloatDecimal(a: string, b: string)
    requires AllDigits(a) && AllDigits(b)
    ensures ParseFloat(a + "." + b) == Some(DigitsValue(a) as real + FractionValue(b))
  {
    var u := a + "." + b;
    assert u[0] == a[0] && u[|u| - 1] == b[|b| - 1];
    StripNoSpace(u);
    assert SplitSign(u) == (false, u);
    UnsignedSplitsAtPoint(a, b);
    FractionOnly(a, b);
  }

  /** int(x) for a float x: truncation toward zero. */
  function Trunc(r: real): (i: int)
    ensures r >= 0.0 ==> 0 <= i && i as real <= r < i as real + 1.0
    ensures r < 0.0 ==> i <= 0 && i as real - 1.0 < r <= i as real
  {
    if r >= 0.0 then r.Floor else -((-r).Floor)
  }

  function IndexOfChar(s: string, c: char): (k: nat)
    requires c in s
    ensures k < |s| && s[k] == c && c !in s[..k]
  {
    if s[0] == c then 0 else 1 + IndexOfChar(s[1..], c)
  }

  /** parts[0] + sep + parts[1] + ... + sep + parts[n-1], the inverse of Split. */
  function Join(parts: seq<string>, sep: char): string
    requires |parts| >= 1
  {
    if |parts| == 1 then parts[0] else parts[0] + [sep] + Join(parts[1..], sep)
  }

  /** str.split(sep) with a one-character separator. */
  function Split(s: string, sep: char): (parts: seq<string>)
    ensures |parts| >= 1
    decreases |s|
  {
    if sep !in s then [s]
    else
      var k := IndexOfChar(s, sep);
      [s[..k]] + Split(s[k + 1..], sep)
  }

  /** The fields hold no separator, and joining them gives the text back. */
  lemma SplitFields(s: string, sep: char)
    ensures forall i :: 0 <= i < |Split(s, sep)| ==> sep !in Split(s, sep)[i]
    ensures Join(Split(s, sep), sep) == s
  {
    SplitClean(s, sep);
    SplitRejoins(s, sep);
  }

  lemma {:induction false} SplitClean(s: string, sep: char)
    ensures forall i :: 0 <= i < |Split(s, sep)| ==> sep !in Split(s, sep)[i]
    decreases |s|
  {
    if sep in s {
      var k := IndexOfChar(s, sep);
      var rest := Split(s[k + 1..], sep);
      SplitClean(s[k + 1..], sep);
      assert Split(s, sep) == [s[..k]] + rest;
      forall i | 0 <= i < |Split(s, sep)|
        ensures sep !in Split(s, sep)[i]
      {
        if i > 0 {
          assert Split(s, sep)[i] == rest[i - 1];
        }
      }
    }
  }

  lemma {:induction false} SplitRejoins(s: string, sep: char)
    ensures Join(Split(s, sep), sep) == s
    decreases |s|
  {
    if sep in s {
      var k := IndexOfChar(s, sep);
      SplitRejoins(s[k + 1..], sep);
      JoinCons(s[..k], Split(s[k + 1..], sep), sep);
      assert s == s[..k] + [sep] + s[k + 1..];
    }
  }

  /** Joining a first field in front of at least one more puts one separator between. */
  lemma JoinCons(p: string, rest: seq<string>, sep: char)
    requires |rest| >= 1
    ensures Join([p] + rest, sep) == p + [sep] + Join(rest, sep)
  {
    assert ([p] + rest)[1..] == rest;
  }

  /** Splitting the join of separator-free fields gives the fields back. */
  lemma {:induction false} SplitJoin(parts: seq<string>, sep: char)
    requires |parts| >= 1
    requires forall i :: 0 <= i < |parts| ==> sep !in parts[i]
    ensures Split(Join(parts, sep), sep) == parts
  {
    if |parts| > 1 {
      SplitAtFirst(parts[0], Join(parts[1..], sep), sep);
      SplitJoin(parts[1..], sep);
      assert parts == [parts[0]] + parts[1..];
    }
  }

  /** A field without the separator, then the separator: one field split off the front. */
  lemma SplitAtFirst(p: string, rest: string, sep: char)
    requires sep !in p
    ensures Split(p + [sep] + rest, sep) == [p] + Split(rest, sep)
  {
    var s := p + [sep] + rest;
    assert s[|p|] == sep;
    assert s[..|p|] == p;
    var k := IndexOfChar(s, sep);
    assert k == |p|;
    assert s[k + 1..] == rest;
  }
}
