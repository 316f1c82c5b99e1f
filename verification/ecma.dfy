/**
 * The two pieces of the ECMAScript standard library the handlers lean on:
 * the global `parseInt` with no radix (ECMA-262 section 19.2.5), which the
 * server applies to the `:id` path segment, and `String.prototype.trim`
 * (ECMA-262 section 22.1.3.32), which the client uses to decide whether the
 * input box is blank.  Both skip the same white-space set.
 *
 * JavaScript strings are sequences of UTF-16 code units; here a string is a
 * sequence of Unicode scalar values.  No character this module inspects lies
 * outside the Basic Multilingual Plane, so the two views agree on it.
 */
module Ecma {
  import opened Wrappers

  /** WhiteSpace (section 12.2, including every Zs code point) and
      LineTerminator (section 12.3): what `trim` removes and what `parseInt`
      skips before the sign. */
  predicate IsWhiteSpace(c: char) {
    || c == '\t' || c == '\U{000B}' || c == '\U{000C}' || c == ' '
    || c == '\U{00A0}' || c == '\U{FEFF}' || c == '\U{1680}'
    || ('\U{2000}' <= c <= '\U{200A}')
    || c == '\U{202F}' || c == '\U{205F}' || c == '\U{3000}'
    || c == '\n' || c == '\r' || c == '\U{2028}' || c == '\U{2029}'
  }

  predicate AllWhiteSpace(s: string) {
    forall i :: 0 <= i < |s| ==> IsWhiteSpace(s[i])
  }

  /** Drops the longest white-space prefix. */
  function TrimStart(s: string): (r: string)
    ensures |r| <= |s| && r == s[|s| - |r|..]
    ensures AllWhiteSpace(s[..|s| - |r|])
    ensures r == [] || !IsWhiteSpace(r[0])
  {
    if |s| > 0 && IsWhiteSpace(s[0]) then
      var r := TrimStart(s[1..]);
      assert s[..|s| - |r|] == [s[0]] + s[1..][..|s| - 1 - |r|];
      r
    else s
  }

  /** Drops the longest white-space suffix. */
  function TrimEnd(s: string): (r: string)
    ensures |r| <= |s| && r == s[..|r|]
    ensures AllWhiteSpace(s[|r|..])
    ensures r == [] || !IsWhiteSpace(r[|r| - 1])
  {
    if |s| > 0 && IsWhiteSpace(s[|s| - 1]) then
      var r := TrimEnd(s[..|s| - 1]);
      assert s[|r|..] == s[..|s| - 1][|r|..] + [s[|s| - 1]];
      r
    else s
  }

  /** `r` sits in `s` at offset `k` with only white space around it. */
  predicate TrimmedAt(s: string, r: string, k: int) {
    && 0 <= k <= |s| - |r|
    && s[k..k + |r|] == r
    && AllWhiteSpace(s[..k])
    && AllWhiteSpace(s[k + |r|..])
  }

  /** `String.prototype.trim`: white space cut away at both ends. */
  function Trim(s: string): (r: string)
    ensures |r| <= |s|
    ensures r == [] || (!IsWhiteSpace(r[0]) && !IsWhiteSpace(r[|r| - 1]))
  {
    TrimEnd(TrimStart(s))
  }

  /** What `trim` keeps is a slice of the input with only white space
      around it. */
  lemma TrimIsSlice(s: string)
    ensures exists k :: TrimmedAt(s, Trim(s), k)
  {
    var t := TrimStart(s);
    var r := Trim(s);
    var k := |s| - |t|;
    assert r == TrimEnd(t);
    assert t == s[k..];
    assert s[k..k + |r|] == t[..|r|] == r;
    assert s[k + |r|..] == t[|r|..];
    assert AllWhiteSpace(s[..k]) && AllWhiteSpace(t[|r|..]);
    assert TrimmedAt(s, r, k);
  }

  /** A string trims to "" exactly when every character of it is white space:
      this is the client's "blank input" test. */
  lemma TrimIsEmptyIff(s: string)
    ensures Trim(s) == [] <==> AllWhiteSpace(s)
  {
    var t := TrimStart(s);
    if t == [] {
      assert s[..|s|] == s;
    } else {
      assert s[|s| - |t|] == t[0];
    }
  }

  predicate IsDecimalDigit(c: char) {
    '0' <= c <= '9'
  }

  /** The value of a digit in radices up to 36 (section 19.2.5):
      '0'..'9', then 'a'..'z' and 'A'..'Z' as 10..35; 36 for anything else. */
  function DigitValue(c: char): (d: nat)
    ensures d < 10 <==> IsDecimalDigit(c)
    ensures d <= 36
  {
    if '0' <= c <= '9' then c as int - '0' as int
    else if 'a' <= c <= 'z' then c as int - 'a' as int + 10
    else if 'A' <= c <= 'Z' then c as int - 'A' as int + 10
    else 36
  }

  /** The length of the longest prefix made of radix digits. */
  function DigitPrefixLength(s: string, radix: nat): (n: nat)
    ensures n <= |s|
    ensures forall i :: 0 <= i < n ==> DigitValue(s[i]) < radix
    ensures n == |s| || DigitValue(s[n]) >= radix
  {
    if |s| == 0 || DigitValue(s[0]) >= radix then 0
    else 1 + DigitPrefixLength(s[1..], radix)
  }

  /** The mathematical value of a digit string in the given radix. */
  function DigitsValue(z: string, radix: nat): nat {
    if |z| == 0 then 0
    else DigitsValue(z[..|z| - 1], radix) * radix + DigitValue(z[|z| - 1])
  }

  /** The global `parseInt(s)` with the radix left undefined.  `None` stands
      for NaN; the two zeroes are not distinguished. */
  function ParseInt(s: string): (r: Option<int>)
    ensures TrimStart(s) == [] ==> r.None?
    ensures r.Some? && r.value < 0 ==> TrimStart(s)[0] == '-'
  {
    ParseSigned(TrimStart(s))
  }

  /** Section 19.2.5: an optional sign after the white space. */
  function ParseSigned(t: string): Option<int> {
    if |t| > 0 && t[0] == '-' then
      match ParseUnsigned(t[1..])
      case Some(v) => Some(-(v as int))
      case None => None
    else if |t| > 0 && t[0] == '+' then ParseUnsigned(t[1..])
    else ParseUnsigned(t)
  }

  /** After the sign, a "0x"/"0X" prefix selects radix 16; the longest digit
      prefix is read; no digits at all is NaN. */
  function ParseUnsigned(u: string): Option<nat> {
    if |u| >= 2 && u[0] == '0' && (u[1] == 'x' || u[1] == 'X') then ParseDigits(u[2..], 16)
    else ParseDigits(u, 10)
  }

  function ParseDigits(v: string, radix: nat): Option<nat> {
    var end := DigitPrefixLength(v, radix);
    if end == 0 then None else Some(DigitsValue(v[..end], radix))
  }

  /** The decimal digits of a natural number, most significant first. */
  function NatDigits(n: nat): (d: string)
    ensures |d| >= 1
    ensures forall i :: 0 <= i < |d| ==> IsDecimalDigit(d[i])
    ensures |d| > 1 ==> d[0] != '0'
    ensures d[0] == '0' ==> n == 0
  {
    var last := ('0' as int + n % 10) as char;
    if n < 10 then [last] else NatDigits(n / 10) + [last]
  }

  /** `String(n)` for an integer-valued Number: how the client writes a
      conversation id into the request path. */
  function DecimalString(n: int): string {
    if n < 0 then "-" + NatDigits(-n) else NatDigits(n)
  }

  lemma {:induction false} NatDigitsValue(n: nat)
    ensures DigitsValue(NatDigits(n), 10) == n
  {
    var last := ('0' as int + n % 10) as char;
    if n >= 10 {
      var d := NatDigits(n / 10) + [last];
      assert d[..|d| - 1] == NatDigits(n / 10);
      NatDigitsValue(n / 10);
    }
  }

  lemma {:induction false} DigitPrefixOfDigits(d: string, rest: string, radix: nat)
    requires forall i :: 0 <= i < |d| ==> DigitValue(d[i]) < radix
    requires rest == [] || DigitValue(rest[0]) >= radix
    ensures DigitPrefixLength(d + rest, radix) == |d|
  {
    if |d| > 0 {
      assert (d + rest)[1..] == d[1..] + rest;
      DigitPrefixOfDigits(d[1..], rest, radix);
    } else {
      assert d + rest == rest;
    }
  }

  lemma {:induction false} TrimStartSkipsWhiteSpace(ws: string, s: string)
    requires AllWhiteSpace(ws)
    ensures TrimStart(ws + s) == TrimStart(s)
  {
    if |ws| > 0 {
      assert (ws + s)[1..] == ws[1..] + s;
      TrimStartSkipsWhiteSpace(ws[1..], s);
    } else {
      assert ws + s == s;
    }
  }

  /** Leading white space never changes what `parseInt` yields. */
  lemma ParseIntSkipsLeadingWhiteSpace(ws: string, s: string)
    requires AllWhiteSpace(ws)
    ensures ParseInt(ws + s) == ParseInt(s)
  {
    TrimStartSkipsWhiteSpace(ws, s);
  }

  /** Parsing the decimal rendering of an integer, followed by anything that
      cannot extend the number, yields the integer back.  The side condition
      excludes "0x…", which `parseInt` reads as hexadecimal. */
  lemma ParseIntDecimalString(n: int, rest: string)
    requires rest == [] || (!IsDecimalDigit(rest[0]) && (n != 0 || (rest[0] != 'x' && rest[0] != 'X')))
    ensures ParseInt(DecimalString(n) + rest) == Some(n)
  {
    if n < 0 {
      ParseIntNegative(n, rest);
    } else {
      ParseIntNonNegative(n, rest);
    }
  }

  lemma ParseIntNegative(n: int, rest: string)
    requires n < 0
    requires rest == [] || !IsDecimalDigit(rest[0])
    ensures ParseInt(DecimalString(n) + rest) == Some(n)
  {
    MinusShape(n, rest);
    NegativeOf(DecimalString(n) + rest, -n, rest);
  }

  lemma NegativeOf(s: string, m: nat, rest: string)
    requires m > 0 && (rest == [] || !IsDecimalDigit(rest[0]))
    requires |s| > 0 && s[0] == '-' && s[1..] == NatDigits(m) + rest
    ensures ParseInt(s) == Some(-(m as int))
  {
    ParseUnsignedDigits(m, rest);
    ParseSignedMinus(s, m);
  }

  /** A negative number renders as '-' followed by the digits of its magnitude. */
  lemma MinusShape(n: int, rest: string)
    requires n < 0
    ensures var s := DecimalString(n) + rest;
      |s| > 0 && s[0] == '-' && s[1..] == NatDigits(-n) + rest
  {
    var s := DecimalString(n) + rest;
    assert s == "-" + (NatDigits(-n) + rest);
  }

  lemma ParseIntNonNegative(n: nat, rest: string)
    requires rest == [] || (!IsDecimalDigit(rest[0]) && (n != 0 || (rest[0] != 'x' && rest[0] != 'X')))
    ensures ParseInt(DecimalString(n) + rest) == Some(n)
  {
    var u := NatDigits(n) + rest;
    ParseUnsignedDigits(n, rest);
    assert u[0] == NatDigits(n)[0];
    ParseSignedUnsigned(u, n);
    assert DecimalString(n) + rest == u;
  }

  lemma ParseSignedMinus(s: string, m: nat)
    requires |s| > 0 && s[0] == '-'
    requires ParseUnsigned(s[1..]) == Some(m)
    ensures ParseInt(s) == Some(-(m as int))
  {
    assert !IsWhiteSpace(s[0]);
    assert TrimStart(s) == s;
  }

  lemma ParseSignedUnsigned(u: string, m: nat)
    requires |u| > 0 && IsDecimalDigit(u[0])
    requires ParseUnsigned(u) == Some(m)
    ensures ParseInt(u) == Some(m)
  {
    assert !IsWhiteSpace(u[0]);
    assert TrimStart(u) == u;
    assert u[0] != '-' && u[0] != '+';
    assert ParseSigned(u) == ParseUnsigned(u);
  }

  lemma ParseUnsignedDigits(m: nat, rest: string)
    requires rest == [] || (!IsDecimalDigit(rest[0]) && (m != 0 || (rest[0] != 'x' && rest[0] != 'X')))
    ensures ParseUnsigned(NatDigits(m) + rest) == Some(m)
  {
    var d := NatDigits(m);
    var u := d + rest;
    assert !(|u| >= 2 && u[0] == '0' && (u[1] == 'x' || u[1] == 'X')) by {
      if |u| >= 2 && u[0] == '0' && |d| == 1 {
        assert u[1] == rest[0];
      }
    }
    DigitPrefixOfDigits(d, rest, 10);
    assert u[..|d|] == d;
    NatDigitsValue(m);
  }

  /** The round trip between the client's `${id}` and the server's `parseInt`. */
  lemma ParseIntRoundTrip(n: int)
    ensures ParseInt(DecimalString(n)) == Some(n)
  {
    ParseIntDecimalString(n, []);
    assert DecimalString(n) + [] == DecimalString(n);
  }

  /** Without a single decimal digit there is nothing to parse: NaN. */
  lemma ParseIntWithoutDigits(s: string)
    requires forall i :: 0 <= i < |s| ==> !IsDecimalDigit(s[i])
    ensures ParseInt(s) == None
  {
    var t := TrimStart(s);
    SuffixWithoutDigits(s, t);
    SignedWithoutDigits(t);
  }

  lemma SuffixWithoutDigits(s: string, t: string)
    requires forall i :: 0 <= i < |s| ==> !IsDecimalDigit(s[i])
    requires |t| <= |s| && t == s[|s| - |t|..]
    ensures forall i :: 0 <= i < |t| ==> !IsDecimalDigit(t[i])
  {
    assert forall i :: 0 <= i < |t| ==> t[i] == s[|s| - |t| + i];
  }

  lemma SignedWithoutDigits(t: string)
    requires forall i :: 0 <= i < |t| ==> !IsDecimalDigit(t[i])
    ensures ParseSigned(t) == None
  {
    if |t| > 0 && (t[0] == '-' || t[0] == '+') {
      assert forall i :: 0 <= i < |t[1..]| ==> t[1..][i] == t[i + 1];
      UnsignedWithoutDigits(t[1..]);
    } else {
      UnsignedWithoutDigits(t);
    }
  }

  lemma UnsignedWithoutDigits(u: string)
    requires |u| > 0 ==> !IsDecimalDigit(u[0])
    ensures ParseUnsigned(u) == None
  {
    assert DigitPrefixLength(u, 10) == 0;
  }
}
