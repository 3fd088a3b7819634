/** The JavaScript string operations the pages rely on: `toLowerCase`,
    `includes`, deleting non-digits with `replace(/[^0-9]/g, '')`, number to
    text conversion, and `parseInt` with no radix argument. */
module Text {
  import opened Wrappers
  import Lists

  /** `toLowerCase` on one character, for the Basic Latin and Latin-1 letters
      (A-Z and U+00C0 to U+00DE except the multiplication sign U+00D7). */
  function LowerChar(c: char): (r: char)
    ensures 'A' <= c <= 'Z' ==> r as int == c as int + 32
    ensures !('A' <= c <= 'Z') && !('\U{00C0}' <= c <= '\U{00DE}') ==> r == c
    ensures !('A' <= r <= 'Z')
  {
    if 'A' <= c <= 'Z' || ('\U{00C0}' <= c <= '\U{00DE}' && c != '\U{00D7}') then
      (c as int + 32) as char
    else c
  }

  /** `s.toLowerCase()`, character by character. */
  function Lower(s: string): (r: string)
    ensures |r| == |s|
    ensures forall i :: 0 <= i < |s| ==> r[i] == LowerChar(s[i])
    ensures forall i :: 0 <= i < |r| ==> !('A' <= r[i] <= 'Z')
  {
    seq(|s|, i requires 0 <= i < |s| => LowerChar(s[i]))
  }

  /** Lowering twice is lowering once. */
  lemma LowerIdempotent(s: string)
    ensures Lower(Lower(s)) == Lower(s)
  {
    forall i | 0 <= i < |s|
      ensures Lower(Lower(s))[i] == Lower(s)[i]
    {
      var c := s[i];
      if '\U{00C0}' <= c <= '\U{00DE}' && c != '\U{00D7}' {
        assert LowerChar(c) as int == c as int + 32;
      }
    }
  }

  /** `needle` occurs in `hay` starting at position 0. */
  predicate StartsWith(hay: string, needle: string)
  {
    |needle| <= |hay| && hay[..|needle|] == needle
  }

  /** `hay.includes(needle)`: `needle` occurs somewhere in `hay`. */
  predicate Contains(hay: string, needle: string)
    ensures Contains(hay, needle) ==> |needle| <= |hay|
    decreases |hay|
  {
    StartsWith(hay, needle) || (hay != [] && Contains(hay[1..], needle))
  }

  /** Occurrence at a position. */
  ghost predicate OccursAt(hay: string, needle: string, i: int)
  {
    0 <= i && i + |needle| <= |hay| && hay[i..i + |needle|] == needle
  }

  /** `Contains` is the substring relation: true exactly when some position
      holds an occurrence. */
  lemma {:induction false} ContainsIff(hay: string, needle: string)
    ensures Contains(hay, needle) <==> exists i :: OccursAt(hay, needle, i)
    decreases |hay|
  {
    if StartsWith(hay, needle) {
      assert OccursAt(hay, needle, 0);
    } else if hay != [] {
      ContainsIff(hay[1..], needle);
      if exists i :: OccursAt(hay, needle, i) {
        var i :| OccursAt(hay, needle, i);
        assert i != 0;
        assert hay[1..][i - 1..i - 1 + |needle|] == hay[i..i + |needle|];
        assert OccursAt(hay[1..], needle, i - 1);
      }
      if exists i :: OccursAt(hay[1..], needle, i) {
        var i :| OccursAt(hay[1..], needle, i);
        assert hay[1..][i..i + |needle|] == hay[i + 1..i + 1 + |needle|];
        assert OccursAt(hay, needle, i + 1);
      }
    }
  }

  /** Every string includes the empty string. */
  lemma ContainsEmpty(hay: string)
    ensures Contains(hay, "")
  {
    assert StartsWith(hay, "");
  }

  predicate IsDigit(c: char) { '0' <= c <= '9' }

  /** `s.replace(/[^0-9]/g, '')`: the decimal digits of `s`, in order. */
  function KeepDigits(s: string): (r: string)
    ensures forall i :: 0 <= i < |r| ==> IsDigit(r[i])
    ensures forall c :: IsDigit(c) ==> (c in r <==> c in s)
    ensures forall c :: multiset(r)[c] == if IsDigit(c) then multiset(s)[c] else 0
    ensures Lists.IsSubsequence(r, s)
  {
    Lists.FilterMultiplicity(IsDigit, s);
    Lists.FilterIsSubsequence(IsDigit, s);
    Lists.Filter(IsDigit, s)
  }

  /** A digit of base 10 or, when `hex`, of base 16 (either case). */
  predicate IsRadixDigit(c: char, hex: bool)
  {
    IsDigit(c) || (hex && ('a' <= c <= 'f' || 'A' <= c <= 'F'))
  }

  function DigitOf(c: char, hex: bool): (d: nat)
    requires IsRadixDigit(c, hex)
    ensures d < (if hex then 16 else 10)
  {
    if IsDigit(c) then c as int - '0' as int
    else if 'a' <= c <= 'f' then c as int - 'a' as int + 10
    else c as int - 'A' as int + 10
  }

  function Radix(hex: bool): nat { if hex then 16 else 10 }

  /** The number a string of digits denotes, most significant first. */
  function Value(ds: string, hex: bool): (v: nat)
    requires forall i :: 0 <= i < |ds| ==> IsRadixDigit(ds[i], hex)
    decreases |ds|
  {
    if ds == [] then 0
    else Value(ds[..|ds| - 1], hex) * Radix(hex) + DigitOf(ds[|ds| - 1], hex)
  }

  /** The longest prefix of `s` made of digits. */
  function DigitPrefix(s: string, hex: bool): (z: string)
    ensures |z| <= |s| && z == s[..|z|]
    ensures forall i :: 0 <= i < |z| ==> IsRadixDigit(z[i], hex)
    ensures |z| < |s| ==> !IsRadixDigit(s[|z|], hex)
  {
    if s == [] || !IsRadixDigit(s[0], hex) then []
    else [s[0]] + DigitPrefix(s[1..], hex)
  }

  /** The characters `parseInt` skips at the start: white space and line
      terminators as ECMAScript defines them. */
  predicate IsWhiteSpace(c: char)
  {
    c == '\t' || c == '\U{000B}' || c == '\U{000C}' || c == ' ' || c == '\U{00A0}'
    || c == '\U{FEFF}' || c == '\U{1680}' || ('\U{2000}' <= c <= '\U{200A}')
    || c == '\U{202F}' || c == '\U{205F}' || c == '\U{3000}'
    || c == '\n' || c == '\r' || c == '\U{2028}' || c == '\U{2029}'
  }

  function TrimStart(s: string): (t: string)
    ensures |t| <= |s| && t == s[|s| - |t|..]
    ensures t != [] ==> !IsWhiteSpace(t[0])
  {
    if s != [] && IsWhiteSpace(s[0]) then TrimStart(s[1..]) else s
  }

  /** The unsigned part of `parseInt`: base 16 after a `0x`/`0X` prefix,
      base 10 otherwise, up to the first character that is not a digit. */
  function ParseUnsigned(u: string): (r: Option<nat>)
    ensures (u == [] || !IsDigit(u[0])) ==> r.None?
  {
    var hex := |u| >= 2 && u[0] == '0' && (u[1] == 'x' || u[1] == 'X');
    var z := DigitPrefix(if hex then u[2..] else u, hex);
    if z == [] then None else Some(Value(z, hex))
  }

  /** `parseInt(s)` with no radix: skip leading white space, take an optional
      sign, then read the unsigned part. `None` is `NaN`. */
  function ParseInt(s: string): (r: Option<int>)
    ensures TrimStart(s) == [] ==> r.None?
    ensures TrimStart(s) != [] && !IsDigit(TrimStart(s)[0]) && TrimStart(s)[0] != '-' && TrimStart(s)[0] != '+'
            ==> r.None?
    ensures r.Some? && r.value < 0 ==> TrimStart(s)[0] == '-'
  {
    var t := TrimStart(s);
    var signed := t != [] && (t[0] == '-' || t[0] == '+');
    match ParseUnsigned(if signed then t[1..] else t)
    case None => None
    case Some(v) =>
      var magnitude: int := v;
      Some(if signed && t[0] == '-' then -magnitude else magnitude)
  }

  function DigitChar(d: nat): (c: char)
    requires d < 10
    ensures IsDigit(c) && DigitOf(c, false) == d
  {
    ('0' as int + d) as char
  }

  /** `${n}` for a natural number: its decimal digits, without leading zeros. */
  function NatToString(n: nat): (s: string)
    ensures s != [] && forall i :: 0 <= i < |s| ==> IsDigit(s[i])
    ensures Value(s, false) == n
    ensures s[0] == '0' <==> n == 0
    ensures |s| == 1 || s[0] != '0'
  {
    if n < 10 then [DigitChar(n)]
    else
      var s := NatToString(n / 10) + [DigitChar(n % 10)];
      assert s[..|s| - 1] == NatToString(n / 10);
      s
  }

  /** `String(n)` for an integer below 1e21 in magnitude, where JavaScript
      writes plain decimal digits. */
  function IntToString(n: int): (s: string)
    ensures s != [] && (s[0] == '-' || IsDigit(s[0]))
  {
    if n < 0 then "-" + NatToString(-n) else NatToString(n)
  }

  /** A digit is not white space, so `parseInt` starts reading at it. */
  lemma TrimStartAtDigit(s: string)
    requires s != [] && (IsDigit(s[0]) || s[0] == '-')
    ensures TrimStart(s) == s
  {
    assert !IsWhiteSpace(s[0]);
  }

  /** The longest digit prefix of `digits + rest` is `digits` when `rest`
      does not start with a digit. */
  lemma {:induction false} DigitPrefixUpTo(digits: string, rest: string)
    requires forall i :: 0 <= i < |digits| ==> IsDigit(digits[i])
    requires rest == [] || !IsDigit(rest[0])
    ensures DigitPrefix(digits + rest, false) == digits
  {
    if digits == [] {
      assert digits + rest == rest;
    } else {
      assert (digits + rest)[1..] == digits[1..] + rest;
      DigitPrefixUpTo(digits[1..], rest);
    }
  }

  /** The unsigned reading of a decimal number followed by text that does
      not continue it (no digit, no `x` after a single `0`). */
  lemma ParseUnsignedLeadingDigits(digits: string, rest: string)
    requires digits != [] && forall i :: 0 <= i < |digits| ==> IsDigit(digits[i])
    requires rest == [] || (!IsDigit(rest[0]) && rest[0] != 'x' && rest[0] != 'X')
    ensures ParseUnsigned(digits + rest) == Some(Value(digits, false))
  {
    var s := digits + rest;
    assert !(|s| >= 2 && s[0] == '0' && (s[1] == 'x' || s[1] == 'X')) by {
      if |digits| >= 2 { assert s[1] == digits[1]; }
      else if |s| >= 2 { assert s[1] == rest[0]; }
    }
    DigitPrefixUpTo(digits, rest);
  }

  /** `parseInt` reads such a number back. */
  lemma ParseIntLeadingDigits(digits: string, rest: string)
    requires digits != [] && forall i :: 0 <= i < |digits| ==> IsDigit(digits[i])
    requires rest == [] || (!IsDigit(rest[0]) && rest[0] != 'x' && rest[0] != 'X')
    ensures ParseInt(digits + rest) == Some(Value(digits, false))
  {
    var s := digits + rest;
    assert s[0] == digits[0];
    TrimStartAtDigit(s);
    assert !(s[0] == '-' || s[0] == '+');
    ParseUnsignedLeadingDigits(digits, rest);
  }

  /** `parseInt` of a string of decimal digits is its value, and `NaN` for
      the empty string. */
  lemma ParseIntOfDigits(ds: string)
    requires forall i :: 0 <= i < |ds| ==> IsDigit(ds[i])
    ensures ParseInt(ds) == if ds == [] then None else Some(Value(ds, false))
  {
    if ds != [] {
      ParseIntLeadingDigits(ds, []);
      assert ds + [] == ds;
    }
  }

  /** `parseInt(String(n)) === n` for every integer `n` written in plain
      decimal digits. */
  lemma ParseIntRoundTrip(n: int)
    ensures ParseInt(IntToString(n)) == Some(n)
  {
    var s := IntToString(n);
    if n < 0 {
      var digits := NatToString(-n);
      assert s == "-" + digits && s[1..] == digits;
      TrimStartAtDigit(s);
      ParseUnsignedLeadingDigits(digits, []);
      assert digits + [] == digits;
    } else {
      ParseIntLeadingDigits(s, []);
      assert s + [] == s;
    }
  }
}
