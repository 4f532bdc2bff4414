/**
 * Small shared vocabulary for the halftone engine model: optional values,
 * bytes, hexadecimal digits, and the two JavaScript number routines the
 * engine relies on (`parseInt(s, 16)` and `Math.round`), stated exactly.
 */
module Basics {

  /** `None` stands for JavaScript's `null`/`undefined` (or NaN where a parse fails). */
  datatype Option<T> = None | Some(value: T)

  /** A parameter or keyframe value: a JavaScript number, string, boolean, or `undefined`. */
  datatype Value = Num(num: real) | Str(str: string) | Bool(flag: bool) | Undefined

  /** One byte of an RGBA8 pixel buffer (`Uint8ClampedArray` element). */
  type Byte = b: int | 0 <= b < 256

  function Min(a: int, b: int): int { if a <= b then a else b }
  function Max(a: int, b: int): int { if a >= b then a else b }
  function MinR(a: real, b: real): real { if a <= b then a else b }
  function MaxR(a: real, b: real): real { if a >= b then a else b }

  /** `Math.round`: nearest integer, halves rounded towards +infinity. */
  function RoundHalfUp(x: real): (r: int)
    ensures x - 1.0 / 2.0 < r as real <= x + 1.0 / 2.0
  {
    (x + 1.0 / 2.0).Floor
  }

  // ---------------------------------------------------------------------
  // Hexadecimal digits
  // ---------------------------------------------------------------------

  /** The character class `[0-9A-Fa-f]`. */
  predicate IsHexDigit(c: char) {
    ('0' <= c <= '9') || ('a' <= c <= 'f') || ('A' <= c <= 'F')
  }

  function HexDigitValue(c: char): (v: nat)
    requires IsHexDigit(c)
    ensures v < 16
  {
    if '0' <= c <= '9' then c as int - '0' as int
    else if 'a' <= c <= 'f' then c as int - 'a' as int + 10
    else c as int - 'A' as int + 10
  }

  /** The digit `Number.prototype.toString(16)` prints: lower case. */
  function LowerHexDigit(v: nat): (c: char)
    requires v < 16
    ensures IsHexDigit(c) && HexDigitValue(c) == v
    ensures !('A' <= c <= 'F')
  {
    if v < 10 then ('0' as int + v) as char else ('a' as int + v - 10) as char
  }

  predicate AllHexDigits(s: string) {
    forall i :: 0 <= i < |s| ==> IsHexDigit(s[i])
  }

  /** Value of a string of hex digits, most significant digit first. */
  function HexValue(s: string): nat
    requires AllHexDigits(s)
  {
    if s == [] then 0 else HexValue(s[..|s| - 1]) * 16 + HexDigitValue(s[|s| - 1])
  }

  /** `b.toString(16).padStart(2, "0")` for a value 0..255. */
  function ByteToHex2(b: Byte): (s: string)
    ensures |s| == 2 && AllHexDigits(s) && HexValue(s) == b
    ensures forall i :: 0 <= i < 2 ==> !('A' <= s[i] <= 'F')
  {
    var s := [LowerHexDigit(b / 16), LowerHexDigit(b % 16)];
    assert s[..1] == [s[0]];
    assert HexValue(s[..1]) == b / 16 by {
      assert [s[0]][..0] == [];
    }
    s
  }

  /** The regular expression `/^#[0-9A-Fa-f]{6}$/`. */
  predicate IsHexColor(s: string) {
    |s| == 7 && s[0] == '#' && AllHexDigits(s[1..])
  }

  // ---------------------------------------------------------------------
  // parseInt(s, 16)
  // ---------------------------------------------------------------------

  /** ECMAScript WhiteSpace and LineTerminator code points (what `trim` and `parseInt` skip). */
  predicate IsJsWhitespace(c: char) {
    if c <= ' ' then c in AsciiWhitespace else '\U{00A0}' <= c && c in WideWhitespace
  }

  /** The white space up to the space character: tab, the line breaks, vertical tab, form feed. */
  const AsciiWhitespace: set<char> := {'\t', '\n', '\U{000B}', '\U{000C}', '\r', ' '}

  /** The rest, from U+00A0 on: no-break and Unicode spaces, the line and paragraph separators, the BOM. */
  const WideWhitespace: set<char> := {
    '\U{00A0}', '\U{1680}',
    '\U{2000}', '\U{2001}', '\U{2002}', '\U{2003}', '\U{2004}', '\U{2005}',
    '\U{2006}', '\U{2007}', '\U{2008}', '\U{2009}', '\U{200A}',
    '\U{2028}', '\U{2029}', '\U{202F}', '\U{205F}', '\U{3000}', '\U{FEFF}'
  }

  predicate AllJsWhitespace(w: string) {
    forall i :: 0 <= i < |w| ==> IsJsWhitespace(w[i])
  }

  /** `String.prototype.trimStart`. */
  function TrimStart(s: string): string {
    if s != [] && IsJsWhitespace(s[0]) then TrimStart(s[1..]) else s
  }

  /** `trimStart` drops the leading white space and nothing else. */
  lemma {:induction false} TrimStartParts(s: string)
    ensures var r := TrimStart(s);
      && |r| <= |s| && r == s[|s| - |r|..] && AllJsWhitespace(s[..|s| - |r|])
      && (r == [] || !IsJsWhitespace(r[0]))
  {
    if s != [] && IsJsWhitespace(s[0]) {
      TrimStartParts(s[1..]);
      var r := TrimStart(s);
      assert s[1..][..|s| - 1 - |r|] == s[1..|s| - |r|];
    }
  }

  /** `String.prototype.trimEnd`. */
  function TrimEnd(s: string): (r: string)
    ensures |r| <= |s| && r == s[..|r|]
    ensures r == [] || !IsJsWhitespace(r[|r| - 1])
  {
    if s != [] && IsJsWhitespace(s[|s| - 1]) then TrimEnd(s[..|s| - 1]) else s
  }

  /** `trimEnd` drops the trailing white space and nothing else. */
  lemma {:induction false} TrimEndParts(s: string)
    ensures AllJsWhitespace(s[|TrimEnd(s)|..])
  {
    if s != [] && IsJsWhitespace(s[|s| - 1]) {
      TrimEndParts(s[..|s| - 1]);
      var r := TrimEnd(s);
      assert s[..|s| - 1][|r|..] == s[|r|..|s| - 1];
    }
  }

  /** `String.prototype.trim`: what is left neither starts nor ends with white space. */
  function Trim(s: string): (r: string)
    ensures |r| <= |s|
    ensures r == [] || (!IsJsWhitespace(r[0]) && !IsJsWhitespace(r[|r| - 1]))
  {
    TrimStartParts(s);
    var t := TrimStart(s);
    var r := TrimEnd(t);
    assert r == [] || r[0] == t[0];
    r
  }

  /**
   * `trim` drops white space only: `s` is white space, then `Trim(s)`, then
   * white space.
   */
  lemma TrimParts(s: string)
    ensures var r, k := Trim(s), |s| - |TrimStart(s)|;
      && 0 <= k && k + |r| <= |s| && r == s[k..k + |r|]
      && AllJsWhitespace(s[..k]) && AllJsWhitespace(s[k + |r|..])
  {
    var t := TrimStart(s);
    var r := TrimEnd(t);
    assert Trim(s) == r;
    TrimStartParts(s);
    TrimEndParts(t);
    SliceOfSuffix(s, t, r);
  }

  /** `r`, a prefix of the suffix `t` of `s`, sits in `s` right where `t` starts. */
  lemma SliceOfSuffix(s: string, t: string, r: string)
    requires |t| <= |s| && t == s[|s| - |t|..] && |r| <= |t| && r == t[..|r|]
    ensures var k := |s| - |t|; r == s[k..k + |r|] && s[k + |r|..] == t[|r|..]
  {}

  /** The longest prefix of `s` made of hex digits. */
  function HexDigitPrefix(s: string): (r: string)
    ensures AllHexDigits(r)
  {
    if s != [] && IsHexDigit(s[0]) then [s[0]] + HexDigitPrefix(s[1..]) else []
  }

  /** A string of hex digits is its own longest hex-digit prefix. */
  lemma {:induction false} HexDigitPrefixAll(s: string)
    ensures AllHexDigits(s) ==> HexDigitPrefix(s) == s
  {
    if s != [] && AllHexDigits(s) {
      HexDigitPrefixAll(s[1..]);
    }
  }

  /**
   * `parseInt(s, 16)`: skip leading white space, read an optional sign and
   * an optional `0x`/`0X` prefix, then the longest run of hex digits.
   * `None` is NaN (no digit at all).
   */
  function ParseIntHex(s: string): Option<int> {
    var t := TrimStart(s);
    var neg := t != [] && t[0] == '-';
    var u := if t != [] && (t[0] == '-' || t[0] == '+') then t[1..] else t;
    var v := if |u| >= 2 && u[0] == '0' && (u[1] == 'x' || u[1] == 'X') then u[2..] else u;
    var digits := HexDigitPrefix(v);
    var value: int := if digits == [] then 0 else HexValue(digits);
    if digits == [] then None
    else if neg then Some(-value)
    else Some(value)
  }

  /** `String.prototype.substring(a, b)` for `0 <= a <= b`: both ends clamped to the length. */
  function Substring(s: string, a: nat, b: nat): (r: string)
    requires a <= b
    ensures |r| <= b - a
  {
    var lo := if a <= |s| then a else |s|;
    var hi := if b <= |s| then b else |s|;
    s[lo..hi]
  }

  /** Nothing but white space is NaN. */
  lemma ParseIntHexBlank(s: string)
    requires AllJsWhitespace(s)
    ensures ParseIntHex(s) == None
  {
    TrimStartParts(s);
    assert TrimStart(s) == [];
  }

  lemma HexDigitNotWhitespace(c: char)
    requires IsHexDigit(c)
    ensures !IsJsWhitespace(c)
  {}

  /** A non-empty string of hex digits parses to its value. */
  lemma ParseIntHexDigits(s: string)
    requires |s| > 0 && AllHexDigits(s)
    ensures ParseIntHex(s) == Some(HexValue(s))
  {
    assert TrimStart(s) == s by {
      HexDigitNotWhitespace(s[0]);
    }
    assert HexDigitPrefix(s) == s by {
      HexDigitPrefixAll(s);
    }
    assert IsHexDigit(s[0]) && (|s| >= 2 ==> IsHexDigit(s[1]));
    assert s[0] != '-' && s[0] != '+';
    assert !(|s| >= 2 && s[0] == '0' && (s[1] == 'x' || s[1] == 'X'));
    calc {
      ParseIntHex(s);
      if HexDigitPrefix(s) == [] then None else Some(HexValue(HexDigitPrefix(s)));
      Some(HexValue(s));
    }
  }

  /** Two hex digits parse to their value, which is at most 255. */
  lemma ParseTwoHexDigits(p: string)
    requires |p| == 2 && AllHexDigits(p)
    ensures ParseIntHex(p) == Some(HexValue(p))
    ensures HexValue(p) <= 255
  {
    ParseIntHexDigits(p);
    assert HexValue(p[..1]) == HexDigitValue(p[0]) by {
      assert p[..1][..0] == [] && p[..1][0] == p[0];
    }
    assert HexValue(p) == HexDigitValue(p[0]) * 16 + HexDigitValue(p[1]);
  }
}
