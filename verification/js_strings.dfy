/** The string primitives of the JavaScript engine the handlers rely on:
    `String.prototype.trim`, the UTF-16 `length` of a string, the decimal
    rendering of an integer inside a template literal, and
    `encodeURIComponent`. Strings are sequences of Unicode scalar values. */
module JsStrings {

  import opened Wrappers

  // ---------------------------------------------------------------------------
  // Whitespace and trim
  // ---------------------------------------------------------------------------

  /** The characters `trim` removes: the WhiteSpace and LineTerminator
      productions of the ECMAScript grammar (TAB, VT, FF, ZWNBSP, every space
      separator of category Zs, LF, CR, LS and PS). */
  predicate IsWhitespace(c: char) {
    var n := c as int;
    n == 0x09 || n == 0x0A || n == 0x0B || n == 0x0C || n == 0x0D
    || n == 0x20 || n == 0xA0 || n == 0x1680
    || (0x2000 <= n <= 0x200A)
    || n == 0x2028 || n == 0x2029 || n == 0x202F || n == 0x205F
    || n == 0x3000 || n == 0xFEFF
  }

  /** The same characters listed one by one: TAB, LF, VT, FF, CR, the space
      separators of category Zs (U+0020, U+00A0, U+1680, U+2000-U+200A,
      U+202F, U+205F, U+3000), LS, PS and ZWNBSP. */
  const EcmaWhitespace: set<char> := {
    '\U{0009}', '\U{000A}', '\U{000B}', '\U{000C}', '\U{000D}',
    '\U{0020}', '\U{00A0}', '\U{1680}',
    '\U{2000}', '\U{2001}', '\U{2002}', '\U{2003}', '\U{2004}', '\U{2005}',
    '\U{2006}', '\U{2007}', '\U{2008}', '\U{2009}', '\U{200A}',
    '\U{2028}', '\U{2029}', '\U{202F}', '\U{205F}', '\U{3000}', '\U{FEFF}'
  }

  /** `IsWhitespace` holds for exactly the 25 listed characters. */
  lemma WhitespaceIsEcmaSet(c: char)
    ensures IsWhitespace(c) <==> c in EcmaWhitespace
  {
  }

  predicate AllWhitespace(s: string) {
    forall k :: 0 <= k < |s| ==> IsWhitespace(s[k])
  }

  /** Every character of `s` at a position in `[lo, hi)` is whitespace. */
  predicate WhitespaceBetween(s: string, lo: int, hi: int)
    requires 0 <= lo <= hi <= |s|
  {
    forall k :: lo <= k < hi ==> IsWhitespace(s[k])
  }

  /** The position of the first non-whitespace character of `s` at or after
      `i`, or `|s|` when there is none. */
  function LeadingEnd(s: string, i: nat): (n: nat)
    requires i <= |s|
    ensures i <= n <= |s|
    ensures WhitespaceBetween(s, i, n)
    ensures n < |s| ==> !IsWhitespace(s[n])
    decreases |s| - i
  {
    if i < |s| && IsWhitespace(s[i]) then LeadingEnd(s, i + 1) else i
  }

  /** The position just after the last non-whitespace character of `s` before
      `j`, or `0` when there is none. */
  function TrailingStart(s: string, j: nat): (n: nat)
    requires j <= |s|
    ensures n <= j
    ensures WhitespaceBetween(s, n, j)
    ensures n > 0 ==> !IsWhitespace(s[n - 1])
  {
    if j > 0 && IsWhitespace(s[j - 1]) then TrailingStart(s, j - 1) else j
  }

  /** Removes the leading whitespace: the result is the suffix of `s` that
      starts at its first non-whitespace character. */
  function TrimStart(s: string): (r: string)
    ensures |r| <= |s| && r == s[|s| - |r|..]
    ensures WhitespaceBetween(s, 0, |s| - |r|)
    ensures r != [] ==> !IsWhitespace(r[0])
  {
    s[LeadingEnd(s, 0)..]
  }

  /** Removes the trailing whitespace: the result is the prefix of `s` that
      ends at its last non-whitespace character. */
  function TrimEnd(s: string): (r: string)
    ensures |r| <= |s| && r == s[..|r|]
    ensures WhitespaceBetween(s, |r|, |s|)
    ensures r != [] ==> !IsWhitespace(r[|r| - 1])
  {
    s[..TrailingStart(s, |s|)]
  }

  /** `s.trim()`: what is left after removing whitespace at both ends. It is
      empty exactly when `s` is all whitespace, and otherwise it begins and
      ends with a non-whitespace character. */
  function Trim(s: string): (r: string)
    ensures |r| <= |s|
    ensures r == [] <==> AllWhitespace(s)
    ensures r != [] ==> !IsWhitespace(r[0]) && !IsWhitespace(r[|r| - 1])
  {
    TrimEnd(TrimStart(s))
  }

  /** `s.trim()` is the contiguous slice of `s` that starts where the
      leading whitespace ends, and only whitespace lies outside it. */
  lemma {:induction false} TrimIsSlice(s: string)
    ensures var i := |s| - |TrimStart(s)|;
      && i + |Trim(s)| <= |s|
      && Trim(s) == s[i..i + |Trim(s)|]
      && WhitespaceBetween(s, 0, i)
      && WhitespaceBetween(s, i + |Trim(s)|, |s|)
  {
  }

  /** Trimming an already trimmed string changes nothing. */
  lemma {:induction false} TrimIdempotent(s: string)
    ensures Trim(Trim(s)) == Trim(s)
  {
  }

  // ---------------------------------------------------------------------------
  // UTF-16 length
  // ---------------------------------------------------------------------------

  /** The number of UTF-16 code units that encode `c`: two for a character
      outside the Basic Multilingual Plane, one otherwise. */
  function Utf16Units(c: char): nat {
    if c as int > 0xFFFF then 2 else 1
  }

  /** `s.length` in JavaScript, which counts UTF-16 code units, not characters:
      it lies between the number of characters and twice that number, and
      equals the number of characters exactly when every character lies in
      the Basic Multilingual Plane. */
  function Utf16Length(s: string): (n: nat)
    ensures |s| <= n <= 2 * |s|
    ensures n == |s| <==> forall k :: 0 <= k < |s| ==> s[k] as int <= 0xFFFF
    ensures n == 0 <==> s == []
  {
    if s == [] then 0 else Utf16Units(s[0]) + Utf16Length(s[1..])
  }

  // ---------------------------------------------------------------------------
  // Decimal rendering of a non-negative integer
  // ---------------------------------------------------------------------------

  predicate IsDigit(c: char) {
    '0' <= c <= '9'
  }

  function DigitChar(d: nat): (c: char)
    requires d < 10
    ensures IsDigit(c) && c as int - '0' as int == d
  {
    ('0' as int + d) as char
  }

  /** `${n}` for an integer `n >= 0`: its decimal digits, most significant
      first, with no leading zero. */
  function Decimal(n: nat): (r: string)
    ensures r != []
    ensures forall k :: 0 <= k < |r| ==> IsDigit(r[k])
    ensures r[0] == '0' ==> n == 0
  {
    if n < 10 then [DigitChar(n)] else Decimal(n / 10) + [DigitChar(n % 10)]
  }

  function DigitValue(c: char): nat
    requires IsDigit(c)
  {
    c as int - '0' as int
  }

  /** The value of a string of decimal digits. */
  function DigitsValue(s: string): nat
    requires forall k :: 0 <= k < |s| ==> IsDigit(s[k])
  {
    if s == [] then 0
    else DigitsValue(s[..|s| - 1]) * 10 + DigitValue(s[|s| - 1])
  }

  /** Reads back a non-empty string of decimal digits; `None` for anything else. */
  function ParseDecimal(s: string): (r: Option<nat>)
    ensures r.Some? <==> s != [] && forall k :: 0 <= k < |s| ==> IsDigit(s[k])
  {
    if s != [] && forall k :: 0 <= k < |s| ==> IsDigit(s[k]) then Some(DigitsValue(s)) else None
  }

  /** The decimal rendering denotes the number it was made from. */
  lemma {:induction false} DecimalRoundTrip(n: nat)
    ensures ParseDecimal(Decimal(n)) == Some(n)
  {
    if n >= 10 {
      var p := Decimal(n / 10);
      var r := p + [DigitChar(n % 10)];
      assert Decimal(n) == r;
      DecimalRoundTrip(n / 10);
      assert r[..|r| - 1] == p;
      assert DigitValue(r[|r| - 1]) == n % 10;
      assert DigitsValue(r) == DigitsValue(p) * 10 + n % 10;
      assert n == (n / 10) * 10 + n % 10;
    } else {
      var r := [DigitChar(n)];
      assert r[..0] == [];
      assert DigitsValue(r) == DigitValue(r[0]);
    }
  }

  /** Distinct numbers render as distinct strings. */
  lemma DecimalInjective(m: nat, n: nat)
    requires Decimal(m) == Decimal(n)
    ensures m == n
  {
    DecimalRoundTrip(m);
    DecimalRoundTrip(n);
  }

  // ---------------------------------------------------------------------------
  // encodeURIComponent
  // ---------------------------------------------------------------------------

  /** The characters `encodeURIComponent` leaves alone: ASCII letters and
      digits and `- _ . ! ~ * ' ( )`. */
  predicate Unreserved(c: char) {
    ('A' <= c <= 'Z') || ('a' <= c <= 'z') || ('0' <= c <= '9')
    || c == '-' || c == '_' || c == '.' || c == '!' || c == '~'
    || c == '*' || c == '\'' || c == '(' || c == ')'
  }

  predicate AllUnreserved(s: string) {
    forall k :: 0 <= k < |s| ==> Unreserved(s[k])
  }

  /** The UTF-8 encoding of one Unicode scalar value. */
  function Utf8Bytes(c: char): (bs: seq<nat>)
    ensures 1 <= |bs| <= 4
    ensures forall k :: 0 <= k < |bs| ==> bs[k] < 256
    ensures |bs| == 1 <==> c as int < 0x80
  {
    var n := c as int;
    if n < 0x80 then [n]
    else if n < 0x800 then [0xC0 + n / 0x40, 0x80 + n % 0x40]
    else if n < 0x10000 then [0xE0 + n / 0x1000, 0x80 + (n / 0x40) % 0x40, 0x80 + n % 0x40]
    else [0xF0 + n / 0x40000, 0x80 + (n / 0x1000) % 0x40, 0x80 + (n / 0x40) % 0x40, 0x80 + n % 0x40]
  }

  function HexDigit(d: nat): (c: char)
    requires d < 16
    ensures Unreserved(c)
  {
    if d < 10 then DigitChar(d) else ('A' as int + (d - 10)) as char
  }

  /** `%XX` escapes, upper-case hexadecimal, one per byte. */
  function PercentEscapes(bs: seq<nat>): (r: string)
    requires forall k :: 0 <= k < |bs| ==> bs[k] < 256
    ensures |r| == 3 * |bs|
    ensures forall k :: 0 <= k < |r| ==> Unreserved(r[k]) || r[k] == '%'
  {
    if bs == [] then []
    else ['%', HexDigit(bs[0] / 16), HexDigit(bs[0] % 16)] + PercentEscapes(bs[1..])
  }

  function EncodeChar(c: char): (r: string)
    ensures Unreserved(c) ==> r == [c]
    ensures !Unreserved(c) ==> |r| >= 3
  {
    if Unreserved(c) then [c] else PercentEscapes(Utf8Bytes(c))
  }

  /** `encodeURIComponent(s)`: every character outside the unreserved set is
      replaced by the percent-escapes of its UTF-8 bytes. The result holds only
      unreserved characters and `%`, and is as long as `s` exactly when nothing
      had to be escaped. */
  function EncodeUriComponent(s: string): (r: string)
    ensures forall k :: 0 <= k < |r| ==> Unreserved(r[k]) || r[k] == '%'
    ensures |r| >= |s|
    ensures |r| == |s| <==> AllUnreserved(s)
  {
    if s == [] then [] else EncodeChar(s[0]) + EncodeUriComponent(s[1..])
  }

  /** `encodeURIComponent` returns its argument unchanged exactly when every
      character of it is unreserved. */
  lemma {:induction false} EncodeIdentityIff(s: string)
    ensures EncodeUriComponent(s) == s <==> AllUnreserved(s)
  {
    if s != [] {
      EncodeIdentityIff(s[1..]);
      if AllUnreserved(s) {
        assert AllUnreserved(s[1..]);
        assert s == [s[0]] + s[1..];
      }
    }
  }
}
