/** Character and string helpers shared by the components: the ECMAScript
    whitespace class (what `\s` and `\S` match in a regular expression and
    what `String.prototype.trim` removes), trimming, the UTF-16 length that
    `String.prototype.length` reports, and the decimal rendering of a number
    rendered as a JSX child. */
module Text {

  /** ECMAScript WhiteSpace and LineTerminator code points: TAB, LF, VT, FF,
      CR, SPACE, NBSP, ZWNBSP (BOM), the category Zs separators, LINE
      SEPARATOR and PARAGRAPH SEPARATOR. */
  predicate IsWhitespace(c: char)
    ensures IsWhitespace(c) <==> c in WhitespaceCodePoints
    ensures IsWhitespace(c) ==> Utf16Units(c) == 1
  {
    || c == '\t' || c == '\n' || c == '\U{B}' || c == '\U{C}' || c == '\r'
    || c == ' ' || c == '\U{A0}' || c == '\U{1680}'
    || ('\U{2000}' <= c <= '\U{200A}')
    || c == '\U{2028}' || c == '\U{2029}' || c == '\U{202F}' || c == '\U{205F}'
    || c == '\U{3000}' || c == '\U{FEFF}'
  }

  /** The same code points listed one by one */
  const WhitespaceCodePoints: set<char> := {
    '\t', '\n', '\U{B}', '\U{C}', '\r', ' ', '\U{A0}', '\U{1680}',
    '\U{2000}', '\U{2001}', '\U{2002}', '\U{2003}', '\U{2004}', '\U{2005}',
    '\U{2006}', '\U{2007}', '\U{2008}', '\U{2009}', '\U{200A}',
    '\U{2028}', '\U{2029}', '\U{202F}', '\U{205F}', '\U{3000}', '\U{FEFF}'
  }

  /** Every character of `s` is matched by `\S` */
  predicate NoWhitespace(s: string)
  {
    forall i :: 0 <= i < |s| ==> !IsWhitespace(s[i])
  }

  /** Every character of `s` is matched by `\s` (the empty string included) */
  predicate Blank(s: string)
  {
    forall i :: 0 <= i < |s| ==> IsWhitespace(s[i])
  }

  /** Number of whitespace characters at the front of `s` */
  function LeadingWhitespace(s: string): (k: nat)
    ensures k <= |s|
    ensures forall i :: 0 <= i < k ==> IsWhitespace(s[i])
    ensures k < |s| ==> !IsWhitespace(s[k])
  {
    if |s| > 0 && IsWhitespace(s[0]) then 1 + LeadingWhitespace(s[1..]) else 0
  }

  /** Number of whitespace characters at the back of `s` */
  function TrailingWhitespace(s: string): (j: nat)
    ensures j <= |s|
    ensures forall i :: |s| - j <= i < |s| ==> IsWhitespace(s[i])
    ensures j < |s| ==> !IsWhitespace(s[|s| - 1 - j])
  {
    if |s| > 0 && IsWhitespace(s[|s| - 1]) then 1 + TrailingWhitespace(s[..|s| - 1]) else 0
  }

  /** `r` is `s` with `k` whitespace characters cut from the front and only
      whitespace cut from the back */
  ghost predicate Strips(s: string, k: int, r: string)
  {
    && 0 <= k && k + |r| <= |s| && r == s[k..k + |r|]
    && (forall i :: 0 <= i < k ==> IsWhitespace(s[i]))
    && (forall i :: k + |r| <= i < |s| ==> IsWhitespace(s[i]))
  }

  /** `String.prototype.trim` */
  function Trim(s: string): (r: string)
    ensures exists k :: Strips(s, k, r)
    ensures r == [] <==> Blank(s)
    ensures r != [] ==> !IsWhitespace(r[0]) && !IsWhitespace(r[|r| - 1])
  {
    var k := LeadingWhitespace(s);
    if k == |s| then
      assert Strips(s, k, []);
      []
    else
      var j := TrailingWhitespace(s);
      assert j < |s| - k;
      var r := s[k..|s| - j];
      assert Strips(s, k, r);
      assert r[0] == s[k] && r[|r| - 1] == s[|s| - 1 - j];
      r
  }

  /** Number of UTF-16 code units of one code point */
  function Utf16Units(c: char): (n: nat)
  {
    if c as int >= 0x1_0000 then 2 else 1
  }

  /** `String.prototype.length`: the number of UTF-16 code units */
  function Utf16Length(s: string): (n: nat)
    ensures |s| <= n <= 2 * |s|
  {
    if s == [] then 0 else Utf16Units(s[0]) + Utf16Length(s[1..])
  }

  predicate IsDigit(c: char)
  {
    '0' <= c <= '9'
  }

  predicate AllDigits(s: string)
  {
    forall i :: 0 <= i < |s| ==> IsDigit(s[i])
  }

  function DigitChar(d: nat): (c: char)
    requires d < 10
    ensures IsDigit(c) && c as int - '0' as int == d
  {
    ('0' as int + d) as char
  }

  /** How a non-negative integer is rendered as a JSX child:
      decimal digits, most significant first, without leading zeros */
  function NatToString(n: nat): (s: string)
    ensures |s| >= 1 && AllDigits(s)
    ensures |s| > 1 ==> s[0] != '0'
  {
    if n < 10 then [DigitChar(n)] else NatToString(n / 10) + [DigitChar(n % 10)]
  }

  /** The value of a string of decimal digits */
  function DecimalValue(s: string): (n: nat)
    requires AllDigits(s)
  {
    if s == [] then 0 else 10 * DecimalValue(s[..|s| - 1]) + (s[|s| - 1] as int - '0' as int)
  }

  /** Rendering a number and reading the digits back gives the number */
  lemma {:induction false} DecimalValueOfNatToString(n: nat)
    ensures DecimalValue(NatToString(n)) == n
  {
    var s := NatToString(n);
    if n >= 10 {
      DecimalValueOfNatToString(n / 10);
      assert s[..|s| - 1] == NatToString(n / 10);
    }
  }

  /** Different numbers are rendered differently */
  lemma NatToStringInjective(m: nat, n: nat)
    requires NatToString(m) == NatToString(n)
    ensures m == n
  {
    DecimalValueOfNatToString(m);
    DecimalValueOfNatToString(n);
  }
}
