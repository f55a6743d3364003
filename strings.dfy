/** Text helpers shared by the backend and front-end models: the character
    classes of JavaScript regular expressions, ASCII case folding, the
    white-space set of `String.prototype.trim`, substring search, decimal
    rendering and `split`. */
module Strings {
  import opened Wrappers

  /** Regular-expression `\d` and `[0-9]`. */
  predicate IsDigit(c: char) { '0' <= c <= '9' }

  predicate AllDigits(s: string) { forall i :: 0 <= i < |s| ==> IsDigit(s[i]) }

  /** A text of exactly `n` characters, all decimal digits. */
  predicate IsDigitsOfLength(s: string, n: nat) { |s| == n && AllDigits(s) }

  predicate IsAsciiAlnum(c: char) { 'a' <= c <= 'z' || 'A' <= c <= 'Z' || IsDigit(c) }

  predicate IsHexDigit(c: char) { IsDigit(c) || 'a' <= c <= 'f' || 'A' <= c <= 'F' }

  /** Regular-expression `\s`: the characters that `trim` removes. */
  predicate IsJsSpace(c: char) {
    c == '\t' || c == '\n' || c == '\U{000B}' || c == '\U{000C}' || c == '\r' || c == ' '
    || c == '\U{00A0}' || c == '\U{1680}' || ('\U{2000}' <= c <= '\U{200A}')
    || c == '\U{2028}' || c == '\U{2029}' || c == '\U{202F}' || c == '\U{205F}'
    || c == '\U{3000}' || c == '\U{FEFF}'
  }

  /** A character JavaScript stores in one UTF-16 code unit. */
  predicate InBmp(c: char) { c as int <= 0xFFFF }

  /** `s.length`: UTF-16 code units, two for each character outside the
      Basic Multilingual Plane. */
  function Utf16Length(s: string): (n: nat)
    ensures |s| <= n <= 2 * |s|
    ensures n == |s| <==> forall i :: 0 <= i < |s| ==> InBmp(s[i])
    ensures n == 0 <==> s == ""
  {
    if s == [] then 0 else (if InBmp(s[0]) then 1 else 2) + Utf16Length(s[1..])
  }

  lemma {:induction false} Utf16LengthConcat(a: string, b: string)
    ensures Utf16Length(a + b) == Utf16Length(a) + Utf16Length(b)
    decreases |a|
  {
    if a != [] {
      assert (a + b)[0] == a[0] && (a + b)[1..] == a[1..] + b;
      Utf16LengthConcat(a[1..], b);
    } else {
      assert a + b == b;
    }
  }

  /** An emoji counts twice: "ab😀" has length 4. */
  lemma Utf16LengthOfEmoji()
    ensures Utf16Length("ab\U{1F600}") == 4
  {
    assert "ab\U{1F600}"[1..] == "b\U{1F600}";
    assert "b\U{1F600}"[1..] == "\U{1F600}";
  }

  /** `toLowerCase` restricted to the ASCII letters (the only ones the
      modelled comparisons depend on). */
  function LowerChar(c: char): char {
    if 'A' <= c <= 'Z' then (c as int + 32) as char else c
  }

  function Lower(s: string): (r: string)
    ensures |r| == |s|
    ensures forall i :: 0 <= i < |s| ==> r[i] == LowerChar(s[i])
  {
    if s == [] then [] else [LowerChar(s[0])] + Lower(s[1..])
  }

  /** The text with every character that is not a decimal digit dropped. */
  function DigitsOnly(s: string): (r: string)
    ensures AllDigits(r) && |r| <= |s|
  {
    if s == [] then []
    else if IsDigit(s[0]) then [s[0]] + DigitsOnly(s[1..])
    else DigitsOnly(s[1..])
  }

  lemma {:induction false} DigitsOnlyOfDigits(s: string)
    requires AllDigits(s)
    ensures DigitsOnly(s) == s
  {
    if s != [] { DigitsOnlyOfDigits(s[1..]); }
  }

  function TrimStart(s: string): (r: string)
    ensures |r| <= |s| && r == s[|s| - |r|..]
    ensures r == [] || !IsJsSpace(r[0])
  {
    if s != [] && IsJsSpace(s[0]) then TrimStart(s[1..]) else s
  }

  function TrimEnd(s: string): (r: string)
    ensures |r| <= |s| && r == s[..|r|]
    ensures r == [] || !IsJsSpace(r[|r| - 1])
  {
    if s != [] && IsJsSpace(s[|s| - 1]) then TrimEnd(s[..|s| - 1]) else s
  }

  /** The text with the JavaScript white space and line terminators removed
      from both ends. */
  function Trim(s: string): (r: string)
    ensures |r| <= |s|
    ensures r == [] || (!IsJsSpace(r[0]) && !IsJsSpace(r[|r| - 1]))
  {
    TrimEnd(TrimStart(s))
  }

  predicate StartsWith(s: string, p: string) { |p| <= |s| && s[..|p|] == p }

  predicate EndsWith(s: string, p: string) { |p| <= |s| && s[|s| - |p|..] == p }

  /** Whether `sub` occurs somewhere in `s`; this is also what an unanchored
      pattern of one literal word tests. */
  predicate Contains(s: string, sub: string) {
    exists i :: 0 <= i <= |s| - |sub| && OccursAt(s, sub, i)
  }

  predicate OccursAt(s: string, sub: string, i: int) {
    0 <= i <= |s| - |sub| && s[i..i + |sub|] == sub
  }

  function DigitChar(d: nat): char
    requires d < 10
  {
    ('0' as int + d) as char
  }

  /** The decimal rendering of a non-negative integer, without leading zeros.
      */
  function NatToString(n: nat): (r: string)
    ensures |r| >= 1 && AllDigits(r)
  {
    if n < 10 then [DigitChar(n)] else NatToString(n / 10) + [DigitChar(n % 10)]
  }

  /** The decimal rendering of an integer, with a leading '-' when it is
      negative. */
  function IntToString(n: int): string {
    if n >= 0 then NatToString(n) else "-" + NatToString(-n)
  }

  /** The part of `s` before the first `c` (all of `s` when there is none):
      `s.split(c)[0]`. */
  function BeforeFirst(s: string, c: char): (r: string)
    ensures |r| <= |s| && r == s[..|r|]
    ensures c !in r
    ensures |r| < |s| ==> s[|r|] == c
  {
    if s == [] || s[0] == c then [] else [s[0]] + BeforeFirst(s[1..], c)
  }

  /** The pieces of the text between the occurrences of a one-character
      separator, empty pieces included. */
  function Split(s: string, c: char): (r: seq<string>)
    ensures |r| >= 1
    ensures forall i :: 0 <= i < |r| ==> c !in r[i]
    decreases |s|
  {
    var head := BeforeFirst(s, c);
    if |head| == |s| then [s] else [head] + Split(s[|head| + 1..], c)
  }

  /** A literal prefix keeps two keys apart exactly when the rest does. */
  lemma PrefixInjective(p: string, a: string, b: string)
    ensures (p + a == p + b) <==> a == b
  {
    if p + a == p + b {
      assert a == (p + a)[|p|..];
      assert b == (p + b)[|p|..];
    }
  }

  /** The parts concatenated with `sep` between each two. */
  function Join(parts: seq<string>, sep: string): string {
    if parts == [] then "" else if |parts| == 1 then parts[0] else parts[0] + sep + Join(parts[1..], sep)
  }

  /** The position of the last occurrence of a character, -1 when it does not
      occur. */
  function LastIndexOf(s: string, c: char): (i: int)
    ensures -1 <= i < |s|
    ensures i >= 0 ==> s[i] == c && c !in s[i + 1..]
    ensures i < 0 ==> c !in s
  {
    if s == [] then -1 else if s[|s| - 1] == c then |s| - 1 else LastIndexOf(s[..|s| - 1], c)
  }

  /** The text up to the first separator is recovered, whatever follows it. */
  lemma {:induction false} BeforeFirstConcat(a: string, c: char, b: string)
    requires c !in a
    ensures BeforeFirst(a + [c] + b, c) == a
  {
    if a != [] {
      assert (a + [c] + b)[1..] == a[1..] + [c] + b;
      BeforeFirstConcat(a[1..], c, b);
    }
  }

  /** Lower-case hexadecimal digit of a nibble. */
  function HexChar(d: nat): (c: char)
    requires d < 16
    ensures IsHexDigit(c) && c != '-'
  {
    if d < 10 then DigitChar(d) else ('a' as int + d - 10) as char
  }

  /** The value of a decimal digit string. */
  function DecimalValue(s: string): (n: nat)
    requires AllDigits(s)
    decreases |s|
  {
    if s == [] then 0 else DecimalValue(s[..|s| - 1]) * 10 + (s[|s| - 1] as int - '0' as int)
  }

  function HexValue(s: string): nat
    requires forall i :: 0 <= i < |s| ==> IsHexDigit(s[i])
    decreases |s|
  {
    if s == [] then 0
    else
      var c := s[|s| - 1];
      assert IsHexDigit(c);
      var d := if IsDigit(c) then c as int - '0' as int else if 'a' <= c <= 'f' then c as int - 'a' as int + 10 else c as int - 'A' as int + 10;
      HexValue(s[..|s| - 1]) * 16 + d
  }

  /** The longest prefix of `s` whose characters satisfy the digit class. */
  function DigitPrefix(s: string): (r: string)
    ensures |r| <= |s| && r == s[..|r|] && AllDigits(r)
    ensures |r| < |s| ==> !IsDigit(s[|r|])
  {
    if s == [] || !IsDigit(s[0]) then [] else [s[0]] + DigitPrefix(s[1..])
  }

  function HexPrefix(s: string): (r: string)
    ensures |r| <= |s| && r == s[..|r|] && forall i :: 0 <= i < |r| ==> IsHexDigit(r[i])
    ensures |r| < |s| ==> !IsHexDigit(s[|r|])
  {
    if s == [] || !IsHexDigit(s[0]) then [] else [s[0]] + HexPrefix(s[1..])
  }

  /** `parseInt(s)` with no radix: leading white space, an optional sign, a
      `0x`/`0X` prefix selecting base 16, then the longest run of digits.
      None is `NaN` (no digit at all). */
  function ParseInt(s: string): (r: Option<int>)
  {
    var t := TrimStart(s);
    if t != [] && t[0] == '-' then
      match ParseMagnitude(t[1..])
      case None => None
      case Some(v) => Some(-v)
    else if t != [] && t[0] == '+' then ParseMagnitude(t[1..])
    else ParseMagnitude(t)
  }

  /** The number after the sign: base 16 after `0x`/`0X`, else base 10. */
  function ParseMagnitude(u: string): Option<int> {
    if |u| >= 2 && u[0] == '0' && (u[1] == 'x' || u[1] == 'X') then
      var digits := HexPrefix(u[2..]);
      if digits == [] then None else Some(HexValue(digits))
    else ParseDigits(u)
  }

  /** The value of the leading decimal digits, None when there are none. */
  function ParseDigits(u: string): Option<int> {
    var digits := DigitPrefix(u);
    if digits == [] then None else Some(DecimalValue(digits))
  }

  lemma {:induction false} DecimalValueAppend(s: string, d: nat)
    requires AllDigits(s) && d < 10
    ensures DecimalValue(s + [DigitChar(d)]) == DecimalValue(s) * 10 + d
  {
    assert (s + [DigitChar(d)])[..|s|] == s;
  }

  /** Reading back a rendered number gives the number. */
  lemma {:induction false} DecimalValueOfNatToString(n: nat)
    ensures DecimalValue(NatToString(n)) == n
    decreases n
  {
    if n >= 10 {
      DecimalValueOfNatToString(n / 10);
      DecimalValueAppend(NatToString(n / 10), n % 10);
    }
  }

  lemma {:induction false} DigitPrefixOfDigits(s: string)
    requires AllDigits(s)
    ensures DigitPrefix(s) == s
  {
    if s != [] { DigitPrefixOfDigits(s[1..]); }
  }

  /** Reading back a rendered non-negative integer with `parseInt` gives the
      integer. */
  lemma ParseIntOfNatToString(n: nat)
    ensures ParseInt(NatToString(n)) == Some(n)
  {
    var s := NatToString(n);
    assert TrimStart(s) == s;
    assert IsDigit(s[0]) && (|s| >= 2 ==> IsDigit(s[1]));
    DigitPrefixOfDigits(s);
    DecimalValueOfNatToString(n);
  }

  /** A string that starts with neither white space, a sign nor '0' is read
      as its leading decimal digits. */
  lemma ParseIntUnsigned(s: string)
    requires s != [] && !IsJsSpace(s[0]) && s[0] != '-' && s[0] != '+' && s[0] != '0'
    ensures ParseInt(s) == ParseDigits(s)
  {
    assert TrimStart(s) == s;
  }

  /** `parseInt` reads the digits before the first other character: '2.5'
      is 2. */
  lemma ParseIntOfFraction()
    ensures ParseInt("2.5") == Some(2)
  {
    ParseIntUnsigned("2.5");
    assert DigitPrefix("2.5") == "2" by { assert "2.5"[1..] == ".5"; }
    assert DecimalValue("2") == 2 by { assert "2"[..0] == ""; }
  }

  /** With no leading digit the result is `NaN`: 'x' gives None. */
  lemma ParseIntOfLetters()
    ensures ParseInt("x") == None
  {
    assert ParseDigits("x") == None by { assert !IsDigit("x"[0]); }
    ParseIntUnsigned("x");
  }

  /** An occurrence stays an occurrence with text added on either side. */
  lemma ContainsWithin(p: string, x: string, q: string, w: string)
    requires Contains(x, w)
    ensures Contains(p + x + q, w)
  {
    var i :| 0 <= i <= |x| - |w| && OccursAt(x, w, i);
    assert (p + x + q)[|p| + i..|p| + i + |w|] == x[i..i + |w|];
    assert OccursAt(p + x + q, w, |p| + i);
  }

  lemma ContainsItself(w: string)
    ensures Contains(w, w)
  {
    assert OccursAt(w, w, 0);
  }
}
