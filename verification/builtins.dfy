/**
 * The JavaScript built-ins the theme pipeline leans on, stated over Dafny values:
 * Math.round, Number.prototype.toString(16), String.prototype.padStart,
 * parseInt(_, 16), the ToInt32 conversion behind the bit operators, ASCII case
 * mapping, String.prototype.includes, Array.prototype.join, a single-character
 * String.prototype.replace and the `||` fallback on strings.
 */
module Builtins {
  import opened Wrappers

  // ---------------------------------------------------------------- Math.round

  /** `Math.round(x)`: the nearest integer, halves rounded towards +infinity. */
  function Round(x: real): (n: int)
    ensures n as real - 0.5 <= x < n as real + 0.5
  {
    (x + 0.5).Floor
  }

  lemma RoundOfInt(n: int)
    ensures Round(n as real) == n
  {
  }

  lemma RoundMonotone(x: real, y: real)
    requires x <= y
    ensures Round(x) <= Round(y)
  {
  }

  /** Rounding a value between two integers stays between them. */
  lemma RoundBetween(x: real, lo: int, hi: int)
    requires lo as real <= x <= hi as real
    ensures lo <= Round(x) <= hi
  {
  }

  // ------------------------------------------------------ hexadecimal digits

  predicate IsHexDigit(c: char) {
    '0' <= c <= '9' || 'a' <= c <= 'f' || 'A' <= c <= 'F'
  }

  /** The digits `Number.prototype.toString(16)` writes. */
  predicate IsLowerHexDigit(c: char) {
    '0' <= c <= '9' || 'a' <= c <= 'f'
  }

  predicate AllHex(s: string) {
    forall i | 0 <= i < |s| :: IsHexDigit(s[i])
  }

  predicate AllLowerHex(s: string) {
    forall i | 0 <= i < |s| :: IsLowerHexDigit(s[i])
  }

  function HexDigitValue(c: char): (v: nat)
    requires IsHexDigit(c)
    ensures v < 16
  {
    if '0' <= c <= '9' then c as int - '0' as int
    else if 'a' <= c <= 'f' then c as int - 'a' as int + 10
    else c as int - 'A' as int + 10
  }

  /** The lower-case digit for a value below 16. */
  function HexDigit(v: nat): (c: char)
    requires v < 16
    ensures IsLowerHexDigit(c) && HexDigitValue(c) == v
  {
    if v < 10 then ('0' as int + v) as char else ('a' as int + v - 10) as char
  }

  /** Writing back the value of a digit gives the digit in lower case. */
  lemma HexDigitOfValue(c: char)
    requires IsHexDigit(c)
    ensures HexDigit(HexDigitValue(c)) == LowerChar(c)
  {
  }

  /** The value of a string of hexadecimal digits, most significant first. */
  function HexValue(s: string): nat
    requires AllHex(s)
  {
    if s == [] then 0 else 16 * HexValue(s[..|s| - 1]) + HexDigitValue(s[|s| - 1])
  }

  lemma HexValueSnoc(s: string, c: char)
    requires AllHex(s) && IsHexDigit(c)
    ensures AllHex(s + [c])
    ensures HexValue(s + [c]) == 16 * HexValue(s) + HexDigitValue(c)
  {
    assert (s + [c])[..|s|] == s;
  }

  /** The value of two hexadecimal digits. */
  function PairValue(hi: char, lo: char): (v: nat)
    requires IsHexDigit(hi) && IsHexDigit(lo)
    ensures v < 256
  {
    16 * HexDigitValue(hi) + HexDigitValue(lo)
  }

  /** Appending two digits shifts the value by one byte. */
  lemma HexValueAppendPair(s: string, hi: char, lo: char)
    requires AllHex(s) && IsHexDigit(hi) && IsHexDigit(lo)
    ensures AllHex(s + [hi, lo])
    ensures HexValue(s + [hi, lo]) == 0x100 * HexValue(s) + PairValue(hi, lo)
  {
    HexValueSnoc(s, hi);
    assert s + [hi, lo] == (s + [hi]) + [lo];
    HexValueSnoc(s + [hi], lo);
  }

  /** Six digits are three bytes, most significant first. */
  lemma HexValueSix(d: string)
    requires |d| == 6 && AllHex(d)
    ensures HexValue(d) == PairValue(d[0], d[1]) * 0x10000 + PairValue(d[2], d[3]) * 0x100 + PairValue(d[4], d[5])
  {
    assert d[..2] == [] + [d[0], d[1]];
    HexValueAppendPair([], d[0], d[1]);
    assert d[..4] == d[..2] + [d[2], d[3]];
    HexValueAppendPair(d[..2], d[2], d[3]);
    assert d == d[..4] + [d[4], d[5]];
    HexValueAppendPair(d[..4], d[4], d[5]);
  }

  /** The two digits `Hex2` writes read back as the byte. */
  lemma PairOfHex2(n: int)
    requires 0 <= n < 256
    ensures PairValue(Hex2(n)[0], Hex2(n)[1]) == n
  {
  }

  /** Two digits re-written by `Hex2` come back in lower case. */
  lemma Hex2OfPair(hi: char, lo: char)
    requires IsHexDigit(hi) && IsHexDigit(lo)
    ensures Hex2(PairValue(hi, lo)) == [LowerChar(hi), LowerChar(lo)]
  {
    var n := PairValue(hi, lo);
    assert n / 16 == HexDigitValue(hi) && n % 16 == HexDigitValue(lo);
    HexDigitOfValue(hi);
    HexDigitOfValue(lo);
  }

  // ----------------------------------------------------- Number.toString(16)

  /** `n.toString(16)` for a non-negative integer: lower-case digits, no leading zero. */
  function NatToHex(n: nat): string {
    if n < 16 then [HexDigit(n)] else NatToHex(n / 16) + [HexDigit(n % 16)]
  }

  /** The numeral is lower-case hexadecimal with no leading zero, and reads back as `n`. */
  lemma {:induction false} NatToHexValue(n: nat)
    ensures var s := NatToHex(n);
      1 <= |s| && AllLowerHex(s) && AllHex(s) && HexValue(s) == n && (|s| > 1 ==> s[0] != '0')
  {
    if n >= 16 {
      NatToHexValue(n / 16);
      var front := NatToHex(n / 16);
      var s := front + [HexDigit(n % 16)];
      assert s[..|s| - 1] == front;
    }
  }

  /** A number written in base 16 is the numeral of its high part followed by two digits. */
  lemma NatToHexBytes(hi: nat, lo: nat)
    requires 1 <= hi && lo < 256
    ensures NatToHex(hi * 256 + lo) == NatToHex(hi) + Hex2(lo)
  {
    var n := hi * 256 + lo;
    assert n / 16 == hi * 16 + lo / 16 && n % 16 == lo % 16;
    assert (hi * 16 + lo / 16) / 16 == hi && (hi * 16 + lo / 16) % 16 == lo / 16;
  }

  /** `n.toString(16)` for any integer: negative numbers get a leading '-'. */
  function IntToHex(n: int): string {
    if n < 0 then "-" + NatToHex(-n) else NatToHex(n)
  }

  /** `s.padStart(2, '0')`. */
  function PadStart2(s: string): string {
    if |s| >= 2 then s else seq(2 - |s|, _ => '0') + s
  }

  /** The padded text has at least two characters: zeros, then `s` unchanged. */
  lemma PadStart2Spec(s: string)
    ensures var r := PadStart2(s);
      && |r| == (if |s| < 2 then 2 else |s|)
      && (forall i | 0 <= i < |s| :: r[|r| - |s| + i] == s[i])
      && (forall i | 0 <= i < |r| - |s| :: r[i] == '0')
  {
  }

  /** The two lower-case hexadecimal digits of a byte. */
  function Hex2(n: int): (s: string)
    requires 0 <= n < 256
    ensures |s| == 2 && AllLowerHex(s) && AllHex(s)
  {
    [HexDigit(n / 16), HexDigit(n % 16)]
  }

  /** The two digits of a byte read back as the byte. */
  lemma Hex2Value(n: int)
    requires 0 <= n < 256
    ensures HexValue(Hex2(n)) == n
  {
    var s := Hex2(n);
    assert s[..1] == [s[0]];
    assert [s[0]][..0] == [];
    assert HexValue([s[0]]) == n / 16;
  }

  /** `n.toString(16).padStart(2, '0')` writes a byte as exactly two digits. */
  lemma PaddedByte(n: int)
    requires 0 <= n < 256
    ensures PadStart2(IntToHex(n)) == Hex2(n)
  {
    if n >= 16 {
      assert NatToHex(n) == NatToHex(n / 16) + [HexDigit(n % 16)];
    }
  }

  /** Two digits read back from `Hex2` give the byte again. */
  lemma Hex2Injective(m: int, n: int)
    requires 0 <= m < 256 && 0 <= n < 256
    ensures Hex2(m) == Hex2(n) <==> m == n
  {
  }

  // ------------------------------------------------------------ parseInt(_, 16)

  /** The characters `parseInt` skips before the number (StrWhiteSpaceChar). */
  predicate IsJsWhiteSpace(c: char) {
    c == ' ' || c == '\t' || c == '\n' || c == '\r' || c == '\U{000B}' || c == '\U{000C}'
    || c == '\U{00A0}' || c == '\U{1680}' || ('\U{2000}' <= c <= '\U{200A}')
    || c == '\U{2028}' || c == '\U{2029}' || c == '\U{202F}' || c == '\U{205F}'
    || c == '\U{3000}' || c == '\U{FEFF}'
  }

  function TrimStart(s: string): (r: string)
    ensures |r| <= |s| && r == s[|s| - |r|..]
    ensures r != [] ==> !IsJsWhiteSpace(r[0])
  {
    if s != [] && IsJsWhiteSpace(s[0]) then TrimStart(s[1..]) else s
  }

  /** The longest prefix of `s` made of hexadecimal digits. */
  function HexPrefix(s: string): (p: string)
    ensures p <= s && AllHex(p)
    ensures |p| < |s| ==> !IsHexDigit(s[|p|])
  {
    if s != [] && IsHexDigit(s[0]) then [s[0]] + HexPrefix(s[1..]) else []
  }

  lemma {:induction false} HexPrefixOfDigits(s: string)
    ensures AllHex(s) ==> HexPrefix(s) == s
  {
    if s != [] && AllHex(s) {
      assert AllHex(s[1..]) by {
        forall i | 0 <= i < |s| - 1 ensures IsHexDigit(s[1..][i]) { assert s[1..][i] == s[i + 1]; }
      }
      HexPrefixOfDigits(s[1..]);
    }
  }

  /**
   * `parseInt(s, 16)`: leading white space, an optional sign and an optional
   * "0x" are skipped, then the longest run of hexadecimal digits is read.
   * None stands for NaN (no digit at all).
   */
  function ParseIntHex(s: string): Option<int> {
    var t := TrimStart(s);
    var negative := t != [] && t[0] == '-';
    var unsigned := if t != [] && (t[0] == '-' || t[0] == '+') then t[1..] else t;
    var body :=
      if |unsigned| >= 2 && unsigned[0] == '0' && (unsigned[1] == 'x' || unsigned[1] == 'X')
      then unsigned[2..] else unsigned;
    var digits := HexPrefix(body);
    if digits == [] then None
    else
      var magnitude: int := HexValue(digits);
      Some(if negative then -magnitude else magnitude)
  }

  /** A string made only of hexadecimal digits parses to its positional value. */
  lemma ParseIntHexOfDigits(s: string)
    requires AllHex(s) && s != []
    ensures ParseIntHex(s) == Some(HexValue(s))
  {
    assert TrimStart(s) == s;
    HexPrefixOfDigits(s);
  }

  /** Two hexadecimal digits parse to the byte they spell. */
  lemma ParseIntHexPair(hi: char, lo: char)
    requires IsHexDigit(hi) && IsHexDigit(lo)
    ensures ParseIntHex([hi, lo]) == Some(PairValue(hi, lo))
  {
    HexValuePair(hi, lo);
    ParseIntHexOfDigits([hi, lo]);
  }

  lemma HexValuePair(hi: char, lo: char)
    requires IsHexDigit(hi) && IsHexDigit(lo)
    ensures AllHex([hi, lo]) && HexValue([hi, lo]) == PairValue(hi, lo)
  {
    HexValueAppendPair([], hi, lo);
    assert [] + [hi, lo] == [hi, lo];
  }

  /** Text that does not start with a digit, a sign, or white space parses to NaN. */
  lemma ParseIntHexNaN(s: string)
    requires s != [] && !IsHexDigit(s[0]) && !IsJsWhiteSpace(s[0]) && s[0] != '-' && s[0] != '+'
    ensures ParseIntHex(s) == None
  {
    assert TrimStart(s) == s;
  }

  // ------------------------------------------------------------------- ToInt32

  const TwoTo32: int := 0x1_0000_0000
  const TwoTo31: int := 0x8000_0000

  /** ECMAScript ToInt32 on an integral number: reduce modulo 2^32 into the signed range. */
  function ToInt32(n: int): (r: int)
    ensures -TwoTo31 <= r < TwoTo31
    ensures (r - n) % TwoTo32 == 0
    ensures -TwoTo31 <= n < TwoTo31 ==> r == n
  {
    var m := n % TwoTo32;
    if m >= TwoTo31 then m - TwoTo32 else m
  }

  // -------------------------------------------------------- ASCII case mapping

  function LowerChar(c: char): (d: char)
    ensures !('A' <= d <= 'Z')
  {
    if 'A' <= c <= 'Z' then (c as int + 32) as char else c
  }

  function UpperChar(c: char): (d: char)
    ensures !('a' <= d <= 'z')
  {
    if 'a' <= c <= 'z' then (c as int - 32) as char else c
  }

  /** `s.toLowerCase()` for text whose letters are ASCII. */
  function ToLower(s: string): (r: string)
    ensures |r| == |s|
    ensures forall i | 0 <= i < |s| :: r[i] == LowerChar(s[i])
  {
    seq(|s|, i requires 0 <= i < |s| => LowerChar(s[i]))
  }

  lemma ToLowerIdempotent(s: string)
    ensures ToLower(ToLower(s)) == ToLower(s)
  {
  }

  lemma ToLowerConcat(a: string, b: string)
    ensures ToLower(a + b) == ToLower(a) + ToLower(b)
  {
  }

  // ----------------------------------------------------- String.includes

  /** `s.includes(q)`: `q` occurs in `s` at some position. */
  predicate Includes(s: string, q: string) {
    exists i | 0 <= i <= |s| :: OccursAt(s, q, i)
  }

  /** `q` occurs in `s` starting at position `i`. */
  predicate OccursAt(s: string, q: string, i: nat) {
    i + |q| <= |s| && s[i..i + |q|] == q
  }

  lemma IncludesEmpty(s: string)
    ensures Includes(s, "")
  {
    assert OccursAt(s, "", 0);
  }

  lemma IncludesSelf(s: string)
    ensures Includes(s, s)
  {
    assert OccursAt(s, s, 0);
  }

  lemma IncludesMiddle(a: string, q: string, b: string)
    ensures Includes(a + q + b, q)
  {
    assert OccursAt(a + q + b, q, |a|);
  }

  lemma IncludesSuffix(a: string, q: string)
    ensures Includes(a + q, q)
  {
    assert OccursAt(a + q, q, |a|);
  }

  /** An occurrence of `p + q` is in particular an occurrence of `p`. */
  lemma IncludesPrefix(s: string, p: string, q: string)
    requires Includes(s, p + q)
    ensures Includes(s, p)
  {
    var i :| 0 <= i <= |s| && OccursAt(s, p + q, i);
    assert s[i..i + |p|] == (p + q)[..|p|] == p;
    assert OccursAt(s, p, i);
  }

  lemma IncludesTransitive(s: string, m: string, q: string)
    requires Includes(s, m) && Includes(m, q)
    ensures Includes(s, q)
  {
    var i :| 0 <= i <= |s| && OccursAt(s, m, i);
    var j :| 0 <= j <= |m| && OccursAt(m, q, j);
    forall k | 0 <= k < |q| ensures s[i + j + k] == q[k] {
      assert q[k] == m[j + k] == s[i + j + k];
    }
    assert s[i + j..i + j + |q|] == q;
    assert OccursAt(s, q, i + j);
  }

  // ------------------------------------------------------- string `<`

  /** `a < b` on strings: lexicographic by character code, a proper prefix first. */
  predicate StrLess(a: string, b: string) {
    if a == [] then b != []
    else if b == [] then false
    else if a[0] != b[0] then a[0] < b[0]
    else StrLess(a[1..], b[1..])
  }

  lemma {:induction false} StrLessIrreflexive(a: string)
    ensures !StrLess(a, a)
  {
    if a != [] {
      StrLessIrreflexive(a[1..]);
    }
  }

  lemma {:induction false} StrLessTransitive(a: string, b: string, c: string)
    requires StrLess(a, b) && StrLess(b, c)
    ensures StrLess(a, c)
  {
    if a != [] && a[0] == b[0] && b[0] == c[0] {
      StrLessTransitive(a[1..], b[1..], c[1..]);
    }
  }

  /** Two different strings are ordered one way or the other. */
  lemma {:induction false} StrLessTotal(a: string, b: string)
    requires a != b
    ensures StrLess(a, b) || StrLess(b, a)
  {
    if a != [] && b != [] && a[0] == b[0] {
      assert a == [a[0]] + a[1..] && b == [b[0]] + b[1..];
      StrLessTotal(a[1..], b[1..]);
    }
  }

  // ----------------------------------------------------------- Array.join

  /** `parts.join(sep)`. */
  function Join(parts: seq<string>, sep: string): string {
    if parts == [] then ""
    else if |parts| == 1 then parts[0]
    else parts[0] + sep + Join(parts[1..], sep)
  }

  /** Every joined part occurs in the joined text. */
  lemma {:induction false} JoinIncludes(parts: seq<string>, sep: string, x: string)
    requires x in parts
    ensures Includes(Join(parts, sep), x)
  {
    if |parts| == 1 {
      IncludesSelf(x);
    } else if parts[0] == x {
      IncludesMiddle("", x, sep + Join(parts[1..], sep));
      assert "" + x + (sep + Join(parts[1..], sep)) == Join(parts, sep);
    } else {
      JoinIncludes(parts[1..], sep, x);
      var rest := Join(parts[1..], sep);
      IncludesMiddle(parts[0] + sep, rest, "");
      assert parts[0] + sep + rest + "" == Join(parts, sep);
      IncludesTransitive(Join(parts, sep), rest, x);
    }
  }

  lemma JoinConcat(a: seq<string>, b: seq<string>, sep: string)
    requires a != [] && b != []
    ensures Join(a + b, sep) == Join(a, sep) + sep + Join(b, sep)
  {
    if |a| == 1 {
      assert (a + b)[1..] == b;
    } else {
      assert (a + b)[1..] == a[1..] + b;
      JoinConcat(a[1..], b, sep);
    }
  }

  // ------------------------------------------------------------- String.slice

  /** `s.slice(from, to)` for non-negative bounds: both are clamped to the length. */
  function Slice(s: string, from: nat, to: nat): (r: string)
    ensures |r| <= |s|
    ensures to <= |s| && from <= to ==> r == s[from..to]
  {
    var lo := if from < |s| then from else |s|;
    var hi := if to < |s| then to else |s|;
    if hi <= lo then "" else s[lo..hi]
  }

  /** `s.slice(from)` for a non-negative start. */
  function SliceFrom(s: string, from: nat): (r: string)
    ensures from <= |s| ==> r == s[from..]
    ensures |s| < from ==> r == ""
  {
    if from < |s| then s[from..] else ""
  }

  // ----------------------------------------------- String.replace(char, str)

  /** `s.replace(pattern, replacement)` with a one-character string pattern: first occurrence only. */
  function ReplaceFirst(s: string, pattern: char, replacement: string): (r: string)
    ensures pattern !in s ==> r == s
    ensures pattern in s ==>
      var i := FirstIndex(s, pattern); r == s[..i] + replacement + s[i + 1..]
  {
    if s == [] then []
    else if s[0] == pattern then
      replacement + s[1..]
    else
      var rest := ReplaceFirst(s[1..], pattern, replacement);
      assert pattern in s ==> pattern in s[1..];
      if pattern in s[1..] then
        var i := FirstIndex(s[1..], pattern);
        assert s[..i + 1] == [s[0]] + s[1..][..i];
        assert s[i + 2..] == s[1..][i + 1..];
        [s[0]] + rest
      else
        [s[0]] + rest
  }

  /** The position of the first occurrence of `c` in `s`. */
  function FirstIndex(s: string, c: char): (i: nat)
    requires c in s
    ensures i < |s| && s[i] == c && c !in s[..i]
  {
    if s[0] == c then 0
    else
      var j := FirstIndex(s[1..], c);
      assert s[..j + 1] == [s[0]] + s[1..][..j];
      j + 1
  }

  // --------------------------------------------------------- `value || fallback`

  /** `value || fallback` for a string that may be undefined: "" and undefined are falsy. */
  function OrElse(value: Option<string>, fallback: string): (r: string)
    ensures value.Some? && value.value != "" ==> r == value.value
    ensures value == None || value == Some("") ==> r == fallback
  {
    if value.Some? && value.value != "" then value.value else fallback
  }

  /** How a template literal or `+` renders a string that may be undefined. */
  function Text(s: Option<string>): (r: string)
    ensures s.Some? ==> r == s.value
    ensures s == None ==> r == "undefined"
  {
    match s
    case Some(t) => t
    case None => "undefined"
  }

  /** `text || fallback` for a string that is always defined. */
  function OrString(text: string, fallback: string): (r: string)
    ensures r == (if text == "" then fallback else text)
  {
    if text != "" then text else fallback
  }
}
