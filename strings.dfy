/**
 * The JavaScript string operations the core relies on: number-to-string
 * conversion, `startsWith`, `includes`, `lastIndexOf`, case-insensitive
 * comparison of ASCII letters, `trim`, `length` (in UTF-16 code units) and
 * `padStart(2, '0')`. Strings are sequences of Unicode scalar values.
 */
module Strings {

  predicate IsDigit(c: char)
  {
    '0' <= c <= '9'
  }

  predicate AllDigits(s: string)
  {
    forall i :: 0 <= i < |s| ==> IsDigit(s[i])
  }

  function DigitChar(d: nat): (c: char)
    requires d < 10
    ensures IsDigit(c)
  {
    ('0' as int + d) as char
  }

  function DigitValue(c: char): nat
    requires IsDigit(c)
  {
    c as int - '0' as int
  }

  /** `String(n)` for a non-negative integer: its decimal digits, without leading zeros. */
  function NatToDecimal(n: nat): (s: string)
    ensures |s| >= 1 && AllDigits(s)
    ensures |s| > 1 ==> s[0] != '0'
    ensures n < 10 <==> |s| == 1
  {
    if n < 10 then [DigitChar(n)] else NatToDecimal(n / 10) + [DigitChar(n % 10)]
  }

  /** The value of a string of decimal digits. */
  function DecimalValue(s: string): nat
    requires AllDigits(s)
  {
    if s == [] then 0 else DecimalValue(s[..|s| - 1]) * 10 + DigitValue(s[|s| - 1])
  }

  /** Reading back the digits of `n` gives `n`. */
  lemma {:induction false} DecimalRoundTrip(n: nat)
    ensures DecimalValue(NatToDecimal(n)) == n
  {
    var s := NatToDecimal(n);
    if n >= 10 {
      DecimalRoundTrip(n / 10);
      assert s[..|s| - 1] == NatToDecimal(n / 10);
    }
  }

  /** Different numbers have different decimal representations. */
  lemma DecimalInjective(a: nat, b: nat)
    ensures NatToDecimal(a) == NatToDecimal(b) ==> a == b
  {
    DecimalRoundTrip(a);
    DecimalRoundTrip(b);
  }

  /** `String(i)` for an integer, with a leading minus sign when negative. */
  function IntToString(i: int): (s: string)
    ensures i >= 0 ==> s == NatToDecimal(i)
    ensures i < 0 ==> s == "-" + NatToDecimal(-i)
  {
    if i < 0 then "-" + NatToDecimal(-i) else NatToDecimal(i)
  }

  /** `s.padStart(2, '0')`: zeros are added in front until the length is at least 2. */
  function PadStart2(s: string): (r: string)
    ensures |r| == if |s| < 2 then 2 else |s|
    ensures r[|r| - |s|..] == s
    ensures forall i :: 0 <= i < |r| - |s| ==> r[i] == '0'
  {
    if |s| >= 2 then s else if |s| == 1 then "0" + s else "00"
  }

  /** `field` is a string of decimal digits whose value is `n`. */
  predicate ReadsAs(field: string, n: nat)
  {
    AllDigits(field) && DecimalValue(field) == n
  }

  /** A number below 100, padded to two characters, reads back as that number. */
  lemma PaddedRoundTrip(n: nat)
    requires n < 100
    ensures |PadStart2(NatToDecimal(n))| == 2
    ensures ReadsAs(PadStart2(NatToDecimal(n)), n)
  {
    var d := NatToDecimal(n);
    DecimalRoundTrip(n);
    if n >= 10 {
      assert |NatToDecimal(n / 10)| == 1;
      assert |d| == 2;
    } else {
      var p := PadStart2(d);
      assert p == "0" + d;
      assert p[..1] == "0";
    }
  }

  /** `s.startsWith(prefix)`. */
  function StartsWith(s: string, prefix: string): (r: bool)
    ensures r <==> |prefix| <= |s| && s[..|prefix|] == prefix
  {
    if prefix == [] then true
    else if s == [] then false
    else s[0] == prefix[0] && StartsWith(s[1..], prefix[1..])
  }

  /** `needle` occurs in `s` starting at index `i`. */
  predicate OccursAt(s: string, needle: string, i: int)
  {
    0 <= i && i + |needle| <= |s| && s[i..i + |needle|] == needle
  }

  /** `s.includes(needle)`. */
  function Contains(s: string, needle: string): (r: bool)
    ensures r <==> exists i :: OccursAt(s, needle, i)
  {
    if |needle| > |s| then false
    else if s[..|needle|] == needle then (assert OccursAt(s, needle, 0); true)
    else
      var rest := Contains(s[1..], needle);
      assert forall i :: OccursAt(s[1..], needle, i) <==> OccursAt(s, needle, i + 1) by {
        forall i ensures OccursAt(s[1..], needle, i) <==> OccursAt(s, needle, i + 1) {
          if 0 <= i && i + |needle| <= |s[1..]| {
            assert s[1..][i..i + |needle|] == s[i + 1..i + 1 + |needle|];
          }
        }
      }
      assert !OccursAt(s, needle, 0);
      assert forall i :: OccursAt(s, needle, i) ==> i == 0 || OccursAt(s[1..], needle, i - 1);
      rest
  }

  /** `s.lastIndexOf(c)` for a single character: the last index holding `c`, or -1. */
  function LastIndexOf(s: string, c: char): (r: int)
    ensures -1 <= r < |s|
    ensures r >= 0 ==> s[r] == c
    ensures forall i :: r < i < |s| ==> s[i] != c
  {
    if s == [] then -1
    else if s[|s| - 1] == c then |s| - 1
    else LastIndexOf(s[..|s| - 1], c)
  }

  /** ASCII letters folded to lower case; every other character is left as it is. */
  function LowerAscii(c: char): char
  {
    if 'A' <= c <= 'Z' then (c as int + 32) as char else c
  }

  function ToLowerAscii(s: string): (r: string)
    ensures |r| == |s|
    ensures forall i :: 0 <= i < |s| ==> r[i] == LowerAscii(s[i])
  {
    seq(|s|, i requires 0 <= i < |s| => LowerAscii(s[i]))
  }

  /** The characters `String.prototype.trim` removes: WhiteSpace and LineTerminator of ECMAScript. */
  predicate IsJsWhiteSpace(c: char)
  {
    var u := c as int;
    (0x09 <= u <= 0x0D) || u == 0x20 || u == 0xA0 || u == 0x1680 || (0x2000 <= u <= 0x200A)
    || u == 0x2028 || u == 0x2029 || u == 0x202F || u == 0x205F || u == 0x3000 || u == 0xFEFF
  }

  function TrimStart(s: string): (r: string)
    ensures |r| <= |s| && r == s[|s| - |r|..]
    ensures forall i :: 0 <= i < |s| - |r| ==> IsJsWhiteSpace(s[i])
    ensures |r| > 0 ==> !IsJsWhiteSpace(r[0])
  {
    if s != [] && IsJsWhiteSpace(s[0]) then TrimStart(s[1..]) else s
  }

  function TrimEnd(s: string): (r: string)
    ensures |r| <= |s| && r == s[..|r|]
    ensures forall i :: |r| <= i < |s| ==> IsJsWhiteSpace(s[i])
    ensures |r| > 0 ==> !IsJsWhiteSpace(r[|r| - 1])
  {
    if s != [] && IsJsWhiteSpace(s[|s| - 1]) then TrimEnd(s[..|s| - 1]) else s
  }

  /** `s.trim()`: the longest infix that neither starts nor ends with white space. */
  function Trim(s: string): (r: string)
    ensures |r| <= |s|
    ensures |r| > 0 ==> !IsJsWhiteSpace(r[0]) && !IsJsWhiteSpace(r[|r| - 1])
  {
    TrimEnd(TrimStart(s))
  }

  /** Trimming twice is trimming once. */
  lemma {:induction false} TrimIdempotent(s: string)
    ensures Trim(Trim(s)) == Trim(s)
  {
    var t := Trim(s);
    assert TrimStart(t) == t;
    assert TrimEnd(t) == t;
  }

  /** `s.length`: characters outside the Basic Multilingual Plane take two UTF-16 code units. */
  function Utf16Length(s: string): (n: nat)
    ensures |s| <= n <= 2 * |s|
  {
    if s == [] then 0 else Utf16Length(s[1..]) + (if s[0] as int > 0xFFFF then 2 else 1)
  }
}
