/**
 * The few JavaScript string operations the core relies on: `String.prototype.trim`
 * (to reject blank journal entries), `Number.prototype.toString` and
 * `padStart` for non-negative integers, and the call timer's `formatTime`.
 * Characters are Unicode scalar values; every whitespace character JavaScript
 * trims lies in the Basic Multilingual Plane, so code units and code points agree on it.
 */
module Text {

  /** ECMAScript WhiteSpace and LineTerminator characters: exactly what `trim` removes. */
  predicate IsJsWhitespace(c: char) {
    var code := c as int;
    code == 0x09 || code == 0x0A || code == 0x0B || code == 0x0C || code == 0x0D ||
    code == 0x20 || code == 0xA0 || code == 0x1680 || (0x2000 <= code <= 0x200A) ||
    code == 0x2028 || code == 0x2029 || code == 0x202F || code == 0x205F ||
    code == 0x3000 || code == 0xFEFF
  }

  /** Drops leading whitespace: the result is a suffix of `s`, everything dropped is whitespace. */
  function TrimStart(s: string): (r: string)
    ensures |r| <= |s| && r == s[|s| - |r|..]
    ensures forall k :: 0 <= k < |s| - |r| ==> IsJsWhitespace(s[k])
    ensures r == [] || !IsJsWhitespace(r[0])
  {
    if s != [] && IsJsWhitespace(s[0]) then TrimStart(s[1..]) else s
  }

  /** Drops trailing whitespace: the result is a prefix of `s`, everything dropped is whitespace. */
  function TrimEnd(s: string): (r: string)
    ensures |r| <= |s| && r == s[..|r|]
    ensures forall k :: |r| <= k < |s| ==> IsJsWhitespace(s[k])
    ensures r == [] || !IsJsWhitespace(r[|r| - 1])
  {
    if s != [] && IsJsWhitespace(s[|s| - 1]) then TrimEnd(s[..|s| - 1]) else s
  }

  /**
   * `s.trim()`. Its result is empty exactly when every character of `s` is
   * whitespace, and otherwise starts and ends with a non-whitespace character.
   */
  function Trim(s: string): (r: string)
    ensures r == [] <==> forall k :: 0 <= k < |s| ==> IsJsWhitespace(s[k])
    ensures r != [] ==> !IsJsWhitespace(r[0]) && !IsJsWhitespace(r[|r| - 1])
  {
    var t := TrimStart(s);
    assert t != [] ==> !IsJsWhitespace(t[0]);
    TrimEnd(t)
  }

  /**
   * Text made only of whitespace (or empty): exactly the text whose `trim()`
   * is the empty, falsy string, as `Trim`'s contract states.
   */
  predicate IsBlank(s: string) {
    forall k :: 0 <= k < |s| ==> IsJsWhitespace(s[k])
  }

  predicate IsDigit(c: char) {
    '0' <= c <= '9'
  }

  predicate AllDigits(s: string) {
    forall k :: 0 <= k < |s| ==> IsDigit(s[k])
  }

  function DigitChar(d: int): (c: char)
    requires 0 <= d < 10
    ensures IsDigit(c) && c as int - '0' as int == d
  {
    ('0' as int + d) as char
  }

  /** The number a string of decimal digits denotes (a reference reading, leading zeros allowed). */
  function DigitsValue(s: string): nat
    requires AllDigits(s)
  {
    if s == [] then 0 else DigitsValue(s[..|s| - 1]) * 10 + (s[|s| - 1] as int - '0' as int)
  }

  /** `n.toString()` for a non-negative integer: decimal digits, no leading zero. */
  function NatToString(n: nat): (r: string)
    ensures r != [] && AllDigits(r)
    ensures DigitsValue(r) == n
    ensures |r| > 1 ==> r[0] != '0'
  {
    if n < 10 then [DigitChar(n)]
    else
      var prefix := NatToString(n / 10);
      var r := prefix + [DigitChar(n % 10)];
      assert r[..|r| - 1] == prefix;
      r
  }

  /** `count` copies of `c`. */
  function Repeat(c: char, count: nat): (r: string)
    ensures |r| == count
    ensures forall k :: 0 <= k < count ==> r[k] == c
  {
    if count == 0 then [] else [c] + Repeat(c, count - 1)
  }

  /** `s.padStart(width, fill)` with a one-character fill string. */
  function PadStart(s: string, width: nat, fill: char): (r: string)
    ensures |r| == if |s| < width then width else |s|
    ensures r[|r| - |s|..] == s
    ensures forall k :: 0 <= k < |r| - |s| ==> r[k] == fill
  {
    if |s| >= width then s else Repeat(fill, width - |s|) + s
  }

  /** A leading zero does not change the value of a digit string. */
  lemma {:induction false} LeadingZeroValue(s: string)
    requires AllDigits(s)
    ensures AllDigits(['0'] + s) && DigitsValue(['0'] + s) == DigitsValue(s)
  {
    if s != [] {
      var z := ['0'] + s;
      assert z[..|z| - 1] == ['0'] + s[..|s| - 1];
      LeadingZeroValue(s[..|s| - 1]);
    }
  }

  /** Left-padding with zeros does not change the value of a digit string. */
  lemma {:induction false} ZeroPaddingValue(s: string, width: nat)
    requires AllDigits(s)
    ensures AllDigits(PadStart(s, width, '0')) && DigitsValue(PadStart(s, width, '0')) == DigitsValue(s)
    decreases width - |s|
  {
    if |s| < width {
      ZeroPaddingValue(['0'] + s, width);
      assert PadStart(['0'] + s, width, '0') == PadStart(s, width, '0');
      LeadingZeroValue(s);
    }
  }

  /**
   * The call timer display `MM:SS`: minutes `seconds / 60` and seconds
   * `seconds % 60`, each padded to at least two digits; minutes may take more.
   * Reading it back gives the elapsed time: the text before the last colon
   * is a minute count of at least two digits, the two digits after it a
   * second count below 60, and minutes * 60 + seconds is the input. Padding
   * stops at two digits, so a longer minute count has no leading zero.
   */
  function FormatTime(seconds: nat): (t: string)
    ensures |t| >= 5 && t[|t| - 3] == ':'
    ensures AllDigits(t[..|t| - 3]) && AllDigits(t[|t| - 2..])
    ensures DigitsValue(t[|t| - 2..]) < 60
    ensures DigitsValue(t[..|t| - 3]) * 60 + DigitsValue(t[|t| - 2..]) == seconds
    ensures |t| > 5 ==> t[0] != '0'
  {
    var m := NatToString(seconds / 60);
    var c := NatToString(seconds % 60);
    var mins := PadStart(m, 2, '0');
    var secs := PadStart(c, 2, '0');
    ZeroPaddingValue(m, 2);
    ZeroPaddingValue(c, 2);
    ShortNumeral(seconds % 60);
    NoExtraZero(seconds / 60);
    ColonJoin(mins, secs);
    mins + ":" + secs
  }

  /** Splitting `mins:ss` at its last colon gives back both parts. */
  lemma ColonJoin(mins: string, secs: string)
    requires |mins| >= 2 && |secs| == 2
    ensures var t := mins + ":" + secs;
      |t| == |mins| + 3 && t[|t| - 3] == ':' && t[..|t| - 3] == mins && t[|t| - 2..] == secs && t[0] == mins[0]
  {
    var t := mins + ":" + secs;
    assert t[..|t| - 3] == mins;
    assert t[|t| - 2..] == secs;
  }

  /** Padding to two digits never puts a zero in front of a longer numeral. */
  lemma NoExtraZero(n: nat)
    ensures var p := PadStart(NatToString(n), 2, '0'); |p| > 2 ==> p[0] != '0'
  {
  }

  /** Numbers below 100 print with at most two digits. */
  lemma ShortNumeral(n: nat)
    requires n < 100
    ensures |NatToString(n)| <= 2
  {
    if n >= 10 {
      assert |NatToString(n / 10)| == 1;
    }
  }
}
