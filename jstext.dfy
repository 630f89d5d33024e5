/** The JavaScript string and number built-ins the client leans on:
    `parseInt(s, 10)`, `parseInt(s)` without a radix, `parseFloat(s)`, `Number.prototype.toString()` on a
    non-negative integer, `String.prototype.toLowerCase()` on ASCII text,
    `startsWith`, and `replace(/\D/g, '')`. NaN is `None`. */
module JsText {
  import opened Types
  import opened Seqs

  predicate IsDigit(c: char) {
    '0' <= c <= '9'
  }

  predicate AllDigits(s: string) {
    forall i :: 0 <= i < |s| ==> IsDigit(s[i])
  }

  function DigitValue(c: char): nat
    requires IsDigit(c)
  {
    c as int - '0' as int
  }

  function DigitChar(d: nat): (c: char)
    requires d < 10
    ensures IsDigit(c) && DigitValue(c) == d
  {
    ('0' as int + d) as char
  }

  /** The value of a string of decimal digits (0 for the empty string). */
  function DigitsValue(s: string): nat
    requires AllDigits(s)
  {
    if |s| == 0 then 0 else 10 * DigitsValue(s[..|s| - 1]) + DigitValue(s[|s| - 1])
  }

  function Pow10(n: nat): (p: nat)
    ensures p >= 1
  {
    if n == 0 then 1 else 10 * Pow10(n - 1)
  }

  /** The length of the longest prefix of `s` made of decimal digits. */
  function DigitPrefixLength(s: string): (n: nat)
    ensures n <= |s|
    ensures AllDigits(s[..n])
    ensures n < |s| ==> !IsDigit(s[n])
  {
    if |s| == 0 || !IsDigit(s[0]) then 0 else 1 + DigitPrefixLength(s[1..])
  }

  /** The characters that `parseInt`/`parseFloat` skip before the number:
      the ECMAScript WhiteSpace and LineTerminator characters, that is tab,
      line feed, vertical tab, form feed, carriage return, the byte-order
      mark, the line and paragraph separators, and every space separator of
      Unicode (space, no-break space, ogham space mark, the en quad to hair
      space block, narrow no-break space, medium mathematical space and
      ideographic space). */
  predicate IsJsWhiteSpace(c: char) {
    c == '\t' || c == '\n' || c == '\U{000B}' || c == '\U{000C}' || c == '\r' || c == ' ' ||
    c == '\U{00A0}' || c == '\U{1680}' || ('\U{2000}' <= c <= '\U{200A}') ||
    c == '\U{2028}' || c == '\U{2029}' || c == '\U{202F}' || c == '\U{205F}' ||
    c == '\U{3000}' || c == '\U{FEFF}'
  }

  /** `s` without its leading white space. */
  function TrimStart(s: string): (r: string)
    ensures |r| <= |s| && r == s[|s| - |r|..]
    ensures |r| > 0 ==> !IsJsWhiteSpace(r[0])
    ensures forall i :: 0 <= i < |s| - |r| ==> IsJsWhiteSpace(s[i])
  {
    if |s| > 0 && IsJsWhiteSpace(s[0]) then TrimStart(s[1..]) else s
  }

  /** An optional leading `+` or `-`: whether it was `-`, and what follows it. */
  function SplitSign(s: string): (bool, string) {
    if |s| > 0 && (s[0] == '-' || s[0] == '+') then (s[0] == '-', s[1..]) else (false, s)
  }

  /** `parseInt(s, 10)`: the longest signed run of decimal digits after the
      leading white space, or NaN when there is none. */
  function ParseInt(s: string): Option<int> {
    var (negative, body) := SplitSign(TrimStart(s));
    var n := DigitPrefixLength(body);
    if n == 0 then None
    else Some(if negative then -(DigitsValue(body[..n]) as int) else DigitsValue(body[..n]))
  }

  predicate IsHexDigit(c: char) {
    IsDigit(c) || 'a' <= c <= 'f' || 'A' <= c <= 'F'
  }

  predicate AllHexDigits(s: string) {
    forall i :: 0 <= i < |s| ==> IsHexDigit(s[i])
  }

  function HexDigitValue(c: char): (d: nat)
    requires IsHexDigit(c)
    ensures d < 16
  {
    if IsDigit(c) then DigitValue(c)
    else if 'a' <= c <= 'f' then c as int - 'a' as int + 10
    else c as int - 'A' as int + 10
  }

  /** The value of a string of hexadecimal digits (0 for the empty string). */
  function HexDigitsValue(s: string): nat
    requires AllHexDigits(s)
  {
    if |s| == 0 then 0 else 16 * HexDigitsValue(s[..|s| - 1]) + HexDigitValue(s[|s| - 1])
  }

  /** The length of the longest prefix of `s` made of hexadecimal digits. */
  function HexPrefixLength(s: string): (n: nat)
    ensures n <= |s|
    ensures AllHexDigits(s[..n])
    ensures n < |s| ==> !IsHexDigit(s[n])
  {
    if |s| == 0 || !IsHexDigit(s[0]) then 0 else 1 + HexPrefixLength(s[1..])
  }

  /** A body that starts with `0x` or `0X`. */
  predicate HasHexPrefix(body: string) {
    |body| >= 2 && body[0] == '0' && (body[1] == 'x' || body[1] == 'X')
  }

  /** `parseInt(s)` with no radix: after the white space and an optional
      sign, a `0x`/`0X` prefix selects base 16 (NaN when no hexadecimal digit
      follows it); any other body is read in base 10 as `parseInt(s, 10)`
      reads it. */
  function ParseIntAutoRadix(s: string): (r: Option<int>)
    ensures !HasHexPrefix(SplitSign(TrimStart(s)).1) ==> r == ParseInt(s)
  {
    var (negative, body) := SplitSign(TrimStart(s));
    if HasHexPrefix(body) then
      var hex := body[2..];
      var n := HexPrefixLength(hex);
      if n == 0 then None
      else Some(if negative then -(HexDigitsValue(hex[..n]) as int) else HexDigitsValue(hex[..n]))
    else ParseInt(s)
  }

  lemma {:induction false} HexPrefixOfHexDigits(s: string)
    requires AllHexDigits(s)
    ensures HexPrefixLength(s) == |s|
  {
    if |s| > 0 {
      HexPrefixOfHexDigits(s[1..]);
    }
  }

  /** A string that starts with a character other than white space is
      its own trimmed form. */
  lemma TrimStartFromDigit(s: string)
    requires |s| > 0 && IsDigit(s[0])
    ensures TrimStart(s) == s && SplitSign(s) == (false, s)
  {
    assert !IsJsWhiteSpace(s[0]);
  }

  /** `0x` followed by hexadecimal digits is read in base 16 without a radix. */
  lemma HexTextWithoutRadix(h: string)
    requires |h| > 0 && AllHexDigits(h)
    ensures ParseIntAutoRadix("0x" + h) == Some(HexDigitsValue(h) as int)
  {
    var s := "0x" + h;
    TrimStartFromDigit(s);
    assert HasHexPrefix(s) && s[2..] == h;
    HexPrefixOfHexDigits(h);
    assert h[..|h|] == h;
  }

  /** With radix 10 the same text stops at the `x` and reads 0. */
  lemma HexTextWithRadix10(h: string)
    ensures ParseInt("0x" + h) == Some(0)
  {
    var s := "0x" + h;
    TrimStartFromDigit(s);
    assert !IsDigit(s[1..][0]);
    assert DigitPrefixLength(s) == 1;
    assert s[..1] == "0" && "0"[..0] == "";
    assert DigitsValue("0") == 0;
  }

  /** `m * 10^e`. */
  function Scale(m: real, e: int): real {
    if e >= 0 then m * Pow10(e) as real else m / Pow10(-e) as real
  }

  /** The exponent `e`/`E`, optional sign, digits at the head of `s`; 0 when
      `s` does not start with a complete exponent (`parseFloat` then stops
      before the `e`). */
  function Exponent(s: string): int {
    if |s| > 0 && (s[0] == 'e' || s[0] == 'E') then
      var (negative, body) := SplitSign(s[1..]);
      var n := DigitPrefixLength(body);
      if n == 0 then 0
      else if negative then -(DigitsValue(body[..n]) as int) else DigitsValue(body[..n])
    else 0
  }

  /** `parseFloat(s)`: after the leading white space, an optional sign and
      an unsigned decimal; NaN when no digit is found. */
  function ParseFloat(s: string): Option<real> {
    var (negative, body) := SplitSign(TrimStart(s));
    match UnsignedDecimal(body)
    case None => None
    case Some(m) => Some(if negative then -m else m)
  }

  /** Digits, an optional `.` and fraction digits (at least one digit in
      all), and an optional exponent, at the head of `body`. */
  function UnsignedDecimal(body: string): Option<real> {
    var i := DigitPrefixLength(body);
    var afterInt := body[i..];
    var hasDot := |afterInt| > 0 && afterInt[0] == '.';
    var f := if hasDot then DigitPrefixLength(afterInt[1..]) else 0;
    if i + f == 0 then None
    else
      var fraction := if hasDot then DigitsValue(afterInt[1..][..f]) as real / Pow10(f) as real else 0.0;
      var rest := if hasDot then afterInt[1..][f..] else afterInt;
      Some(Scale(DigitsValue(body[..i]) as real + fraction, Exponent(rest)))
  }

  /** `n.toString()` for a non-negative integer: its decimal digits, which
      read back as `n`. */
  function NatToString(n: nat): (s: string)
    ensures |s| > 0 && AllDigits(s) && DigitsValue(s) == n
  {
    if n < 10 then [DigitChar(n)]
    else
      var s := NatToString(n / 10) + [DigitChar(n % 10)];
      assert s[..|s| - 1] == NatToString(n / 10);
      s
  }

  /** A number below `10^k` (k at least 1) is written with at most `k` digits. */
  lemma {:induction false} NatToStringLength(n: nat, k: nat)
    requires k >= 1 && n < Pow10(k)
    ensures |NatToString(n)| <= k
  {
    if n >= 10 {
      assert Pow10(1) == 10;
      assert k >= 2;
      assert n / 10 < Pow10(k - 1);
      NatToStringLength(n / 10, k - 1);
    }
  }

  /** A non-empty digit string is parsed by `parseInt` to its value. */
  lemma ParseIntDigits(s: string)
    requires |s| > 0 && AllDigits(s)
    ensures ParseInt(s) == Some(DigitsValue(s) as int)
  {
    assert TrimStart(s) == s by { assert !IsJsWhiteSpace(s[0]); }
    assert SplitSign(s) == (false, s);
    DigitPrefixOfDigits(s);
    assert s[..|s|] == s;
  }

  /** A non-empty digit string is parsed by `parseFloat` to its value. */
  lemma ParseFloatDigits(s: string)
    requires |s| > 0 && AllDigits(s)
    ensures ParseFloat(s) == Some(DigitsValue(s) as real)
  {
    assert TrimStart(s) == s by { assert !IsJsWhiteSpace(s[0]); }
    assert SplitSign(s) == (false, s);
    UnsignedDecimalDigits(s);
  }

  lemma UnsignedDecimalDigits(s: string)
    requires |s| > 0 && AllDigits(s)
    ensures UnsignedDecimal(s) == Some(DigitsValue(s) as real)
  {
    DigitPrefixOfDigits(s);
    assert s[|s|..] == "" && s[..|s|] == s;
    assert Exponent("") == 0;
    assert Scale(DigitsValue(s) as real, 0) == DigitsValue(s) as real by {
      assert Pow10(0) == 1;
    }
  }

  /** `parseInt(n.toString(), 10) == n` and `parseFloat(n.toString()) == n`. */
  lemma ParseNatToString(n: nat)
    ensures ParseInt(NatToString(n)) == Some(n as int)
    ensures ParseFloat(NatToString(n)) == Some(n as real)
  {
    ParseIntDigits(NatToString(n));
    ParseFloatDigits(NatToString(n));
  }

  lemma {:induction false} DigitPrefixOfDigits(s: string)
    requires AllDigits(s)
    ensures DigitPrefixLength(s) == |s|
  {
    if |s| > 0 {
      DigitPrefixOfDigits(s[1..]);
    }
  }

  /** `parseFloat` and `parseInt` find no number in the empty string. */
  lemma ParseEmpty()
    ensures ParseFloat("") == None && ParseInt("") == None
  {
  }

  /** `s.startsWith(prefix)`. */
  predicate StartsWith(s: string, prefix: string) {
    |prefix| <= |s| && s[..|prefix|] == prefix
  }

  /** `s.replace(/\D/g, '')`: the digits of `s`, in order. */
  function KeepDigits(s: string): (r: string)
    ensures AllDigits(r) && |r| <= |s|
  {
    if |s| == 0 then ""
    else if IsDigit(s[0]) then [s[0]] + KeepDigits(s[1..])
    else KeepDigits(s[1..])
  }

  /** Removing non-digits is filtering by `IsDigit`: the digits of `s`, in order. */
  lemma {:induction false} KeepDigitsIsFilter(s: string)
    ensures KeepDigits(s) == Filter(s, IsDigit)
  {
    if |s| > 0 {
      KeepDigitsIsFilter(s[1..]);
    }
  }

  /** Removing non-digits from a digit string changes nothing. */
  lemma {:induction false} KeepDigitsOfDigits(s: string)
    requires AllDigits(s)
    ensures KeepDigits(s) == s
  {
    if |s| > 0 {
      KeepDigitsOfDigits(s[1..]);
    }
  }

  /** Removing non-digits keeps exactly the digits: the result has as many
      characters as `s` has digits. */
  lemma {:induction false} KeepDigitsShrinks(s: string)
    requires !AllDigits(s)
    ensures |KeepDigits(s)| < |s|
  {
    if IsDigit(s[0]) {
      KeepDigitsShrinks(s[1..]);
    }
  }

  /** ASCII `toLowerCase` of one character. */
  function LowerChar(c: char): char {
    if 'A' <= c <= 'Z' then (c as int - 'A' as int + 'a' as int) as char else c
  }

  /** `s.toLowerCase()` on ASCII letters: every `A`..`Z` becomes `a`..`z`,
      every other character is kept. */
  function ToLower(s: string): (r: string)
    ensures |r| == |s|
    ensures forall i :: 0 <= i < |s| ==> r[i] == LowerChar(s[i])
  {
    seq(|s|, i requires 0 <= i < |s| => LowerChar(s[i]))
  }

  /** Lower-casing twice is lower-casing once. */
  lemma ToLowerIdempotent(s: string)
    ensures ToLower(ToLower(s)) == ToLower(s)
  {
  }
}
