/**
 * The string primitives the browser client relies on: decimal digits,
 * `parseInt(s, 10)`, `String(n)` for integers, ASCII `toLowerCase` and
 * `String.prototype.includes`.
 */
module Text {
  import opened Wrappers

  predicate IsDigit(c: char) { '0' <= c <= '9' }

  predicate AllDigits(s: string) { forall i :: 0 <= i < |s| ==> IsDigit(s[i]) }

  function DigitValue(c: char): nat
    requires IsDigit(c)
  {
    (c as int) - ('0' as int)
  }

  function DigitChar(d: nat): (c: char)
    requires d < 10
    ensures IsDigit(c) && DigitValue(c) == d
  {
    (('0' as int) + d) as char
  }

  /** The value of a decimal digit string, most significant digit first; the empty string has value 0. */
  function DigitsValue(s: string): nat
    requires AllDigits(s)
  {
    if s == "" then 0 else 10 * DigitsValue(s[..|s| - 1]) + DigitValue(s[|s| - 1])
  }

  /** Decimal notation of a natural number without leading zeros, as `String(n)` writes it. */
  function NatToString(n: nat): (s: string)
    ensures |s| > 0 && AllDigits(s)
    decreases n
  {
    if n < 10 then [DigitChar(n)] else NatToString(n / 10) + [DigitChar(n % 10)]
  }

  /** `String(n)` for an integer-valued JavaScript number. */
  function IntToString(n: int): string
  {
    if n < 0 then "-" + NatToString(-n) else NatToString(n)
  }

  /**
   * The white space `parseInt` skips before the number, as far as the model
   * goes: space, tab, line feed, vertical tab, form feed and carriage return.
   */
  predicate IsSpace(c: char)
  {
    c == ' ' || c == '\t' || c == '\n' || c == '\U{0B}' || c == '\U{0C}' || c == '\r'
  }

  function TrimStart(s: string): (r: string)
    ensures r == "" || !IsSpace(r[0])
  {
    if s != "" && IsSpace(s[0]) then TrimStart(s[1..]) else s
  }

  /** The longest run of digits at the front of `s`. */
  function DigitPrefix(s: string): (p: string)
    ensures AllDigits(p) && p <= s
    ensures |p| < |s| ==> !IsDigit(s[|p|])
  {
    if s != "" && IsDigit(s[0]) then [s[0]] + DigitPrefix(s[1..]) else ""
  }

  /**
   * `parseInt(s, 10)`: skip leading white space, take an optional sign and
   * the longest digit prefix after it; `None` is `NaN` (no digit there).
   */
  function ParseInt(s: string): Option<int>
  {
    var t := TrimStart(s);
    var negative := t != "" && t[0] == '-';
    var rest := if t != "" && (t[0] == '-' || t[0] == '+') then t[1..] else t;
    var digits := DigitPrefix(rest);
    if digits == "" then None
    else if negative then Some(-(DigitsValue(digits) as int))
    else Some(DigitsValue(digits))
  }

  lemma {:induction false} DigitPrefixOfDigits(s: string)
    requires AllDigits(s)
    ensures DigitPrefix(s) == s
  {
    if s != "" {
      DigitPrefixOfDigits(s[1..]);
      assert [s[0]] + s[1..] == s;
    }
  }

  /** A string of digits parses to its decimal value; the empty string is NaN. */
  lemma ParseDigits(s: string)
    requires AllDigits(s)
    ensures ParseInt(s) == if s == "" then None else Some(DigitsValue(s))
  {
    if s != "" {
      assert !IsSpace(s[0]) && s[0] != '-' && s[0] != '+';
      assert TrimStart(s) == s;
      DigitPrefixOfDigits(s);
    }
  }

  /** A one-character string parses to a number exactly when the character is a digit. */
  lemma ParseSingleChar(c: char)
    ensures ParseInt([c]).Some? <==> IsDigit(c)
  {
    if IsDigit(c) {
      ParseDigits([c]);
    } else {
      assert TrimStart([c]) == [c] || TrimStart([c]) == "" by {
        if IsSpace(c) { assert [c][1..] == ""; }
      }
    }
  }

  lemma {:induction false} DigitsValueOfNatToString(n: nat)
    ensures DigitsValue(NatToString(n)) == n
    decreases n
  {
    var s := NatToString(n);
    if n < 10 {
      assert s[..|s| - 1] == "";
    } else {
      DigitsValueOfNatToString(n / 10);
      assert s[..|s| - 1] == NatToString(n / 10);
    }
  }

  /** A minus sign followed by digits parses to the negated value. */
  lemma ParseNegative(digits: string)
    requires AllDigits(digits) && digits != ""
    ensures ParseInt("-" + digits) == Some(-(DigitsValue(digits) as int))
  {
    var s := "-" + digits;
    assert s != "" && s[0] == '-' && !IsSpace(s[0]);
    assert TrimStart(s) == s;
    assert s[1..] == digits;
    DigitPrefixOfDigits(digits);
    assert DigitPrefix(s[1..]) == digits;
  }

  /** `parseInt(String(n), 10) == n` for every integer `n`: the round trip a numeric slide number takes. */
  lemma ParseIntToString(n: int)
    ensures ParseInt(IntToString(n)) == Some(n)
  {
    var m: nat := if n < 0 then -n else n;
    DigitsValueOfNatToString(m);
    if n < 0 {
      ParseNegative(NatToString(m));
    } else {
      ParseDigits(NatToString(m));
    }
  }

  /** ASCII case folding: `toLowerCase` restricted to the letters A to Z. */
  function LowerChar(c: char): char
  {
    if 'A' <= c <= 'Z' then ((c as int) + 32) as char else c
  }

  function Lower(s: string): string
  {
    seq(|s|, i requires 0 <= i < |s| => LowerChar(s[i]))
  }

  /** `text.includes(part)`: `part` occurs at some position of `text`; the empty string occurs everywhere. */
  predicate Contains(text: string, part: string)
  {
    exists k | 0 <= k <= |text| - |part| :: OccursAt(text, part, k)
  }

  predicate OccursAt(text: string, part: string, k: nat)
  {
    k + |part| <= |text| && text[k..k + |part|] == part
  }
}
