/**
  The two Kotlin string routines the shopping list relies on, restricted to
  ASCII whitespace and ASCII digits:
  - `String.isNotBlank()`, used to reject an empty item name;
  - `String.toIntOrNull()`, used to read a quantity typed as text;
  and `Int.toString()`, which the inline editor uses to pre-fill the quantity
  field. Parsing is proved to read back every integer the printer writes; the
  converse does not hold, since "+5" and "007" parse to numbers printed as
  "5" and "7".
*/
module Text {
  import opened Wrappers

  /** Whitespace as Java's Character.isWhitespace sees it in the ASCII range:
      space, the layout controls TAB..CR, and the separators U+001C..U+001F. */
  predicate IsWhitespace(c: char) {
    c == ' ' || '\t' <= c <= '\r' || '\U{1C}' <= c <= '\U{1F}'
  }

  /** `isNotBlank()`: the text holds a character that is not whitespace.
      Its negation is `isBlank()`: empty, or whitespace only. */
  predicate IsNotBlank(s: string)
    ensures IsNotBlank(s) ==> |s| > 0
  {
    exists i | 0 <= i < |s| :: !IsWhitespace(s[i])
  }

  predicate IsDigit(c: char) {
    '0' <= c <= '9'
  }

  predicate AllDigits(s: string) {
    forall i | 0 <= i < |s| :: IsDigit(s[i])
  }

  /** The value of a string of decimal digits, most significant first. */
  function DigitsValue(s: string): nat
    requires AllDigits(s)
    decreases |s|
  {
    if s == [] then 0
    else 10 * DigitsValue(s[..|s| - 1]) + (s[|s| - 1] as int - '0' as int)
  }

  /**
    `toIntOrNull()` in radix 10: an optional leading '-' or '+' followed by
    one or more decimal digits; anything else (the empty string, a lone
    sign, any other character) gives None.
  */
  function ParseInt(s: string): (r: Option<int>)
    ensures r.Some? ==> IsNotBlank(s)
  {
    if |s| == 0 then None
    else if s[0] == '-' || s[0] == '+' then
      var digits := s[1..];
      if |digits| > 0 && AllDigits(digits) then
        var magnitude: int := DigitsValue(digits);
        Some(if s[0] == '-' then -magnitude else magnitude)
      else None
    else if AllDigits(s) then Some(DigitsValue(s))
    else None
  }

  /** `text.toIntOrNull() ?: default`. */
  function ParseIntOr(s: string, default: int): (q: int)
    ensures !IsNotBlank(s) ==> q == default
  {
    match ParseInt(s)
    case Some(n) => n
    case None => default
  }

  function DigitChar(d: nat): (c: char)
    requires d < 10
    ensures IsDigit(c) && c as int - '0' as int == d
  {
    ('0' as int + d) as char
  }

  /** Decimal digits of a natural number, without leading zeros. */
  function NatToString(n: nat): (s: string)
    ensures |s| > 0 && AllDigits(s)
    decreases n
  {
    if n < 10 then [DigitChar(n)]
    else NatToString(n / 10) + [DigitChar(n % 10)]
  }

  /** `Int.toString()`: a '-' in front of the digits of a negative number.
      Reading the text back gives the same number. */
  function IntToString(n: int): (s: string)
    ensures ParseInt(s) == Some(n)
  {
    if n < 0 then
      NatToStringValue(-n);
      var s := "-" + NatToString(-n);
      assert s[1..] == NatToString(-n);
      s
    else
      NatToStringValue(n);
      NatToString(n)
  }

  lemma {:induction false} NatToStringValue(n: nat)
    ensures DigitsValue(NatToString(n)) == n
    decreases n
  {
    var s := NatToString(n);
    if n >= 10 {
      NatToStringValue(n / 10);
      assert s[..|s| - 1] == NatToString(n / 10);
    }
  }

  /** The forms `toIntOrNull` accepts and rejects: a sign is optional, leading
      zeros are allowed, and a lone sign, surrounding spaces, a second sign or a
      decimal point make the text not a number. */
  lemma ParseIntForms()
    ensures ParseInt("+5") == Some(5) && ParseInt("-5") == Some(-5)
    ensures ParseInt("007") == Some(7) && ParseInt("-0") == Some(0)
    ensures ParseInt("") == None && ParseInt("-") == None && ParseInt("+") == None
    ensures ParseInt(" 5") == None && ParseInt("5 ") == None
    ensures ParseInt("+-5") == None && ParseInt("1.5") == None
  {
    assert "+5"[1..] == "5" && "-5"[1..] == "5" && "-0"[1..] == "0";
    assert DigitsValue("007") == 7 by {
      assert "007"[..2] == "00" && "00"[..1] == "0";
    }
    assert !IsDigit(" 5"[0]) && !IsDigit("5 "[1]);
    assert "+-5"[1..] == "-5" && !IsDigit("-5"[0]);
    assert !IsDigit("1.5"[1]);
  }
}
