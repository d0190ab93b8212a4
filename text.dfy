/** String helpers shared by the encoders: `Array.prototype.join` and integer formatting. */
module Text {

  /** `parts.join(sep)`: the parts with `sep` between neighbours and nowhere else. */
  function JoinWith(parts: seq<string>, sep: string): string
  {
    if |parts| == 0 then ""
    else if |parts| == 1 then parts[0]
    else parts[0] + sep + JoinWith(parts[1..], sep)
  }

  /** The first part, then the separator and the rest. */
  lemma JoinWithFirst(parts: seq<string>, sep: string)
    requires |parts| > 1
    ensures JoinWith(parts, sep) == parts[0] + (sep + JoinWith(parts[1..], sep))
  {
  }

  function DigitChar(d: nat): (c: char)
    requires d < 10
    ensures '0' <= c <= '9' && c as int - '0' as int == d
  {
    "0123456789"[d]
  }

  /** Text made of decimal digits only. */
  predicate AllDigits(s: string)
  {
    forall i :: 0 <= i < |s| ==> '0' <= s[i] <= '9'
  }

  /** The number a run of decimal digits denotes, most significant first. */
  function DecimalValue(s: string): nat
    requires AllDigits(s)
  {
    if s == [] then 0 else DecimalValue(s[..|s| - 1]) * 10 + (s[|s| - 1] as int - '0' as int)
  }

  /** Text as `String` prints an integer: an optional minus sign, then at least one digit. */
  predicate IsIntText(s: string)
  {
    if |s| > 0 && s[0] == '-' then |s| > 1 && AllDigits(s[1..]) else |s| > 0 && AllDigits(s)
  }

  /** The integer such a text denotes. */
  function ReadInt(s: string): int
    requires IsIntText(s)
  {
    if s[0] == '-' then -(DecimalValue(s[1..]) as int) else DecimalValue(s)
  }

  /** Decimal digits of a natural number, most significant first, without leading zeros. */
  function NatToDecimal(n: nat): (r: string)
    ensures |r| > 0
    ensures AllDigits(r)
  {
    if n < 10 then [DigitChar(n)] else NatToDecimal(n / 10) + [DigitChar(n % 10)]
  }

  /** Reading the digits back gives the number. */
  lemma {:induction false} NatDecimalRoundTrip(n: nat)
    ensures DecimalValue(NatToDecimal(n)) == n
  {
    var r := NatToDecimal(n);
    if n >= 10 {
      NatDecimalRoundTrip(n / 10);
      assert r[..|r| - 1] == NatToDecimal(n / 10);
    }
  }

  /** The text of a negative number: a minus sign, then digits that do not start with '0'. */
  lemma NegativeText(n: int)
    requires n < 0
    ensures var r := "-" + NatToDecimal(-n);
            IsIntText(r) && ReadInt(r) == n && r[0] == '-' && r[1] != '0'
  {
    var m: nat := -n;
    var digits := NatToDecimal(m);
    NatDecimalRoundTrip(m);
    NatDecimalLeadingZero(m);
    SignedText(digits);
    assert DecimalValue(digits) == m && digits[0] != '0';
  }

  /** A minus sign in front of digits reads as the negated digits. */
  lemma SignedText(digits: string)
    requires |digits| > 0 && AllDigits(digits)
    ensures IsIntText("-" + digits) && ReadInt("-" + digits) == -(DecimalValue(digits) as int)
    ensures ("-" + digits)[1] == digits[0]
  {
    assert ("-" + digits)[1..] == digits;
  }

  /** The text of a non-negative number: digits, starting with '0' only for zero itself. */
  lemma NonNegativeText(n: nat)
    ensures var r := NatToDecimal(n);
            && IsIntText(r) && ReadInt(r) == n && r[0] != '-'
            && (n == 0 ==> r == "0") && (n != 0 ==> r[0] != '0')
  {
    var digits := NatToDecimal(n);
    NatDecimalRoundTrip(n);
    NatDecimalLeadingZero(n);
    assert '0' <= digits[0] <= '9';
  }

  /** Only zero is written with a leading '0', and zero is written "0". */
  lemma {:induction false} NatDecimalLeadingZero(n: nat)
    ensures NatToDecimal(n)[0] == '0' <==> n == 0
    ensures n == 0 ==> NatToDecimal(n) == "0"
  {
    if n >= 10 {
      NatDecimalLeadingZero(n / 10);
      assert NatToDecimal(n)[0] == NatToDecimal(n / 10)[0];
    }
  }

  /**
   * `String(n)` for an integer-valued number: a minus sign for negatives,
   * then the digits without a leading zero; reading the text back gives
   * the number.
   */
  function IntToDecimal(n: int): (r: string)
    ensures IsIntText(r) && ReadInt(r) == n
    ensures (r[0] == '-') <==> n < 0
    ensures n == 0 ==> r == "0"
    ensures n != 0 ==> r[if n < 0 then 1 else 0] != '0'
  {
    if n < 0 then
      NegativeText(n);
      "-" + NatToDecimal(-n)
    else
      NonNegativeText(n);
      NatToDecimal(n)
  }
}
