/** Numbers as the dashboard's JavaScript handles them: Math.PI, the text
    String(n) gives an integer, and the magnitude tiers its formatters share. */
module Numeric {

  /** Math.PI as JavaScript prints it: the shortest decimal that reads back
      as the double nearest to pi, not that double's exact value
      (3.141592653589793115997963...). */
  const PI: real := 3.141592653589793

  /** The magnitude tier a formatter picks for a value. */
  datatype Tier = Mega | Kilo | Units

  function TierOf(v: real): Tier {
    if v >= 1000000.0 then Mega else if v >= 1000.0 then Kilo else Units
  }

  function Scale(t: Tier): real {
    match t
    case Mega => 1000000.0
    case Kilo => 1000.0
    case Units => 1.0
  }

  /** A formatted number as the page shows it: `value.toFixed(digits) + suffix`
      or `value + suffix`. How toFixed and String render digits is not
      modelled: the label keeps the exact value and the digit count. */
  datatype Label = Fixed(value: real, digits: nat, suffix: string) | Plain(value: real, suffix: string)

  /** The shape every magnitude formatter of the dashboard has: at one
      million and above divide by a million, at one thousand and above by
      one thousand, else show the value itself. */
  function Tiered(v: real, megaDigits: nat, kiloDigits: nat, mega: string, kilo: string, unit: string): (l: Label)
  {
    match TierOf(v)
    case Mega => Fixed(v / 1000000.0, megaDigits, mega)
    case Kilo => Fixed(v / 1000.0, kiloDigits, kilo)
    case Units => Plain(v, unit)
  }

  /** Whatever the suffixes, a tiered label is an exact rescaling of its
      value, and the number shown has one to three digits before the point
      in the thousands tier and at least one in the millions tier. */
  lemma TieredRescales(v: real, megaDigits: nat, kiloDigits: nat, mega: string, kilo: string, unit: string)
    ensures var l := Tiered(v, megaDigits, kiloDigits, mega, kilo, unit);
      && l.value * Scale(TierOf(v)) == v
      && (l.Plain? <==> v < 1000.0)
      && (TierOf(v) == Kilo ==> 1.0 <= l.value < 1000.0 && l == Fixed(l.value, kiloDigits, kilo))
      && (TierOf(v) == Mega ==> 1.0 <= l.value && l == Fixed(l.value, megaDigits, mega))
      && (TierOf(v) == Units ==> l == Plain(v, unit))
  {
  }

  /** The digit character '0' + d. */
  function DigitChar(d: nat): (c: char)
    requires d < 10
    ensures '0' <= c <= '9'
    ensures c as int - '0' as int == d
  {
    ('0' as int + d) as char
  }

  /** String(n) for a natural number: its decimal digits, most significant first. */
  function NatToString(n: nat): (s: string)
    ensures |s| >= 1
    ensures forall i :: 0 <= i < |s| ==> '0' <= s[i] <= '9'
    decreases n
  {
    if n < 10 then [DigitChar(n)] else NatToString(n / 10) + [DigitChar(n % 10)]
  }

  /** String(n) for an integer. */
  function IntToString(n: int): (s: string)
    ensures |s| >= 1
    ensures s[0] == '-' <==> n < 0
  {
    if n < 0 then "-" + NatToString(-n) else NatToString(n)
  }

  /** The value parseInt reads from a text of decimal digits. */
  function DigitsValue(s: string): nat
    requires forall i :: 0 <= i < |s| ==> '0' <= s[i] <= '9'
  {
    if s == [] then 0 else DigitsValue(s[..|s| - 1]) * 10 + (s[|s| - 1] as int - '0' as int)
  }

  /** Reading the decimal text of a number back gives that number. */
  lemma {:induction false} NatToStringRoundTrip(n: nat)
    ensures DigitsValue(NatToString(n)) == n
    decreases n
  {
    if n >= 10 {
      var s := NatToString(n / 10);
      NatToStringRoundTrip(n / 10);
      assert (s + [DigitChar(n % 10)])[..|s|] == s;
    }
  }
}
