/** Amounts typed into the pages' form fields are strings; the pages turn
    them into numbers with JavaScript's `Number(...)`. Amounts here are
    whole rupees and whole units, so only integer numerals are modelled. */
module Amounts {
  import opened Optional

  predicate IsDigit(c: char)
  {
    '0' <= c <= '9'
  }

  predicate AllDigits(s: string)
  {
    forall k :: 0 <= k < |s| ==> IsDigit(s[k])
  }

  /** The value of a string of decimal digits, read left to right. */
  function DigitsValue(s: string): nat
    requires AllDigits(s)
  {
    if s == [] then 0 else 10 * DigitsValue(s[..|s| - 1]) + (s[|s| - 1] as int - '0' as int)
  }

  /** `Number(s)` on a form string: the empty string is 0, an optional sign
      followed by at least one digit is that integer, and anything else is
      `NaN`, written `None`. */
  function Number(s: string): Option<int>
  {
    if s == "" then Some(0)
    else if |s| > 1 && s[0] == '-' && AllDigits(s[1..]) then Some(-(DigitsValue(s[1..]) as int))
    else if |s| > 1 && s[0] == '+' && AllDigits(s[1..]) then Some(DigitsValue(s[1..]))
    else if AllDigits(s) then Some(DigitsValue(s))
    else None
  }

  /** `Number(s) || 0`: a field that does not hold a number counts as 0. */
  function NumberOr0(s: string): int
  {
    Number(s).GetOr(0)
  }

  /** The decimal digits of `n`, most significant first, without leading zeros. */
  function Digits(n: nat): (r: string)
    ensures r != [] && AllDigits(r)
  {
    if n < 10 then ['0' + n as char] else Digits(n / 10) + ['0' + (n % 10) as char]
  }

  /** The text a number input holds for the integer `n`. */
  function Decimal(n: int): (r: string)
    ensures r != []
  {
    if n < 0 then "-" + Digits(-n) else Digits(n)
  }

  lemma {:induction false} DigitsRoundTrip(n: nat)
    ensures DigitsValue(Digits(n)) == n
  {
    if n >= 10 {
      var s := Digits(n);
      assert s[..|s| - 1] == Digits(n / 10);
      DigitsRoundTrip(n / 10);
    }
  }

  /** Reading back the text of an integer gives that integer. */
  lemma DecimalRoundTrip(n: int)
    ensures Number(Decimal(n)) == Some(n)
    ensures NumberOr0(Decimal(n)) == n
  {
    var s := Decimal(n);
    if n < 0 {
      assert s[1..] == Digits(-n);
      DigitsRoundTrip(-n);
    } else {
      assert IsDigit(s[0]);
      DigitsRoundTrip(n);
    }
  }

  /** An empty field counts as 0, and so does a field that is not a
      numeral: one with a character other than a digit after its first, one
      that starts with neither a digit nor a sign, or a bare sign. */
  lemma NumberOr0Defaults(s: string)
    ensures s == "" ==> NumberOr0(s) == 0
    ensures (exists k :: 0 < k < |s| && !IsDigit(s[k])) ==> NumberOr0(s) == 0
    ensures s != "" && !IsDigit(s[0]) && s[0] != '-' && s[0] != '+' ==> NumberOr0(s) == 0
    ensures s == "-" || s == "+" ==> NumberOr0(s) == 0
  {
    if k :| 0 < k < |s| && !IsDigit(s[k]) {
      assert s[1..][k - 1] == s[k];
      assert !AllDigits(s[1..]) && !AllDigits(s);
    }
    if s != "" && !IsDigit(s[0]) {
      assert !AllDigits(s);
    }
  }
}
