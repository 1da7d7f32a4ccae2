/**
 * The scalar test `right == +right` of `onCommand`, for the right tokens
 * the model considers: signed decimal integers. Loose equality between a
 * string and a number holds whenever the string converts to a number, so
 * leading zeros and a leading `+` still make a scalar.
 */
module Scalars {
  import opened Results
  import opened Chars

  /** One or more decimal digits. */
  predicate IsDigits(t: string) {
    |t| > 0 && forall i :: 0 <= i < |t| ==> IsDigit(t[i])
  }

  /** An optional sign followed by one or more decimal digits. */
  predicate IsSignedDecimal(t: string) {
    IsDigits(t) || (|t| > 0 && (t[0] == '+' || t[0] == '-') && IsDigits(t[1..]))
  }

  function DigitValue(c: char): nat
    requires IsDigit(c)
  {
    c as int - '0' as int
  }

  /** The value of a string of decimal digits, most significant first. */
  function DigitsValue(t: string): nat
    requires forall i :: 0 <= i < |t| ==> IsDigit(t[i])
    decreases |t|
  {
    if t == [] then 0 else 10 * DigitsValue(t[..|t| - 1]) + DigitValue(t[|t| - 1])
  }

  /** `+right` when `right == +right` holds, or None when the token is read as a roll definition. */
  function ParseScalar(t: string): (r: Option<int>)
    ensures r.Some? <==> IsSignedDecimal(t)
    ensures r.Some? && t[0] == '-' ==> r.value <= 0
    ensures r.Some? && t[0] != '-' ==> r.value >= 0
  {
    if IsDigits(t) then Some(DigitsValue(t))
    else if |t| > 0 && t[0] == '+' && IsDigits(t[1..]) then Some(DigitsValue(t[1..]))
    else if |t| > 0 && t[0] == '-' && IsDigits(t[1..]) then Some(0 - DigitsValue(t[1..]) as int)
    else None
  }

  /** The decimal digits of `n`, without leading zeros. */
  function Digits(n: nat): (r: string)
    ensures IsDigits(r)
    decreases n
  {
    if n < 10 then [('0' as int + n) as char]
    else Digits(n / 10) + [('0' as int + n % 10) as char]
  }

  /** The text JavaScript prints for an integer. */
  function IntText(x: int): string {
    if x < 0 then "-" + Digits(-x) else Digits(x)
  }

  lemma {:induction false} DigitsRoundTrip(n: nat)
    ensures DigitsValue(Digits(n)) == n
    decreases n
  {
    var d := Digits(n);
    if n >= 10 {
      DigitsRoundTrip(n / 10);
      assert d[..|d| - 1] == Digits(n / 10);
    }
  }

  /** Every integer written out as JavaScript prints it is a scalar with that value. */
  lemma ScalarRoundTrip(x: int)
    ensures ParseScalar(IntText(x)) == Some(x)
  {
    if x < 0 {
      var t := IntText(x);
      DigitsRoundTrip(-x);
      assert t[1..] == Digits(-x);
      assert t[0] == '-';
    } else {
      DigitsRoundTrip(x);
    }
  }

  /** In the signed-decimal domain of `ParseScalar`, a token with a letter in it, such as `2d6`, is not a scalar. */
  lemma DiceTokensAreNotScalars(t: string, i: nat)
    requires i < |t| && IsLetter(t[i])
    ensures ParseScalar(t).None?
  {
    assert i > 0 ==> t[1..][i - 1] == t[i];
  }

  /** Scalars need not print back as written: `007` and `+7` are both the scalar 7. */
  lemma LooseEquality()
    ensures ParseScalar("007") == Some(7)
    ensures ParseScalar("+7") == Some(7)
    ensures ParseScalar("-0") == Some(0)
  {
    assert "007"[..2] == "00" && "00"[..1] == "0" && "0"[..0] == "";
    assert DigitsValue("00") == 0;
    assert "+7"[1..] == "7";
    assert "-0"[1..] == "0";
  }
}
