/**
  The four-digit codes mailed to users: `generate_verification_code`
  (apps.py:357-358) for e-mail verification and `generate_otp`
  (apps.py:558-559) for password reset. Both render `random.randint(1000, 9999)`
  with `str`; the random draw is a parameter of the model.
 */
module Codes {

  predicate IsDigit(c: char)
  {
    '0' <= c <= '9'
  }

  /** The digit character for `d`. */
  function DigitChar(d: nat): (c: char)
    requires d < 10
    ensures IsDigit(c)
  {
    ('0' as int + d) as char
  }

  /** `str(n)` for a natural number: its decimal digits, most significant
      first, with no leading zero. */
  function DecimalString(n: nat): (s: string)
    ensures |s| >= 1
    ensures forall k :: 0 <= k < |s| ==> IsDigit(s[k])
    ensures n > 0 ==> s[0] != '0'
  {
    if n < 10 then [DigitChar(n)] else DecimalString(n / 10) + [DigitChar(n % 10)]
  }

  /** The value of a digit character. */
  function DigitValue(c: char): (d: nat)
    requires IsDigit(c)
    ensures d < 10
  {
    c as int - '0' as int
  }

  /** The number a string of decimal digits denotes (`int(s)`). */
  function DecimalValue(s: string): nat
    requires forall k :: 0 <= k < |s| ==> IsDigit(s[k])
  {
    if s == [] then 0
    else DecimalValue(s[..|s| - 1]) * 10 + DigitValue(s[|s| - 1])
  }

  /** Reading back what `str` wrote gives the number. */
  lemma {:induction false} DecimalRoundTrip(n: nat)
    ensures DecimalValue(DecimalString(n)) == n
  {
    var s := DecimalString(n);
    if n >= 10 {
      DecimalRoundTrip(n / 10);
      assert s[..|s| - 1] == DecimalString(n / 10);
    }
  }

  /** A number from 1000 to 9999 has four digits. */
  lemma FourDigits(n: nat)
    requires 1000 <= n <= 9999
    ensures |DecimalString(n)| == 4
  {
    assert n / 10 / 10 == n / 100 && n / 100 / 10 == n / 1000;
    assert |DecimalString(n / 1000)| == 1;
    assert |DecimalString(n / 100)| == 2;
    assert |DecimalString(n / 10)| == 3;
  }

  /** A mailed code: exactly four decimal digits, the first not zero. */
  predicate IsCode(s: string)
  {
    |s| == 4 && (forall k :: 0 <= k < 4 ==> IsDigit(s[k])) && s[0] != '0'
  }

  /** `str(random.randint(1000, 9999))`, for the value `draw` the generator
      produced. `generate_otp` is the same function. */
  function GenerateCode(draw: int): (code: string)
    requires 1000 <= draw <= 9999
    ensures IsCode(code)
    ensures DecimalValue(code) == draw
  {
    FourDigits(draw);
    DecimalRoundTrip(draw);
    DecimalString(draw)
  }

  /** Different draws give different codes. */
  lemma CodeInjective(a: int, b: int)
    requires 1000 <= a <= 9999 && 1000 <= b <= 9999
    ensures GenerateCode(a) == GenerateCode(b) ==> a == b
  {
  }

  /** A digit string of length n without a leading zero denotes a number
      with n digits. */
  lemma {:induction false} DecimalValueBound(s: string)
    requires forall k :: 0 <= k < |s| ==> IsDigit(s[k])
    requires |s| > 0 && s[0] != '0'
    ensures DecimalValue(s) >= Power10(|s| - 1)
    ensures DecimalValue(s) < Power10(|s|)
  {
    var init := s[..|s| - 1];
    if |init| > 0 {
      assert init[0] == s[0];
      DecimalValueBound(init);
    }
  }

  /** Ten to the power `k`. */
  function Power10(k: nat): (p: nat)
    ensures p >= 1
  {
    if k == 0 then 1 else 10 * Power10(k - 1)
  }

  /** A string of digits is `str` of its value when it has no leading zero. */
  lemma {:induction false} DecimalStringOfValue(s: string)
    requires forall k :: 0 <= k < |s| ==> IsDigit(s[k])
    requires |s| > 0 && s[0] != '0'
    ensures DecimalString(DecimalValue(s)) == s
  {
    var init := s[..|s| - 1];
    var d := DigitValue(s[|s| - 1]);
    var v := DecimalValue(s);
    if |init| == 0 {
      assert s[..0] == [] && DecimalValue(s[..0]) == 0;
      assert v == d;
      assert s == [DigitChar(d)];
    } else {
      assert init[0] == s[0];
      DecimalValueBound(init);
      DecimalStringOfValue(init);
      assert v / 10 == DecimalValue(init) && v % 10 == d;
      assert s == init + [DigitChar(d)];
    }
  }

  /** Every four-digit string without a leading zero is the code of exactly
      one draw: the generator can produce every such code and nothing else. */
  lemma EveryCodeIsGenerated(s: string)
    requires IsCode(s)
    ensures 1000 <= DecimalValue(s) <= 9999
    ensures GenerateCode(DecimalValue(s)) == s
  {
    DecimalValueBound(s);
    DecimalStringOfValue(s);
  }
}
