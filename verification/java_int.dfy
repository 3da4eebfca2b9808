/**
 * Java's 32-bit integer text conversions: Integer.valueOf(String) (the same parser as
 * `new Integer(String)` and Integer.parseInt) and Integer.toString.
 */
module JavaInt {
  import opened Outcomes

  const MIN_VALUE: int := -0x8000_0000
  const MAX_VALUE: int := 0x7fff_ffff

  /** The values of a Java `int` / `Integer`. */
  type Int32 = x: int | MIN_VALUE <= x <= MAX_VALUE

  predicate IsDigit(c: char)
  {
    '0' <= c <= '9'
  }

  predicate AllDigits(s: string)
  {
    forall i :: 0 <= i < |s| ==> IsDigit(s[i])
  }

  /** The value of a string of decimal digits, most significant first. */
  function DigitsValue(s: string): nat
    requires AllDigits(s)
    decreases |s|
  {
    if s == [] then 0 else 10 * DigitsValue(s[..|s| - 1]) + (s[|s| - 1] as int - '0' as int)
  }

  /** The digits after the optional sign, read as a value of the given sign, if it fits 32 bits. */
  function ParseMagnitude(digits: string, negative: bool): Option<int>
  {
    if |digits| == 0 || !AllDigits(digits) then None
    else
      var v: int := if negative then -(DigitsValue(digits) as int) else DigitsValue(digits);
      if MIN_VALUE <= v <= MAX_VALUE then Some(v) else None
  }

  /**
   * Integer.valueOf(s): an optional '+' or '-' followed by at least one ASCII digit whose
   * value fits in 32 bits; anything else raises NumberFormatException (None here).
   */
  function ParseInt(s: string): (r: Option<int>)
    ensures r.Some? ==> MIN_VALUE <= r.value <= MAX_VALUE
    ensures r.Some? ==> |s| > 0
  {
    if |s| > 0 && (s[0] == '-' || s[0] == '+') then ParseMagnitude(s[1..], s[0] == '-')
    else ParseMagnitude(s, false)
  }

  function DigitChar(d: nat): (c: char)
    requires d < 10
    ensures IsDigit(c)
  {
    ('0' as int + d) as char
  }

  /** The decimal digits of a natural number, without leading zeros. */
  function ShowNat(n: nat): string
    decreases n
  {
    if n < 10 then [DigitChar(n)] else ShowNat(n / 10) + [DigitChar(n % 10)]
  }

  /**
   * Integer.toString(n): the decimal digits of |n| without leading zeros, after a '-' when n
   * is negative.
   */
  function Show(n: int): (s: string)
    ensures n >= 0 ==> |s| > 0 && AllDigits(s) && DigitsValue(s) == n
    ensures n < 0 ==> |s| > 1 && s[0] == '-' && AllDigits(s[1..]) && DigitsValue(s[1..]) == -n
    ensures n >= 0 ==> (s[0] == '0' ==> s == "0")
    ensures n < 0 ==> s[1] != '0'
  {
    ShowNatIsDigits(if n < 0 then -n else n);
    ShowNatNoLeadingZero(if n < 0 then -n else n);
    if n < 0 then
      assert ("-" + ShowNat(-n))[1..] == ShowNat(-n);
      "-" + ShowNat(-n)
    else ShowNat(n)
  }

  lemma {:induction false} ShowNatIsDigits(n: nat)
    ensures |ShowNat(n)| > 0 && AllDigits(ShowNat(n)) && DigitsValue(ShowNat(n)) == n
    decreases n
  {
    var s := ShowNat(n);
    if n >= 10 {
      ShowNatIsDigits(n / 10);
      assert s[..|s| - 1] == ShowNat(n / 10);
    }
  }

  /** Only zero is written with a leading '0', and then as the single digit "0". */
  lemma {:induction false} ShowNatNoLeadingZero(n: nat)
    ensures ShowNat(n)[0] == '0' ==> ShowNat(n) == "0"
    ensures n > 0 ==> ShowNat(n)[0] != '0'
    decreases n
  {
    if n >= 10 {
      ShowNatNoLeadingZero(n / 10);
      assert ShowNat(n)[0] == ShowNat(n / 10)[0];
    }
  }

  /** The text Integer.valueOf accepts: an optional '+' or '-', then at least one ASCII digit. */
  predicate SignedDigits(s: string)
  {
    if |s| > 0 && (s[0] == '-' || s[0] == '+') then |s| > 1 && AllDigits(s[1..])
    else |s| > 0 && AllDigits(s)
  }

  /** The value of such a text: its digits read in decimal, negated after a '-'. */
  function SignedValue(s: string): int
    requires SignedDigits(s)
  {
    if s[0] == '-' then -(DigitsValue(s[1..]) as int)
    else if s[0] == '+' then DigitsValue(s[1..])
    else DigitsValue(s)
  }

  /**
   * Integer.valueOf succeeds exactly on a signed digit string whose value fits in 32 bits,
   * and then gives that value; anything else is a NumberFormatException.
   */
  lemma ParseIntExactly(s: string)
    ensures ParseInt(s).Some? <==> SignedDigits(s) && MIN_VALUE <= SignedValue(s) <= MAX_VALUE
    ensures ParseInt(s).Some? ==> ParseInt(s).value == SignedValue(s)
  {
  }

  /** Leading zeros and a '+' are accepted; a lone sign and a letter are refused. */
  lemma ParseIntExamples()
    ensures ParseInt("007") == Some(7)
    ensures ParseInt("+7") == Some(7)
    ensures ParseInt("-") == None && ParseInt("") == None && ParseInt("7a") == None
  {
    assert DigitsValue("00") == 0;
    assert DigitsValue("007") == 7;
    assert !IsDigit("7a"[1]);
  }

  /** Appending a digit multiplies the value by ten and adds the digit. */
  lemma DigitsValueStep(s: string, c: char)
    requires AllDigits(s) && IsDigit(c)
    ensures AllDigits(s + [c])
    ensures DigitsValue(s + [c]) == 10 * DigitsValue(s) + (c as int - '0' as int)
  {
    assert (s + [c])[..|s|] == s;
  }

  /** The value of the leading half of the digits of 2^31. */
  lemma DigitsOfTwoToThe31Half()
    ensures AllDigits("21474") && DigitsValue("21474") == 21474
  {
    assert DigitsValue("2") == 2;
    DigitsValueStep("2", '1');
    assert "2" + ['1'] == "21";
    DigitsValueStep("21", '4');
    assert "21" + ['4'] == "214";
    DigitsValueStep("214", '7');
    assert "214" + ['7'] == "2147";
    DigitsValueStep("2147", '4');
    assert "2147" + ['4'] == "21474";
  }

  /** The digits of 2^31 read as 2^31. */
  lemma DigitsOfTwoToThe31()
    ensures AllDigits("2147483648") && DigitsValue("2147483648") == 2147483648
  {
    DigitsOfTwoToThe31Half();
    DigitsValueStep("21474", '8');
    assert "21474" + ['8'] == "214748";
    DigitsValueStep("214748", '3');
    assert "214748" + ['3'] == "2147483";
    DigitsValueStep("2147483", '6');
    assert "2147483" + ['6'] == "21474836";
    DigitsValueStep("21474836", '4');
    assert "21474836" + ['4'] == "214748364";
    DigitsValueStep("214748364", '8');
    assert "214748364" + ['8'] == "2147483648";
  }

  /** The 32-bit bounds: -2^31 is read, 2^31 is refused. */
  lemma ParseIntBounds()
    ensures ParseInt("2147483648") == None
    ensures ParseInt("-2147483648") == Some(MIN_VALUE)
  {
    DigitsOfTwoToThe31();
    assert "-2147483648"[1..] == "2147483648";
  }

  /** Reading back what Integer.toString wrote gives the same integer. */
  lemma ParseShow(n: int)
    requires MIN_VALUE <= n <= MAX_VALUE
    ensures ParseInt(Show(n)) == Some(n)
  {
    if n < 0 {
      ShowNatIsDigits(-n);
      assert Show(n)[1..] == ShowNat(-n);
    } else {
      ShowNatIsDigits(n);
      assert IsDigit(Show(n)[0]);
    }
  }
}
