/** Decimal text as `strconv` prints and reads it, for 64-bit integers. */
module Decimal {
  import opened FlowTypes

  const MAX_INT := 0x7fff_ffff_ffff_ffff
  const MIN_INT := -0x8000_0000_0000_0000

  predicate IsDigit(c: char) {
    '0' <= c <= '9'
  }

  function DigitValue(c: char): (d: nat)
    requires IsDigit(c)
    ensures d < 10
  {
    c as int - '0' as int
  }

  function DigitOf(d: nat): (c: char)
    requires d < 10
    ensures IsDigit(c) && DigitValue(c) == d
  {
    ('0' as int + d) as char
  }

  predicate AllDigits(s: string) {
    forall k :: 0 <= k < |s| ==> IsDigit(s[k])
  }

  function Magnitude(s: string): (n: nat)
    requires AllDigits(s)
  {
    if s == "" then 0 else 10 * Magnitude(s[..|s| - 1]) + DigitValue(s[|s| - 1])
  }

  function Digits(n: nat): (s: string)
    ensures s != "" && AllDigits(s)
  {
    if n < 10 then [DigitOf(n)] else Digits(n / 10) + [DigitOf(n % 10)]
  }

  /** `strconv.Itoa`. */
  function Itoa(n: int): (s: string) {
    if n < 0 then ['-'] + Digits(-n) else Digits(n)
  }

  /** The sign and the digits that follow it. */
  function Unsigned(s: string): (r: string) {
    if s != "" && (s[0] == '-' || s[0] == '+') then s[1..] else s
  }

  predicate IsNumeral(s: string) {
    Unsigned(s) != "" && AllDigits(Unsigned(s))
  }

  function NumeralValue(s: string): (n: int)
    requires IsNumeral(s)
  {
    if s[0] == '-' then 0 - Magnitude(Unsigned(s)) else Magnitude(Unsigned(s))
  }

  /** `strconv.Atoi`: None for a syntax error or a value out of range. */
  function Atoi(s: string): (r: Option<int>) {
    if IsNumeral(s) && MIN_INT <= NumeralValue(s) <= MAX_INT then Some(NumeralValue(s)) else None
  }

  /** `ToInt64` of a text: errors are ignored, so a syntax error gives 0 and an overflow the nearest bound. */
  function ToInt64(s: string): (n: int) {
    if !IsNumeral(s) then 0
    else if NumeralValue(s) > MAX_INT then MAX_INT
    else if NumeralValue(s) < MIN_INT then MIN_INT
    else NumeralValue(s)
  }

  /** Decimal notation: a number is its tenth followed by its last digit. */
  lemma DigitsAreDecimal(n: nat, d: nat)
    requires n > 0 && d < 10
    ensures Itoa(10 * n + d) == Itoa(n) + [("0123456789")[d]] && Itoa(d) == [("0123456789")[d]]
    ensures Itoa(0 - n) == "-" + Itoa(n)
  {
    assert (10 * n + d) / 10 == n && (10 * n + d) % 10 == d;
  }

  /** A text with something else than a digit behind its first character is no number. */
  lemma BadDigitIsNoNumber(s: string, k: nat)
    requires 1 <= k < |s| && !('0' <= s[k] <= '9')
    ensures Atoi(s) == None && ToInt64(s) == 0
  {
    if Unsigned(s) == s {
      assert !IsDigit(Unsigned(s)[k]);
    } else {
      assert !IsDigit(Unsigned(s)[k - 1]);
    }
  }

  lemma {:induction false} DigitsReadBack(n: nat)
    ensures Magnitude(Digits(n)) == n
  {
    if n < 10 {
      assert Digits(n)[..0] == "";
    } else {
      DigitsReadBack(n / 10);
      var s := Digits(n);
      assert s[..|s| - 1] == Digits(n / 10);
    }
  }

  /** Printing and reading back is the identity on 64-bit integers. */
  lemma AtoiOfItoa(n: int)
    requires MIN_INT <= n <= MAX_INT
    ensures Atoi(Itoa(n)) == Some(n) && ToInt64(Itoa(n)) == n
  {
    hide Magnitude, Digits;
    if n < 0 {
      DigitsReadBack(-n);
      assert Unsigned(Itoa(n)) == Digits(-n);
    } else {
      DigitsReadBack(n);
      assert IsDigit(Itoa(n)[0]);
      assert Unsigned(Itoa(n)) == Digits(n);
    }
  }
}
