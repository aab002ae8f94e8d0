/** Decimal numbers as Go's strconv reads and prints them, for a 64-bit int. */
module Decimals {
  import opened Options

  const INT_MAX: int := 0x7fff_ffff_ffff_ffff
  const INT_MIN: int := -0x8000_0000_0000_0000

  predicate IsDigit(c: char) {
    '0' <= c <= '9'
  }

  predicate AllDigits(s: string) {
    forall i :: 0 <= i < |s| ==> IsDigit(s[i])
  }

  function DigitChar(d: nat): (c: char)
    requires d < 10
    ensures IsDigit(c)
  {
    '0' + d as char
  }

  function DigitValue(c: char): (d: nat)
    requires IsDigit(c)
    ensures d < 10
  {
    (c - '0') as int
  }

  function Value(s: string): nat
    requires AllDigits(s)
  {
    if s == "" then 0 else 10 * Value(s[..|s| - 1]) + DigitValue(s[|s| - 1])
  }

  /** strconv.Atoi: an optional sign and at least one digit, within the range of int. */
  function Atoi(s: string): Option<int> {
    if s == "" then None
    else
      var signed := s[0] == '+' || s[0] == '-';
      var digits := if signed then s[1..] else s;
      if digits == "" || !AllDigits(digits) then None
      else
        var v: int := Value(digits);
        var n := if s[0] == '-' then -v else v;
        if INT_MIN <= n <= INT_MAX then Some(n) else None
  }

  function Digits(n: nat): (s: string)
    ensures s != "" && AllDigits(s)
  {
    if n < 10 then [DigitChar(n)] else Digits(n / 10) + [DigitChar(n % 10)]
  }

  /** strconv.Itoa, and what `%d` prints. */
  function Itoa(n: int): (s: string)
    ensures s != ""
  {
    if n < 0 then "-" + Digits(-n) else Digits(n)
  }

  lemma {:induction false} ValueOfDigits(n: nat)
    ensures Value(Digits(n)) == n
  {
    if n >= 10 {
      ValueOfDigits(n / 10);
      assert Digits(n)[..|Digits(n)| - 1] == Digits(n / 10);
    }
  }

  lemma {:induction false} AtoiOfDigits(s: string)
    requires s != "" && AllDigits(s) && Value(s) <= INT_MAX + 1
    ensures Value(s) <= INT_MAX ==> Atoi(s) == Some(Value(s))
    ensures Atoi("-" + s) == Some(-(Value(s) as int))
  {
    assert IsDigit(s[0]);
    assert ("-" + s)[1..] == s;
  }

  /** What is read as a number: digits, with or without a sign, whose value is in the range of int. */
  lemma {:induction false} AtoiIff(s: string, n: int)
    ensures Atoi(s) == Some(n) <==>
      && INT_MIN <= n <= INT_MAX
      && exists digits :: digits != "" && AllDigits(digits)
           && (|| ((s == digits || s == "+" + digits) && n == Value(digits))
               || (s == "-" + digits && n == -(Value(digits) as int)))
  {
    if Atoi(s) == Some(n) {
      var digits := if s[0] == '+' || s[0] == '-' then s[1..] else s;
      assert s[0] == '+' ==> s == "+" + digits;
      assert s[0] == '-' ==> s == "-" + digits;
      assert digits != "" && AllDigits(digits);
    }
    forall digits | digits != "" && AllDigits(digits)
      ensures s == digits && INT_MIN <= Value(digits) <= INT_MAX ==> Atoi(s) == Some(Value(digits))
      ensures s == "+" + digits && INT_MIN <= Value(digits) <= INT_MAX ==> Atoi(s) == Some(Value(digits))
      ensures s == "-" + digits && INT_MIN <= -(Value(digits) as int) ==> Atoi(s) == Some(-(Value(digits) as int))
    {
      assert IsDigit(digits[0]) && ("+" + digits)[1..] == digits && ("-" + digits)[1..] == digits;
    }
  }

  /** Printing and reading a number gives it back. */
  lemma {:induction false} AtoiOfItoa(n: int)
    requires INT_MIN <= n <= INT_MAX
    ensures Atoi(Itoa(n)) == Some(n)
  {
    var m := if n < 0 then -n else n;
    ValueOfDigits(m);
    AtoiOfDigits(Digits(m));
  }

  /** Different numbers print differently. */
  lemma {:induction false} ItoaIsInjective(m: int, n: int)
    requires Itoa(m) == Itoa(n)
    ensures m == n
  {
    assert IsDigit(Digits(if m < 0 then -m else m)[0]) && IsDigit(Digits(if n < 0 then -n else n)[0]);
    if m < 0 {
      assert Itoa(m)[1..] == Digits(-m) && Itoa(n)[1..] == Digits(-n);
      ValueOfDigits(-m);
      ValueOfDigits(-n);
    } else {
      ValueOfDigits(m);
      ValueOfDigits(n);
    }
  }

  /** A printed number contains no slash. */
  lemma {:induction false} ItoaHasNoSlash(n: int)
    ensures '/' !in Itoa(n)
  {
    assert '/' !in Digits(if n < 0 then -n else n);
  }
}
