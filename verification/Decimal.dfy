/** Decimal text of integers, as Go's `%d` and `strconv.Itoa` print it, and as
    `strconv.ParseUint(s, 10, 32)` reads it back. */
module Decimal {
  import opened Basics

  function Digit(d: nat): char
    requires d < 10
  {
    '0' + d as char
  }

  predicate IsDigit(c: char) {
    '0' <= c <= '9'
  }

  predicate AllDigits(s: string) {
    forall i :: 0 <= i < |s| ==> IsDigit(s[i])
  }

  function Natural(n: nat): string {
    if n < 10 then [Digit(n)] else Natural(n / 10) + [Digit(n % 10)]
  }

  function Dec(n: int): string {
    if n < 0 then "-" + Natural(-n) else Natural(n)
  }

  function Value(s: string): nat
    requires AllDigits(s)
  {
    if s == "" then 0 else 10 * Value(s[..|s| - 1]) + (s[|s| - 1] - '0') as nat
  }

  /** What the ten digits stand for. */
  lemma DigitValues()
    ensures Value("0") == 0 && Value("1") == 1 && Value("2") == 2 && Value("3") == 3 && Value("4") == 4
    ensures Value("5") == 5 && Value("6") == 6 && Value("7") == 7 && Value("8") == 8 && Value("9") == 9
    ensures Dec(0) == "0" && Dec(1) == "1" && Dec(2) == "2" && Dec(3) == "3" && Dec(4) == "4"
    ensures Dec(5) == "5" && Dec(6) == "6" && Dec(7) == "7" && Dec(8) == "8" && Dec(9) == "9"
  {
    assert Value("") == 0;
    assert forall c: char :: IsDigit(c) ==> [c][..0] == "";
  }

  /** Appending a digit multiplies by ten, both ways. */
  lemma ValueOfMore(s: string, c: char)
    requires AllDigits(s) && IsDigit(c)
    ensures AllDigits(s + [c]) && Value(s + [c]) == 10 * Value(s) + Value([c])
  {
    assert (s + [c])[..|s|] == s && [c][..0] == "";
  }

  lemma TextOfMore(n: nat, d: nat)
    requires 0 < n && d < 10
    ensures Dec(10 * n + d) == Dec(n) + Dec(d)
  {
    assert (10 * n + d) / 10 == n && (10 * n + d) % 10 == d;
  }

  /** `strconv.ParseUint(s, 10, 32)`: None stands for either of its errors
      (not a number, or out of range). */
  function ParseUint32(s: string): Option<nat> {
    if s == "" || !AllDigits(s) || Value(s) >= 0x1_0000_0000 then None else Some(Value(s))
  }

  lemma {:induction false} NaturalRoundTrip(n: nat)
    ensures Natural(n) != "" && AllDigits(Natural(n)) && Value(Natural(n)) == n
  {
    if n >= 10 {
      NaturalRoundTrip(n / 10);
      assert Natural(n)[..|Natural(n)| - 1] == Natural(n / 10);
    }
  }

  /** Decimal text determines its integer. */
  lemma DecInjective(m: int, n: int)
    requires Dec(m) == Dec(n)
    ensures m == n
  {
    var a, b := if m < 0 then -m else m, if n < 0 then -n else n;
    NaturalRoundTrip(a);
    NaturalRoundTrip(b);
    assert m < 0 ==> Dec(m)[1..] == Natural(a);
    assert n < 0 ==> Dec(n)[1..] == Natural(b);
    assert IsDigit(Natural(a)[0]) && IsDigit(Natural(b)[0]);
  }

  lemma DecChars(n: int)
    ensures Dec(n) != "" && forall i :: 0 <= i < |Dec(n)| ==> IsDigit(Dec(n)[i]) || Dec(n)[i] == '-'
  {
    NaturalRoundTrip(if n < 0 then -n else n);
  }

  /** The decimal texts of 0..n-1. */
  function Numerals(n: nat): set<string> {
    if n == 0 then {} else Numerals(n - 1) + {Dec(n - 1)}
  }

  lemma {:induction false} NumeralNew(n: nat, j: nat)
    requires n <= j
    ensures Dec(j) !in Numerals(n)
  {
    if n > 0 {
      NumeralNew(n - 1, j);
      if Dec(n - 1) == Dec(j) {
        DecInjective(n - 1, j);
      }
    }
  }

  lemma {:induction false} NumeralsSize(n: nat)
    ensures |Numerals(n)| == n
  {
    if n > 0 {
      NumeralsSize(n - 1);
      NumeralNew(n - 1, n - 1);
    }
  }
}
