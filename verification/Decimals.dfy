/** Decimal numerals: what Postgres writes for a number, and what it reads in an interval literal. */
module Decimals {
  predicate Digit(c: char) { '0' <= c <= '9' }

  predicate AllDigits(s: string) {
    forall i :: 0 <= i < |s| ==> Digit(s[i])
  }

  /** The numeral of a number, without leading zeros. */
  function Digits(n: nat): string {
    if n < 10 then ["0123456789"[n]] else Digits(n / 10) + ["0123456789"[n % 10]]
  }

  /** What digits stand for, read from the left as a parser does. */
  function Value(digits: string): nat
    requires AllDigits(digits)
  {
    if digits == "" then 0
    else 10 * Value(digits[..|digits| - 1]) + (digits[|digits| - 1] as int - '0' as int)
  }

  // ---- Place values ---------------------------------------------------------------------------------

  function Pow10(k: nat): nat {
    if k == 0 then 1 else 10 * Pow10(k - 1)
  }

  /** The sum of all digits, each times the power of ten of its place. */
  function PlaceSum(s: string): nat
    requires AllDigits(s)
  {
    if s == "" then 0 else (s[0] as int - '0' as int) * Pow10(|s| - 1) + PlaceSum(s[1..])
  }

  /** The text is the usual numeral of the number. */
  ghost predicate Numeral(s: string, n: nat) {
    s != "" && AllDigits(s) && (|s| > 1 ==> s[0] != '0') && PlaceSum(s) == n
  }

  lemma NumeralIsNotEmpty(s: string, n: nat)
    requires Numeral(s, n)
    ensures s != ""
  {
  }

  lemma {:induction false} PlaceSumSnoc(s: string, c: char)
    requires AllDigits(s) && Digit(c)
    ensures AllDigits(s + [c]) && PlaceSum(s + [c]) == 10 * PlaceSum(s) + (c as int - '0' as int)
    decreases |s|
  {
    var all := s + [c];
    if s == "" {
      assert all == [c] && all[1..] == "";
      assert Pow10(0) == 1 && PlaceSum("") == 0;
    } else {
      assert all[1..] == s[1..] + [c];
      PlaceSumSnoc(s[1..], c);
      Tenfold(s[0] as int - '0' as int, Pow10(|s| - 1));
    }
  }

  lemma Tenfold(d: int, p: int)
    ensures d * (10 * p) == 10 * (d * p)
  {
  }

  /** Reading digits gives the sum of their places. */
  lemma {:induction false} ValueIsPlaceSum(digits: string)
    requires AllDigits(digits)
    ensures Value(digits) == PlaceSum(digits)
  {
    if digits != "" {
      var front, last := digits[..|digits| - 1], digits[|digits| - 1];
      ValueIsPlaceSum(front);
      PlaceSumSnoc(front, last);
      assert front + [last] == digits;
    }
  }

  /** What is written for a number is its numeral, so it reads back as that number. */
  lemma {:induction false} DigitsReadBack(n: nat)
    ensures Numeral(Digits(n), n) && Value(Digits(n)) == n
    ensures n > 0 ==> Digits(n)[0] != '0'
  {
    var last := "0123456789"[n % 10];
    DigitIs(n % 10);
    assert Digits(n) == (if n < 10 then "" else Digits(n / 10)) + [last];
    if n < 10 {
      PlaceSumSnoc("", last);
    } else {
      DigitsReadBack(n / 10);
      PlaceSumSnoc(Digits(n / 10), last);
    }
    ValueIsPlaceSum(Digits(n));
    hide Digits, PlaceSum, Value;
  }

  lemma DigitIs(d: nat)
    requires d < 10
    ensures Digit("0123456789"[d]) && "0123456789"[d] as int - '0' as int == d
  {
    assert "0123456789" == ['0', '1', '2', '3', '4', '5', '6', '7', '8', '9'];
  }
}
