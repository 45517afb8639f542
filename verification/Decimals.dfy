/** Decimal text of money, prices and quantities: what is printed is read back exactly. */
module Decimals {
  import opened Outcomes
  import opened Money

  const MAX_PRICE: int := 1_000_000_000_000
  const MAX_QUANTITY: int := 1_000_000_000

  predicate IsDigit(c: char) {
    '0' <= c <= '9'
  }

  predicate AllDigits(s: string) {
    forall k :: 0 <= k < |s| ==> IsDigit(s[k])
  }

  function DigitValue(c: char): (d: nat)
    requires IsDigit(c)
    ensures d < 10
  {
    c as int - '0' as int
  }

  function DigitOf(d: nat): (c: char)
    requires d < 10
    ensures IsDigit(c) && DigitValue(c) == d
  {
    ('0' as int + d) as char
  }

  function DigitsValue(s: string): nat
    requires AllDigits(s)
  {
    if s == "" then 0 else 10 * DigitsValue(s[..|s| - 1]) + DigitValue(s[|s| - 1])
  }

  function Digits(n: nat): string {
    if n < 10 then [DigitOf(n)] else Digits(n / 10) + [DigitOf(n % 10)]
  }

  function Zeros(n: nat): string {
    seq(n, _ => '0')
  }

  /** The digits of a number, with zeros before them up to a width. */
  function Padded(n: nat, width: nat): string {
    var digits := Digits(n);
    if |digits| >= width then digits else Zeros(width - |digits|) + digits
  }

  function PointIndex(s: string): (p: nat)
    ensures p <= |s|
    ensures p < |s| ==> s[p] == '.'
    ensures forall k :: 0 <= k < p ==> s[k] != '.'
  {
    if s == "" || s[0] == '.' then 0 else 1 + PointIndex(s[1..])
  }

  function Whole(s: string): string {
    s[..PointIndex(s)]
  }

  function Fraction(s: string): string {
    if PointIndex(s) == |s| then "" else s[PointIndex(s) + 1..]
  }

  /** Digits, with at most one point between digits. */
  predicate IsDecimal(s: string) {
    && Whole(s) != "" && AllDigits(Whole(s)) && AllDigits(Fraction(s))
    && (PointIndex(s) < |s| ==> Fraction(s) != "")
  }

  function ParseScaled(s: string, places: nat): Result<int> {
    if !IsDecimal(s) || |Fraction(s)| > places then Err(InvalidInput)
    else
      var n := DigitsValue(Whole(s) + Fraction(s) + Zeros(places - |Fraction(s)|));
      if FitsInt64(n) then Ok(n) else Err(NumericOverflow)
  }

  function ParseMoney(s: string): Result<int> {
    ParseScaled(s, 2)
  }

  function ParsePrice(s: string): Result<int> {
    var v :- ParseScaled(s, 6);
    if v <= 0 || v > MAX_PRICE then Err(InvalidInput) else Ok(v)
  }

  function ParseQuantity(s: string): Result<int> {
    var v :- ParseScaled(s, 0);
    if v <= 0 || v > MAX_QUANTITY then Err(InvalidInput) else Ok(v)
  }

  function MoneyText(m: int): string {
    var n := if m < 0 then -m else m;
    (if m < 0 then "-" else "") + Digits(n / 100) + "." + Padded(n % 100, 2)
  }

  function PriceText(p: nat): string {
    Digits(p / 1_000_000) + "." + Padded(p % 1_000_000, 6)
  }

  function QuantityText(q: nat): string {
    Digits(q)
  }

  // ---------- Digits ----------

  function Pow10(k: nat): nat {
    if k == 0 then 1 else 10 * Pow10(k - 1)
  }

  lemma {:induction false} DigitsRead(n: nat)
    ensures AllDigits(Digits(n)) && Digits(n) != "" && DigitsValue(Digits(n)) == n
  {
    if n >= 10 {
      DigitsRead(n / 10);
      var s := Digits(n);
      assert s[..|s| - 1] == Digits(n / 10);
    }
  }

  lemma {:induction false} DigitsLength(n: nat, width: nat)
    requires width > 0 && n < Pow10(width)
    ensures 0 < |Digits(n)| <= width
  {
    if n >= 10 {
      assert width > 1 by { assert Pow10(1) == 10 * Pow10(0) == 10; }
      DigitsLength(n / 10, width - 1);
    }
  }

  lemma ShiftPlace(value: nat, place: nat)
    ensures value * (10 * place) == 10 * (value * place)
  {
  }

  lemma LastDigit(s: string, c: char)
    requires AllDigits(s) && IsDigit(c)
    ensures AllDigits(s + [c]) && DigitsValue(s + [c]) == 10 * DigitsValue(s) + DigitValue(c)
  {
    assert (s + [c])[..|s|] == s;
  }

  /** One more digit on both sides of the value of a concatenation. */
  lemma ShiftConcat(left: nat, place: nat, right: nat, joined: nat, digit: nat)
    requires joined == left * place + right
    ensures 10 * joined + digit == left * (10 * place) + (10 * right + digit)
  {
    ShiftPlace(left, place);
  }

  lemma {:induction false} ValueOfConcat(a: string, b: string)
    requires AllDigits(a) && AllDigits(b)
    ensures AllDigits(a + b) && DigitsValue(a + b) == DigitsValue(a) * Pow10(|b|) + DigitsValue(b)
  {
    if b == "" {
      assert a + b == a;
    } else {
      var init, last := b[..|b| - 1], b[|b| - 1];
      ValueOfConcat(a, init);
      assert a + b == (a + init) + [last] && b == init + [last];
      LastDigit(a + init, last);
      LastDigit(init, last);
      hide DigitsValue;
      ShiftConcat(DigitsValue(a), Pow10(|init|), DigitsValue(init), DigitsValue(a + init), DigitValue(last));
    }
  }

  lemma {:induction false} ZerosAreZero(n: nat)
    ensures AllDigits(Zeros(n)) && DigitsValue(Zeros(n)) == 0
  {
    if n > 0 {
      ZerosAreZero(n - 1);
      assert Zeros(n)[..n - 1] == Zeros(n - 1);
    }
  }

  lemma PaddedRead(n: nat, width: nat)
    requires width > 0 && n < Pow10(width)
    ensures |Padded(n, width)| == width && AllDigits(Padded(n, width)) && DigitsValue(Padded(n, width)) == n
  {
    hide DigitsValue;
    hide Digits;
    hide Pow10;
    DigitsRead(n);
    DigitsLength(n, width);
    if |Digits(n)| < width {
      ZerosAreZero(width - |Digits(n)|);
      ValueOfConcat(Zeros(width - |Digits(n)|), Digits(n));
    }
  }

  // ---------- What a text means ----------

  /** The value read is the whole part and the fraction, the fraction scaled to the places. */
  lemma ParsedValue(s: string, places: nat)
    requires ParseScaled(s, places).Ok?
    ensures ParseScaled(s, places).value
         == DigitsValue(Whole(s)) * Pow10(places) + DigitsValue(Fraction(s)) * Pow10(places - |Fraction(s)|)
  {
    hide DigitsValue;
    hide Pow10;
    hide Whole;
    hide Fraction;
    var zeros := Zeros(places - |Fraction(s)|);
    ZerosAreZero(|zeros|);
    ValueOfConcat(Fraction(s), zeros);
    ValueOfConcat(Whole(s), Fraction(s) + zeros);
    assert Whole(s) + Fraction(s) + zeros == Whole(s) + (Fraction(s) + zeros);
    hide Zeros;
  }

  /** A whole part, a point and a fraction with every place given are read back as they were written. */
  lemma ReadsPointed(whole: nat, fraction: nat, places: nat)
    requires places > 0 && fraction < Pow10(places)
    ensures var s := Digits(whole) + "." + Padded(fraction, places);
      var n := whole * Pow10(places) + fraction;
      ParseScaled(s, places) == if FitsInt64(n) then Ok(n) else Err(NumericOverflow)
  {
    hide DigitsValue;
    hide Digits;
    hide Padded;
    hide Pow10;
    DigitsRead(whole);
    PaddedRead(fraction, places);
    var w, f := Digits(whole), Padded(fraction, places);
    var s := w + "." + f;
    PointAfterDigits(w, f);
    assert Whole(s) == w && Fraction(s) == f;
    assert w + f + Zeros(0) == w + f;
    ValueOfConcat(w, f);
  }

  lemma {:induction false} PointAfterDigits(whole: string, fraction: string)
    requires AllDigits(whole)
    ensures PointIndex(whole + "." + fraction) == |whole|
  {
    var s := whole + "." + fraction;
    if whole == "" {
      assert s[0] == '.';
    } else {
      PointAfterDigits(whole[1..], fraction);
      assert s[1..] == whole[1..] + "." + fraction;
      assert IsDigit(s[0]);
    }
  }

  // ---------- Round trips ----------

  /** Money is read back from its own text exactly when it is not negative; a negative amount is refused. */
  lemma MoneyRoundTrip(m: int)
    requires FitsInt64(m)
    ensures m >= 0 ==> ParseMoney(MoneyText(m)) == Ok(m)
    ensures m < 0 ==> ParseMoney(MoneyText(m)) == Err(InvalidInput)
  {
    var n := if m < 0 then -m else m;
    assert Pow10(2) == 100 by { assert Pow10(1) == 10 * Pow10(0); }
    if m >= 0 {
      ReadsPointed(n / 100, n % 100, 2);
      assert "" + Digits(n / 100) + "." + Padded(n % 100, 2) == Digits(n / 100) + "." + Padded(n % 100, 2);
    } else {
      var s := MoneyText(m);
      assert s[0] == '-' && PointIndex(s) > 0;
      assert !IsDigit(Whole(s)[0]);
    }
  }

  lemma MillionIsSixPlaces()
    ensures Pow10(6) == 1_000_000
  {
    assert Pow10(1) == 10 && Pow10(2) == 100 && Pow10(3) == 1000;
    assert Pow10(4) == 10_000 && Pow10(5) == 100_000;
  }

  /** A price in range is read back from its own text, and one out of range is refused. */
  lemma PriceRoundTrip(p: nat)
    requires FitsInt64(p)
    ensures ParsePrice(PriceText(p)) == if 0 < p <= MAX_PRICE then Ok(p) else Err(InvalidInput)
  {
    MillionIsSixPlaces();
    ReadsPointed(p / 1_000_000, p % 1_000_000, 6);
  }

  lemma NoPointInDigits(s: string)
    requires AllDigits(s)
    ensures PointIndex(s) == |s|
  {
  }

  lemma QuantityRoundTrip(q: nat)
    requires FitsInt64(q)
    ensures ParseQuantity(QuantityText(q)) == if 0 < q <= MAX_QUANTITY then Ok(q) else Err(InvalidInput)
  {
    DigitsRead(q);
    var s := Digits(q);
    NoPointInDigits(s);
    assert Whole(s) == s && Fraction(s) == "";
    assert s + "" + Zeros(0) == s;
  }
}
