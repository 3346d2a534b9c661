/** Amounts of money in rupees as exact reals, and decimal rounding with ties to the even neighbour. */
module Money {

  ghost predicate IsNearestEven(x: real, n: int) {
    && -0.5 <= x - n as real <= 0.5
    && (x - n as real == 0.5 || x - n as real == -0.5 ==> n % 2 == 0)
  }

  /** The integer nearest to x; a tie goes to the even one. */
  ghost function RoundHalfEven(x: real): int {
    assert IsNearestEven(x, x.Floor) || IsNearestEven(x, x.Floor + 1);
    var n :| IsNearestEven(x, n);
    n
  }

  ghost function Round2(x: real): real {
    RoundHalfEven(x * 100.0) as real / 100.0
  }

  ghost function Round4(x: real): real {
    RoundHalfEven(x * 10000.0) as real / 10000.0
  }

  method ComputeRoundHalfEven(x: real) returns (n: int)
    ensures n == RoundHalfEven(x)
  {
    n := x.Floor;
    var d := x - n as real;
    if d > 0.5 || (d == 0.5 && n % 2 != 0) {
      n := n + 1;
    }
    NearestEvenIsUnique(x, n);
  }

  method ComputeRound2(x: real) returns (r: real)
    ensures r == Round2(x)
  {
    var n := ComputeRoundHalfEven(x * 100.0);
    r := n as real / 100.0;
  }

  method ComputeRound4(x: real) returns (r: real)
    ensures r == Round4(x)
  {
    var n := ComputeRoundHalfEven(x * 10000.0);
    r := n as real / 10000.0;
  }

  /** x is a whole number of paise. */
  ghost predicate WholePaise(x: real) {
    exists n: int :: IsPaise(x, n)
  }

  ghost predicate IsPaise(x: real, n: int) {
    x * 100.0 == n as real
  }

  lemma NearestEvenIsUnique(x: real, n: int)
    requires IsNearestEven(x, n)
    ensures n == RoundHalfEven(x)
  {
    var m := RoundHalfEven(x);
    assert IsNearestEven(x, m);
    assert m - 1 <= n <= m + 1;
  }

  lemma RoundHalfEvenMonotone(x: real, y: real)
    requires x <= y
    ensures RoundHalfEven(x) <= RoundHalfEven(y)
  {
    var m, n := RoundHalfEven(x), RoundHalfEven(y);
    assert m <= n + 1;
  }

  lemma Round2Monotone(x: real, y: real)
    requires x <= y
    ensures Round2(x) <= Round2(y)
  {
    RoundHalfEvenMonotone(x * 100.0, y * 100.0);
  }

  lemma Round4Monotone(x: real, y: real)
    requires x <= y
    ensures Round4(x) <= Round4(y)
  {
    RoundHalfEvenMonotone(x * 10000.0, y * 10000.0);
  }

  /** Rounding to paise changes nothing exactly when there is nothing to round. */
  lemma Round2FixedIffWholePaise(x: real)
    ensures Round2(x) == x <==> WholePaise(x)
  {
    if n: int :| IsPaise(x, n) {
      NearestEvenIsUnique(x * 100.0, n);
    }
    if Round2(x) == x {
      assert IsPaise(x, RoundHalfEven(x * 100.0));
    }
  }

  lemma Round2IsWholePaise(x: real)
    ensures WholePaise(Round2(x))
    ensures Round2(Round2(x)) == Round2(x)
  {
    assert IsPaise(Round2(x), RoundHalfEven(x * 100.0));
    Round2FixedIffWholePaise(Round2(x));
  }

  lemma WholePaiseSum(x: real, y: real)
    requires WholePaise(x) && WholePaise(y)
    ensures WholePaise(x + y) && WholePaise(x - y)
  {
    var m: int :| IsPaise(x, m);
    var n: int :| IsPaise(y, n);
    assert IsPaise(x + y, m + n);
    assert IsPaise(x - y, m - n);
  }

  /** What `units` contracts are worth at `price` each. Kept as a sum so that proofs stay linear. */
  function Value(price: real, units: nat): real {
    if units == 0 then 0.0 else Value(price, units - 1) + price
  }

  lemma {:induction false} ValueIsProduct(price: real, units: nat)
    ensures Value(price, units) == price * units as real
  {
    if units > 0 {
      ValueIsProduct(price, units - 1);
      assert price * units as real == price * (units - 1) as real + price;
    }
  }

  method ComputeValue(price: real, units: nat) returns (v: real)
    ensures v == Value(price, units)
  {
    ValueIsProduct(price, units);
    v := price * units as real;
  }

  lemma {:induction false} ValueAdds(p: real, q: real, units: nat)
    ensures Value(p + q, units) == Value(p, units) + Value(q, units)
    ensures Value(p - q, units) == Value(p, units) - Value(q, units)
  {
    if units > 0 {
      ValueAdds(p, q, units - 1);
    }
  }

  lemma {:induction false} ValueMonotone(p: real, q: real, units: nat)
    requires p <= q
    ensures Value(p, units) <= Value(q, units)
    ensures 0.0 <= p ==> 0.0 <= Value(p, units)
  {
    if units > 0 {
      ValueMonotone(p, q, units - 1);
    }
  }

  lemma {:induction false} ValueOfPaisa(units: nat)
    ensures Value(0.01, units) == units as real * 0.01
  {
    if units > 0 {
      ValueOfPaisa(units - 1);
    }
  }

  /** Whole paise per unit stay whole paise for any number of units. */
  lemma {:induction false} ValueIsWholePaise(price: real, units: nat)
    requires WholePaise(price)
    ensures WholePaise(Value(price, units))
  {
    if units == 0 {
      assert IsPaise(Value(price, units), 0);
    } else {
      ValueIsWholePaise(price, units - 1);
      WholePaiseSum(Value(price, units - 1), price);
    }
  }
}
