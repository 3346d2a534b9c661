/** How many lots the capital and the unit ceiling allow. */
module PositionSizer {
  import opened Common
  import opened Money

  ghost predicate IsFloor(x: real, n: int) {
    n as real <= x < n as real + 1.0
  }

  ghost function FloorOf(x: real): int {
    assert IsFloor(x, x.Floor);
    var n :| IsFloor(x, n);
    n
  }

  method ComputeFloor(x: real) returns (n: int)
    ensures n == FloorOf(x)
  {
    n := x.Floor;
    assert IsFloor(x, FloorOf(x));
  }

  datatype SizeRules = SizeRules(totalCapital: real, deployment: real, maxUnits: int, defaultLot: int)

  /** The contract size in force: the index's own, or the default when it is not given. */
  function LotSize(given: Option<int>, rules: SizeRules): int {
    if given.Some? && given.value != 0 then given.value else rules.defaultLot
  }

  function Deployable(available: Option<real>, rules: SizeRules): real {
    (if available.Some? then MaxReal(0.0, available.value) else rules.totalCapital) * rules.deployment
  }

  function LotCost(ce: real, pe: real, lotSize: int): real {
    (ce + pe) * lotSize as real
  }

  function Quotient(x: real, y: real): real
    requires y != 0.0
  {
    x / y
  }

  ghost function Lots(ce: real, pe: real, rules: SizeRules, available: Option<real>, given: Option<int>): int {
    var size := LotSize(given, rules);
    if ce <= 0.0 || pe <= 0.0 || size <= 0 || LotCost(ce, pe, size) <= 0.0 then 0
    else
      Min(FloorOf(Quotient(Deployable(available, rules), LotCost(ce, pe, size))),
          FloorOf(Quotient(rules.maxUnits as real, size as real)))
  }

  method CalculateLots(ce: real, pe: real, rules: SizeRules, available: Option<real>, given: Option<int>)
    returns (lots: int)
    ensures lots == Lots(ce, pe, rules, available, given)
  {
    if ce <= 0.0 || pe <= 0.0 {
      return 0;
    }
    var size := LotSize(given, rules);
    if size <= 0 {
      return 0;
    }
    if LotCost(ce, pe, size) <= 0.0 {
      return 0;
    }
    var capitalLots := ComputeFloor(Quotient(Deployable(available, rules), LotCost(ce, pe, size)));
    var ceilingLots := ComputeFloor(Quotient(rules.maxUnits as real, size as real));
    lots := Min(capitalLots, ceilingLots);
  }

  /** A whole number fits under a quotient exactly when that many divisors fit under the dividend. */
  lemma FloorOfQuotient(x: real, y: real, n: nat)
    requires y > 0.0
    ensures n <= FloorOf(Quotient(x, y)) <==> Value(y, n) <= x
  {
    var q, f := x / y, FloorOf(Quotient(x, y));
    assert IsFloor(q, f);
    assert q * y == x;
    ValueIsProduct(y, n);
    if n <= f {
      assert n as real <= q;
      ProductMonotone(n as real, q, y);
    } else {
      assert q < n as real;
      ProductStrict(q, n as real, y);
    }
  }

  lemma ProductMonotone(a: real, b: real, y: real)
    requires y > 0.0 && a <= b
    ensures a * y <= b * y
  {
  }

  lemma ProductStrict(a: real, b: real, y: real)
    requires y > 0.0 && a < b
    ensures a * y < b * y
  {
  }

  /** The size is the largest number of lots that both the deployable capital and the unit ceiling cover. */
  lemma LotsAreMaximal(ce: real, pe: real, rules: SizeRules, available: Option<real>, given: Option<int>, n: nat)
    requires ce > 0.0 && pe > 0.0 && LotSize(given, rules) > 0
    ensures
      var size := LotSize(given, rules);
      n <= Lots(ce, pe, rules, available, given) <==>
        && Value(LotCost(ce, pe, size), n) <= Deployable(available, rules)
        && Value(size as real, n) <= rules.maxUnits as real
  {
    var size := LotSize(given, rules);
    ProductStrict(0.0, size as real, ce + pe);
    assert LotCost(ce, pe, size) > 0.0;
    FloorOfQuotient(Deployable(available, rules), LotCost(ce, pe, size), n);
    FloorOfQuotient(rules.maxUnits as real, size as real, n);
  }

  lemma ProductOfReals(a: int, b: int)
    ensures (a * b) as real == b as real * a as real
  {
  }

  /** Lots cost what their units cost. */
  lemma CostOfLots(ce: real, pe: real, size: nat, n: nat)
    ensures Value(LotCost(ce, pe, size), n) == Value(ce + pe, n * size)
  {
    ProductOfReals(n, size);
    ValueIsProduct(LotCost(ce, pe, size), n);
    ValueIsProduct(ce + pe, n * size);
    RegroupProduct(ce + pe, size as real, n as real);
  }

  lemma RegroupProduct(x: real, y: real, z: real)
    ensures x * y * z == x * (y * z)
  {
  }

  lemma UnitsOfLots(size: nat, n: nat, limit: int)
    ensures Value(size as real, n) <= limit as real <==> n * size <= limit
  {
    ValueIsProduct(size as real, n);
    ProductOfReals(n, size);
  }

  lemma LotsFitUnits(
    ce: real, pe: real, rules: SizeRules, available: Option<real>, given: Option<int>, n: nat, size: nat, units: nat)
    requires ce > 0.0 && pe > 0.0 && size == LotSize(given, rules) > 0 && units == n * size
    ensures n <= Lots(ce, pe, rules, available, given) <==>
      Value(ce + pe, units) <= Deployable(available, rules) && units <= rules.maxUnits
  {
    LotsAreMaximal(ce, pe, rules, available, given, n);
    UnitsOfLots(size, n, rules.maxUnits);
    CostOfLots(ce, pe, size, n);
  }

  /** In rupees and units: that many lots cost no more than the share of the capital, and are within the ceiling. */
  lemma LotsFit(
    ce: real, pe: real, rules: SizeRules, available: Option<real>, given: Option<int>, n: nat, size: nat, units: nat)
    requires ce > 0.0 && pe > 0.0 && units == n * size
    requires size > 0 && size == if given == None || given == Some(0) then rules.defaultLot else given.value
    ensures available == None ==>
      (n <= Lots(ce, pe, rules, available, given) <==>
        Value(ce + pe, units) <= rules.totalCapital * rules.deployment && units <= rules.maxUnits)
    ensures available.Some? && available.value >= 0.0 ==>
      (n <= Lots(ce, pe, rules, available, given) <==>
        Value(ce + pe, units) <= available.value * rules.deployment && units <= rules.maxUnits)
    ensures available.Some? && available.value <= 0.0 ==> Lots(ce, pe, rules, available, given) <= 0
  {
    LotsFitUnits(ce, pe, rules, available, given, n, size, units);
    DeployableIsShare(available, rules);
    if Lots(ce, pe, rules, available, given) > 0 {
      LotsNeedPrices(ce, pe, rules, available, given);
    }
  }

  lemma DeployableIsShare(available: Option<real>, rules: SizeRules)
    ensures available == None ==> Deployable(available, rules) == rules.totalCapital * rules.deployment
    ensures available.Some? && available.value >= 0.0 ==>
      Deployable(available, rules) == available.value * rules.deployment
    ensures available.Some? && available.value <= 0.0 ==> Deployable(available, rules) == 0.0
  {
  }

  /** No prices, no contract or no capital: no lots. */
  lemma LotsNeedPrices(ce: real, pe: real, rules: SizeRules, available: Option<real>, given: Option<int>)
    requires Lots(ce, pe, rules, available, given) > 0
    ensures ce > 0.0 && pe > 0.0 && LotSize(given, rules) > 0
    ensures Deployable(available, rules) > 0.0 && rules.maxUnits > 0
  {
    var size := LotSize(given, rules);
    LotsAreMaximal(ce, pe, rules, available, given, 1);
    ValueIsProduct(LotCost(ce, pe, size), 1);
    ValueIsProduct(size as real, 1);
  }
}
