/** All-in charges of an option round trip: two buys followed by two sells. */
module TransactionCosts {
  import opened Money

  const BROKERAGE_PER_ORDER := 20.0
  const EXCHANGE_RATE := 0.0003552
  const STT_SELL_RATE := 0.0015
  const SEBI_RATE := 0.000001
  const STAMP_BUY_RATE := 0.00003
  const GST_RATE := 0.18
  const ROUND_TRIP_ORDERS := 4
  const PAISA := 0.01

  datatype CostBreakdown = CostBreakdown(
    brokerage: real, exchangeCharge: real, stt: real,
    sebiFee: real, stampDuty: real, gst: real)
  {
    ghost function Total(): real {
      Round2(RawSum(this))
    }
  }

  datatype CostResult = Costs(breakdown: CostBreakdown) | NegativePrice | NegativeOrderCount

  const NO_COSTS := CostBreakdown(0.0, 0.0, 0.0, 0.0, 0.0, 0.0)

  ghost function RoundTripCosts(
    entryCe: real, entryPe: real, exitCe: real, exitPe: real,
    lots: int, lotSize: int, orders: int := ROUND_TRIP_ORDERS): CostResult
  {
    if lots <= 0 || lotSize <= 0 then Costs(NO_COSTS)
    else if entryCe < 0.0 || entryPe < 0.0 || exitCe < 0.0 || exitPe < 0.0 then NegativePrice
    else if orders < 0 then NegativeOrderCount
    else
      var units: nat := lots * lotSize;
      Costs(Charges(Value(entryCe + entryPe, units), Value(exitCe + exitPe, units), orders))
  }

  ghost function Charges(buyTurnover: real, sellTurnover: real, orders: nat): CostBreakdown {
    var turnover := buyTurnover + sellTurnover;
    var brokerage := BROKERAGE_PER_ORDER * orders as real;
    var exchange := turnover * EXCHANGE_RATE;
    var sebi := turnover * SEBI_RATE;
    CostBreakdown(
      Round2(brokerage),
      Round4(exchange),
      Round4(sellTurnover * STT_SELL_RATE),
      Round4(sebi),
      Round4(buyTurnover * STAMP_BUY_RATE),
      Round4((brokerage + exchange + sebi) * GST_RATE))
  }

  /** The charges depend on the summed premiums and the units only. */
  ghost function CostsOfPremiums(bought: real, sold: real, units: nat): real {
    Charges(Value(bought, units), Value(sold, units), ROUND_TRIP_ORDERS).Total()
  }

  /** Total charges as a trade's P&L sees them. */
  ghost function TotalCosts(entryCe: real, entryPe: real, exitCe: real, exitPe: real, lots: int, lotSize: int): real {
    if lots <= 0 || lotSize <= 0 then 0.0
    else CostsOfPremiums(entryCe + entryPe, exitCe + exitPe, lots * lotSize)
  }

  /** TotalCosts is the total of the itemised charges whenever the prices are ones the program accepts. */
  lemma TotalCostsIsItemisedTotal(
    entryCe: real, entryPe: real, exitCe: real, exitPe: real, lots: int, lotSize: int)
    requires entryCe >= 0.0 && entryPe >= 0.0 && exitCe >= 0.0 && exitPe >= 0.0
    ensures RoundTripCosts(entryCe, entryPe, exitCe, exitPe, lots, lotSize).Costs?
    ensures TotalCosts(entryCe, entryPe, exitCe, exitPe, lots, lotSize)
         == RoundTripCosts(entryCe, entryPe, exitCe, exitPe, lots, lotSize).breakdown.Total()
  {
    if lots <= 0 || lotSize <= 0 {
      NearestEvenIsUnique(0.0, 0);
    }
  }

  /** Each item is its rate on its own turnover, to half a grid unit. */
  lemma ItemsAreCharged(buy: real, sell: real, orders: nat)
    ensures
      var b := Charges(buy, sell, orders);
      && b.brokerage == 20.0 * orders as real
      && -0.00005 <= b.exchangeCharge - (buy + sell) * 0.0003552 <= 0.00005
      && -0.00005 <= b.stt - sell * 0.0015 <= 0.00005
      && -0.00005 <= b.sebiFee - (buy + sell) * 0.000001 <= 0.00005
      && -0.00005 <= b.stampDuty - buy * 0.00003 <= 0.00005
      && -0.00005 <= b.gst - (20.0 * orders as real + (buy + sell) * 0.0003562) * 0.18 <= 0.00005
  {
    NearestEvenIsUnique(20.0 * orders as real * 100.0, 2000 * orders);
  }

  /** Four orders and their tax cost 94.40; beyond that 0.0450316% of what is bought and 0.1920316% of what is sold. */
  lemma ChargesAreNearlyLinear(buy: real, sell: real)
    ensures
      var exact := 94.4 + buy * 0.000450316 + sell * 0.001920316;
      exact - 0.00525 <= Charges(buy, sell, ROUND_TRIP_ORDERS).Total() <= exact + 0.00525
  {
    NearestEvenIsUnique(8000.0, 8000);
    var turnover := buy + sell;
    Round4IsNear(turnover * EXCHANGE_RATE);
    Round4IsNear(sell * STT_SELL_RATE);
    Round4IsNear(turnover * SEBI_RATE);
    Round4IsNear(buy * STAMP_BUY_RATE);
    Round4IsNear((80.0 + turnover * EXCHANGE_RATE + turnover * SEBI_RATE) * GST_RATE);
  }

  /** The charges of a round trip, by the premiums and the units. */
  lemma CostsAreNearlyLinear(bought: real, sold: real, units: nat)
    ensures
      var exact := 94.4 + Value(bought, units) * 0.000450316 + Value(sold, units) * 0.001920316;
      exact - 0.00525 <= CostsOfPremiums(bought, sold, units) <= exact + 0.00525
  {
    ChargesAreNearlyLinear(Value(bought, units), Value(sold, units));
  }

  lemma Round4IsNear(x: real)
    ensures x - 0.00005 <= Round4(x) <= x + 0.00005
  {
  }

  lemma TotalIsWholePaise(b: CostBreakdown)
    ensures WholePaise(b.Total())
  {
    Round2IsWholePaise(RawSum(b));
  }

  /** Rounding two values to 4 decimals moves their distance by at most one unit of the grid. */
  lemma Round4Gap(x: real, y: real)
    ensures Round4(y) - Round4(x) <= y - x + 0.0001
  {
  }

  /** Four components each rounded to 4 decimals drift by at most four grid units in all. */
  lemma FourRoundingsGap(a: real, a': real, b: real, b': real, c: real, c': real, e: real, e': real)
    ensures Round4(a') + Round4(b') + Round4(c') + Round4(e')
         <= Round4(a) + Round4(b) + Round4(c) + Round4(e) + (a' - a) + (b' - b) + (c' - c) + (e' - e) + 0.0004
  {
    Round4Gap(a, a');
    Round4Gap(b, b');
    Round4Gap(c, c');
    Round4Gap(e, e');
  }

  /** What d extra paise of sale can add to the charges at most, in paise. */
  function CostStep(d: nat): nat {
    if d <= 2 then 1 else d - 1
  }

  lemma TotalGap(a: CostBreakdown, b: CostBreakdown, d: nat)
    requires d >= 1
    requires RawSum(b) <= RawSum(a) + d as real * 0.00003 + 0.0004
    ensures b.Total() <= a.Total() + CostStep(d) as real * PAISA
  {
    RoundedGap(RawSum(a) * 100.0, RawSum(b) * 100.0, CostStep(d));
  }

  /** Selling for d paise more raises the rounded total by at most CostStep(d) paise, d >= 1. */
  lemma ChargesGrowSlowly(buy: real, sell: real, d: nat, orders: nat)
    requires d >= 1
    ensures Charges(buy, sell + d as real * PAISA, orders).Total()
         <= Charges(buy, sell, orders).Total() + CostStep(d) as real * PAISA
  {
    RawSumGrowsSlowly(buy, sell, d, orders);
    TotalGap(Charges(buy, sell, orders), Charges(buy, sell + d as real * PAISA, orders), d);
  }

  ghost function RawSum(b: CostBreakdown): real {
    b.brokerage + b.exchangeCharge + b.stt + b.sebiFee + b.stampDuty + b.gst
  }

  lemma RawSumGrowsSlowly(buy: real, sell: real, d: nat, orders: nat)
    ensures RawSum(Charges(buy, sell + d as real * PAISA, orders))
         <= RawSum(Charges(buy, sell, orders)) + d as real * 0.00003 + 0.0004
  {
    var more := sell + d as real * PAISA;
    var brokerage := BROKERAGE_PER_ORDER * orders as real;
    FourRoundingsGap(
      (buy + sell) * EXCHANGE_RATE, (buy + more) * EXCHANGE_RATE,
      sell * STT_SELL_RATE, more * STT_SELL_RATE,
      (buy + sell) * SEBI_RATE, (buy + more) * SEBI_RATE,
      (brokerage + (buy + sell) * EXCHANGE_RATE + (buy + sell) * SEBI_RATE) * GST_RATE,
      (brokerage + (buy + more) * EXCHANGE_RATE + (buy + more) * SEBI_RATE) * GST_RATE);
  }

  /** Two numbers less than d apart round to integers at most d apart. */
  lemma RoundedGap(x: real, y: real, d: nat)
    requires y - x < d as real
    ensures RoundHalfEven(y) <= RoundHalfEven(x) + d
  {
    var m, n := RoundHalfEven(x), RoundHalfEven(y);
    assert n as real <= y + 0.5 && m as real >= x - 0.5;
    assert n - m < d + 1;
  }

  /** One paisa more on the summed exit price raises the charges by less than the sale brings, two units up. */
  lemma TotalCostsGrowSlowly(bought: real, sold: real, sold': real, units: nat)
    requires units >= 1 && sold' == sold + PAISA
    ensures CostsOfPremiums(bought, sold', units)
         <= CostsOfPremiums(bought, sold, units) + CostStep(units) as real * PAISA
  {
    ValueAdds(sold, PAISA, units);
    ValueOfPaisa(units);
    ChargesGrowSlowly(Value(bought, units), Value(sold, units), units, ROUND_TRIP_ORDERS);
  }

  method ComputeTotalCosts(entryCe: real, entryPe: real, exitCe: real, exitPe: real, lots: int, lotSize: int)
    returns (t: real)
    ensures t == TotalCosts(entryCe, entryPe, exitCe, exitPe, lots, lotSize)
  {
    if lots <= 0 || lotSize <= 0 {
      return 0.0;
    }
    var buy := ComputeValue(entryCe + entryPe, lots * lotSize);
    var sell := ComputeValue(exitCe + exitPe, lots * lotSize);
    var b := ComputeCharges(buy, sell, ROUND_TRIP_ORDERS);
    t := ComputeTotal(b);
  }

  method ComputeTotal(b: CostBreakdown) returns (t: real)
    ensures t == b.Total()
  {
    t := ComputeRound2(b.brokerage + b.exchangeCharge + b.stt + b.sebiFee + b.stampDuty + b.gst);
  }

  method ComputeCharges(buyTurnover: real, sellTurnover: real, orders: nat) returns (b: CostBreakdown)
    ensures b == Charges(buyTurnover, sellTurnover, orders)
  {
    var turnover := buyTurnover + sellTurnover;
    var brokerage := BROKERAGE_PER_ORDER * orders as real;
    var exchange, sebi := turnover * EXCHANGE_RATE, turnover * SEBI_RATE;
    var b0 := ComputeRound2(brokerage);
    var b1 := ComputeRound4(exchange);
    var b2 := ComputeRound4(sellTurnover * STT_SELL_RATE);
    var b3 := ComputeRound4(sebi);
    var b4 := ComputeRound4(buyTurnover * STAMP_BUY_RATE);
    var b5 := ComputeRound4((brokerage + exchange + sebi) * GST_RATE);
    b := CostBreakdown(b0, b1, b2, b3, b4, b5);
  }
}
