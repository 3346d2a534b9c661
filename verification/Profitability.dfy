/** What a pair is projected to earn before it is bought, and what the trade then earns at those prices. */
module Profitability {
  import opened Common
  import opened Money
  import opened Trading
  import opened EntrySignal
  import opened PositionSizer
  import opened PairRanker
  import TransactionCosts

  /** Buying at the asks, selling at the projected bids; at most `freeze` units go into one order. */
  datatype Input = Input(
    ceAsk: real, peAsk: real, ceBid: real, peBid: real, lots: int, lotSize: int, freeze: int, slippage: real)

  datatype Outcome = Projected(slices: nat, projection: Projection) | BadQuantity | BadPrice

  /** How many orders one leg is cut into. */
  function Slices(units: nat, freeze: nat): nat
    requires freeze > 0
  {
    (units + freeze - 1) / freeze
  }

  ghost function Charged(v: Input, units: nat, orders: nat): real {
    TransactionCosts.Charges(Value(v.ceAsk + v.peAsk, units), Value(v.ceBid + v.peBid, units), orders).Total()
  }

  /** Slippage on each unit of four fills. */
  function Slipped(v: Input, units: nat): real {
    Value(MaxReal(0.0, v.slippage), units * 4)
  }

  ghost function NetOf(v: Input, units: nat, slices: nat): real {
    Less(Gained(v, units), Charged(v, units, slices * 4), Slipped(v, units))
  }

  function Gained(v: Input, units: nat): real {
    Value(v.ceBid + v.peBid - v.ceAsk - v.peAsk, units)
  }

  function Less(gross: real, costs: real, slippage: real): real {
    gross - costs - slippage
  }

  function Percent(part: real, whole: real): real {
    if whole > 0.0 then part / whole * 100.0 else 0.0
  }

  ghost function Project(v: Input): Outcome {
    if v.lots <= 0 || v.lotSize <= 0 || v.freeze <= 0 then BadQuantity
    else if v.ceAsk <= 0.0 || v.peAsk <= 0.0 || v.ceBid <= 0.0 || v.peBid <= 0.0 then BadPrice
    else
      var units := UnitsOf(v.lots, v.lotSize);
      var slices := Slices(units, v.freeze);
      var net := NetOf(v, units, slices);
      Projected(slices, Projection(net, Percent(net, Value(v.ceAsk + v.peAsk, units))))
  }

  method Calculate(v: Input) returns (r: Outcome)
    ensures r == Project(v)
  {
    if v.lots <= 0 || v.lotSize <= 0 || v.freeze <= 0 {
      return BadQuantity;
    }
    if v.ceAsk <= 0.0 || v.peAsk <= 0.0 || v.ceBid <= 0.0 || v.peBid <= 0.0 {
      return BadPrice;
    }
    var units := UnitsOf(v.lots, v.lotSize);
    var slices := Slices(units, v.freeze);
    var deployed := ComputeValue(v.ceAsk + v.peAsk, units);
    var net := ComputeNet(v, units, slices);
    r := Projected(slices, Projection(net, Percent(net, deployed)));
  }

  method ComputeNet(v: Input, units: nat, slices: nat) returns (net: real)
    ensures net == NetOf(v, units, slices)
  {
    var gross := ComputeGained(v, units);
    var costs := ComputeCharged(v, units, slices * 4);
    var slippage := ComputeValue(MaxReal(0.0, v.slippage), units * 4);
    net := Less(gross, costs, slippage);
  }

  method ComputeGained(v: Input, units: nat) returns (gross: real)
    ensures gross == Gained(v, units)
  {
    gross := ComputeValue(v.ceBid + v.peBid - v.ceAsk - v.peAsk, units);
  }

  method ComputeCharged(v: Input, units: nat, orders: nat) returns (costs: real)
    ensures costs == Charged(v, units, orders)
  {
    var bought := ComputeValue(v.ceAsk + v.peAsk, units);
    var sold := ComputeValue(v.ceBid + v.peBid, units);
    var charges := TransactionCosts.ComputeCharges(bought, sold, orders);
    costs := TransactionCosts.ComputeTotal(charges);
  }

  /** `p` hundredths of the whole make the part. */
  ghost predicate IsPercent(p: real, part: real, whole: real) {
    whole > 0.0 && p * whole == part * 100.0
  }

  lemma PercentTimesWhole(part: real, whole: real)
    requires whole > 0.0
    ensures IsPercent(Percent(part, whole), part, whole)
  {
    var q := part / whole;
    assert q * whole == part;
    assert q * 100.0 * whole == q * whole * 100.0;
  }

  /** A projection exists for positive sizes and prices. */
  lemma ProjectedIff(v: Input)
    ensures Project(v).Projected? <==>
      && v.lots > 0 && v.lotSize > 0 && v.freeze > 0
      && v.ceAsk > 0.0 && v.peAsk > 0.0 && v.ceBid > 0.0 && v.peBid > 0.0
  {
  }

  /** Its return is what the net comes to of the price paid for all units at both asks. */
  lemma ReturnIsShare(v: Input)
    requires Project(v).Projected?
    ensures
      var paid, p := Value(v.ceAsk + v.peAsk, UnitsOf(v.lots, v.lotSize)), Project(v).projection;
      IsPercent(p.returnPct, p.net, paid)
  {
    var paid, p := Value(v.ceAsk + v.peAsk, UnitsOf(v.lots, v.lotSize)), Project(v).projection;
    PositiveOutlay(v.ceAsk + v.peAsk, v.lots, v.lotSize);
    assert p.returnPct == Percent(p.net, paid);
    PercentTimesWhole(p.net, paid);
  }

  lemma PositiveOutlay(price: real, lots: nat, lotSize: nat)
    requires price > 0.0 && lots > 0 && lotSize > 0
    ensures Value(price, UnitsOf(lots, lotSize)) > 0.0
  {
    var units := UnitsOf(lots, lotSize);
    assert units >= 1;
    ValueMonotone(0.0, price, units - 1);
  }

  /** The slices hold all units, and one slice fewer would not. */
  lemma SlicesIff(units: nat, freeze: nat, n: nat)
    requires freeze > 0
    ensures n >= Slices(units, freeze) <==> n * freeze >= units
  {
    var s, m := Slices(units, freeze), units + freeze - 1;
    assert m == s * freeze + m % freeze;
    var d := n - s;
    assert d * freeze == n * freeze - s * freeze;
    if d >= 0 {
      ProductKeepsSign(d, freeze);
    } else {
      ProductKeepsSign(-1 - d, freeze);
      assert (-1 - d) * freeze + freeze == -(d * freeze);
    }
  }

  lemma ProductKeepsSign(d: int, freeze: nat)
    requires d >= 0
    ensures d * freeze >= 0
  {
  }

  /** Each further slice of both legs costs four orders and their tax: 94.40, to two paise. */
  lemma SlicesCost(v: Input, units: nat, slices: nat)
    ensures
      var more := Charged(v, units, slices * 4) - Charged(v, units, 4);
      -0.02 <= more - 94.4 * (slices as real - 1.0) <= 0.02
  {
    var bought, sold := Value(v.ceAsk + v.peAsk, units), Value(v.ceBid + v.peBid, units);
    TransactionCosts.ItemsAreCharged(bought, sold, slices * 4);
    TransactionCosts.ItemsAreCharged(bought, sold, 4);
    Rounded(TransactionCosts.RawSum(TransactionCosts.Charges(bought, sold, slices * 4)));
    Rounded(TransactionCosts.RawSum(TransactionCosts.Charges(bought, sold, 4)));
  }

  lemma Rounded(x: real)
    ensures -0.005 <= Round2(x) - x <= 0.005
  {
  }

  // The trade that was projected.

  /** Opened at the asks. */
  function TradeOf(v: Input, id: nat, winner: Leg, ceStrike: int, peStrike: int, regime: Regime): TradeView
    requires v.lots >= 0 && v.lotSize >= 0
  {
    Opened(id, winner, ceStrike, peStrike, v.ceAsk, v.peAsk, v.lots, v.lotSize, regime, 0.0, 0.0)
  }

  /** Sold at the projected bids, an unsliced pair nets its projection and the slippage it was spared, to a paisa. */
  lemma ProjectionComesTrue(v: Input, trade: TradeView, reason: ExitReason)
    requires Project(v).Projected? && Project(v).slices == 1
    requires trade == TradeOf(v, trade.id, trade.winner, trade.ceStrike, trade.peStrike, trade.regime)
    ensures
      var net := trade.ExitBoth(v.ceBid, v.peBid, reason).NetPnl();
      -0.01 <= net - (Project(v).projection.net + Slipped(v, trade.Units())) <= 0.01
  {
    var w, units := trade.ExitBoth(v.ceBid, v.peBid, reason), trade.Units();
    ExitBothGross(trade, v.ceBid, v.peBid, reason);
    ValueAdds(v.ceBid - v.ceAsk, v.peBid - v.peAsk, units);
    var gross := Value(v.ceBid + v.peBid - v.ceAsk - v.peAsk, units);
    assert (v.ceBid - v.ceAsk) + (v.peBid - v.peAsk) == v.ceBid + v.peBid - v.ceAsk - v.peAsk;
    CostsOfTrade(v, trade, w, units);
    Rounded(gross);
    Rounded(w.CombinedPnl() - w.Costs());
  }

  lemma CostsOfTrade(v: Input, trade: TradeView, w: TradeView, units: nat)
    requires v.lots > 0 && v.lotSize > 0 && units == trade.Units()
    requires trade == TradeOf(v, trade.id, trade.winner, trade.ceStrike, trade.peStrike, trade.regime)
    requires w == trade.ExitBoth(v.ceBid, v.peBid, w.exitReason.GetOr(TargetHit))
    ensures w.Costs() == Charged(v, units, 4)
  {
  }

  // What the ranker's verdict promises.

  /** The bid a leg is expected to fetch after one more candle at its present pace. */
  function ProjectedBid(q: Quote, price: real, velocity: real, momentum: real): real {
    MaxReal(0.05, q.bid.GetOr(price) * (1.0 + velocity * momentum / 100.0))
  }

  function InputOf(
    c: Candidate, lots: int, ceQuote: Quote, peQuote: Quote, d: Desk, momentum: real, slippage: real): Input
  {
    var ce, pe := Price(ceQuote, d.rules.entry.mode), Price(peQuote, d.rules.entry.mode);
    Input(ce, pe, ProjectedBid(ceQuote, ce, c.ceVelocity, momentum), ProjectedBid(peQuote, pe, c.peVelocity, momentum),
          lots, LotSize(d.lotSize, d.rules.sizing), d.rules.sizing.maxUnits, slippage)
  }

  /** Each leg is bought at its own price and followed from its own bid, or from that price without one, at its own
      velocity; it is never projected below 0.05. */
  lemma InputFollowsLegs(
    c: Candidate, lots: int, ceQuote: Quote, peQuote: Quote, d: Desk, momentum: real, slippage: real)
    requires ceQuote.ask.Some? && peQuote.ask.Some? && d.rules.entry.mode != Backtest
    ensures
      var v := InputOf(c, lots, ceQuote, peQuote, d, momentum, slippage);
      var ce, pe := ceQuote.bid.GetOr(v.ceAsk), peQuote.bid.GetOr(v.peAsk);
      && Some(v.ceAsk) == ceQuote.ask && Some(v.peAsk) == peQuote.ask && v.lots == lots && v.slippage == slippage
      && v.freeze == d.rules.sizing.maxUnits && v.ceBid >= 0.05 && v.peBid >= 0.05
      && (v.ceBid > 0.05 ==> v.ceBid - ce == ce * (c.ceVelocity * momentum / 100.0))
      && (v.peBid > 0.05 ==> v.peBid - pe == pe * (c.peVelocity * momentum / 100.0))
  {
    var v := InputOf(c, lots, ceQuote, peQuote, d, momentum, slippage);
    MoveOfBid(ceQuote.bid.GetOr(v.ceAsk), c.ceVelocity * momentum / 100.0);
    MoveOfBid(peQuote.bid.GetOr(v.peAsk), c.peVelocity * momentum / 100.0);
  }

  lemma MoveOfBid(bid: real, move: real)
    ensures bid * (1.0 + move) - bid == bid * move
  {
  }

  /** The projection of each candidate from its own two quotes. */
  ghost predicate ProjectsFrom(project: Projector, d: Desk, momentum: real, slippage: real) {
    forall c: Candidate, lots: int ::
      var ceQuote, peQuote := QuoteOf(d, c.pair.0, CE), QuoteOf(d, c.pair.1, PE);
      ceQuote.Some? && peQuote.Some? ==>
        var outcome := Project(InputOf(c, lots, ceQuote.value, peQuote.value, d, momentum, slippage));
        outcome.Projected? ==> project(c, lots) == outcome.projection
  }

  /** The size of a position never exceeds what one order may hold. */
  lemma SizedIsOneSlice(ce: real, pe: real, d: Desk, lots: nat)
    requires ce > 0.0 && pe > 0.0 && 0 < lots == Lots(ce, pe, d.rules.sizing, d.capital, d.lotSize)
    ensures LotSize(d.lotSize, d.rules.sizing) > 0 && d.rules.sizing.maxUnits > 0
    ensures Slices(UnitsOf(lots, LotSize(d.lotSize, d.rules.sizing)), d.rules.sizing.maxUnits) == 1
  {
    LotsNeedPrices(ce, pe, d.rules.sizing, d.capital, d.lotSize);
    var size: nat := LotSize(d.lotSize, d.rules.sizing);
    var units := UnitsOf(lots, size);
    LotsFitUnits(ce, pe, d.rules.sizing, d.capital, d.lotSize, lots, size, units);
    SlicesIff(units, d.rules.sizing.maxUnits, 1);
    SlicesIff(units, d.rules.sizing.maxUnits, 0);
  }

  /** A candidate that passes can always be projected, in one order for each leg; bought at the asks and sold at the
      projected bids it nets its threshold at least, and the slippage it was spared, to a paisa. */
  lemma PassedPairEarns(
    c: Candidate, d: Desk, project: Projector, momentum: real, slippage: real, trade: TradeView, reason: ExitReason)
    requires ProjectsFrom(project, d, momentum, slippage) && Judge(c, d, project).Passed?
    requires
      var ceQuote, peQuote := QuoteOf(d, c.pair.0, CE).value, QuoteOf(d, c.pair.1, PE).value;
      var v := InputOf(c, Judge(c, d, project).lots, ceQuote, peQuote, d, momentum, slippage);
      && v.lots >= 0 && v.lotSize >= 0
      && trade == TradeOf(v, trade.id, trade.winner, trade.ceStrike, trade.peStrike, trade.regime)
    ensures
      var ceQuote, peQuote := QuoteOf(d, c.pair.0, CE).value, QuoteOf(d, c.pair.1, PE).value;
      var v := InputOf(c, Judge(c, d, project).lots, ceQuote, peQuote, d, momentum, slippage);
      && Project(v).Projected? && Project(v).slices == 1
      && trade.ExitBoth(v.ceBid, v.peBid, reason).NetPnl()
         >= EconomicThresholds(c, d).0 + Slipped(v, trade.Units()) - 0.01
  {
    var ceQuote, peQuote := QuoteOf(d, c.pair.0, CE).value, QuoteOf(d, c.pair.1, PE).value;
    var lots := Judge(c, d, project).lots;
    var v := InputOf(c, lots, ceQuote, peQuote, d, momentum, slippage);
    PassedIff(c, d, project);
    SizedIsOneSlice(v.ceAsk, v.peAsk, d, lots);
    assert Project(v).Projected?;
    ProjectionComesTrue(v, trade, reason);
  }
}
