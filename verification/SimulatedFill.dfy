/** How a replayed trade is filled from one bar of each leg. */
module SimulatedFill {
  import opened Common
  import opened Money
  import opened Trading

  datatype Bar = Bar(open: real, high: real, low: real, close: real)

  /** What the planner asks for; an order with limits is a limit order. */
  datatype Plan = Plan(
    winner: Leg, ceStrike: int, peStrike: int, quantity: nat, lotSize: nat, regime: Regime,
    limits: Option<(real, real)>)

  /** The bar traded through this price. */
  predicate Touches(bar: Bar, price: real) {
    bar.low <= price <= bar.high
  }

  predicate Fills(plan: Plan, ce: Bar, pe: Bar) {
    plan.limits.Some? ==> Touches(ce, plan.limits.value.0) && Touches(pe, plan.limits.value.1)
  }

  /** The trade a filled plan opens. */
  function Entered(id: nat, plan: Plan, ce: Bar, pe: Bar, riskCapital: real, hardStop: real): TradeView {
    var prices := plan.limits.GetOr((ce.open, pe.open));
    Opened(id, plan.winner, plan.ceStrike, plan.peStrike, prices.0, prices.1, plan.quantity, plan.lotSize,
           plan.regime, riskCapital, hardStop)
  }

  /** The trade is the plan's in every respect; it is bought at its limits, or at the opens when it has none. */
  lemma EnteredAsPlanned(id: nat, plan: Plan, ce: Bar, pe: Bar, riskCapital: real, hardStop: real)
    ensures
      var v := Entered(id, plan, ce, pe, riskCapital, hardStop);
      && v.id == id && v.winner == plan.winner && v.ceStrike == plan.ceStrike && v.peStrike == plan.peStrike
      && v.quantity == plan.quantity && v.lotSize == plan.lotSize && v.regime == plan.regime
      && v.riskCapital == riskCapital && v.hardStop == hardStop && v.target.None? && v.exitReason.None?
      && v.phase.BothLegs? && PhaseFixesUnits(v) && v.peakCombined == v.peakSingle == v.losingPnl == 0.0
      && v.ceCurrent == v.entryCe && v.peCurrent == v.entryPe
      && (plan.limits == None ==> v.entryCe == ce.open && v.entryPe == pe.open)
      && (plan.limits.Some? ==> (v.entryCe, v.entryPe) == plan.limits.value)
  {
  }

  /** A plan fills exactly when the prices it would be bought at lie in the bars of their own legs. */
  lemma FillsIff(id: nat, plan: Plan, ce: Bar, pe: Bar, riskCapital: real, hardStop: real)
    requires ce.low <= ce.open <= ce.high && pe.low <= pe.open <= pe.high
    ensures
      var v := Entered(id, plan, ce, pe, riskCapital, hardStop);
      Fills(plan, ce, pe) <==> ce.low <= v.entryCe <= ce.high && pe.low <= v.entryPe <= pe.high
  {
  }

  method FillEntry(id: nat, plan: Plan, ce: Bar, pe: Bar, riskCapital: real, hardStop: real) returns (trade: Trade?)
    ensures trade != null <==> Fills(plan, ce, pe)
    ensures trade != null ==> fresh(trade) && trade.View() == Entered(id, plan, ce, pe, riskCapital, hardStop)
  {
    var cePrice, pePrice := ce.open, pe.open;
    if plan.limits.Some? {
      var (ceLimit, peLimit) := plan.limits.value;
      if !(ce.low <= ceLimit <= ce.high) || !(pe.low <= peLimit <= pe.high) {
        return null;
      }
      cePrice, pePrice := ceLimit, peLimit;
    }
    trade := new Trade(Opened(id, plan.winner, plan.ceStrike, plan.peStrike, cePrice, pePrice, plan.quantity,
                              plan.lotSize, plan.regime, riskCapital, hardStop));
  }

  /** One leg's part of a combined exit price, in proportion to the closes. */
  function Share(combined: real, close: real, total: real): real {
    if total > 0.0 then combined * (close / total) else combined / 2.0
  }

  /** The combined exit price at which `units` of each leg make exactly the target. */
  function TargetSum(v: TradeView, target: real): real
    requires v.Units() > 0
  {
    v.entryCe + v.entryPe + target / v.Units() as real
  }

  /** The two prices a target exit is filled at. */
  ghost function TargetPrices(v: TradeView, target: real, ce: Bar, pe: Bar): (real, real)
    requires v.Units() > 0
  {
    var sum, total := TargetSum(v, target), ce.close + pe.close;
    (Round2(Share(sum, ce.close, total)), Round2(Share(sum, pe.close, total)))
  }

  predicate AtTarget(v: TradeView, reason: ExitReason) {
    reason.TargetHit? && v.target.Some?
  }

  /** A target exit divides by the number of units, and so fails for none. */
  predicate CanExit(v: TradeView, reason: ExitReason) {
    AtTarget(v, reason) ==> v.Units() > 0
  }

  ghost function ExitFilled(v: TradeView, ce: Bar, pe: Bar, reason: ExitReason): TradeView
    requires CanExit(v, reason)
  {
    if AtTarget(v, reason) then
      var prices := TargetPrices(v, v.target.value, ce, pe);
      v.ExitBoth(prices.0, prices.1, reason)
    else v.ExitBoth(ce.close, pe.close, reason)
  }

  method FillExitBoth(trade: Trade, ce: Bar, pe: Bar, reason: ExitReason) returns (ok: bool)
    modifies trade
    ensures ok <==> CanExit(old(trade.View()), reason)
    ensures trade.View() == if ok then ExitFilled(old(trade.View()), ce, pe, reason) else old(trade.View())
  {
    var v := trade.View();
    var ceExit, peExit := ce.close, pe.close;
    if AtTarget(v, reason) {
      if v.Units() == 0 {
        return false;
      }
      var sum, total := TargetSum(v, v.target.value), ce.close + pe.close;
      ceExit := ComputeRound2(Share(sum, ce.close, total));
      peExit := ComputeRound2(Share(sum, pe.close, total));
    }
    trade.ExitBoth(ceExit, peExit, reason);
    ok := true;
  }

  method FillHedgeCut(trade: Trade, ce: Bar, pe: Bar)
    modifies trade
    ensures trade.View() == old(trade.View()).HedgeCut(if trade.winner.CE? then pe.close else ce.close)
  {
    trade.HedgeCut(if trade.winner.CE? then pe.close else ce.close);
  }

  method FillSingleLegExit(trade: Trade, ce: Bar, pe: Bar, reason: ExitReason)
    modifies trade
    ensures trade.View() == old(trade.View()).SingleLegExit(if trade.winner.CE? then ce.close else pe.close, reason)
  {
    trade.SingleLegExit(if trade.winner.CE? then ce.close else pe.close, reason);
  }

  lemma SharesAddUp(combined: real, ce: real, pe: real)
    ensures Share(combined, ce, ce + pe) + Share(combined, pe, ce + pe) == combined
  {
    var total := ce + pe;
    if total > 0.0 {
      var x, y := ce / total, pe / total;
      assert x + y == 1.0;
      assert combined * x + combined * y == combined * (x + y);
    }
  }

  /** Before rounding, the two parts of a target exit stand in the proportion of the closes. */
  lemma SharesAreProportional(combined: real, ce: real, pe: real)
    requires ce + pe > 0.0
    ensures Share(combined, ce, ce + pe) * pe == Share(combined, pe, ce + pe) * ce
  {
    var total := ce + pe;
    var x, y := ce / total, pe / total;
    assert x * total == ce && y * total == pe;
    CrossProducts(combined, x, y, total);
  }

  lemma CrossProducts(a: real, x: real, y: real, t: real)
    ensures (a * x) * (y * t) == (a * y) * (x * t)
  {
  }

  lemma RoundedWithinHalfPaisa(x: real)
    ensures -0.005 <= Round2(x) - x <= 0.005
  {
    assert IsNearestEven(x * 100.0, RoundHalfEven(x * 100.0));
  }

  /** What the rounding of the two fill prices adds to or takes from their sum: at most one paisa. */
  ghost function Slack(v: TradeView, target: real, ce: Bar, pe: Bar): real
    requires v.Units() > 0
  {
    var prices := TargetPrices(v, target, ce, pe);
    prices.0 + prices.1 - TargetSum(v, target)
  }

  lemma SlackIsSmall(v: TradeView, target: real, ce: Bar, pe: Bar)
    requires v.Units() > 0
    ensures -0.01 <= Slack(v, target, ce, pe) <= 0.01
  {
    var sum, total := TargetSum(v, target), ce.close + pe.close;
    SharesAddUp(sum, ce.close, pe.close);
    RoundedWithinHalfPaisa(Share(sum, ce.close, total));
    RoundedWithinHalfPaisa(Share(sum, pe.close, total));
  }

  /** A target exit grosses the target plus the slack on every unit, rounded: it can miss either way. */
  lemma TargetExitMisses(v: TradeView, ce: Bar, pe: Bar)
    requires v.phase.BothLegs? && PhaseFixesUnits(v) && v.target.Some? && v.Units() > 0
    ensures
      var target, slack := v.target.value, Slack(v, v.target.value, ce, pe);
      ExitFilled(v, ce, pe, TargetHit).CombinedPnl() == Round2(target + Value(slack, v.Units()))
  {
    var target, slack := v.target.value, Slack(v, v.target.value, ce, pe);
    var prices := TargetPrices(v, target, ce, pe);
    var perUnit := target / v.Units() as real;
    ExitBothGross(v, prices.0, prices.1, TargetHit);
    var x, y := prices.0 - v.entryCe, prices.1 - v.entryPe;
    ValueAdds(x, y, v.Units());
    assert x + y == perUnit + slack;
    ValueAdds(perUnit, slack, v.Units());
    PerUnitValue(target, v.Units());
    assert Value(x, v.Units()) + Value(y, v.Units()) == target + Value(slack, v.Units());
  }

  lemma PerUnitValue(target: real, units: nat)
    requires units > 0
    ensures Value(target / units as real, units) == target
  {
    ValueIsProduct(target / units as real, units);
  }

  /** So a target exit is within one paisa per unit, and half a paisa of rounding, of its target. */
  lemma TargetExitIsClose(v: TradeView, ce: Bar, pe: Bar)
    requires v.phase.BothLegs? && PhaseFixesUnits(v) && v.target.Some? && v.Units() > 0
    ensures
      var gap := ExitFilled(v, ce, pe, TargetHit).CombinedPnl() - v.target.value;
      -0.005 - Value(0.01, v.Units()) <= gap <= 0.005 + Value(0.01, v.Units())
  {
    var target, slack := v.target.value, Slack(v, v.target.value, ce, pe);
    TargetExitMisses(v, ce, pe);
    SlackIsSmall(v, target, ce, pe);
    ValueMonotone(slack, 0.01, v.Units());
    ValueMonotone(-0.01, slack, v.Units());
    ValueAdds(0.0, 0.01, v.Units());
    ValueIsProduct(0.0, v.Units());
    RoundedWithinHalfPaisa(target + Value(slack, v.Units()));
  }

  ghost predicate EvenPaise(x: real) {
    exists n: int :: IsPaise(x, n) && n % 2 == 0
  }

  /** An error that rounding to paise removes; at exactly half a paisa only towards an even number of paise. */
  ghost predicate RoundsAway(target: real, error: real) {
    -0.005 < error < 0.005 || ((error == 0.005 || error == -0.005) && EvenPaise(target))
  }

  /** A target exit is exact exactly when the target is whole paise and the slack of all units rounds away. */
  lemma TargetExitIsExactIff(v: TradeView, ce: Bar, pe: Bar)
    requires v.phase.BothLegs? && PhaseFixesUnits(v) && v.target.Some? && v.Units() > 0
    ensures
      var target, error := v.target.value, Value(Slack(v, v.target.value, ce, pe), v.Units());
      ExitFilled(v, ce, pe, TargetHit).CombinedPnl() == target <==> WholePaise(target) && RoundsAway(target, error)
  {
    TargetExitMisses(v, ce, pe);
    RoundedBackIff(v.target.value, Value(Slack(v, v.target.value, ce, pe), v.Units()));
  }

  lemma RoundedBackIff(x: real, error: real)
    ensures Round2(x + error) == x <==> WholePaise(x) && RoundsAway(x, error)
  {
    var m := RoundHalfEven((x + error) * 100.0);
    if Round2(x + error) == x {
      assert IsPaise(x, m);
    }
    if n: int :| IsPaise(x, n) {
      if IsNearestEven((x + error) * 100.0, n) {
        NearestEvenIsUnique((x + error) * 100.0, n);
      }
      if EvenPaise(x) {
        var k: int :| IsPaise(x, k) && k % 2 == 0;
        assert k == n;
      }
    }
  }

  /** A target of 100.60 on 50 units bought at 100 each, closing level, is filled at 101.00: it overshoots. */
  lemma TargetExitCanOvershoot(v: TradeView, units: nat, ce: Bar, pe: Bar)
    requires units == 50
    requires v == Opened(0, CE, 0, 0, 100.0, 100.0, units, 1, Sideways, 0.0, 0.0).(target := Some(100.6))
    requires ce.close == pe.close == 100.0
    ensures ExitFilled(v, ce, pe, TargetHit).CombinedPnl() == 101.0
  {
    LevelPrices(v, ce, pe);
    ExitBothGross(v, 101.01, 101.01, TargetHit);
    ValueIsProduct(1.01, units);
    NearestEvenIsUnique(10100.0, 10100);
  }

  lemma LevelPrices(v: TradeView, ce: Bar, pe: Bar)
    requires v.Units() == 50 && v.entryCe == v.entryPe == 100.0 && ce.close == pe.close == 100.0
    ensures TargetPrices(v, 100.6, ce, pe) == (101.01, 101.01)
  {
    NearestEvenIsUnique(101.006 * 100.0, 10101);
    assert TargetSum(v, 100.6) == 202.012;
  }
}
