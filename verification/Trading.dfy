/** The life of one options-pair trade: phases, open units, profit and loss. */
module Trading {
  import opened Common
  import opened Money
  import TransactionCosts

  datatype Phase = BothLegs | SingleLeg | PartialExit | Closed
  datatype Regime = Directional | Sideways
  datatype OrderType = Market | Limit
  datatype ExitReason =
    HardStop | Giveback | TargetHit | RotationExit | EodSquareOff | PartialFillAbort | Manual

  /** The value of a trade at one moment. */
  datatype TradeView = TradeView(
    id: nat, winner: Leg, ceStrike: int, peStrike: int,
    entryCe: real, entryPe: real, quantity: nat, lotSize: nat,
    regime: Regime, riskCapital: real, hardStop: real,
    phase: Phase, ceOpen: Option<int>, peOpen: Option<int>,
    ceCurrent: real, peCurrent: real, peakCombined: real, peakSingle: real,
    losingExit: Option<real>, losingPnl: real,
    exitCe: Option<real>, exitPe: Option<real>,
    exitReason: Option<ExitReason>, target: Option<real>)
  {
    predicate IsOpen() { !phase.Closed? }

    function Units(): nat { UnitsOf(quantity, lotSize) }

    function Entry(leg: Leg): real { if leg.CE? then entryCe else entryPe }

    function Current(leg: Leg): real { if leg.CE? then ceCurrent else peCurrent }

    function Exit(leg: Leg): Option<real> { if leg.CE? then exitCe else exitPe }

    /** Units not yet sold; a leg without a recorded number is still whole. */
    function Open(leg: Leg): int {
      (if leg.CE? then ceOpen else peOpen).GetOr(Units())
    }

    ghost function LegPnl(leg: Leg, price: real): real {
      Value(price - Entry(leg), Units())
    }

    ghost function CombinedPnl(): real {
      match phase
      case BothLegs => Round2(LegPnl(CE, ceCurrent) + LegPnl(PE, peCurrent))
      case SingleLeg => Round2(losingPnl + LegPnl(winner, Current(winner)))
      case _ =>
        if losingExit.Some? then
          Round2(losingPnl + LegPnl(winner, Exit(winner).GetOr(Current(winner))))
        else
          Round2(LegPnl(CE, exitCe.GetOr(ceCurrent)) + LegPnl(PE, exitPe.GetOr(peCurrent)))
    }

    /** The price a leg is charged at: its exit, else its quote, else its entry. */
    function ChargedPrice(leg: Leg): real {
      if Exit(leg).Some? then Exit(leg).value
      else if Current(leg) > 0.0 then Current(leg)
      else Entry(leg)
    }

    ghost function Costs(): real {
      TransactionCosts.TotalCosts(entryCe, entryPe, ChargedPrice(CE), ChargedPrice(PE), quantity, lotSize)
    }

    ghost function NetPnl(): real {
      Round2(CombinedPnl() - Costs())
    }

    function Quoted(ce: real, pe: real): TradeView {
      this.(ceCurrent := ce, peCurrent := pe)
    }

    /** Both legs sold at the given prices. */
    function ExitBoth(ce: real, pe: real, reason: ExitReason): TradeView {
      this.(exitCe := Some(ce), exitPe := Some(pe), exitReason := Some(reason),
            ceOpen := Some(0), peOpen := Some(0), phase := Closed)
    }

    /** The losing leg sold, its profit or loss booked, the winning leg kept. */
    ghost function HedgeCut(price: real): TradeView {
      this.LegSold(winner.Other(), price).(
        losingExit := Some(price), losingPnl := Round2(LegPnl(winner.Other(), price)), phase := SingleLeg)
    }

    /** The winning leg sold. */
    function SingleLegExit(price: real, reason: ExitReason): TradeView {
      this.LegSold(winner, price).(exitReason := Some(reason), phase := Closed)
    }

    function LegSold(leg: Leg, price: real): TradeView {
      match leg
      case CE => this.(exitCe := Some(price), ceCurrent := price, ceOpen := Some(0))
      case PE => this.(exitPe := Some(price), peCurrent := price, peOpen := Some(0))
    }

    /** The same trade with `units` of a leg still open. */
    function Left(leg: Leg, units: int): TradeView {
      if leg.CE? then this.(ceOpen := Some(units)) else this.(peOpen := Some(units))
    }
  }

  function UnitsOf(quantity: nat, lotSize: nat): nat {
    quantity * lotSize
  }

  /** A trade as every executor opens it. */
  function Opened(
    id: nat, winner: Leg, ceStrike: int, peStrike: int, entryCe: real, entryPe: real,
    quantity: nat, lotSize: nat, regime: Regime, riskCapital: real, hardStop: real): TradeView
  {
    var units := Some(UnitsOf(quantity, lotSize));
    TradeView(id, winner, ceStrike, peStrike, entryCe, entryPe, quantity, lotSize, regime, riskCapital, hardStop,
              BothLegs, units, units, entryCe, entryPe, 0.0, 0.0, None, 0.0, None, None, None, None)
  }

  /** What each phase says about the units still open; true from entry on, see the lemmas below. */
  ghost predicate PhaseFixesUnits(v: TradeView) {
    match v.phase
    case BothLegs => v.Open(CE) == v.Open(PE) == v.Units() && v.exitCe.None? && v.exitPe.None? && v.losingExit.None?
    case SingleLeg =>
      && v.Open(v.winner.Other()) == 0 && v.Open(v.winner) == v.Units()
      && v.losingExit.Some? && v.Exit(v.winner.Other()) == v.losingExit && v.Exit(v.winner).None?
    case Closed => v.Open(CE) == v.Open(PE) == 0 && v.exitCe.Some? && v.exitPe.Some?
    case PartialExit => false
  }

  ghost predicate PaisePrices(v: TradeView) {
    WholePaise(v.entryCe) && WholePaise(v.entryPe)
  }

  lemma LifecycleFixesUnits(v: TradeView, ce: real, pe: real, reason: ExitReason)
    requires PhaseFixesUnits(v)
    ensures PhaseFixesUnits(v.Quoted(ce, pe))
    ensures v.phase.BothLegs? ==> PhaseFixesUnits(v.ExitBoth(ce, pe, reason)) && PhaseFixesUnits(v.HedgeCut(ce))
    ensures v.phase.SingleLeg? ==> PhaseFixesUnits(v.SingleLegExit(ce, reason))
  {
  }

  /** Selling both legs at once: gross P&L is the rounded sum over the legs, at any prices. */
  lemma ExitBothGross(v: TradeView, ce: real, pe: real, reason: ExitReason)
    requires v.phase.BothLegs? && PhaseFixesUnits(v)
    ensures v.ExitBoth(ce, pe, reason).CombinedPnl() == Round2(v.LegPnl(CE, ce) + v.LegPnl(PE, pe))
  {
  }

  /** Gross P&L of an open trade is what selling its open legs at the quotes would make. */
  lemma OpenGrossIsSaleAtQuotes(v: TradeView, reason: ExitReason)
    requires PhaseFixesUnits(v) && v.IsOpen()
    ensures v.phase.BothLegs? ==> v.CombinedPnl() == v.ExitBoth(v.ceCurrent, v.peCurrent, reason).CombinedPnl()
    ensures v.phase.SingleLeg? ==> v.CombinedPnl() == v.SingleLegExit(v.Current(v.winner), reason).CombinedPnl()
  {
  }

  /** Net P&L of an open trade is that of the sale at the quotes, where the quotes can be sold at. */
  lemma OpenNetIsSaleAtQuotes(v: TradeView, reason: ExitReason)
    requires PhaseFixesUnits(v) && v.IsOpen()
    ensures v.phase.BothLegs? && v.ceCurrent > 0.0 && v.peCurrent > 0.0 ==>
      v.NetPnl() == v.ExitBoth(v.ceCurrent, v.peCurrent, reason).NetPnl()
    ensures v.phase.SingleLeg? && v.Current(v.winner) > 0.0 ==>
      v.NetPnl() == v.SingleLegExit(v.Current(v.winner), reason).NetPnl()
  {
    OpenGrossIsSaleAtQuotes(v, reason);
  }

  /** The price a sale of an open leg is charged at: its quote, or its entry where there is no positive quote. */
  function ChargedAtQuote(v: TradeView, leg: Leg): real {
    if v.Current(leg) > 0.0 then v.Current(leg) else v.Entry(leg)
  }

  /** An open trade is charged for buying at its entries and selling at those prices. */
  lemma OpenCostsAtQuotes(v: TradeView)
    requires PhaseFixesUnits(v) && v.phase.BothLegs?
    ensures v.Costs() == TransactionCosts.TotalCosts(
      v.entryCe, v.entryPe, ChargedAtQuote(v, CE), ChargedAtQuote(v, PE), v.quantity, v.lotSize)
  {
  }

  /** A whole pair makes what its two price differences come to on every unit. */
  lemma OpenGrossIsSumOfDifferences(v: TradeView)
    requires v.phase.BothLegs?
    ensures v.CombinedPnl() == Round2(Value((v.ceCurrent - v.entryCe) + (v.peCurrent - v.entryPe), v.Units()))
  {
    ValueAdds(v.ceCurrent - v.entryCe, v.peCurrent - v.entryPe, v.Units());
  }

  /** Cut the loser, follow any quotes, sell the winner. */
  ghost function CutThenExit(
    v: TradeView, loserPrice: real, quotedCe: real, quotedPe: real, winnerPrice: real, reason: ExitReason): TradeView
  {
    v.HedgeCut(loserPrice).Quoted(quotedCe, quotedPe).SingleLegExit(winnerPrice, reason)
  }

  /** The two ways of closing agree: at whole-paise prices both gross the exact sum over the legs. */
  lemma CloseIsPathIndependent(
    v: TradeView, loserPrice: real, winnerPrice: real, quotedCe: real, quotedPe: real, reason: ExitReason)
    requires v.phase.BothLegs? && PhaseFixesUnits(v) && PaisePrices(v)
    requires WholePaise(loserPrice) && WholePaise(winnerPrice)
    ensures
      var exact := v.LegPnl(v.winner.Other(), loserPrice) + v.LegPnl(v.winner, winnerPrice);
      var ce := if v.winner.CE? then winnerPrice else loserPrice;
      var pe := if v.winner.CE? then loserPrice else winnerPrice;
      var both := v.ExitBoth(ce, pe, reason);
      var cut := CutThenExit(v, loserPrice, quotedCe, quotedPe, winnerPrice, reason);
      && both.CombinedPnl() == exact
      && cut.CombinedPnl() == exact
      && cut.NetPnl() == both.NetPnl()
  {
    PaiseLegPnl(v, v.winner.Other(), loserPrice);
    PaiseLegPnl(v, v.winner, winnerPrice);
    WholePaiseSum(v.LegPnl(v.winner.Other(), loserPrice), v.LegPnl(v.winner, winnerPrice));
    Round2FixedIffWholePaise(v.LegPnl(v.winner.Other(), loserPrice) + v.LegPnl(v.winner, winnerPrice));
  }

  lemma PaiseLegPnl(v: TradeView, leg: Leg, price: real)
    requires PaisePrices(v) && WholePaise(price)
    ensures WholePaise(v.LegPnl(leg, price))
    ensures Round2(v.LegPnl(leg, price)) == v.LegPnl(leg, price)
  {
    WholePaiseSum(price, v.Entry(leg));
    ValueIsWholePaise(price - v.Entry(leg), v.Units());
    Round2FixedIffWholePaise(v.LegPnl(leg, price));
  }

  /** Off the paise grid the two ways of closing differ by at most one paisa. */
  lemma CloseDiffersByAPaisa(
    v: TradeView, loserPrice: real, winnerPrice: real, quotedCe: real, quotedPe: real, reason: ExitReason)
    requires v.phase.BothLegs? && PhaseFixesUnits(v)
    ensures
      var exact := v.LegPnl(v.winner.Other(), loserPrice) + v.LegPnl(v.winner, winnerPrice);
      var cut := CutThenExit(v, loserPrice, quotedCe, quotedPe, winnerPrice, reason).CombinedPnl();
      -0.01 <= cut - Round2(exact) <= 0.01
  {
    RoundedApart(v.LegPnl(v.winner.Other(), loserPrice), v.LegPnl(v.winner, winnerPrice));
  }

  lemma RoundedApart(l: real, w: real)
    ensures -0.01 <= Round2(Round2(l) + w) - Round2(l + w) <= 0.01
  {
    var m := RoundHalfEven(l * 100.0);
    var a, b := RoundHalfEven((Round2(l) + w) * 100.0), RoundHalfEven((l + w) * 100.0);
    assert (Round2(l) + w) * 100.0 == m as real + w * 100.0;
    assert a - 1 <= b <= a + 1;
  }

  /** A cut loser is booked at the price it was sold for. */
  ghost predicate Booked(v: TradeView) {
    v.losingExit.Some? ==>
      && v.losingPnl == Round2(v.LegPnl(v.winner.Other(), v.losingExit.value))
      && v.Exit(v.winner.Other()) == v.losingExit
  }

  /** What both legs made between entry and the recorded exits. */
  ghost function ExactGross(v: TradeView): real
    requires v.exitCe.Some? && v.exitPe.Some?
  {
    v.LegPnl(CE, v.exitCe.value) + v.LegPnl(PE, v.exitPe.value)
  }

  /** The gross P&L of a closed trade is what its legs made: rounded once, give or take a paisa, and exactly that
      sum at whole-paise prices. */
  lemma GrossOfClosed(w: TradeView)
    requires w.phase.Closed? && PhaseFixesUnits(w) && Booked(w)
    ensures -0.01 <= w.CombinedPnl() - Round2(ExactGross(w)) <= 0.01
    ensures PaisePrices(w) && WholePaise(w.exitCe.value) && WholePaise(w.exitPe.value)
        ==> w.CombinedPnl() == ExactGross(w)
  {
    var loser := w.winner.Other();
    var lost, won := w.LegPnl(loser, w.Exit(loser).value), w.LegPnl(w.winner, w.Exit(w.winner).value);
    RoundedApart(lost, won);
    assert ExactGross(w) == lost + won;
    if PaisePrices(w) && WholePaise(w.exitCe.value) && WholePaise(w.exitPe.value) {
      PaiseLegPnl(w, CE, w.exitCe.value);
      PaiseLegPnl(w, PE, w.exitPe.value);
      WholePaiseSum(lost, won);
      Round2FixedIffWholePaise(lost + won);
    }
  }

  /** Cutting the loser at its quoted price changes neither gross nor net P&L. */
  lemma HedgeCutIsContinuous(v: TradeView)
    requires v.phase.BothLegs? && PhaseFixesUnits(v) && PaisePrices(v)
    requires WholePaise(v.ceCurrent) && WholePaise(v.peCurrent) && v.ceCurrent > 0.0 && v.peCurrent > 0.0
    ensures v.HedgeCut(v.Current(v.winner.Other())).CombinedPnl() == v.CombinedPnl()
    ensures v.HedgeCut(v.Current(v.winner.Other())).NetPnl() == v.NetPnl()
  {
    PaiseLegPnl(v, v.winner.Other(), v.Current(v.winner.Other()));
  }

  /** At any prices, cutting the loser at its quoted price moves gross and net P&L by at most a paisa. */
  lemma HedgeCutMovesAPaisa(v: TradeView)
    requires v.phase.BothLegs? && PhaseFixesUnits(v) && v.Current(v.winner.Other()) > 0.0
    ensures
      var cut := v.HedgeCut(v.Current(v.winner.Other()));
      && -0.01 <= cut.CombinedPnl() - v.CombinedPnl() <= 0.01
      && -0.01 <= cut.NetPnl() - v.NetPnl() <= 0.01
  {
    var cut := v.HedgeCut(v.Current(v.winner.Other()));
    HedgeCutMovesGross(v);
    HedgeCutKeepsCosts(v);
    NetIsExact(v);
    NetIsExact(cut);
  }

  lemma HedgeCutMovesGross(v: TradeView)
    requires v.phase.BothLegs?
    ensures -0.01 <= v.HedgeCut(v.Current(v.winner.Other())).CombinedPnl() - v.CombinedPnl() <= 0.01
  {
    var loser := v.winner.Other();
    RoundedApart(v.LegPnl(loser, v.Current(loser)), v.LegPnl(v.winner, v.Current(v.winner)));
  }

  lemma HedgeCutKeepsCosts(v: TradeView)
    requires v.phase.BothLegs? && PhaseFixesUnits(v) && v.Current(v.winner.Other()) > 0.0
    ensures v.HedgeCut(v.Current(v.winner.Other())).Costs() == v.Costs()
  {
  }

  /** After the cut, quotes of the sold leg are invisible. */
  lemma LoserQuotesAreInvisible(v: TradeView, ce: real, pe: real, ce': real, pe': real)
    requires v.phase.SingleLeg? && PhaseFixesUnits(v)
    requires (if v.winner.CE? then ce == ce' else pe == pe')
    ensures v.Quoted(ce, pe).CombinedPnl() == v.Quoted(ce', pe').CombinedPnl()
    ensures v.Quoted(ce, pe).NetPnl() == v.Quoted(ce', pe').NetPnl()
  {
  }

  /** One more paisa on one leg's exit. */
  ghost predicate OnePaisaMore(ce: real, pe: real, ce': real, pe': real) {
    (ce' == ce + 0.01 && pe' == pe) || (ce' == ce && pe' == pe + 0.01)
  }

  lemma {:induction false} RaisedExitRaisesSum(v: TradeView, ce: real, pe: real, ce': real, pe': real)
    requires OnePaisaMore(ce, pe, ce', pe')
    ensures v.LegPnl(CE, ce') + v.LegPnl(PE, pe')
         == v.LegPnl(CE, ce) + v.LegPnl(PE, pe) + v.Units() as real * 0.01
  {
    ValueOfPaisa(v.Units());
    ValueAdds(ce - v.entryCe, 0.01, v.Units());
    ValueAdds(pe - v.entryPe, 0.01, v.Units());
    assert ce + 0.01 - v.entryCe == ce - v.entryCe + 0.01;
    assert pe + 0.01 - v.entryPe == pe - v.entryPe + 0.01;
  }

  /** Net P&L of a closed pair never falls when one leg is sold for one paisa more. */
  lemma NetPnlIsMonotone(v: TradeView, ce: real, pe: real, ce': real, pe': real, reason: ExitReason)
    requires v.phase.BothLegs? && PhaseFixesUnits(v) && OnePaisaMore(ce, pe, ce', pe')
    requires v.Units() >= 1
    requires v.Units() >= 2 || (PaisePrices(v) && WholePaise(ce) && WholePaise(pe))
    ensures v.ExitBoth(ce', pe', reason).NetPnl() >= v.ExitBoth(ce, pe, reason).NetPnl()
  {
    var before, after := v.ExitBoth(ce, pe, reason), v.ExitBoth(ce', pe', reason);
    var units := v.Units();
    assert after.CombinedPnl() >= before.CombinedPnl() + TransactionCosts.CostStep(units) as real * 0.01 by {
      GrossGrows(v, ce, pe, ce', pe', reason);
    }
    assert after.Costs() <= before.Costs() + TransactionCosts.CostStep(units) as real * 0.01 by {
      CostsGrow(v, ce, pe, ce', pe', reason);
    }
    NetGrows(before.CombinedPnl(), after.CombinedPnl(), before.Costs(), after.Costs(),
             TransactionCosts.CostStep(units) as real * 0.01);
  }

  /** An amount exactly half a paisa above an odd number of paise: rounding takes it up to the even one. */
  ghost predicate TieRoundsUp(x: real) {
    exists n: int :: n % 2 == 1 && IsPaise(x - 0.005, n)
  }

  lemma StaysOnlyAtTie(y: real)
    requires RoundHalfEven(y + 1.0) == RoundHalfEven(y)
    ensures y == RoundHalfEven(y) as real - 0.5 && RoundHalfEven(y) % 2 == 0
  {
    assert IsNearestEven(y, RoundHalfEven(y)) && IsNearestEven(y + 1.0, RoundHalfEven(y));
  }

  lemma TieStays(y: real, n: int)
    requires y == n as real + 0.5 && n % 2 == 1
    ensures RoundHalfEven(y) == RoundHalfEven(y + 1.0)
  {
    NearestEvenIsUnique(y, n + 1);
    NearestEvenIsUnique(y + 1.0, n + 1);
  }

  /** One paisa more is lost in rounding exactly at such an amount. */
  lemma PaisaIsLostIff(x: real)
    ensures Round2(x + 0.01) == Round2(x) <==> TieRoundsUp(x)
  {
    var y := x * 100.0;
    var m := RoundHalfEven(y);
    assert (x + 0.01) * 100.0 == y + 1.0;
    assert Round2(x + 0.01) == RoundHalfEven(y + 1.0) as real / 100.0 && Round2(x) == m as real / 100.0;
    if RoundHalfEven(y + 1.0) == m {
      StaysOnlyAtTie(y);
      var n := m - 1;
      assert n % 2 == 1 && IsPaise(x - 0.005, n);
    }
    if n: int :| n % 2 == 1 && IsPaise(x - 0.005, n) {
      TieStays(y, n);
    }
  }

  /** Gross and net results and costs are whole paise, so net is exactly gross less costs. */
  lemma NetIsExact(v: TradeView)
    ensures WholePaise(v.CombinedPnl()) && WholePaise(v.Costs()) && v.NetPnl() == v.CombinedPnl() - v.Costs()
  {
    assert WholePaise(v.CombinedPnl()) by {
      GrossIsWholePaise(v);
    }
    assert WholePaise(v.Costs()) by {
      CostsAreWholePaise(v);
    }
    WholePaiseSum(v.CombinedPnl(), v.Costs());
    Round2FixedIffWholePaise(v.CombinedPnl() - v.Costs());
  }

  lemma CostsAreWholePaise(v: TradeView)
    ensures WholePaise(v.Costs())
  {
    if v.quantity == 0 || v.lotSize == 0 {
      assert IsPaise(v.Costs(), 0);
    } else {
      TransactionCosts.TotalIsWholePaise(
        TransactionCosts.Charges(
          Value(v.entryCe + v.entryPe, v.Units()), Value(v.ChargedPrice(CE) + v.ChargedPrice(PE), v.Units()),
          TransactionCosts.ROUND_TRIP_ORDERS));
    }
  }

  lemma GrossIsWholePaise(v: TradeView)
    ensures WholePaise(v.CombinedPnl())
  {
    Round2IsWholePaise(v.LegPnl(CE, v.ceCurrent) + v.LegPnl(PE, v.peCurrent));
    Round2IsWholePaise(v.losingPnl + v.LegPnl(v.winner, v.Current(v.winner)));
    Round2IsWholePaise(v.losingPnl + v.LegPnl(v.winner, v.Exit(v.winner).GetOr(v.Current(v.winner))));
    Round2IsWholePaise(v.LegPnl(CE, v.exitCe.GetOr(v.ceCurrent)) + v.LegPnl(PE, v.exitPe.GetOr(v.peCurrent)));
  }

  /** Selling one leg for a paisa more lowers net P&L exactly for a single unit whose exact gross is half a paisa
      above an odd number of paise, when that paisa also makes the charges round up. */
  lemma NetPnlFallsIff(v: TradeView, ce: real, pe: real, ce': real, pe': real, reason: ExitReason)
    requires v.phase.BothLegs? && PhaseFixesUnits(v) && OnePaisaMore(ce, pe, ce', pe') && v.Units() >= 1
    ensures v.ExitBoth(ce', pe', reason).NetPnl() < v.ExitBoth(ce, pe, reason).NetPnl() <==>
      && v.Units() == 1
      && TieRoundsUp(v.LegPnl(CE, ce) + v.LegPnl(PE, pe))
      && v.ExitBoth(ce', pe', reason).Costs() > v.ExitBoth(ce, pe, reason).Costs()
  {
    var before, after := v.ExitBoth(ce, pe, reason), v.ExitBoth(ce', pe', reason);
    var raw := v.LegPnl(CE, ce) + v.LegPnl(PE, pe);
    if v.Units() >= 2 {
      NetPnlIsMonotone(v, ce, pe, ce', pe', reason);
    } else {
      assert v.quantity > 0 && v.lotSize > 0;
      RaisedExitRaisesSum(v, ce, pe, ce', pe');
      ExitBothGross(v, ce, pe, reason);
      ExitBothGross(v, ce', pe', reason);
      CostsGrow(v, ce, pe, ce', pe', reason);
      NetIsExact(before);
      NetIsExact(after);
      PaisaIsLostIff(raw);
      Round2Monotone(raw, raw + 0.01);
      FallsIff(before.CombinedPnl(), after.CombinedPnl(), before.Costs(), after.Costs());
    }
  }

  lemma FallsIff(gross: real, gross': real, costs: real, costs': real)
    requires WholePaise(gross) && WholePaise(gross') && WholePaise(costs) && WholePaise(costs')
    requires gross' >= gross && costs' <= costs + 0.01
    ensures gross' - costs' < gross - costs <==> gross' == gross && costs' > costs
  {
    var a: int :| IsPaise(gross, a);
    var b: int :| IsPaise(gross', b);
    var c: int :| IsPaise(costs, c);
    var d: int :| IsPaise(costs', d);
    assert d <= c + 1 && b >= a;
  }

  lemma NetGrows(gross: real, gross': real, costs: real, costs': real, step: real)
    requires gross' >= gross + step && costs' <= costs + step
    ensures Round2(gross' - costs') >= Round2(gross - costs)
  {
    Round2Monotone(gross - costs, gross' - costs');
  }

  lemma GrossGrows(v: TradeView, ce: real, pe: real, ce': real, pe': real, reason: ExitReason)
    requires v.phase.BothLegs? && PhaseFixesUnits(v) && OnePaisaMore(ce, pe, ce', pe')
    requires v.Units() >= 1
    requires v.Units() >= 2 || (PaisePrices(v) && WholePaise(ce) && WholePaise(pe))
    ensures v.ExitBoth(ce', pe', reason).CombinedPnl()
         >= v.ExitBoth(ce, pe, reason).CombinedPnl() + TransactionCosts.CostStep(v.Units()) as real * 0.01
  {
    var x, y := v.LegPnl(CE, ce) + v.LegPnl(PE, pe), v.LegPnl(CE, ce') + v.LegPnl(PE, pe');
    RaisedExitRaisesSum(v, ce, pe, ce', pe');
    if v.Units() >= 2 {
      RoundedStep(x, y, v.Units());
    } else {
      PaiseLegPnl(v, CE, ce);
      PaiseLegPnl(v, PE, pe);
      WholePaiseSum(v.LegPnl(CE, ce), v.LegPnl(PE, pe));
      assert IsPaise(0.01, 1);
      WholePaiseSum(x, 0.01);
      Round2FixedIffWholePaise(x);
      Round2FixedIffWholePaise(y);
    }
  }

  lemma RoundedStep(x: real, y: real, units: nat)
    requires y == x + units as real * 0.01
    ensures Round2(y) >= Round2(x) + (units - 1) as real * 0.01
  {
    var m, n := RoundHalfEven(x * 100.0), RoundHalfEven(y * 100.0);
    assert n >= m + units - 1;
  }

  lemma UnitsArePositive(v: TradeView)
    requires v.Units() >= 1
    ensures v.quantity > 0 && v.lotSize > 0
  {
  }

  lemma CostsGrow(v: TradeView, ce: real, pe: real, ce': real, pe': real, reason: ExitReason)
    requires OnePaisaMore(ce, pe, ce', pe') && v.Units() >= 1
    ensures v.ExitBoth(ce', pe', reason).Costs()
         <= v.ExitBoth(ce, pe, reason).Costs() + TransactionCosts.CostStep(v.Units()) as real * 0.01
  {
    UnitsArePositive(v);
    TransactionCosts.TotalCostsGrowSlowly(v.entryCe + v.entryPe, ce + pe, ce' + pe', v.Units());
  }

  /** One unit bought off the paise grid: selling its call for 126.57 instead of 126.56 nets one paisa
      less. */
  lemma OneUnitOffTheGridCanLose(v: TradeView)
    requires v == Opened(0, CE, 0, 0, 100.005, 100.0, 1, 1, Sideways, 0.0, 0.0)
    ensures v.ExitBoth(126.56, 100.0, Manual).NetPnl() == -68.36
    ensures v.ExitBoth(126.57, 100.0, Manual).NetPnl() == -68.37
  {
    assert ChargesRoundTo(200.005, 226.56, 1515, 3398, 144273, 9492);
    assert ChargesRoundTo(200.005, 226.57, 1515, 3399, 144274, 9493);
    OneUnitNet(v, 126.56, 226.56, 1515, 3398, 144273, 2656, 9492);
    OneUnitNet(v, 126.57, 226.57, 1515, 3399, 144274, 2656, 9493);
  }

  lemma OneUnitNet(
    v: TradeView, ce: real, sold: real, exchange: int, stt: int, gst: int, gross: int, costs: int)
    requires sold == ce + 100.0
    requires v == Opened(0, CE, 0, 0, 100.005, 100.0, 1, 1, Sideways, 0.0, 0.0)
    requires IsNearestEven((ce - 100.005) * 100.0, gross)
    requires ChargesRoundTo(200.005, sold, exchange, stt, gst, costs)
    ensures v.ExitBoth(ce, 100.0, Manual).NetPnl() == (gross - costs) as real / 100.0
  {
    var out := v.ExitBoth(ce, 100.0, Manual);
    assert out.CombinedPnl() == gross as real / 100.0 by {
      ValueIsProduct(ce - 100.005, 1);
      ValueIsProduct(0.0, 1);
      NearestEvenIsUnique((ce - 100.005) * 100.0, gross);
    }
    assert out.Costs() == costs as real / 100.0 by {
      ValueIsProduct(200.005, 1);
      ValueIsProduct(sold, 1);
      ChargesAt(200.005, sold, exchange, stt, gst, costs);
    }
    NearestEvenIsUnique((gross - costs) as real, gross - costs);
  }

  ghost predicate ChargesRoundTo(buy: real, sell: real, exchange: int, stt: int, gst: int, total: int) {
    && IsNearestEven((buy + sell) * 0.0003552 * 10000.0, exchange)
    && IsNearestEven(sell * 0.0015 * 10000.0, stt)
    && IsNearestEven((buy + sell) * 0.000001 * 10000.0, 4)
    && IsNearestEven(buy * 0.00003 * 10000.0, 60)
    && IsNearestEven((80.0 + (buy + sell) * 0.0003552 + (buy + sell) * 0.000001) * 0.18 * 10000.0, gst)
    && IsNearestEven((80.0 + (exchange + stt + 4 + 60 + gst) as real / 10000.0) * 100.0, total)
  }

  lemma ChargesAt(buy: real, sell: real, exchange: int, stt: int, gst: int, total: int)
    requires ChargesRoundTo(buy, sell, exchange, stt, gst, total)
    ensures TransactionCosts.Charges(buy, sell, 4).Total() == total as real / 100.0
  {
    NearestEvenIsUnique(8000.0, 8000);
    NearestEvenIsUnique((buy + sell) * 0.0003552 * 10000.0, exchange);
    NearestEvenIsUnique(sell * 0.0015 * 10000.0, stt);
    NearestEvenIsUnique((buy + sell) * 0.000001 * 10000.0, 4);
    NearestEvenIsUnique(buy * 0.00003 * 10000.0, 60);
    NearestEvenIsUnique((80.0 + (buy + sell) * 0.0003552 + (buy + sell) * 0.000001) * 0.18 * 10000.0, gst);
    NearestEvenIsUnique((80.0 + (exchange + stt + 4 + 60 + gst) as real / 10000.0) * 100.0, total);
  }

  /** The record the executors and managers update in place. */
  class Trade {
    const id: nat
    const winner: Leg
    const ceStrike: int
    const peStrike: int
    const entryCe: real
    const entryPe: real
    const quantity: nat
    const lotSize: nat
    const regime: Regime
    const riskCapital: real
    const hardStop: real
    var phase: Phase
    var ceOpen: Option<int>
    var peOpen: Option<int>
    var ceCurrent: real
    var peCurrent: real
    var peakCombined: real
    var peakSingle: real
    var losingExit: Option<real>
    var losingPnl: real
    var exitCe: Option<real>
    var exitPe: Option<real>
    var exitReason: Option<ExitReason>
    var target: Option<real>

    constructor (v: TradeView)
      ensures View() == v
    {
      id, winner, ceStrike, peStrike := v.id, v.winner, v.ceStrike, v.peStrike;
      entryCe, entryPe, quantity, lotSize := v.entryCe, v.entryPe, v.quantity, v.lotSize;
      regime, riskCapital, hardStop, phase := v.regime, v.riskCapital, v.hardStop, v.phase;
      ceOpen, peOpen, ceCurrent, peCurrent := v.ceOpen, v.peOpen, v.ceCurrent, v.peCurrent;
      peakCombined, peakSingle := v.peakCombined, v.peakSingle;
      losingExit, losingPnl, exitCe, exitPe := v.losingExit, v.losingPnl, v.exitCe, v.exitPe;
      exitReason, target := v.exitReason, v.target;
    }

    function View(): TradeView
      reads this
    {
      TradeView(id, winner, ceStrike, peStrike, entryCe, entryPe, quantity, lotSize, regime, riskCapital, hardStop,
                phase, ceOpen, peOpen, ceCurrent, peCurrent, peakCombined, peakSingle, losingExit, losingPnl,
                exitCe, exitPe, exitReason, target)
    }

    method LegPnl(leg: Leg, price: real) returns (pnl: real)
      ensures pnl == View().LegPnl(leg, price)
    {
      pnl := ComputeValue(price - View().Entry(leg), View().Units());
    }

    method CombinedPnl() returns (pnl: real)
      ensures pnl == View().CombinedPnl()
    {
      var v := View();
      var first, second: real;
      if phase.BothLegs? {
        first := LegPnl(CE, ceCurrent);
        second := LegPnl(PE, peCurrent);
      } else if phase.SingleLeg? {
        first := losingPnl;
        second := LegPnl(winner, v.Current(winner));
      } else if losingExit.Some? {
        first := losingPnl;
        second := LegPnl(winner, v.Exit(winner).GetOr(v.Current(winner)));
      } else {
        first := LegPnl(CE, exitCe.GetOr(ceCurrent));
        second := LegPnl(PE, exitPe.GetOr(peCurrent));
      }
      pnl := ComputeRound2(first + second);
    }

    method NetPnl() returns (pnl: real)
      ensures pnl == View().NetPnl()
    {
      var v := View();
      var gross := CombinedPnl();
      var costs := TransactionCosts.ComputeTotalCosts(
        entryCe, entryPe, v.ChargedPrice(CE), v.ChargedPrice(PE), quantity, lotSize);
      pnl := ComputeRound2(gross - costs);
    }

    method Quote(ce: real, pe: real)
      modifies this`ceCurrent, this`peCurrent
      ensures View() == old(View()).Quoted(ce, pe)
    {
      ceCurrent, peCurrent := ce, pe;
    }

    /** Sell both legs at the given prices. */
    method ExitBoth(ce: real, pe: real, reason: ExitReason)
      modifies this
      ensures View() == old(View()).ExitBoth(ce, pe, reason)
    {
      exitCe, exitPe, exitReason := Some(ce), Some(pe), Some(reason);
      ceOpen, peOpen := Some(0), Some(0);
      phase := Closed;
    }

    method RecordSale(leg: Leg, price: real, left: int)
      modifies this`exitCe, this`exitPe, this`ceCurrent, this`peCurrent, this`ceOpen, this`peOpen
      ensures View() == old(View()).LegSold(leg, price).Left(leg, left)
    {
      if leg.CE? {
        exitCe, ceCurrent, ceOpen := Some(price), price, Some(left);
      } else {
        exitPe, peCurrent, peOpen := Some(price), price, Some(left);
      }
    }

    /** Sell the losing leg at the given price and book its result. */
    method HedgeCut(price: real)
      modifies this
      ensures View() == old(View()).HedgeCut(price)
    {
      var raw := LegPnl(winner.Other(), price);
      var booked := ComputeRound2(raw);
      RecordSale(winner.Other(), price, 0);
      losingExit, losingPnl, phase := Some(price), booked, SingleLeg;
    }

    /** Sell the winning leg at the given price. */
    method SingleLegExit(price: real, reason: ExitReason)
      modifies this
      ensures View() == old(View()).SingleLegExit(price, reason)
    {
      RecordSale(winner, price, 0);
      exitReason, phase := Some(reason), Closed;
    }
  }
}
