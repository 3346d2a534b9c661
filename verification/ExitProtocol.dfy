/** What one exit attempt does to a live trade, and what any sequence of attempts keeps. */
module ExitProtocol {
  import opened Common
  import opened Money
  import opened Trading
  import opened OrderBroker
  import opened Confirmation

  /** What the executor learns from a sell order it placed, a refused placement included. */
  function SaleOf(fate: Fate, qty: nat): Confirmed {
    Confirm(fate, qty)
  }

  /** One leg after an order for all its open units. */
  function AfterSale(v: TradeView, leg: Leg, c: Confirmed): TradeView {
    match c
    case Full(p) => v.LegSold(leg, p)
    case Part(f, p) => v.LegSold(leg, p).Left(leg, Max(0, v.Open(leg) - f))
    case Unfilled => v
  }

  /** The sale a leg gets when it still has open units. */
  function LegSale(v: TradeView, leg: Leg, fate: Fate): Option<Confirmed> {
    if v.Open(leg) > 0 then Some(SaleOf(fate, v.Open(leg))) else None
  }

  function ApplySale(v: TradeView, leg: Leg, sale: Option<Confirmed>): TradeView {
    if sale.Some? then AfterSale(v, leg, sale.value) else v
  }

  predicate FullOrNone(sale: Option<Confirmed>) {
    sale.Some? ==> sale.value.Full?
  }

  /** Exit both legs; ce and pe are the fates of the orders for the legs that have open units. */
  function AfterExitBoth(v: TradeView, ce: Fate, pe: Fate, reason: ExitReason): TradeView {
    if v.Open(CE) <= 0 && v.Open(PE) <= 0 then v
    else
      var ceSale, peSale := LegSale(v, CE, ce), LegSale(v, PE, pe);
      var sold := ApplySale(ApplySale(v, CE, ceSale), PE, peSale);
      if FullOrNone(ceSale) && FullOrNone(peSale) then sold.(exitReason := Some(reason), phase := Closed)
      else sold.(phase := PartialExit)
  }

  /** Sell the losing leg. */
  ghost function AfterHedgeCut(v: TradeView, fate: Fate): TradeView {
    var loser := v.winner.Other();
    if v.Open(loser) <= 0 then v
    else
      var c := SaleOf(fate, v.Open(loser));
      match c
      case Full(p) => v.HedgeCut(p)
      case Part(_, _) => AfterSale(v, loser, c).(phase := PartialExit)
      case Unfilled => v
  }

  /** Sell the winning leg. */
  function AfterSingleLegExit(v: TradeView, fate: Fate, reason: ExitReason): TradeView {
    if v.Open(v.winner) <= 0 then v
    else
      var c := SaleOf(fate, v.Open(v.winner));
      match c
      case Full(p) => v.SingleLegExit(p, reason)
      case Part(_, _) => AfterSale(v, v.winner, c).(phase := PartialExit)
      case Unfilled => v
  }

  /** One attempt of the engine, with the fates of the orders it would place for either leg. */
  datatype Attempt =
    | ExitAttempt(ceFate: Fate, peFate: Fate, reason: ExitReason)
    | HedgeCutAttempt(fate: Fate)

  /** The engine's dispatch: exits of an open trade by phase, hedge cuts of a whole pair only. */
  ghost function Dispatch(v: TradeView, a: Attempt): TradeView {
    match a
    case ExitAttempt(ce, pe, reason) =>
      if !v.IsOpen() then v
      else if v.phase.SingleLeg? then AfterSingleLegExit(v, if v.winner.CE? then ce else pe, reason)
      else AfterExitBoth(v, ce, pe, reason)
    case HedgeCutAttempt(fate) =>
      if v.phase.BothLegs? then AfterHedgeCut(v, fate) else v
  }

  /** Units of a leg the attempt asks the broker to sell; zero when no order is placed. */
  function Ordered(v: TradeView, a: Attempt, leg: Leg): nat {
    var applies := match a
      case ExitAttempt(_, _, _) => v.IsOpen() && (v.phase.SingleLeg? ==> leg == v.winner)
      case HedgeCutAttempt(_) => v.phase.BothLegs? && leg == v.winner.Other();
    if applies then Max(0, v.Open(leg)) else 0
  }

  function FateOf(a: Attempt, leg: Leg): Fate {
    match a
    case ExitAttempt(ce, pe, _) => if leg.CE? then ce else pe
    case HedgeCutAttempt(fate) => fate
  }

  /** Units of a leg the attempt is told were sold. */
  function Sold(v: TradeView, a: Attempt, leg: Leg): nat {
    Reported(SaleOf(FateOf(a, leg), Ordered(v, a, leg)), Ordered(v, a, leg))
  }

  /** What every attempt keeps. */
  ghost predicate ExitInvariant(v: TradeView) {
    && v.Open(CE) >= 0 && v.Open(PE) >= 0
    && (v.phase.Closed? ==> v.Open(CE) == v.Open(PE) == 0)
    && (v.phase.SingleLeg? ==> v.Open(v.winner.Other()) == 0)
  }

  ghost function Run(v: TradeView, attempts: seq<Attempt>): TradeView
    decreases |attempts|
  {
    if |attempts| == 0 then v else Run(Dispatch(v, attempts[0]), attempts[1..])
  }

  ghost function TotalSold(v: TradeView, attempts: seq<Attempt>, leg: Leg): nat
    decreases |attempts|
  {
    if |attempts| == 0 then 0
    else Sold(v, attempts[0], leg) + TotalSold(Dispatch(v, attempts[0]), attempts[1..], leg)
  }

  /** Units reported sold by an order for all the open units of a leg. */
  function SoldOpen(v: TradeView, leg: Leg, fate: Fate): (n: nat)
    ensures v.Open(leg) >= 0 ==> n <= v.Open(leg)
  {
    Reported(SaleOf(fate, Max(0, v.Open(leg))), Max(0, v.Open(leg)))
  }

  lemma LegSaleConserves(v: TradeView, leg: Leg, fate: Fate)
    requires v.Open(leg) >= 0
    ensures
      var sold := ApplySale(v, leg, LegSale(v, leg, fate));
      && sold.Open(leg) == v.Open(leg) - SoldOpen(v, leg, fate)
      && sold.Open(leg.Other()) == v.Open(leg.Other())
      && (FullOrNone(LegSale(v, leg, fate)) ==> sold.Open(leg) == 0)
  {
  }

  lemma ExitBothConserves(v: TradeView, ce: Fate, pe: Fate, reason: ExitReason)
    requires v.Open(CE) >= 0 && v.Open(PE) >= 0
    ensures
      var after := AfterExitBoth(v, ce, pe, reason);
      && after.Open(CE) == v.Open(CE) - SoldOpen(v, CE, ce)
      && after.Open(PE) == v.Open(PE) - SoldOpen(v, PE, pe)
      && (after == v || after.phase.PartialExit? || (after.phase.Closed? && after.Open(CE) == after.Open(PE) == 0))
  {
    LegSaleConserves(v, CE, ce);
    LegSaleConserves(ApplySale(v, CE, LegSale(v, CE, ce)), PE, pe);
  }

  lemma HedgeCutConserves(v: TradeView, fate: Fate)
    requires v.Open(v.winner.Other()) >= 0
    ensures
      var loser, after := v.winner.Other(), AfterHedgeCut(v, fate);
      && after.Open(loser) == v.Open(loser) - SoldOpen(v, loser, fate)
      && after.Open(v.winner) == v.Open(v.winner)
      && (after == v || after.phase.PartialExit? || (after.phase.SingleLeg? && after.Open(loser) == 0))
  {
  }

  lemma SingleLegExitConserves(v: TradeView, fate: Fate, reason: ExitReason)
    requires v.Open(v.winner) >= 0
    ensures
      var after := AfterSingleLegExit(v, fate, reason);
      && after.Open(v.winner) == v.Open(v.winner) - SoldOpen(v, v.winner, fate)
      && after.Open(v.winner.Other()) == v.Open(v.winner.Other())
      && (after == v || after.phase.PartialExit? || (after.phase.Closed? && after.Open(v.winner) == 0))
  {
  }

  /** One attempt: the open units fall by exactly what is reported sold, and never more than they are is ordered. */
  lemma AttemptConserves(v: TradeView, a: Attempt, leg: Leg)
    requires ExitInvariant(v)
    ensures ExitInvariant(Dispatch(v, a))
    ensures Dispatch(v, a).Open(leg) == v.Open(leg) - Sold(v, a, leg)
    ensures Sold(v, a, leg) <= Ordered(v, a, leg) <= v.Open(leg)
  {
    match a
    case ExitAttempt(ce, pe, reason) =>
      if v.phase.SingleLeg? {
        SingleLegExitConserves(v, FateOf(a, v.winner), reason);
      } else {
        ExitBothConserves(v, ce, pe, reason);
      }
    case HedgeCutAttempt(fate) =>
      HedgeCutConserves(v, fate);
  }

  /** Any sequence of exits, hedge cuts and retries from entry on conserves units, leg by leg. */
  lemma {:induction false} ExitsConserveUnits(v: TradeView, attempts: seq<Attempt>, leg: Leg)
    requires ExitInvariant(v)
    ensures ExitInvariant(Run(v, attempts))
    ensures Run(v, attempts).Open(leg) == v.Open(leg) - TotalSold(v, attempts, leg)
    decreases |attempts|
  {
    if |attempts| > 0 {
      AttemptConserves(v, attempts[0], leg);
      ExitsConserveUnits(Dispatch(v, attempts[0]), attempts[1..], leg);
    }
  }

  lemma OpenedTradeKeepsInvariant(v: TradeView)
    requires v.phase.BothLegs? && PhaseFixesUnits(v)
    ensures ExitInvariant(v)
  {
  }

  /** Total open units strictly fall on every attempt that sells anything, and stay put on every other. */
  lemma SellingMakesProgress(v: TradeView, a: Attempt)
    requires ExitInvariant(v)
    ensures
      var before, after := v.Open(CE) + v.Open(PE), Dispatch(v, a).Open(CE) + Dispatch(v, a).Open(PE);
      if Sold(v, a, CE) + Sold(v, a, PE) > 0 then after < before else after == before
  {
    AttemptConserves(v, a, CE);
    AttemptConserves(v, a, PE);
  }

  /** An exit attempt closes an open trade exactly when it orders something and every order is confirmed full. */
  lemma ExitClosesIffAllConfirmed(v: TradeView, a: Attempt)
    requires ExitInvariant(v) && v.IsOpen() && a.ExitAttempt?
    ensures Dispatch(v, a).phase.Closed?
       <==> (
         && (Ordered(v, a, CE) > 0 || Ordered(v, a, PE) > 0)
         && (Ordered(v, a, CE) > 0 ==> SaleOf(a.ceFate, Ordered(v, a, CE)).Full?)
         && (Ordered(v, a, PE) > 0 ==> SaleOf(a.peFate, Ordered(v, a, PE)).Full?))
  {
  }

  /** The price at which the attempt is told a leg was sold, in full or in part. */
  function SoldAt(v: TradeView, a: Attempt, leg: Leg): Option<real> {
    var c := SaleOf(FateOf(a, leg), Ordered(v, a, leg));
    if Ordered(v, a, leg) == 0 || c.Unfilled? then None else Some(c.price)
  }

  /** What an attempt leaves of a leg's prices: a leg sold, even in part, records what its own order brought as exit
      and quote; any other leg keeps what it had. */
  ghost predicate PricesAreFills(v: TradeView, w: TradeView, a: Attempt, leg: Leg) {
    if SoldAt(v, a, leg).Some? then w.Exit(leg) == SoldAt(v, a, leg) && w.Current(leg) == SoldAt(v, a, leg).value
    else w.Exit(leg) == v.Exit(leg) && w.Current(leg) == v.Current(leg)
  }

  lemma ExitBothAsFilled(v: TradeView, ce: Fate, pe: Fate, reason: ExitReason, leg: Leg)
    requires v.IsOpen() && !v.phase.SingleLeg?
    ensures PricesAreFills(v, AfterExitBoth(v, ce, pe, reason), ExitAttempt(ce, pe, reason), leg)
  {
  }

  lemma HedgeCutAsFilled(v: TradeView, fate: Fate, leg: Leg)
    requires v.phase.BothLegs?
    ensures PricesAreFills(v, AfterHedgeCut(v, fate), HedgeCutAttempt(fate), leg)
  {
  }

  lemma SingleLegExitAsFilled(v: TradeView, ce: Fate, pe: Fate, reason: ExitReason, leg: Leg)
    requires v.phase.SingleLeg?
    ensures PricesAreFills(v, AfterSingleLegExit(v, if v.winner.CE? then ce else pe, reason),
                           ExitAttempt(ce, pe, reason), leg)
  {
  }

  /** Every attempt records for each leg what that leg's own order brought, and nothing else moves a price. */
  lemma AttemptRecordsFills(v: TradeView, a: Attempt, leg: Leg)
    ensures PricesAreFills(v, Dispatch(v, a), a, leg)
  {
    match a
    case ExitAttempt(ce, pe, reason) =>
      if v.phase.SingleLeg? {
        SingleLegExitAsFilled(v, ce, pe, reason, leg);
      } else if v.IsOpen() {
        ExitBothAsFilled(v, ce, pe, reason, leg);
      }
    case HedgeCutAttempt(fate) =>
      if v.phase.BothLegs? {
        HedgeCutAsFilled(v, fate, leg);
      }
  }

  /** Something the attempt ordered was not confirmed in full. */
  predicate LeftUnconfirmed(v: TradeView, a: Attempt) {
    || (Ordered(v, a, CE) > 0 && !SaleOf(FateOf(a, CE), Ordered(v, a, CE)).Full?)
    || (Ordered(v, a, PE) > 0 && !SaleOf(FateOf(a, PE), Ordered(v, a, PE)).Full?)
  }

  /** Nothing the attempt ordered brought a unit. */
  predicate NothingSold(v: TradeView, a: Attempt) {
    SoldAt(v, a, CE).None? && SoldAt(v, a, PE).None?
  }

  /** How an attempt ends: with every order full an exit closes for its reason and a cut books the loser; else an exit
      of both legs leaves a partial exit, and a one-leg order does so only when a part of it was sold. */
  lemma AttemptOutcome(v: TradeView, a: Attempt)
    ensures
      var w, ordered := Dispatch(v, a), Ordered(v, a, CE) > 0 || Ordered(v, a, PE) > 0;
      if !ordered then w == v
      else if !LeftUnconfirmed(v, a) then
        if a.ExitAttempt? then w.phase.Closed? && w.exitReason == Some(a.reason) && w.losingPnl == v.losingPnl
        else && w.phase.SingleLeg? && w.losingExit == SoldAt(v, a, v.winner.Other())
             && w.losingPnl == Round2(v.LegPnl(v.winner.Other(), SoldAt(v, a, v.winner.Other()).value))
      else if v.phase.SingleLeg? || a.HedgeCutAttempt? then
        if NothingSold(v, a) then w == v else w.phase.PartialExit? && w.exitReason == v.exitReason
      else w.phase.PartialExit? && w.exitReason == v.exitReason
  {
    match a
    case ExitAttempt(ce, pe, reason) =>
      if v.phase.SingleLeg? {
        SingleOutcome(v, a);
      } else if v.IsOpen() {
        BothOutcome(v, a);
      }
    case HedgeCutAttempt(fate) =>
  }

  lemma SingleOutcome(v: TradeView, a: Attempt)
    requires v.phase.SingleLeg? && a.ExitAttempt?
    ensures
      var w := Dispatch(v, a);
      if Ordered(v, a, v.winner) == 0 then w == v
      else if !LeftUnconfirmed(v, a) then
        w.phase.Closed? && w.exitReason == Some(a.reason) && w.losingPnl == v.losingPnl
      else if NothingSold(v, a) then w == v
      else w.phase.PartialExit? && w.exitReason == v.exitReason
  {
  }

  lemma BothOutcome(v: TradeView, a: Attempt)
    requires v.IsOpen() && !v.phase.SingleLeg? && a.ExitAttempt?
    ensures
      var w := Dispatch(v, a);
      if Ordered(v, a, CE) == 0 && Ordered(v, a, PE) == 0 then w == v
      else if LeftUnconfirmed(v, a) then w.phase.PartialExit? && w.exitReason == v.exitReason
      else w.phase.Closed? && w.exitReason == Some(a.reason) && w.losingPnl == v.losingPnl
  {
  }

  /** An attempt that closes the trade, against a broker that behaves. */
  ghost predicate ClosesHonestly(v: TradeView, a: Attempt) {
    && Dispatch(v, a).phase.Closed?
    && WellBehaved(FateOf(a, CE), Ordered(v, a, CE)) && WellBehaved(FateOf(a, PE), Ordered(v, a, PE))
  }

  /** A sell order filled at once. */
  function PromptFill(units: nat): Fate {
    Accepted([Seen(Traded, units, None, 1.0)], true, 0, 0)
  }

  lemma PromptFillIsFull(units: nat)
    ensures WellBehaved(PromptFill(units), units) && SaleOf(PromptFill(units), units).Full?
  {
    assert LookAt(PromptFill(units), units, 0) == Seen(Traded, units, None, 1.0);
    assert StopAt(PromptFill(units), units, 0) == 0;
  }

  /** While units are left, an open trade can be closed by one attempt; once none are, nothing closes it. */
  lemma ClosableIffUnitsLeft(v: TradeView)
    requires ExitInvariant(v) && v.IsOpen()
    ensures (exists a: Attempt :: Dispatch(v, a).phase.Closed?) <==> v.Open(CE) > 0 || v.Open(PE) > 0
    ensures v.Open(CE) > 0 || v.Open(PE) > 0 ==> exists a: Attempt :: ClosesHonestly(v, a)
  {
    if v.Open(CE) > 0 || v.Open(PE) > 0 {
      var a := ExitAttempt(PromptFill(v.Open(CE)), PromptFill(v.Open(PE)), Manual);
      PromptFillIsFull(v.Open(CE));
      PromptFillIsFull(v.Open(PE));
      ExitClosesIffAllConfirmed(v, a);
      PromptFillBehaves(v.Open(CE), Ordered(v, a, CE));
      PromptFillBehaves(v.Open(PE), Ordered(v, a, PE));
      assert ClosesHonestly(v, a);
    }
    if a: Attempt :| Dispatch(v, a).phase.Closed? {
      SomethingIsSold(v, a);
    }
  }

  lemma PromptFillBehaves(units: nat, ordered: nat)
    requires ordered == units || ordered == 0
    ensures WellBehaved(PromptFill(units), ordered)
  {
    assert LookAt(PromptFill(units), ordered, 0) == Seen(Traded, Min(units, ordered), None, 1.0);
  }

  lemma SomethingIsSold(v: TradeView, a: Attempt)
    requires ExitInvariant(v) && v.IsOpen() && Dispatch(v, a).phase.Closed?
    ensures v.Open(CE) > 0 || v.Open(PE) > 0
  {
    if a.ExitAttempt? {
      ExitClosesIffAllConfirmed(v, a);
    }
  }

  /** A trade that is partially exited with nothing left to sell can never be closed again. */
  lemma {:induction false} SoldOutPartialExitIsStuck(v: TradeView, attempts: seq<Attempt>)
    requires v.phase.PartialExit? && v.Open(CE) == 0 && v.Open(PE) == 0
    ensures Run(v, attempts) == v
  {
    if |attempts| > 0 {
      SoldOutPartialExitIsStuck(v, attempts[1..]);
    }
  }

  /** Such a trade is reached when an order is filled completely but never reported as TRADED. */
  lemma SoldOutPartialExitIsReachable(v: TradeView, reason: ExitReason)
    requires v.phase.BothLegs? && PhaseFixesUnits(v) && v.Units() > 0
    ensures
      var fate := Accepted([Seen(Working, v.Units(), None, 1.0)], true, 0, 0);
      var out := Dispatch(v, ExitAttempt(fate, fate, reason));
      && WellBehaved(fate, v.Units())
      && out.phase.PartialExit? && out.Open(CE) == 0 && out.Open(PE) == 0
  {
    var fate := Accepted([Seen(Working, v.Units(), None, 1.0)], true, 0, 0);
    assert StopAt(fate, v.Units(), 0) == 1;
  }
}
