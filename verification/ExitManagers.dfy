/** When an open trade is exited: hard stop, trailing giveback, profit target. */
module ExitManagers {
  import opened Common
  import opened Money
  import opened Trading
  import TransactionCosts

  datatype Limits = Limits(
    givebackPct: real, perTradeLossPct: real, totalCapital: real, ivLow: real, ivHigh: real)

  /** One look at the market: both quotes, the volatility percentile, and whether the close is near. */
  datatype Look = Look(ce: real, pe: real, iv: real, preclose: bool)

  /** The loss at which a trade is stopped: frozen at entry, or derived from capital when it was not. */
  function StopLoss(v: TradeView, limits: Limits): real {
    var stop :=
      if v.hardStop > 0.0 then v.hardStop
      else (if v.riskCapital != 0.0 then v.riskCapital else limits.totalCapital) * limits.perTradeLossPct;
    if stop < 0.0 then -stop else stop
  }

  function Threshold(peak: real, limits: Limits): real {
    peak * (1.0 - limits.givebackPct)
  }

  function Factor(iv: real, limits: Limits): real {
    if iv < limits.ivLow then 0.04 else if iv > limits.ivHigh then 0.06 else 0.05
  }

  /** The profit a sideways trade is closed at. */
  ghost function ProfitTarget(v: TradeView, look: Look, limits: Limits): real {
    var costs := TransactionCosts.TotalCosts(v.entryCe, v.entryPe, v.entryCe, v.entryPe, v.quantity, v.lotSize);
    var target := costs + Value(v.entryCe + v.entryPe, v.Units()) * Factor(look.iv, limits) + 8.0;
    if look.preclose then target * 1.5 else target
  }

  ghost function Gross(v: TradeView, look: Look): real {
    v.Quoted(look.ce, look.pe).CombinedPnl()
  }

  ghost function Net(v: TradeView, look: Look): real {
    v.Quoted(look.ce, look.pe).NetPnl()
  }

  /** What the winning leg alone has made, unrounded. */
  ghost function Winning(v: TradeView, look: Look): real {
    v.LegPnl(v.winner, if v.winner.CE? then look.ce else look.pe)
  }

  /** The numbers an exit decision looks at; only a sideways trade with both legs open has a target. */
  datatype Figures = Figures(stop: real, net: real, profit: real, target: Option<real>)

  ghost function FiguresAt(v: TradeView, look: Look, limits: Limits): Figures {
    Figures(StopLoss(v, limits), Net(v, look), Gross(v, look),
            if v.regime.Sideways? then Some(ProfitTarget(v, look, limits)) else None)
  }

  ghost function SingleFiguresAt(v: TradeView, look: Look, limits: Limits): Figures {
    Figures(StopLoss(v, limits), Net(v, look), Winning(v, look), None)
  }

  /** The rule these figures meet when `best` is the best profit so far. */
  ghost function Rule(f: Figures, best: real, limits: Limits): Option<ExitReason> {
    if f.net <= -f.stop then Some(HardStop)
    else if best > 0.0 && f.profit < Threshold(best, limits) then Some(Giveback)
    else if f.target.Some? && f.profit >= f.target.value then Some(TargetHit)
    else None
  }

  // The reference: what the whole history of looks says, from the trade as it stood before any of them.

  /** The best profit seen so far, never below what was already on record. */
  ghost function Best(start: real, profits: seq<real>): real {
    if |profits| == 0 then start
    else MaxReal(Best(start, profits[..|profits| - 1]), profits[|profits| - 1])
  }

  /** Best is the starting value or one of the profits, and none exceeds it. */
  lemma {:induction false} BestIsMaximum(start: real, profits: seq<real>)
    ensures start <= Best(start, profits)
    ensures forall i :: 0 <= i < |profits| ==> profits[i] <= Best(start, profits)
    ensures Best(start, profits) == start || Best(start, profits) in profits
  {
    if |profits| > 0 {
      var n := |profits| - 1;
      BestIsMaximum(start, profits[..n]);
      forall i | 0 <= i < |profits|
        ensures profits[i] <= Best(start, profits)
      {
        if i < n {
          assert profits[..n][i] == profits[i];
        }
      }
    }
  }

  ghost function Grosses(v: TradeView, looks: seq<Look>): (p: seq<real>)
    ensures |p| == |looks|
  {
    if |looks| == 0 then []
    else Grosses(v, looks[..|looks| - 1]) + [Gross(v, looks[|looks| - 1])]
  }

  ghost function Winnings(v: TradeView, looks: seq<Look>): (p: seq<real>)
    ensures |p| == |looks|
  {
    if |looks| == 0 then []
    else Winnings(v, looks[..|looks| - 1]) + [Winning(v, looks[|looks| - 1])]
  }

  /** The rule met by the last look of a history while both legs are open. */
  ghost function Due(v: TradeView, looks: seq<Look>, limits: Limits): Option<ExitReason>
    requires |looks| > 0
  {
    Rule(FiguresAt(v, looks[|looks| - 1], limits), Best(v.peakCombined, Grosses(v, looks)), limits)
  }

  /** The rule met by the last look of a history while only the winning leg is open. */
  ghost function SingleDue(v: TradeView, looks: seq<Look>, limits: Limits): Option<ExitReason>
    requires |looks| > 0
  {
    Rule(SingleFiguresAt(v, looks[|looks| - 1], limits), Best(v.peakSingle, Winnings(v, looks)), limits)
  }

  // The managers: one look at a time, remembering only the peak on the trade.

  datatype Checked = Checked(trade: TradeView, reason: Option<ExitReason>)

  ghost function Peak(peak: real, profit: real): real {
    if profit > 0.0 then MaxReal(peak, profit) else peak
  }

  /** Stop first; then move the peak; then giveback; then target. */
  ghost function Act(w: TradeView, f: Figures, limits: Limits): Checked {
    if f.net <= -f.stop then Checked(w, Some(HardStop))
    else
      var p := w.(peakCombined := Peak(w.peakCombined, f.profit));
      if p.peakCombined > 0.0 && f.profit < Threshold(p.peakCombined, limits) then Checked(p, Some(Giveback))
      else if f.target.Some? && f.profit >= f.target.value then Checked(p.(target := f.target), Some(TargetHit))
      else Checked(p, None)
  }

  ghost function SingleAct(w: TradeView, f: Figures, limits: Limits): Checked {
    if f.net <= -f.stop then Checked(w, Some(HardStop))
    else
      var p := w.(peakSingle := Peak(w.peakSingle, f.profit));
      if p.peakSingle > 0.0 && f.profit < Threshold(p.peakSingle, limits) then Checked(p, Some(Giveback))
      else Checked(p, None)
  }

  ghost function Check(v: TradeView, look: Look, limits: Limits): Checked {
    if v.phase.BothLegs? then Act(v.Quoted(look.ce, look.pe), FiguresAt(v, look, limits), limits)
    else Checked(v, None)
  }

  ghost function SingleCheck(v: TradeView, look: Look, limits: Limits): Checked {
    if v.phase.SingleLeg? then SingleAct(v.Quoted(look.ce, look.pe), SingleFiguresAt(v, look, limits), limits)
    else Checked(v, None)
  }

  /** Looks fed to a manager one by one until it asks for an exit. */
  ghost function Watch(v: TradeView, looks: seq<Look>, limits: Limits): Checked {
    if |looks| == 0 then Checked(v, None)
    else
      var before := Watch(v, looks[..|looks| - 1], limits);
      if before.reason.Some? then before else Check(before.trade, looks[|looks| - 1], limits)
  }

  ghost function SingleWatch(v: TradeView, looks: seq<Look>, limits: Limits): Checked {
    if |looks| == 0 then Checked(v, None)
    else
      var before := SingleWatch(v, looks[..|looks| - 1], limits);
      if before.reason.Some? then before else SingleCheck(before.trade, looks[|looks| - 1], limits)
  }

  /** No look of the history met a rule. */
  ghost predicate Quiet(v: TradeView, looks: seq<Look>, limits: Limits) {
    forall k :: 0 < k <= |looks| ==> Due(v, looks[..k], limits).None?
  }

  ghost predicate SingleQuiet(v: TradeView, looks: seq<Look>, limits: Limits) {
    forall k :: 0 < k <= |looks| ==> SingleDue(v, looks[..k], limits).None?
  }

  /** The trade after looks that asked for nothing: the last quotes, and the best gross profit as its peak. */
  ghost function Seen(v: TradeView, looks: seq<Look>): TradeView {
    if |looks| == 0 then v
    else
      var now := looks[|looks| - 1];
      v.Quoted(now.ce, now.pe).(peakCombined := Best(v.peakCombined, Grosses(v, looks)))
  }

  ghost function SingleSeen(v: TradeView, looks: seq<Look>): TradeView {
    if |looks| == 0 then v
    else
      var now := looks[|looks| - 1];
      v.Quoted(now.ce, now.pe).(peakSingle := Best(v.peakSingle, Winnings(v, looks)))
  }

  lemma GrossForgetsPeaks(v: TradeView, combined: real, single: real)
    ensures v.(peakCombined := combined, peakSingle := single).CombinedPnl() == v.CombinedPnl()
  {
  }

  lemma CostsForgetPeaks(v: TradeView, combined: real, single: real)
    ensures v.(peakCombined := combined, peakSingle := single).Costs() == v.Costs()
  {
    var w := v.(peakCombined := combined, peakSingle := single);
    assert w.ChargedPrice(CE) == v.ChargedPrice(CE) && w.ChargedPrice(PE) == v.ChargedPrice(PE);
  }

  /** Profit and loss does not depend on the recorded peaks. */
  lemma PnlForgetsPeaks(v: TradeView, combined: real, single: real)
    ensures v.(peakCombined := combined, peakSingle := single).CombinedPnl() == v.CombinedPnl()
    ensures v.(peakCombined := combined, peakSingle := single).NetPnl() == v.NetPnl()
  {
    GrossForgetsPeaks(v, combined, single);
    CostsForgetPeaks(v, combined, single);
  }

  lemma TargetForgets(v: TradeView, w: TradeView, look: Look, limits: Limits)
    requires w.entryCe == v.entryCe && w.entryPe == v.entryPe && w.quantity == v.quantity && w.lotSize == v.lotSize
    ensures ProfitTarget(w, look, limits) == ProfitTarget(v, look, limits)
  {
  }

  /** The figures do not depend on earlier quotes or on the recorded peaks. */
  lemma FiguresForget(v: TradeView, ce: real, pe: real, combined: real, single: real, look: Look, limits: Limits)
    ensures
      var w := v.Quoted(ce, pe).(peakCombined := combined, peakSingle := single);
      && FiguresAt(w, look, limits) == FiguresAt(v, look, limits)
      && SingleFiguresAt(w, look, limits) == SingleFiguresAt(v, look, limits)
  {
    var w := v.Quoted(ce, pe).(peakCombined := combined, peakSingle := single);
    var now := v.Quoted(look.ce, look.pe);
    assert w.Quoted(look.ce, look.pe) == now.(peakCombined := combined, peakSingle := single);
    PnlForgetsPeaks(now, combined, single);
    TargetForgets(v, w, look, limits);
  }

  lemma {:induction false} BestStaysUp(start: real, profits: seq<real>)
    requires start >= 0.0
    ensures Best(start, profits) >= 0.0
  {
    BestIsMaximum(start, profits);
  }

  /** Acting on figures with the old peak is the rule with the new best. */
  lemma ActIsRule(w: TradeView, f: Figures, limits: Limits)
    requires w.peakCombined >= 0.0 && w.peakSingle >= 0.0
    ensures
      var best := MaxReal(w.peakCombined, f.profit);
      && Act(w, f, limits).reason == Rule(f, best, limits)
      && (Act(w, f, limits).reason.None? ==> Act(w, f, limits).trade == w.(peakCombined := best))
    ensures
      var best := MaxReal(w.peakSingle, f.profit);
      && (f.target.None? ==> SingleAct(w, f, limits).reason == Rule(f, best, limits))
      && (f.target.None? && SingleAct(w, f, limits).reason.None? ==>
           SingleAct(w, f, limits).trade == w.(peakSingle := best))
  {
  }

  lemma BestOfOneMore(start: real, profits: seq<real>, profit: real)
    ensures Best(start, profits + [profit]) == MaxReal(Best(start, profits), profit)
  {
    assert (profits + [profit])[..|profits|] == profits;
  }

  lemma ProfitsOfOneMore(v: TradeView, looks: seq<Look>, now: Look)
    ensures Grosses(v, looks + [now]) == Grosses(v, looks) + [Gross(v, now)]
    ensures Winnings(v, looks + [now]) == Winnings(v, looks) + [Winning(v, now)]
  {
    assert (looks + [now])[..|looks|] == looks;
  }

  /** One more look: the manager, knowing only the peak, decides as the whole history does. */
  lemma CheckIsDue(v: TradeView, looks: seq<Look>, now: Look, limits: Limits)
    requires v.phase.BothLegs? && v.peakCombined >= 0.0 && v.peakSingle >= 0.0
    ensures Check(Seen(v, looks), now, limits).reason == Due(v, looks + [now], limits)
    ensures Due(v, looks + [now], limits).None? ==>
      Check(Seen(v, looks), now, limits).trade == Seen(v, looks + [now])
  {
    var w, f := Seen(v, looks), FiguresAt(v, now, limits);
    ProfitsOfOneMore(v, looks, now);
    BestOfOneMore(v.peakCombined, Grosses(v, looks), f.profit);
    BestStaysUp(v.peakCombined, Grosses(v, looks));
    SeenFigures(v, looks, now, limits);
    ActIsRule(w.Quoted(now.ce, now.pe), f, limits);
  }

  lemma SeenFigures(v: TradeView, looks: seq<Look>, now: Look, limits: Limits)
    ensures FiguresAt(Seen(v, looks), now, limits) == FiguresAt(v, now, limits)
    ensures SingleFiguresAt(SingleSeen(v, looks), now, limits) == SingleFiguresAt(v, now, limits)
  {
    if |looks| > 0 {
      var last := looks[|looks| - 1];
      FiguresForget(v, last.ce, last.pe, Seen(v, looks).peakCombined, v.peakSingle, now, limits);
      FiguresForget(v, last.ce, last.pe, v.peakCombined, SingleSeen(v, looks).peakSingle, now, limits);
    }
  }

  lemma SingleCheckIsDue(v: TradeView, looks: seq<Look>, now: Look, limits: Limits)
    requires v.phase.SingleLeg? && v.peakCombined >= 0.0 && v.peakSingle >= 0.0
    ensures SingleCheck(SingleSeen(v, looks), now, limits).reason == SingleDue(v, looks + [now], limits)
    ensures SingleDue(v, looks + [now], limits).None? ==>
      SingleCheck(SingleSeen(v, looks), now, limits).trade == SingleSeen(v, looks + [now])
  {
    var w, f := SingleSeen(v, looks), SingleFiguresAt(v, now, limits);
    ProfitsOfOneMore(v, looks, now);
    BestOfOneMore(v.peakSingle, Winnings(v, looks), f.profit);
    BestStaysUp(v.peakSingle, Winnings(v, looks));
    SeenFigures(v, looks, now, limits);
    ActIsRule(w.Quoted(now.ce, now.pe), f, limits);
  }

  lemma QuietBefore(v: TradeView, looks: seq<Look>, limits: Limits)
    requires |looks| > 0 && Quiet(v, looks, limits)
    ensures Quiet(v, looks[..|looks| - 1], limits)
    ensures Due(v, looks, limits).None?
  {
    var n := |looks| - 1;
    assert looks[..n + 1] == looks;
    forall k | 0 < k <= n
      ensures Due(v, looks[..n][..k], limits).None?
    {
      assert looks[..n][..k] == looks[..k];
    }
  }

  lemma SingleQuietBefore(v: TradeView, looks: seq<Look>, limits: Limits)
    requires |looks| > 0 && SingleQuiet(v, looks, limits)
    ensures SingleQuiet(v, looks[..|looks| - 1], limits)
    ensures SingleDue(v, looks, limits).None?
  {
    var n := |looks| - 1;
    assert looks[..n + 1] == looks;
    forall k | 0 < k <= n
      ensures SingleDue(v, looks[..n][..k], limits).None?
    {
      assert looks[..n][..k] == looks[..k];
    }
  }

  /** While no look meets a rule the manager stays quiet and its stored peak is the best gross profit seen. */
  lemma {:induction false} QuietWatch(v: TradeView, looks: seq<Look>, limits: Limits)
    requires v.phase.BothLegs? && v.peakCombined >= 0.0 && v.peakSingle >= 0.0 && Quiet(v, looks, limits)
    ensures Watch(v, looks, limits) == Checked(Seen(v, looks), None)
  {
    if |looks| > 0 {
      var n := |looks| - 1;
      QuietBefore(v, looks, limits);
      QuietWatch(v, looks[..n], limits);
      CheckIsDue(v, looks[..n], looks[n], limits);
      InitAndLast(looks);
    }
  }

  /** The manager fires exactly at the first look that meets a rule, with that rule as its reason. */
  lemma WatchFiresAtFirst(v: TradeView, looks: seq<Look>, now: Look, limits: Limits)
    requires v.phase.BothLegs? && v.peakCombined >= 0.0 && v.peakSingle >= 0.0 && Quiet(v, looks, limits)
    ensures Watch(v, looks + [now], limits).reason == Due(v, looks + [now], limits)
  {
    QuietWatch(v, looks, limits);
    assert (looks + [now])[..|looks|] == looks;
    CheckIsDue(v, looks, now, limits);
  }

  lemma {:induction false} QuietSingleWatch(v: TradeView, looks: seq<Look>, limits: Limits)
    requires v.phase.SingleLeg? && v.peakCombined >= 0.0 && v.peakSingle >= 0.0 && SingleQuiet(v, looks, limits)
    ensures SingleWatch(v, looks, limits) == Checked(SingleSeen(v, looks), None)
  {
    if |looks| > 0 {
      var n := |looks| - 1;
      SingleQuietBefore(v, looks, limits);
      QuietSingleWatch(v, looks[..n], limits);
      SingleCheckIsDue(v, looks[..n], looks[n], limits);
      InitAndLast(looks);
    }
  }

  /** The single-leg manager fires exactly at the first look that meets one of its rules. */
  lemma SingleWatchFiresAtFirst(v: TradeView, looks: seq<Look>, now: Look, limits: Limits)
    requires v.phase.SingleLeg? && v.peakCombined >= 0.0 && v.peakSingle >= 0.0 && SingleQuiet(v, looks, limits)
    ensures SingleWatch(v, looks + [now], limits).reason == SingleDue(v, looks + [now], limits)
  {
    QuietSingleWatch(v, looks, limits);
    assert (looks + [now])[..|looks|] == looks;
    SingleCheckIsDue(v, looks, now, limits);
  }

  // What the managers answer, in the figures of the trade and the settings alone.

  /** The stop is the frozen amount, or its share of the capital at entry, or of the configured capital. */
  lemma StopIsFrozenOrShare(v: TradeView, limits: Limits)
    ensures StopLoss(v, limits) >= 0.0
    ensures v.hardStop > 0.0 ==> StopLoss(v, limits) == v.hardStop
    ensures v.hardStop <= 0.0 && v.riskCapital > 0.0 && limits.perTradeLossPct >= 0.0 ==>
      StopLoss(v, limits) == v.riskCapital * limits.perTradeLossPct
    ensures v.hardStop <= 0.0 && v.riskCapital == 0.0 && limits.totalCapital >= 0.0 && limits.perTradeLossPct >= 0.0 ==>
      StopLoss(v, limits) == limits.totalCapital * limits.perTradeLossPct
    ensures v.hardStop <= 0.0 ==>
      var share := (if v.riskCapital != 0.0 then v.riskCapital else limits.totalCapital) * limits.perTradeLossPct;
      StopLoss(v, limits) == share || StopLoss(v, limits) == -share
  {
    if v.riskCapital > 0.0 && limits.perTradeLossPct >= 0.0 {
      ProductOfNonNegative(v.riskCapital, limits.perTradeLossPct);
    }
    if limits.totalCapital >= 0.0 && limits.perTradeLossPct >= 0.0 {
      ProductOfNonNegative(limits.totalCapital, limits.perTradeLossPct);
    }
  }

  lemma ProductOfNonNegative(a: real, b: real)
    requires a >= 0.0 && b >= 0.0
    ensures a * b >= 0.0
  {
  }

  /** The profit has given back more than its share of the best one on record, the present one included. */
  ghost predicate GivesBack(best: real, profit: real, limits: Limits) {
    var peak := if profit > best then profit else best;
    peak > 0.0 && peak - profit > peak * limits.givebackPct
  }

  /** A sideways trade grosses its charges at entry, the share of the premium its volatility asks for, and 8.0. */
  ghost predicate MeetsTarget(v: TradeView, look: Look, limits: Limits) {
    var costs := TransactionCosts.TotalCosts(v.entryCe, v.entryPe, v.entryCe, v.entryPe, v.quantity, v.lotSize);
    var premium := Value(v.entryCe, v.Units()) + Value(v.entryPe, v.Units());
    var share :=
      if look.iv < limits.ivLow then premium * 0.04
      else if look.iv <= limits.ivHigh then premium * 0.05
      else premium * 0.06;
    var excess := Gross(v, look) - (costs + share + 8.0);
    v.regime.Sideways? && (if look.preclose then excess >= (costs + share + 8.0) * 0.5 else excess >= 0.0)
  }

  lemma TargetIsMet(v: TradeView, look: Look, limits: Limits)
    ensures MeetsTarget(v, look, limits) <==> v.regime.Sideways? && Gross(v, look) >= ProfitTarget(v, look, limits)
  {
    ValueAdds(v.entryCe, v.entryPe, v.Units());
  }

  /** What a manager answers to figures: stopped, given back or at target, exactly under its own condition. */
  lemma ActAnswersIff(w: TradeView, f: Figures, limits: Limits)
    ensures
      var reason, stopped := Act(w, f, limits).reason, f.net + f.stop <= 0.0;
      var givesBack := GivesBack(w.peakCombined, f.profit, limits);
      && (reason == Some(HardStop) <==> stopped)
      && (reason == Some(Giveback) <==> !stopped && givesBack)
      && (reason == Some(TargetHit) <==> !stopped && !givesBack && f.target.Some? && f.profit >= f.target.value)
      && (reason.Some? ==> reason.value in {HardStop, Giveback, TargetHit})
    ensures
      var reason, stopped := SingleAct(w, f, limits).reason, f.net + f.stop <= 0.0;
      && (reason == Some(HardStop) <==> stopped)
      && (reason == Some(Giveback) <==> !stopped && GivesBack(w.peakSingle, f.profit, limits))
      && (reason.Some? ==> reason.value in {HardStop, Giveback})
  {
    ThresholdIsShare(Peak(w.peakCombined, f.profit), f.profit, limits);
    ThresholdIsShare(Peak(w.peakSingle, f.profit), f.profit, limits);
  }

  lemma ThresholdIsShare(peak: real, profit: real, limits: Limits)
    ensures profit < Threshold(peak, limits) <==> peak - profit > peak * limits.givebackPct
  {
  }

  /** With both legs open the trade is stopped, given back or closed at target exactly under its own condition. */
  lemma CheckAnswersIff(v: TradeView, look: Look, limits: Limits)
    requires v.phase.BothLegs?
    ensures
      var stopped := Net(v, look) + StopLoss(v, limits) <= 0.0;
      var givesBack := GivesBack(v.peakCombined, Gross(v, look), limits);
      var reason := Check(v, look, limits).reason;
      && (reason == Some(HardStop) <==> stopped)
      && (reason == Some(Giveback) <==> !stopped && givesBack)
      && (reason == Some(TargetHit) <==> !stopped && !givesBack && MeetsTarget(v, look, limits))
      && (reason.Some? ==> reason.value in {HardStop, Giveback, TargetHit})
  {
    TargetIsMet(v, look, limits);
    ActAnswersIff(v.Quoted(look.ce, look.pe), FiguresAt(v, look, limits), limits);
  }

  /** A check records the quotes, the best positive profit unless stopped, and the target it was closed at. */
  lemma CheckRecords(v: TradeView, look: Look, limits: Limits)
    requires v.phase.BothLegs?
    ensures
      var c, gross := Check(v, look, limits), Gross(v, look);
      var peak := if c.reason != Some(HardStop) && gross > 0.0 && gross > v.peakCombined then gross else v.peakCombined;
      && c.trade == v.(ceCurrent := look.ce, peCurrent := look.pe, peakCombined := peak, target := c.trade.target)
      && (c.reason == Some(TargetHit) ==> c.trade.target.Some? && c.trade.target.value <= gross)
      && (c.reason != Some(TargetHit) ==> c.trade.target == v.target)
    ensures
      var normal := !look.preclose && limits.ivLow <= look.iv <= limits.ivHigh;
      Check(v, look, limits).reason == Some(TargetHit) && normal ==>
      var atEntry :=
        TransactionCosts.TotalCosts(v.entryCe, v.entryPe, v.entryCe, v.entryPe, v.quantity, v.lotSize);
      Check(v, look, limits).trade.target == Some(atEntry + Value(v.entryCe + v.entryPe, v.Units()) * 0.05 + 8.0)
  {
    var w, f := v.Quoted(look.ce, look.pe), FiguresAt(v, look, limits);
    assert Check(v, look, limits) == Act(w, f, limits);
  }

  /** The winning leg left alone is stopped by the whole trade's net and given back by its own profit. */
  lemma SingleCheckAnswersIff(v: TradeView, look: Look, limits: Limits)
    requires v.phase.SingleLeg?
    ensures
      var stopped := Net(v, look) + StopLoss(v, limits) <= 0.0;
      var sale := Value(if v.winner.CE? then look.ce else look.pe, v.Units());
      var profit := sale - Value(v.Entry(v.winner), v.Units());
      var reason := SingleCheck(v, look, limits).reason;
      && (reason == Some(HardStop) <==> stopped)
      && (reason == Some(Giveback) <==> !stopped && GivesBack(v.peakSingle, profit, limits))
      && (reason.Some? ==> reason.value in {HardStop, Giveback})
  {
    ValueAdds(if v.winner.CE? then look.ce else look.pe, v.Entry(v.winner), v.Units());
    ActAnswersIff(v.Quoted(look.ce, look.pe), SingleFiguresAt(v, look, limits), limits);
  }

  lemma NoUnitsMissTarget(v: TradeView, look: Look, limits: Limits)
    requires v.phase.BothLegs?
    ensures v.quantity == 0 || v.lotSize == 0 ==> Check(v, look, limits).reason != Some(TargetHit)
  {
    if v.quantity == 0 || v.lotSize == 0 {
      assert v.Units() == 0;
      NearestEvenIsUnique(0.0, 0);
      CheckAnswersIff(v, look, limits);
    }
  }

  /** Selling costs at most what it costs at the entry prices and a fraction of what was made and of the premium. */
  lemma TargetCoversCharges(bought: real, sold: real, made: real, units: nat)
    requires bought >= 0.0 && sold <= bought + bought + made
    requires Round2(Value(made, units)) >=
      TransactionCosts.CostsOfPremiums(bought, bought, units) + Value(bought, units) * 0.04 + 8.0
    ensures Round2(Round2(Value(made, units)) - TransactionCosts.CostsOfPremiums(bought, sold, units))
         >= 7.0 + Value(bought, units) * 0.03
  {
    TransactionCosts.CostsAreNearlyLinear(bought, bought, units);
    TransactionCosts.CostsAreNearlyLinear(bought, sold, units);
    ValueMonotone(sold, bought + bought + made, units);
    ValueAdds(bought + bought, made, units);
    ValueAdds(bought, bought, units);
    ValueMonotone(0.0, bought, units);
    Round2IsNear(Value(made, units));
    CoversCharges(Value(bought, units), Value(sold, units), Value(made, units),
      TransactionCosts.CostsOfPremiums(bought, bought, units), TransactionCosts.CostsOfPremiums(bought, sold, units));
  }

  lemma CoversCharges(premium: real, sale: real, made: real, atEntry: real, atExit: real)
    requires premium >= 0.0 && sale <= premium + premium + made && made <= Round2(made) + 0.005
    requires atEntry >= 94.39
    requires atExit <= 94.41 + premium * 0.000450316 + sale * 0.001920316
    ensures Round2(made) >= atEntry + premium * 0.04 + 8.0 ==> Round2(Round2(made) - atExit) >= 7.0 + premium * 0.03
  {
    Round2IsNear(Round2(made) - atExit);
  }

  lemma Round2IsNear(x: real)
    ensures x - 0.005 <= Round2(x) <= x + 0.005
  {
  }

  /** In the other phases a manager neither answers nor touches the trade. */
  lemma OtherPhasesAreLeft(v: TradeView, look: Look, limits: Limits)
    ensures v.phase in {SingleLeg, PartialExit, Closed} ==> Check(v, look, limits) == Checked(v, None)
    ensures v.phase in {BothLegs, PartialExit, Closed} ==> SingleCheck(v, look, limits) == Checked(v, None)
  {
  }

  /** A trade closed at its target has made money: selling at those quotes nets 7.0 and 3% of the premium at least. */
  lemma TargetExitNetsProfit(v: TradeView, look: Look, limits: Limits)
    requires v.phase.BothLegs? && PhaseFixesUnits(v)
    requires v.entryCe >= 0.0 && v.entryPe >= 0.0 && look.ce >= 0.0 && look.pe >= 0.0
    requires Check(v, look, limits).reason == Some(TargetHit)
    ensures Net(v, look) >= 7.0 + Value(v.entryCe + v.entryPe, v.Units()) * 0.03
  {
    NoUnitsMissTarget(v, look, limits);
    CheckAnswersIff(v, look, limits);
    TargetIsAtLeast(v, look, limits);
    PairNetsProfit(v.Quoted(look.ce, look.pe));
  }

  lemma PairNetsProfit(q: TradeView)
    requires q.phase.BothLegs? && PhaseFixesUnits(q) && q.quantity > 0 && q.lotSize > 0
    requires q.entryCe >= 0.0 && q.entryPe >= 0.0 && q.ceCurrent >= 0.0 && q.peCurrent >= 0.0
    requires
      var bought, units := q.entryCe + q.entryPe, q.Units();
      q.CombinedPnl() >= TransactionCosts.CostsOfPremiums(bought, bought, units) + Value(bought, units) * 0.04 + 8.0
    ensures q.NetPnl() >= 7.0 + Value(q.entryCe + q.entryPe, q.Units()) * 0.03
  {
    var bought, sold := q.entryCe + q.entryPe, ChargedAtQuote(q, CE) + ChargedAtQuote(q, PE);
    var made := (q.ceCurrent - q.entryCe) + (q.peCurrent - q.entryPe);
    NetOfPair(q, bought, sold, made, q.Units());
    ChargedIsWithin(q);
    TargetCoversCharges(bought, sold, made, q.Units());
  }

  lemma TargetIsAtLeast(v: TradeView, look: Look, limits: Limits)
    requires v.quantity > 0 && v.lotSize > 0 && v.entryCe >= 0.0 && v.entryPe >= 0.0
    requires MeetsTarget(v, look, limits)
    ensures
      var bought, units := v.entryCe + v.entryPe, v.Units();
      Gross(v, look) >= TransactionCosts.CostsOfPremiums(bought, bought, units) + Value(bought, units) * 0.04 + 8.0
  {
    var bought, units := v.entryCe + v.entryPe, v.Units();
    ValueAdds(v.entryCe, v.entryPe, units);
    ValueMonotone(0.0, bought, units);
    TransactionCosts.CostsAreNearlyLinear(bought, bought, units);
    assert TransactionCosts.CostsOfPremiums(bought, bought, units)
        == TransactionCosts.TotalCosts(v.entryCe, v.entryPe, v.entryCe, v.entryPe, v.quantity, v.lotSize);
  }

  lemma ChargedIsWithin(q: TradeView)
    requires q.entryCe >= 0.0 && q.entryPe >= 0.0 && q.ceCurrent >= 0.0 && q.peCurrent >= 0.0
    ensures ChargedAtQuote(q, CE) + ChargedAtQuote(q, PE) <= q.entryCe + q.ceCurrent + q.entryPe + q.peCurrent
  {
  }

  lemma NetOfPair(q: TradeView, bought: real, sold: real, made: real, units: nat)
    requires q.phase.BothLegs? && PhaseFixesUnits(q) && q.quantity > 0 && q.lotSize > 0 && units == q.Units()
    requires bought == q.entryCe + q.entryPe && sold == ChargedAtQuote(q, CE) + ChargedAtQuote(q, PE)
    requires made == (q.ceCurrent - q.entryCe) + (q.peCurrent - q.entryPe)
    ensures q.CombinedPnl() == Round2(Value(made, units))
    ensures q.NetPnl() == Round2(Round2(Value(made, units)) - TransactionCosts.CostsOfPremiums(bought, sold, units))
  {
    OpenGrossIsSumOfDifferences(q);
    OpenCostsAtQuotes(q);
    assert q.Costs() == TransactionCosts.CostsOfPremiums(bought, sold, units);
  }

  method ComputeProfitTarget(v: TradeView, look: Look, limits: Limits) returns (target: real)
    ensures target == ProfitTarget(v, look, limits)
  {
    var premium := ComputeValue(v.entryCe + v.entryPe, v.Units());
    var costs := TransactionCosts.ComputeTotalCosts(v.entryCe, v.entryPe, v.entryCe, v.entryPe, v.quantity, v.lotSize);
    target := costs + premium * Factor(look.iv, limits) + 8.0;
    if look.preclose {
      target := target * 1.5;
    }
  }

  method Measure(trade: Trade, look: Look, limits: Limits) returns (f: Figures)
    requires trade.ceCurrent == look.ce && trade.peCurrent == look.pe
    ensures f == FiguresAt(trade.View(), look, limits)
  {
    var v := trade.View();
    assert v == v.Quoted(look.ce, look.pe);
    var gross := trade.CombinedPnl();
    var net := trade.NetPnl();
    var target: Option<real> := None;
    if trade.regime.Sideways? {
      var t := ComputeProfitTarget(v, look, limits);
      target := Some(t);
    }
    f := Figures(StopLoss(v, limits), net, gross, target);
  }

  method MeasureSingle(trade: Trade, look: Look, limits: Limits) returns (f: Figures)
    requires trade.ceCurrent == look.ce && trade.peCurrent == look.pe
    ensures f == SingleFiguresAt(trade.View(), look, limits)
  {
    var v := trade.View();
    assert v == v.Quoted(look.ce, look.pe);
    var net := trade.NetPnl();
    var winning := trade.LegPnl(trade.winner, if trade.winner.CE? then look.ce else look.pe);
    f := Figures(StopLoss(v, limits), net, winning, None);
  }

  method Decide(trade: Trade, f: Figures, limits: Limits) returns (reason: Option<ExitReason>)
    modifies trade
    ensures Checked(trade.View(), reason) == Act(old(trade.View()), f, limits)
  {
    if f.net <= -f.stop {
      return Some(HardStop);
    }
    if f.profit > 0.0 {
      trade.peakCombined := MaxReal(trade.peakCombined, f.profit);
    }
    if trade.peakCombined > 0.0 && f.profit < Threshold(trade.peakCombined, limits) {
      return Some(Giveback);
    }
    if f.target.Some? && f.profit >= f.target.value {
      trade.target := f.target;
      return Some(TargetHit);
    }
    reason := None;
  }

  method DecideSingle(trade: Trade, f: Figures, limits: Limits) returns (reason: Option<ExitReason>)
    modifies trade
    ensures Checked(trade.View(), reason) == SingleAct(old(trade.View()), f, limits)
  {
    if f.net <= -f.stop {
      return Some(HardStop);
    }
    if f.profit > 0.0 {
      trade.peakSingle := MaxReal(trade.peakSingle, f.profit);
    }
    if trade.peakSingle > 0.0 && f.profit < Threshold(trade.peakSingle, limits) {
      return Some(Giveback);
    }
    reason := None;
  }

  method CheckExits(trade: Trade, look: Look, limits: Limits) returns (reason: Option<ExitReason>)
    modifies trade
    ensures Checked(trade.View(), reason) == Check(old(trade.View()), look, limits)
  {
    if !trade.phase.BothLegs? {
      return None;
    }
    ghost var v := trade.View();
    trade.Quote(look.ce, look.pe);
    var f := Measure(trade, look, limits);
    QuotedFigures(v, look, limits);
    reason := Decide(trade, f, limits);
  }

  method CheckSingleLegExit(trade: Trade, look: Look, limits: Limits) returns (reason: Option<ExitReason>)
    modifies trade
    ensures Checked(trade.View(), reason) == SingleCheck(old(trade.View()), look, limits)
  {
    if !trade.phase.SingleLeg? {
      return None;
    }
    ghost var v := trade.View();
    trade.Quote(look.ce, look.pe);
    var f := MeasureSingle(trade, look, limits);
    QuotedFigures(v, look, limits);
    reason := DecideSingle(trade, f, limits);
  }

  lemma QuotedFigures(v: TradeView, look: Look, limits: Limits)
    ensures FiguresAt(v.Quoted(look.ce, look.pe), look, limits) == FiguresAt(v, look, limits)
    ensures SingleFiguresAt(v.Quoted(look.ce, look.pe), look, limits) == SingleFiguresAt(v, look, limits)
  {
  }
}
