/** What a replayed minute comes to for the trade it finds, and how a day ends. */
module ReplayOutcomes {
  import opened Common
  import opened Money
  import opened Trading
  import opened SimulatedFill
  import opened ExitManagers
  import opened BacktestEngine

  function StrikeOf(v: TradeView, leg: Leg): int {
    if leg.CE? then v.ceStrike else v.peStrike
  }

  /** The minute shows a bar for both legs of the trade. */
  predicate HasBars(v: TradeView, m: Minute) {
    (v.ceStrike, CE) in m.bars && (v.peStrike, PE) in m.bars
  }

  function CloseOf(v: TradeView, m: Minute, leg: Leg): real
    requires HasBars(v, m)
  {
    m.bars[(StrikeOf(v, leg), leg)].close
  }

  /** The trade was sold for this reason, each leg that was still there at the close of its own bar. */
  ghost predicate SoldAtCloses(v: TradeView, w: TradeView, m: Minute, reason: ExitReason)
    requires HasBars(v, m)
  {
    && w.phase.Closed? && w.exitReason == Some(reason) && w.id == v.id && w.losingPnl == v.losingPnl
    && w.Exit(v.winner) == Some(CloseOf(v, m, v.winner))
    && w.Exit(v.winner.Other())
       == (if v.phase.BothLegs? then Some(CloseOf(v, m, v.winner.Other())) else v.Exit(v.winner.Other()))
  }

  /** The books with the open trade closed as w, its net result in the total and in the day's. */
  ghost predicate ClosedAs(b: Books, c: Books, w: TradeView) {
    && c.book.open.None? && c.book.closed == b.book.closed + [w] && c.nextId == b.nextId
    && c.book.realized == Round2(b.book.realized + w.NetPnl()) && c.session == Round2(b.session + w.NetPnl())
  }

  ghost predicate Tracks(b: Books, v: TradeView) {
    b.book.open == Some(v) && (v.phase.BothLegs? || v.phase.SingleLeg?)
  }

  lemma BarsAreThere(v: TradeView, m: Minute)
    ensures HasBars(v, m) <==> BarOf(m, v.ceStrike, CE).Some? && BarOf(m, v.peStrike, PE).Some?
  {
  }

  /** An exit for any reason but the target sells at the closes, as soon as both legs have a bar. */
  lemma ExitSells(b: Books, v: TradeView, reason: ExitReason, m: Minute) returns (w: TradeView)
    requires Tracks(b, v) && !reason.TargetHit? && HasBars(v, m)
    ensures SoldAtCloses(v, w, m, reason) && ClosedAs(b, CloseDone(b, reason, m), w)
  {
    w := Sold(v, m.bars[(v.ceStrike, CE)], m.bars[(v.peStrike, PE)], reason);
  }

  /** At or after the end of the day an open trade is squared off in the first minute that has its bars. */
  lemma ClosingSquaresOff(b: Books, v: TradeView, m: Minute, c: Choice, config: Config) returns (w: TradeView)
    requires Tracks(b, v) && m.hasAtm && m.closing && HasBars(v, m)
    ensures SoldAtCloses(v, w, m, EodSquareOff) && ClosedAs(b, MinuteDone(b, m, c, config), w)
  {
    w := ExitSells(b, v, EodSquareOff, m);
  }

  /** A minute after the end of the day that can sell this trade. */
  predicate CanSquareOff(v: TradeView, m: Minute) {
    m.hasAtm && HasBars(v, m)
  }

  predicate AfterHours(steps: seq<Step>) {
    forall i :: 0 <= i < |steps| ==> steps[i].minute.closing && !steps[i].minute.mayEnter
  }

  ghost predicate SquaredOffIn(v: TradeView, steps: seq<Step>) {
    exists i :: 0 <= i < |steps| && CanSquareOff(v, steps[i].minute)
  }

  lemma ClosingMinute(b: Books, m: Minute, c: Choice, config: Config)
    requires m.closing && !m.mayEnter && (b.book.open.Some? ==> Tracks(b, b.book.open.value))
    ensures
      var after := MinuteDone(b, m, c, config);
      if b.book.open.Some? && CanSquareOff(b.book.open.value, m) then after.book.open.None? else after == b
  {
    if b.book.open.Some? && CanSquareOff(b.book.open.value, m) {
      var w := ClosingSquaresOff(b, b.book.open.value, m, c, config);
    }
  }

  /** Over any minutes after the end of the day, a trade is gone exactly when one of them had its bars; until then the
      books stand still, and nothing is entered any more. */
  lemma {:induction false} DayEndsFlatIff(b: Books, steps: seq<Step>, config: Config)
    requires AfterHours(steps) && (b.book.open.Some? ==> Tracks(b, b.book.open.value))
    ensures
      var after := DayDone(b, steps, config);
      if b.book.open.Some? && SquaredOffIn(b.book.open.value, steps) then after.book.open.None? else after == b
  {
    if |steps| > 0 {
      var n := |steps| - 1;
      DayEndsFlatIff(b, steps[..n], config);
      var before := DayDone(b, steps[..n], config);
      ClosingMinute(before, steps[n].minute, steps[n].choice, config);
      if b.book.open.Some? {
        SquaredOffOneMore(b.book.open.value, steps);
      }
    }
  }

  lemma SquaredOffOneMore(v: TradeView, steps: seq<Step>)
    requires |steps| > 0
    ensures SquaredOffIn(v, steps)
       <==> SquaredOffIn(v, steps[..|steps| - 1]) || CanSquareOff(v, steps[|steps| - 1].minute)
  {
    var n := |steps| - 1;
    if i :| 0 <= i < n && CanSquareOff(v, steps[..n][i].minute) {
      assert CanSquareOff(v, steps[i].minute);
    }
    if i :| 0 <= i < |steps| && CanSquareOff(v, steps[i].minute) {
      assert i < n ==> CanSquareOff(v, steps[..n][i].minute);
    }
  }

  lemma {:induction false} DayInTwoParts(b: Books, early: seq<Step>, late: seq<Step>, config: Config)
    ensures DayDone(b, early + late, config) == DayDone(DayDone(b, early, config), late, config)
    decreases |late|
  {
    if |late| == 0 {
      assert early + late == early;
    } else {
      var n := |late| - 1;
      assert (early + late)[..|early| + n] == early + late[..n];
      DayInTwoParts(b, early, late[..n], config);
    }
  }

  /** A day of a replay, whatever came before and during it, ends with a trade open exactly when one was open at the
      end of the day's hours and no later minute had its bars. */
  lemma ReplayDayEndsFlatIff(
    nextId: nat, days: seq<seq<Step>>, early: seq<Step>, late: seq<Step>, config: Config)
    requires AfterHours(late)
    ensures
      var start := RunDone(nextId, days, config);
      var before := DayDone(Books(start.book, 0.0, start.nextId), early, config);
      var after := DayDone(Books(start.book, 0.0, start.nextId), early + late, config);
      && after == DayDone(before, late, config)
      && (after.book.open.Some? <==>
           before.book.open.Some? && !SquaredOffIn(before.book.open.value, late))
  {
    var start := RunDone(nextId, days, config);
    var opening := Books(start.book, 0.0, start.nextId);
    ReplayKeepsLaw(nextId, days, config);
    ReplayBalances(nextId, days, config);
    DayStartsSound(opening);
    DayKeepsLaw(opening, early, config);
    DayKeepsBooks(opening, early, config);
    DayInTwoParts(opening, early, late, config);
    DayEndsFlatIff(DayDone(opening, early, config), late, config);
  }

  // Minutes before the end of the day.

  /** The quotes an exit manager sees: the closes when both legs have a bar, else the last ones known. */
  function SeenQuote(v: TradeView, m: Minute, leg: Leg): real {
    if HasBars(v, m) then CloseOf(v, m, leg) else v.Current(leg)
  }

  function SeenLook(v: TradeView, m: Minute): Look {
    Look(SeenQuote(v, m, CE), SeenQuote(v, m, PE), 50.0, m.preclose)
  }

  /** What the manager of the trade's phase makes of the minute. */
  ghost function ManagerSays(v: TradeView, m: Minute, limits: Limits): Checked {
    if v.phase.BothLegs? then Check(v, SeenLook(v, m), limits) else SingleCheck(v, SeenLook(v, m), limits)
  }

  lemma LookIsSeen(v: TradeView, m: Minute)
    ensures LookOf(v, m) == SeenLook(v, m)
  {
  }

  /** The same pair, in the same phase, with the same sales. */
  predicate SamePair(v: TradeView, w: TradeView) {
    && w.phase == v.phase && w.ceStrike == v.ceStrike && w.peStrike == v.peStrike && w.winner == v.winner
    && w.id == v.id && w.losingPnl == v.losingPnl && w.exitCe == v.exitCe && w.exitPe == v.exitPe
    && w.entryCe == v.entryCe && w.entryPe == v.entryPe
    && w.quantity == v.quantity && w.lotSize == v.lotSize && w.regime == v.regime
  }

  lemma ActingKeepsPair(v: TradeView, f: Figures, limits: Limits)
    ensures SamePair(v, Act(v, f, limits).trade) && SamePair(v, SingleAct(v, f, limits).trade)
  {
  }

  lemma ManagersKeepPair(v: TradeView, m: Minute, limits: Limits)
    ensures SamePair(v, ManagerSays(v, m, limits).trade)
  {
    var look := SeenLook(v, m);
    ActingKeepsPair(v.Quoted(look.ce, look.pe), FiguresAt(v, look, limits), limits);
    ActingKeepsPair(v.Quoted(look.ce, look.pe), SingleFiguresAt(v, look, limits), limits);
  }

  /** A rotation may happen to a pair that is neither exited nor cut, and to a single leg in a sideways market. */
  predicate MayRotate(v: TradeView, m: Minute, c: Choice) {
    if v.phase.BothLegs? then !(v.regime.Directional? && c.cut) else m.sideways
  }

  /** What is asked for before the end of the day, with an open trade. */
  ghost function AskedFor(v: TradeView, m: Minute, c: Choice, limits: Limits): Option<Signal> {
    var reason := ManagerSays(v, m, limits).reason;
    if reason.Some? then Some(ExitSignal(reason.value))
    else if v.phase.BothLegs? && v.regime.Directional? && c.cut then Some(CutSignal)
    else if c.rotate.Some? && MayRotate(v, m, c) then Some(RotationSignal(c.rotate.value))
    else None
  }

  /** A minute before the end of the day looks as the manager does, and handles what is asked for. */
  lemma MinuteHandles(b: Books, v: TradeView, k: Checked, m: Minute, c: Choice, config: Config)
    requires Tracks(b, v) && m.hasAtm && !m.closing && k == ManagerSays(v, m, config.limits)
    ensures
      var looked := b.(book := b.book.(open := Some(k.trade)));
      MinuteDone(b, m, c, config) == match AskedFor(v, m, c, config.limits)
        case None => looked
        case Some(s) => Handled(looked, s, m, config)
  {
    LookIsSeen(v, m);
    assert Decided(v, m, c, config.limits) == Decision(k.trade, AskedFor(v, m, c, config.limits));
  }

  /** A stop or a giveback sells in the minute that meets it, if both legs have a bar. */
  lemma ManagedExitSells(b: Books, v: TradeView, m: Minute, c: Choice, config: Config) returns (w: TradeView)
    requires Tracks(b, v) && m.hasAtm && !m.closing && HasBars(v, m)
    requires
      var reason := ManagerSays(v, m, config.limits).reason;
      reason.Some? && !reason.value.TargetHit?
    ensures SoldAtCloses(v, w, m, ManagerSays(v, m, config.limits).reason.value)
    ensures ClosedAs(b, MinuteDone(b, m, c, config), w)
  {
    var k := ManagerSays(v, m, config.limits);
    ManagersKeepPair(v, m, config.limits);
    MinuteHandles(b, v, k, m, c, config);
    w := LookedTradeSells(b, v, k.trade, k.reason.value, m);
  }

  lemma LookedTradeSells(b: Books, v: TradeView, looked: TradeView, reason: ExitReason, m: Minute)
    returns (w: TradeView)
    requires Tracks(b, v) && SamePair(v, looked) && !reason.TargetHit? && HasBars(v, m)
    ensures
      var c := b.(book := b.book.(open := Some(looked)));
      && HasOpen(c.book) && c.book.open.Some?
      && SoldAtCloses(v, w, m, reason) && ClosedAs(b, CloseDone(c, reason, m), w)
  {
    w := ExitSells(b.(book := b.book.(open := Some(looked))), looked, reason, m);
  }

  /** A target that is met sells at the target prices, in the same minute. */
  lemma TargetExitSells(b: Books, v: TradeView, m: Minute, c: Choice, config: Config) returns (w: TradeView)
    requires Tracks(b, v) && v.phase.BothLegs? && v.Units() > 0 && m.hasAtm && !m.closing && HasBars(v, m)
    requires ManagerSays(v, m, config.limits).reason == Some(TargetHit)
    ensures ClosedAs(b, MinuteDone(b, m, c, config), w) && w.phase.Closed? && w.exitReason == Some(TargetHit)
    ensures
      var prices := TargetPrices(v, ProfitTarget(v, SeenLook(v, m), config.limits),
                                 m.bars[(v.ceStrike, CE)], m.bars[(v.peStrike, PE)]);
      w.exitCe == Some(prices.0) && w.exitPe == Some(prices.1)
  {
    var k := ManagerSays(v, m, config.limits);
    var target := ProfitTarget(v, SeenLook(v, m), config.limits);
    ManagersKeepPair(v, m, config.limits);
    MinuteHandles(b, v, k, m, c, config);
    TargetIsNoted(v, m, config.limits);
    w := TargetSells(b, v, k.trade, target, m);
  }

  lemma TargetIsNoted(v: TradeView, m: Minute, limits: Limits)
    requires v.phase.BothLegs? && ManagerSays(v, m, limits).reason == Some(TargetHit)
    ensures ManagerSays(v, m, limits).trade.target == Some(ProfitTarget(v, SeenLook(v, m), limits))
  {
  }

  lemma TargetSells(b: Books, v: TradeView, looked: TradeView, target: real, m: Minute) returns (w: TradeView)
    requires Tracks(b, v) && v.phase.BothLegs? && v.Units() > 0 && SamePair(v, looked) && HasBars(v, m)
    requires looked.target == Some(target)
    ensures
      var c := b.(book := b.book.(open := Some(looked)));
      var prices := TargetPrices(v, target, m.bars[(v.ceStrike, CE)], m.bars[(v.peStrike, PE)]);
      && HasOpen(c.book) && c.book.open.Some?
      && ClosedAs(b, CloseDone(c, TargetHit, m), w) && w.phase.Closed? && w.exitReason == Some(TargetHit)
      && w.exitCe == Some(prices.0) && w.exitPe == Some(prices.1)
  {
    w := Sold(looked, m.bars[(v.ceStrike, CE)], m.bars[(v.peStrike, PE)], TargetHit);
  }

  /** The strategy's wish to cut is followed for a directional pair nothing else closes: the loser goes at its own
      bar's close, the winner stays. */
  lemma CutMinute(b: Books, v: TradeView, m: Minute, c: Choice, config: Config)
    requires Tracks(b, v) && v.phase.BothLegs? && m.hasAtm && !m.closing && HasBars(v, m)
    requires ManagerSays(v, m, config.limits).reason.None? && v.regime.Directional? && c.cut
    ensures
      var after := MinuteDone(b, m, c, config);
      && after.book.open.Some? && after.book.closed == b.book.closed && after.session == b.session
      && var w := after.book.open.value;
         && w.phase.SingleLeg? && w.losingExit == Some(CloseOf(v, m, v.winner.Other()))
         && w.Exit(v.winner.Other()) == w.losingExit && w.Exit(v.winner) == v.Exit(v.winner)
         && w.losingPnl == Round2(v.LegPnl(v.winner.Other(), CloseOf(v, m, v.winner.Other())))
  {
    var k := ManagerSays(v, m, config.limits);
    ManagersKeepPair(v, m, config.limits);
    MinuteHandles(b, v, k, m, c, config);
    LookedTradeIsCut(b, v, k.trade, m);
  }

  lemma LookedTradeIsCut(b: Books, v: TradeView, looked: TradeView, m: Minute)
    requires Tracks(b, v) && v.phase.BothLegs? && SamePair(v, looked) && HasBars(v, m)
    ensures
      var after := CutDone(b.(book := b.book.(open := Some(looked))), m);
      && after.book.open.Some? && after.book.closed == b.book.closed && after.session == b.session
      && var w := after.book.open.value;
         && w.phase.SingleLeg? && w.losingExit == Some(CloseOf(v, m, v.winner.Other()))
         && w.Exit(v.winner.Other()) == w.losingExit && w.Exit(v.winner) == v.Exit(v.winner)
         && w.losingPnl == Round2(v.LegPnl(v.winner.Other(), CloseOf(v, m, v.winner.Other())))
  {
  }

  /** Where nothing closes, cuts or rotates the trade, the minute leaves it as the manager saw it. */
  lemma QuietMinute(b: Books, v: TradeView, m: Minute, c: Choice, config: Config)
    requires Tracks(b, v) && m.hasAtm && !m.closing && ManagerSays(v, m, config.limits).reason.None?
    requires v.phase.BothLegs? && v.regime.Directional? ==> !c.cut
    requires c.rotate.None? || !MayRotate(v, m, c)
    ensures MinuteDone(b, m, c, config) == b.(book := b.book.(open := Some(ManagerSays(v, m, config.limits).trade)))
  {
    MinuteHandles(b, v, ManagerSays(v, m, config.limits), m, c, config);
  }

  function Portion(x: real, part: real): real {
    x * part
  }

  /** What a plan opens: the trade it names, each leg at the open of its own bar or at its limit inside it, with the
      stop that today's equity allows. */
  ghost predicate OpenedFrom(w: TradeView, id: nat, plan: Plan, m: Minute, config: Config, session: real)
    requires (plan.ceStrike, CE) in m.bars && (plan.peStrike, PE) in m.bars
  {
    var ce, pe := m.bars[(plan.ceStrike, CE)], m.bars[(plan.peStrike, PE)];
    var equity := Round2(config.capital + session);
    && w.id == id && w.phase.BothLegs? && PhaseFixesUnits(w)
    && w.winner == plan.winner && w.ceStrike == plan.ceStrike && w.peStrike == plan.peStrike
    && w.quantity == plan.quantity && w.lotSize == plan.lotSize && w.regime == plan.regime
    && w.entryCe == (if plan.limits.Some? then plan.limits.value.0 else ce.open)
    && w.entryPe == (if plan.limits.Some? then plan.limits.value.1 else pe.open)
    && (plan.limits.Some? ==> ce.low <= w.entryCe <= ce.high && pe.low <= w.entryPe <= pe.high)
    && w.riskCapital == (if equity > 0.0 then equity else 0.0)
    && w.hardStop == Round2(Portion(w.riskCapital, config.lossPct))
  }

  /** Can this plan be filled in this minute? */
  predicate Fillable(plan: Plan, m: Minute) {
    && (plan.ceStrike, CE) in m.bars && (plan.peStrike, PE) in m.bars
    && (plan.limits.Some? ==>
      && m.bars[(plan.ceStrike, CE)].low <= plan.limits.value.0 <= m.bars[(plan.ceStrike, CE)].high
      && m.bars[(plan.peStrike, PE)].low <= plan.limits.value.1 <= m.bars[(plan.peStrike, PE)].high)
  }

  lemma EntryOpensIff(b: Books, plan: Plan, m: Minute, config: Config)
    ensures
      var after := EntryDone(b, plan, m, config);
      if Fillable(plan, m) then
        && after.book.open.Some? && OpenedFrom(after.book.open.value, b.nextId, plan, m, config, b.session)
        && after == b.(book := b.book.(open := after.book.open), nextId := b.nextId + 1)
      else after == b
  {
    StopOfEquity(config, b.session);
  }

  lemma StopOfEquity(config: Config, session: real)
    ensures
      var sum := Round2(config.capital + session);
      var equity := if sum > 0.0 then sum else 0.0;
      Equity(config, session) == equity && LossLimit(config, equity) == Round2(Portion(equity, config.lossPct))
  {
    var sum := Round2(config.capital + session);
    LimitIsPortion(config, if sum > 0.0 then sum else 0.0);
  }

  lemma LimitIsPortion(config: Config, equity: real)
    requires equity >= 0.0
    ensures RawLossLimit(config, equity) == Portion(equity, config.lossPct)
  {
  }

  /** With nothing open a minute enters exactly when entries are allowed, the strategy has a plan, and it fills. */
  lemma FlatMinute(b: Books, m: Minute, c: Choice, config: Config)
    requires b.book.open.None?
    ensures
      var after := MinuteDone(b, m, c, config);
      if m.hasAtm && m.mayEnter && c.entry.Some? && Fillable(c.entry.value, m) then
        && after.book.open.Some? && OpenedFrom(after.book.open.value, b.nextId, c.entry.value, m, config, b.session)
        && after == b.(book := b.book.(open := after.book.open), nextId := b.nextId + 1)
      else after == b
  {
    if c.entry.Some? {
      EntryOpensIff(b, c.entry.value, m, config);
    }
  }

  /** A rotation sells the trade at the closes and enters the replacement at once, with the day's new total; the
      engine is flat when the replacement does not fill. */
  lemma RotationMinute(b: Books, v: TradeView, m: Minute, c: Choice, config: Config)
    returns (w: TradeView, flat: Books)
    requires Tracks(b, v) && m.hasAtm && !m.closing && HasBars(v, m)
    requires ManagerSays(v, m, config.limits).reason.None? && c.rotate.Some? && MayRotate(v, m, c)
    ensures SoldAtCloses(v, w, m, RotationExit) && ClosedAs(b, flat, w)
    ensures
      var after := MinuteDone(b, m, c, config);
      if Fillable(c.rotate.value, m) then
        && after.book.open.Some?
        && OpenedFrom(after.book.open.value, b.nextId, c.rotate.value, m, config, flat.session)
        && after == flat.(book := flat.book.(open := after.book.open), nextId := b.nextId + 1)
      else after == flat
  {
    var k := ManagerSays(v, m, config.limits);
    ManagersKeepPair(v, m, config.limits);
    MinuteHandles(b, v, k, m, c, config);
    w, flat := LookedTradeRotates(b, v, k.trade, c.rotate.value, m, config);
  }

  lemma LookedTradeRotates(b: Books, v: TradeView, looked: TradeView, plan: Plan, m: Minute, config: Config)
    returns (w: TradeView, flat: Books)
    requires Tracks(b, v) && SamePair(v, looked) && HasBars(v, m)
    ensures SoldAtCloses(v, w, m, RotationExit) && ClosedAs(b, flat, w)
    ensures
      var after := Handled(b.(book := b.book.(open := Some(looked))), RotationSignal(plan), m, config);
      if Fillable(plan, m) then
        && after.book.open.Some? && OpenedFrom(after.book.open.value, b.nextId, plan, m, config, flat.session)
        && after == flat.(book := flat.book.(open := after.book.open), nextId := b.nextId + 1)
      else after == flat
  {
    w := LookedTradeSells(b, v, looked, RotationExit, m);
    flat := CloseDone(b.(book := b.book.(open := Some(looked))), RotationExit, m);
    EntryOpensIff(flat, plan, m, config);
  }

  lemma SignalWithoutBars(b: Books, v: TradeView, s: Signal, m: Minute, config: Config)
    requires Tracks(b, v) && !HasBars(v, m) && !s.EntrySignal?
    ensures Handled(b, s, m, config) == b
  {
    BarsAreThere(v, m);
  }

  lemma OpenTradeAsksNoEntry(b: Books, v: TradeView, m: Minute, c: Choice, limits: Limits)
    requires Tracks(b, v)
    ensures Asked(b.book, m, c, limits).Some? ==> !Asked(b.book, m, c, limits).value.EntrySignal?
  {
  }

  lemma LookedAt(b: Books, v: TradeView, m: Minute, c: Choice, limits: Limits)
    requires Tracks(b, v)
    ensures
      var w := if m.closing then v else ManagerSays(v, m, limits).trade;
      Looked(b.book, m, c, limits) == b.book.(open := Some(w))
  {
    LookIsSeen(v, m);
  }

  /** Without the bars of both legs no trade is sold, cut or rotated. */
  lemma NoBarsNoSale(b: Books, v: TradeView, m: Minute, c: Choice, config: Config)
    requires Tracks(b, v) && !HasBars(v, m)
    ensures
      var w := if m.closing || !m.hasAtm then v else ManagerSays(v, m, config.limits).trade;
      MinuteDone(b, m, c, config) == b.(book := b.book.(open := Some(w)))
  {
    var w := if m.closing then v else ManagerSays(v, m, config.limits).trade;
    var asked := Asked(b.book, m, c, config.limits);
    ManagersKeepPair(v, m, config.limits);
    LookedAt(b, v, m, c, config.limits);
    OpenTradeAsksNoEntry(b, v, m, c, config.limits);
    if asked.Some? {
      SignalWithoutBars(b.(book := b.book.(open := Some(w))), w, asked.value, m, config);
    }
  }
}
