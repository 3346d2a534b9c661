/** The last gate before an entry order. */
module ExecutionValidator {
  import opened Common
  import opened Money
  import opened PairTemplates
  import opened Trading
  import opened EntrySignal
  import opened PositionSizer
  import opened PairRanker

  datatype Why =
    | DailyLossLimit | AlreadyActive | CacheUnhealthy | QuoteMissing | QuoteStale | BothLegsOtm | ExpiryPassed
    | InvalidBook | NoQuantity | OutlayTooLarge | SpreadTooWide

  datatype Verdict = Approved | Blocked(why: Why)

  datatype EntryPlan = EntryPlan(
    pair: Pair, winner: Leg, quantity: int, lotSize: int, riskCapital: real, hardStop: real)

  /** What the clock, the feed and the account say at validation time. */
  datatype Health = Health(
    realized: real, dailyLimit: real, tradeOpen: bool, cacheHealthy: bool, quotesFresh: bool, expiryPassed: bool,
    entryEquity: real, spreadFloor: real, directionalSpread: real, sidewaysSpread: real)

  /** A positive, non-inverted top of book. */
  predicate ValidBook(q: Quote) {
    q.bid.Some? && q.ask.Some? && q.bid.value > 0.0 && q.ask.value >= q.bid.value
  }

  predicate Breached(h: Health) {
    h.realized <= (if h.dailyLimit >= 0.0 then -h.dailyLimit else h.dailyLimit)
  }

  /** What buying the whole position at the asks costs. */
  function Outlay(ce: real, pe: real, quantity: nat, lotSize: int): real {
    Value(LotCost(ce, pe, lotSize), quantity)
  }

  /** Capital the plan was made with, or equity when it names none. */
  function PlanCapital(plan: EntryPlan, h: Health): real {
    if plan.riskCapital != 0.0 then plan.riskCapital else h.entryEquity
  }

  function DeployableFor(plan: EntryPlan, h: Health, rules: SizeRules): real {
    PlanCapital(plan, h) * rules.deployment
  }

  function Mid(q: Quote): real
    requires ValidBook(q)
  {
    (q.bid.value + q.ask.value) / 2.0
  }

  function SpreadLimit(regime: Regime, mid: real, h: Health): real {
    MaxReal(h.spreadFloor, mid * (if regime.Directional? then h.directionalSpread else h.sidewaysSpread))
  }

  predicate SpreadOk(ce: Quote, pe: Quote, regime: Regime, h: Health)
    requires ValidBook(ce) && ValidBook(pe)
  {
    ce.ask.value - ce.bid.value + (pe.ask.value - pe.bid.value) <= SpreadLimit(regime, Mid(ce) + Mid(pe), h)
  }

  /** The checks that need both quotes. */
  function CheckQuotes(plan: EntryPlan, ce: Quote, pe: Quote, d: Desk, h: Health): Verdict {
    if !h.quotesFresh then Blocked(QuoteStale)
    else if BothOtm(plan.pair, d.market.spot) then Blocked(BothLegsOtm)
    else if h.expiryPassed then Blocked(ExpiryPassed)
    else if !ValidBook(ce) || !ValidBook(pe) then Blocked(InvalidBook)
    else if plan.quantity <= 0 || plan.lotSize <= 0 then Blocked(NoQuantity)
    else if Outlay(ce.ask.value, pe.ask.value, plan.quantity, plan.lotSize) > DeployableFor(plan, h, d.rules.sizing)
    then Blocked(OutlayTooLarge)
    else if !SpreadOk(ce, pe, d.market.regime, h) then Blocked(SpreadTooWide)
    else Approved
  }

  function ValidateEntry(plan: EntryPlan, d: Desk, h: Health): Verdict {
    var mode := d.rules.entry.mode;
    if !mode.Paper? && Breached(h) then Blocked(DailyLossLimit)
    else if h.tradeOpen then Blocked(AlreadyActive)
    else if mode.Backtest? then Approved
    else if !h.cacheHealthy then Blocked(CacheUnhealthy)
    else
      var ce, pe := QuoteOf(d, plan.pair.0, CE), QuoteOf(d, plan.pair.1, PE);
      if ce.None? || pe.None? then Blocked(QuoteMissing)
      else CheckQuotes(plan, ce.value, pe.value, d, h)
  }

  /** Outside a replay an approved plan is in the money on at least one leg and its outlay is covered. */
  lemma ApprovedIsCovered(plan: EntryPlan, d: Desk, h: Health)
    requires ValidateEntry(plan, d, h).Approved? && !d.rules.entry.mode.Backtest?
    ensures !BothOtm(plan.pair, d.market.spot) && plan.quantity > 0 && plan.lotSize > 0
    ensures
      var ce, pe := QuoteOf(d, plan.pair.0, CE), QuoteOf(d, plan.pair.1, PE);
      && ce.Some? && pe.Some? && ValidBook(ce.value) && ValidBook(pe.value)
      && Outlay(ce.value.ask.value, pe.value.ask.value, plan.quantity, plan.lotSize)
         <= DeployableFor(plan, h, d.rules.sizing)
  {
  }

  /** A book that can be bought and sold at. */
  ghost predicate TwoSided(q: Option<Quote>) {
    && q.Some? && q.value.bid.Some? && q.value.ask.Some?
    && 0.0 < q.value.bid.value <= q.value.ask.value
  }

  /** All units at both asks cost no more than the share of the plan's capital, or of equity when it names none. */
  ghost predicate IsCovered(plan: EntryPlan, ce: Quote, pe: Quote, d: Desk, h: Health)
    requires TwoSided(Some(ce)) && TwoSided(Some(pe)) && plan.quantity > 0 && plan.lotSize > 0
  {
    var capital := if plan.riskCapital == 0.0 then h.entryEquity else plan.riskCapital;
    Value(ce.ask.value + pe.ask.value, plan.quantity * plan.lotSize) <= capital * d.rules.sizing.deployment
  }

  /** Both spreads together stay within the floor or within the regime's share of the summed mid prices. */
  ghost predicate IsNarrow(ce: Quote, pe: Quote, regime: Regime, h: Health)
    requires TwoSided(Some(ce)) && TwoSided(Some(pe))
  {
    var asks, bids := ce.ask.value + pe.ask.value, ce.bid.value + pe.bid.value;
    var share := match regime case Sideways => h.sidewaysSpread case Directional => h.directionalSpread;
    asks - bids <= h.spreadFloor || asks - bids <= (asks + bids) / 2.0 * share
  }

  lemma CoveredIff(plan: EntryPlan, ce: Quote, pe: Quote, d: Desk, h: Health)
    requires TwoSided(Some(ce)) && TwoSided(Some(pe)) && plan.quantity > 0 && plan.lotSize > 0
    ensures IsCovered(plan, ce, pe, d, h) <==>
      Outlay(ce.ask.value, pe.ask.value, plan.quantity, plan.lotSize) <= DeployableFor(plan, h, d.rules.sizing)
  {
    CostOfLots(ce.ask.value, pe.ask.value, plan.lotSize, plan.quantity);
  }

  lemma SpreadOkIff(ce: Quote, pe: Quote, regime: Regime, h: Health)
    requires TwoSided(Some(ce)) && TwoSided(Some(pe))
    ensures SpreadOk(ce, pe, regime, h) <==> IsNarrow(ce, pe, regime, h)
  {
    assert Mid(ce) + Mid(pe) == (ce.ask.value + pe.ask.value + (ce.bid.value + pe.bid.value)) / 2.0;
  }

  /** Every gate of a plan; a replay passes the first two only, and a PAPER trade has no daily loss limit. */
  lemma ApprovedIff(plan: EntryPlan, d: Desk, h: Health)
    ensures
      var mode, ce, pe := d.rules.entry.mode, QuoteOf(d, plan.pair.0, CE), QuoteOf(d, plan.pair.1, PE);
      ValidateEntry(plan, d, h) == Approved <==>
        && (mode == Paper || h.realized > h.dailyLimit || h.realized > -h.dailyLimit)
        && !h.tradeOpen
        && (mode == Backtest ||
             (&& h.cacheHealthy && h.quotesFresh && !h.expiryPassed
              && TwoSided(ce) && TwoSided(pe) && !BothOtm(plan.pair, d.market.spot)
              && plan.quantity > 0 && plan.lotSize > 0 && IsCovered(plan, ce.value, pe.value, d, h)
              && IsNarrow(ce.value, pe.value, d.market.regime, h)))
  {
    var ce, pe := QuoteOf(d, plan.pair.0, CE), QuoteOf(d, plan.pair.1, PE);
    if TwoSided(ce) && TwoSided(pe) {
      SpreadOkIff(ce.value, pe.value, d.market.regime, h);
      if plan.quantity > 0 && plan.lotSize > 0 {
        CoveredIff(plan, ce.value, pe.value, d, h);
      }
    }
  }

  /** A plan sized by the position sizer from the same asks and the same positive capital is never blocked for
      its quantity or its outlay. */
  lemma SizedPlanIsCovered(plan: EntryPlan, d: Desk, h: Health, ce: Quote, pe: Quote, capital: real)
    requires ce.ask.Some? && pe.ask.Some?
    requires plan.quantity == Lots(ce.ask.value, pe.ask.value, d.rules.sizing, Some(capital), d.lotSize) > 0
    requires plan.lotSize == LotSize(d.lotSize, d.rules.sizing) && plan.riskCapital == capital
    ensures CheckQuotes(plan, ce, pe, d, h) != Blocked(NoQuantity)
    ensures CheckQuotes(plan, ce, pe, d, h) != Blocked(OutlayTooLarge)
  {
    var a, b := ce.ask.value, pe.ask.value;
    LotsNeedPrices(a, b, d.rules.sizing, Some(capital), d.lotSize);
    LotsAreMaximal(a, b, d.rules.sizing, Some(capital), d.lotSize, plan.quantity);
    assert capital > 0.0 by {
      PositiveFactor(capital, d.rules.sizing.deployment);
    }
  }

  lemma PositiveFactor(x: real, y: real)
    requires MaxReal(0.0, x) * y > 0.0
    ensures x > 0.0
  {
  }
}
