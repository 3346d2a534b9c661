/** Paper fills of a live trade's exits at the bids of the moment. */
module PaperExecutor {
  import opened Common
  import opened Money
  import opened Trading

  /** A quote can be sold at when it is there and positive. */
  predicate Executable(bid: Option<real>) {
    bid.Some? && bid.value > 0.0
  }

  method ExecuteExitBoth(trade: Trade, ceBid: Option<real>, peBid: Option<real>, reason: ExitReason) returns (ok: bool)
    modifies trade
    ensures ok <==> Executable(ceBid) && Executable(peBid)
    ensures trade.View() ==
      if ok then old(trade.View()).ExitBoth(ceBid.value, peBid.value, reason) else old(trade.View())
  {
    if !Executable(ceBid) || !Executable(peBid) {
      return false;
    }
    trade.ExitBoth(ceBid.value, peBid.value, reason);
    ok := true;
  }

  method ExecuteHedgeCut(trade: Trade, losingBid: Option<real>) returns (ok: bool)
    modifies trade
    ensures ok <==> Executable(losingBid)
    ensures trade.View() == if ok then old(trade.View()).HedgeCut(losingBid.value) else old(trade.View())
  {
    if !Executable(losingBid) {
      return false;
    }
    trade.HedgeCut(losingBid.value);
    ok := true;
  }

  method ExecuteSingleLegExit(trade: Trade, winningBid: Option<real>, reason: ExitReason) returns (ok: bool)
    modifies trade
    ensures ok <==> Executable(winningBid)
    ensures trade.View() == if ok then old(trade.View()).SingleLegExit(winningBid.value, reason) else old(trade.View())
  {
    if !Executable(winningBid) {
      return false;
    }
    trade.SingleLegExit(winningBid.value, reason);
    ok := true;
  }

  /** One attempt on a paper trade: the bids of both legs, and what the engine wants. */
  datatype Attempt =
    | ExitAttempt(ce: Option<real>, pe: Option<real>, reason: ExitReason)
    | CutAttempt(ce: Option<real>, pe: Option<real>)

  function BidOf(a: Attempt, leg: Leg): Option<real> {
    if leg.CE? then a.ce else a.pe
  }

  /** What an attempt does to the trade: closed trades and failed quotes are left alone, and a partially exited trade
      is sold like a whole pair. */
  ghost function Tried(v: TradeView, a: Attempt): TradeView {
    match a
    case ExitAttempt(ce, pe, reason) =>
      if v.phase.Closed? then v
      else if v.phase.SingleLeg? then
        if Executable(BidOf(a, v.winner)) then v.SingleLegExit(BidOf(a, v.winner).value, reason) else v
      else if Executable(ce) && Executable(pe) then v.ExitBoth(ce.value, pe.value, reason)
      else v
    case CutAttempt(_, _) =>
      if v.phase.BothLegs? && Executable(BidOf(a, v.winner.Other()))
      then v.HedgeCut(BidOf(a, v.winner.Other()).value) else v
  }

  ghost predicate Sellable(bid: Option<real>) {
    match bid
    case None => false
    case Some(price) => 0.0 < price
  }

  /** An exit sells each leg still held at its own bid, or nothing at all. */
  lemma ExitSellsAtBids(v: TradeView, ce: Option<real>, pe: Option<real>, reason: ExitReason)
    requires v.IsOpen()
    ensures
      var w := Tried(v, ExitAttempt(ce, pe, reason));
      var own := if v.winner == CE then ce else pe;
      var sold := if v.phase.SingleLeg? then Sellable(own) else Sellable(ce) && Sellable(pe);
      if !sold then w == v
      else
        && w.phase.Closed? && w.exitReason == Some(reason) && SameEntry(v, w)
        && (if v.phase.SingleLeg? then w.Exit(v.winner) == own && w.Exit(v.winner.Other()) == v.Exit(v.winner.Other())
            else w.exitCe == ce && w.exitPe == pe)
        && w.losingExit == v.losingExit && w.losingPnl == v.losingPnl
  {
  }

  /** A hedge cut sells the losing leg of a whole pair at that leg's bid, or nothing. */
  lemma CutSellsAtBid(v: TradeView, ce: Option<real>, pe: Option<real>)
    ensures
      var w := Tried(v, CutAttempt(ce, pe));
      var own := if v.winner == CE then pe else ce;
      if !v.phase.BothLegs? || !Sellable(own) then w == v
      else
        && w.phase.SingleLeg? && SameEntry(v, w) && w.losingExit == own == w.Exit(v.winner.Other())
        && w.losingPnl == Round2(Value(own.value - v.Entry(v.winner.Other()), v.Units()))
        && w.Exit(v.winner) == v.Exit(v.winner) && w.Open(v.winner) == v.Open(v.winner) && w.exitReason == v.exitReason
  {
  }

  /** The engine's dispatch of one signal on its open paper trade. */
  method Dispatch(trade: Trade, a: Attempt) returns (ok: bool)
    modifies trade
    ensures trade.View() == Tried(old(trade.View()), a)
    ensures !ok ==> trade.View() == old(trade.View())
  {
    ok := false;
    match a
    case ExitAttempt(ce, pe, reason) =>
      if trade.phase.SingleLeg? {
        ok := ExecuteSingleLegExit(trade, BidOf(a, trade.winner), reason);
      } else if !trade.phase.Closed? {
        ok := ExecuteExitBoth(trade, ce, pe, reason);
      }
    case CutAttempt(_, _) =>
      if trade.phase.BothLegs? {
        ok := ExecuteHedgeCut(trade, BidOf(a, trade.winner.Other()));
      }
  }

  ghost function Tries(v: TradeView, attempts: seq<Attempt>): TradeView {
    if |attempts| == 0 then v
    else Tried(Tries(v, attempts[..|attempts| - 1]), attempts[|attempts| - 1])
  }

  /** The trade as opened is what entry set; only the phase and what belongs to it has moved. */
  ghost predicate SameEntry(v: TradeView, w: TradeView) {
    && w.winner == v.winner && w.entryCe == v.entryCe && w.entryPe == v.entryPe
    && w.quantity == v.quantity && w.lotSize == v.lotSize && w.id == v.id
  }

  /** Over any attempts at any quotes the phase fixes the open units, and what is sold stays sold. */
  lemma {:induction false} AttemptsKeepUnits(v: TradeView, attempts: seq<Attempt>)
    requires PhaseFixesUnits(v)
    ensures PhaseFixesUnits(Tries(v, attempts)) && SameEntry(v, Tries(v, attempts))
    ensures forall leg :: Tries(v, attempts).Open(leg) <= v.Open(leg)
  {
    if |attempts| > 0 {
      AttemptsKeepUnits(v, attempts[..|attempts| - 1]);
      TriedKeepsUnits(Tries(v, attempts[..|attempts| - 1]), attempts[|attempts| - 1]);
    }
  }

  lemma TriedKeepsUnits(v: TradeView, a: Attempt)
    requires PhaseFixesUnits(v)
    ensures PhaseFixesUnits(Tried(v, a)) && SameEntry(v, Tried(v, a))
    ensures forall leg :: Tried(v, a).Open(leg) <= v.Open(leg)
  {
  }

  lemma TriedKeepsBooked(v: TradeView, a: Attempt)
    requires PhaseFixesUnits(v) && Booked(v)
    ensures Booked(Tried(v, a))
  {
  }

  lemma {:induction false} AttemptsKeepBooked(v: TradeView, attempts: seq<Attempt>)
    requires PhaseFixesUnits(v) && Booked(v)
    ensures Booked(Tries(v, attempts))
  {
    if |attempts| > 0 {
      AttemptsKeepUnits(v, attempts[..|attempts| - 1]);
      AttemptsKeepBooked(v, attempts[..|attempts| - 1]);
      TriedKeepsBooked(Tries(v, attempts[..|attempts| - 1]), attempts[|attempts| - 1]);
    }
  }

  /** However a trade came to be closed, its gross P&L is what its legs made: rounded once, give or take a
      paisa, and exactly that sum at whole-paise prices. */
  lemma ClosedGrossIsLegSum(v: TradeView, attempts: seq<Attempt>)
    requires v.phase.BothLegs? && PhaseFixesUnits(v)
    requires Tries(v, attempts).phase.Closed?
    ensures
      var w := Tries(v, attempts);
      && w.exitCe.Some? && w.exitPe.Some? && SameEntry(v, w)
      && -0.01 <= w.CombinedPnl() - Round2(ExactGross(w)) <= 0.01
      && (PaisePrices(v) && WholePaise(w.exitCe.value) && WholePaise(w.exitPe.value)
          ==> w.CombinedPnl() == ExactGross(w))
  {
    AttemptsKeepUnits(v, attempts);
    AttemptsKeepBooked(v, attempts);
    GrossOfClosed(Tries(v, attempts));
  }
}
