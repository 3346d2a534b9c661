/** Net P&L of a closed trade, however it was closed, when one of its legs is sold for a paisa more. */
module NetOfClosed {
  import opened Common
  import opened Money
  import opened Trading
  import TransactionCosts

  /** A closed trade with its units sold, its exits recorded and its loser, if cut, booked at its sale. */
  ghost predicate WellClosed(w: TradeView) {
    w.phase.Closed? && PhaseFixesUnits(w) && Booked(w)
  }

  /** The same pair, closed in the same way, perhaps at other prices. */
  predicate SameDeal(v: TradeView, w: TradeView) {
    && v.winner == w.winner && v.entryCe == w.entryCe && v.entryPe == w.entryPe
    && v.quantity == w.quantity && v.lotSize == w.lotSize
    && (v.losingExit.Some? <==> w.losingExit.Some?)
  }

  /** The same close with one leg sold for a paisa more. */
  ghost predicate SoldForMore(v: TradeView, w: TradeView, raised: Leg) {
    && WellClosed(v) && WellClosed(w) && SameDeal(v, w)
    && w.Exit(raised).value == v.Exit(raised).value + 0.01
    && w.Exit(raised.Other()).value == v.Exit(raised.Other()).value
  }

  /** The price a leg was sold at. */
  function ExitOf(v: TradeView, leg: Leg): real
    requires v.Exit(leg).Some?
  {
    v.Exit(leg).value
  }

  /** What the losing and the winning leg made. */
  ghost function Lost(v: TradeView): real
    requires WellClosed(v)
  {
    v.LegPnl(v.winner.Other(), ExitOf(v, v.winner.Other()))
  }

  ghost function Won(v: TradeView): real
    requires WellClosed(v)
  {
    v.LegPnl(v.winner, ExitOf(v, v.winner))
  }

  /** The amount whose rounding is the gross P&L: a cut loser comes in already rounded. */
  ghost function BeforeRounding(v: TradeView): real
    requires WellClosed(v)
  {
    (if v.losingExit.Some? then Round2(Lost(v)) else Lost(v)) + Won(v)
  }

  lemma GrossIsRounded(v: TradeView)
    requires WellClosed(v)
    ensures v.CombinedPnl() == Round2(BeforeRounding(v))
  {
  }

  // Rounding twice.

  /** Adding whole units moves a rounded number by as many, or by one more or less to an even distance. */
  lemma RoundedShift(y: real, u: int)
    ensures
      var k := RoundHalfEven(y + u as real) - RoundHalfEven(y);
      k == u || (u - 1 <= k <= u + 1 && k % 2 == 0 && u % 2 != 0)
  {
    var m, n := RoundHalfEven(y), RoundHalfEven(y + u as real);
    assert IsNearestEven(y, m) && IsNearestEven(y + u as real, n);
    assert m + u - 1 <= n <= m + u + 1;
    if n != m + u {
      assert m % 2 == 0 && n % 2 == 0;
    }
  }

  /** Rounding, adding and rounding again still loses at most one unit in all. */
  lemma TwiceRoundedShift(y: real, z: real, u: nat)
    requires u >= 1
    ensures RoundHalfEven(RoundHalfEven(y + u as real) as real + z)
         >= RoundHalfEven(RoundHalfEven(y) as real + z) + u - 1
  {
    var k := RoundHalfEven(y + u as real) - RoundHalfEven(y);
    RoundedShift(y, u);
    RoundedShift(RoundHalfEven(y) as real + z, k);
    assert RoundHalfEven(y + u as real) as real + z == RoundHalfEven(y) as real + z + k as real;
  }

  lemma TwiceRoundedStep(l: real, x: real, units: nat)
    requires units >= 1
    ensures Round2(Round2(l + units as real * 0.01) + x) >= Round2(Round2(l) + x) + (units - 1) as real * 0.01
  {
    var y, z, more := l * 100.0, x * 100.0, l + units as real * 0.01;
    assert more * 100.0 == y + units as real;
    assert (Round2(l) + x) * 100.0 == RoundHalfEven(y) as real + z;
    assert (Round2(more) + x) * 100.0 == RoundHalfEven(y + units as real) as real + z;
    TwiceRoundedShift(y, z, units);
  }

  /** An amount exactly half a paisa above an even number of paise: rounding takes it down to the even one. */
  ghost predicate TieRoundsDown(x: real) {
    exists n: int :: n % 2 == 0 && IsPaise(x - 0.005, n)
  }

  /** One paisa more becomes two in rounding exactly at such an amount. */
  lemma PaisaIsDoubledIff(x: real)
    ensures Round2(x + 0.01) == Round2(x) + 0.02 <==> TieRoundsDown(x)
    ensures Round2(x) <= Round2(x + 0.01) <= Round2(x) + 0.02
  {
    var y := x * 100.0;
    var m, k := RoundHalfEven(y), RoundHalfEven(y + 1.0);
    assert (x + 0.01) * 100.0 == y + 1.0;
    assert IsNearestEven(y, m) && IsNearestEven(y + 1.0, k);
    if k == m + 2 {
      assert m % 2 == 0 && IsPaise(x - 0.005, m);
    }
    if n: int :| n % 2 == 0 && IsPaise(x - 0.005, n) {
      NearestEvenIsUnique(y, n);
      NearestEvenIsUnique(y + 1.0, n + 2);
    }
    RoundedShift(y, 1);
  }

  /** Rounding twice, a paisa more on the first amount is lost exactly when one of the two roundings loses it and
      the first one does not double it. */
  lemma PaisaIsLostTwiceRoundedIff(l: real, x: real)
    ensures Round2(Round2(l + 0.01) + x) == Round2(Round2(l) + x)
       <==> TieRoundsUp(l) || (TieRoundsUp(Round2(l) + x) && !TieRoundsDown(l))
    ensures Round2(Round2(l + 0.01) + x) >= Round2(Round2(l) + x)
  {
    var before := Round2(l) + x;
    PaisaIsLostIff(l);
    PaisaIsDoubledIff(l);
    RoundedPaise(l);
    if Round2(l + 0.01) == Round2(l) + 0.01 {
      PaisaIsLostIff(before);
      PaisaIsDoubledIff(before);
      assert Round2(l + 0.01) + x == before + 0.01;
    } else if Round2(l + 0.01) == Round2(l) + 0.02 {
      TwoPaiseAreKept(before);
      assert Round2(l + 0.01) + x == before + 0.02;
    }
  }

  lemma TwoPaiseAreKept(x: real)
    ensures Round2(x + 0.02) == Round2(x) + 0.02
  {
    RoundedShift(x * 100.0, 2);
    assert (x + 0.02) * 100.0 == x * 100.0 + 2.0;
  }

  /** A paisa more is rounded to none, one or two. */
  lemma RoundedPaise(x: real)
    ensures var d := Round2(x + 0.01) - Round2(x); d == 0.0 || d == 0.01 || d == 0.02
  {
    RoundedShift(x * 100.0, 1);
    assert (x + 0.01) * 100.0 == x * 100.0 + 1.0;
  }

  // Gross, charges and net.

  lemma RaisedLeg(v: TradeView, w: TradeView, raised: Leg)
    requires SoldForMore(v, w, raised)
    ensures
      var more := v.Units() as real * 0.01;
      if raised == v.winner then Lost(w) == Lost(v) && Won(w) == Won(v) + more
      else Lost(w) == Lost(v) + more && Won(w) == Won(v)
  {
    var price := ExitOf(v, raised) - v.Entry(raised);
    ValueOfPaisa(v.Units());
    ValueAdds(price, 0.01, v.Units());
    assert ExitOf(w, raised) - w.Entry(raised) == price + 0.01;
  }

  lemma GrossGrows(v: TradeView, w: TradeView, raised: Leg)
    requires SoldForMore(v, w, raised) && v.Units() >= 1
    ensures w.CombinedPnl() >= v.CombinedPnl() + (v.Units() - 1) as real * 0.01
  {
    RaisedLeg(v, w, raised);
    GrossIsRounded(v);
    GrossIsRounded(w);
    if v.losingExit.Some? && raised != v.winner {
      TwiceRoundedStep(Lost(v), Won(v), v.Units());
    } else {
      RoundedStep(BeforeRounding(v), BeforeRounding(w), v.Units());
    }
  }

  lemma ChargesGrow(v: TradeView, w: TradeView, raised: Leg)
    requires SoldForMore(v, w, raised) && v.Units() >= 1
    ensures w.Costs() <= v.Costs() + TransactionCosts.CostStep(v.Units()) as real * 0.01
  {
    UnitsArePositive(v);
    TransactionCosts.TotalCostsGrowSlowly(
      v.entryCe + v.entryPe, ExitOf(v, CE) + ExitOf(v, PE), ExitOf(w, CE) + ExitOf(w, PE), v.Units());
  }

  /** The gross P&L of a single unit stays although a leg is sold for a paisa more: the paisa is lost where the
      cut loser is booked, or where the sum is rounded unless booking the loser had doubled it. */
  ghost predicate GrossLosesThePaisa(v: TradeView, raised: Leg)
    requires WellClosed(v)
  {
    if v.losingExit.Some? && raised != v.winner then
      TieRoundsUp(Lost(v)) || (TieRoundsUp(BeforeRounding(v)) && !TieRoundsDown(Lost(v)))
    else
      TieRoundsUp(BeforeRounding(v))
  }

  lemma GrossStaysIff(v: TradeView, w: TradeView, raised: Leg)
    requires SoldForMore(v, w, raised) && v.Units() == 1
    ensures w.CombinedPnl() >= v.CombinedPnl()
    ensures w.CombinedPnl() == v.CombinedPnl() <==> GrossLosesThePaisa(v, raised)
  {
    RaisedLeg(v, w, raised);
    GrossIsRounded(v);
    GrossIsRounded(w);
    if v.losingExit.Some? && raised != v.winner {
      PaisaIsLostTwiceRoundedIff(Lost(v), Won(v));
    } else {
      assert BeforeRounding(w) == BeforeRounding(v) + 0.01;
      PaisaIsLostIff(BeforeRounding(v));
      Round2Monotone(BeforeRounding(v), BeforeRounding(w));
    }
  }

  /** However a trade was closed, at any prices: selling one leg for a paisa more lowers net P&L exactly for a
      single unit whose gross loses that paisa in rounding while its charges rise. */
  lemma ClosedNetFallsIff(v: TradeView, w: TradeView, raised: Leg)
    requires SoldForMore(v, w, raised) && v.Units() >= 1
    ensures w.NetPnl() < v.NetPnl()
       <==> v.Units() == 1 && GrossLosesThePaisa(v, raised) && w.Costs() > v.Costs()
  {
    UnitsArePositive(v);
    NetIsExact(v);
    NetIsExact(w);
    ChargesGrow(v, w, raised);
    if v.Units() >= 2 {
      GrossGrows(v, w, raised);
    } else {
      GrossStaysIff(v, w, raised);
      FallsIff(v.CombinedPnl(), w.CombinedPnl(), v.Costs(), w.Costs());
    }
  }

  /** However a trade was closed: selling one leg for a paisa more never lowers the net P&L of two units or more, at
      any prices, nor that of one unit at whole-paise prices. */
  lemma ClosedNetIsMonotone(v: TradeView, w: TradeView, raised: Leg)
    requires SoldForMore(v, w, raised) && v.Units() >= 1
    requires v.Units() >= 2 || (PaisePrices(v) && WholePaise(ExitOf(v, CE)) && WholePaise(ExitOf(v, PE)))
    ensures w.NetPnl() >= v.NetPnl()
  {
    ClosedNetFallsIff(v, w, raised);
    if v.Units() == 1 {
      OnTheGridNothingIsLost(v, raised);
    }
  }

  /** At whole-paise prices no rounding loses a paisa, so net P&L never falls, not even for a single unit. */
  lemma OnTheGridNothingIsLost(v: TradeView, raised: Leg)
    requires WellClosed(v) && PaisePrices(v) && WholePaise(ExitOf(v, CE)) && WholePaise(ExitOf(v, PE))
    ensures !GrossLosesThePaisa(v, raised)
  {
    PaiseLegPnl(v, CE, ExitOf(v, CE));
    PaiseLegPnl(v, PE, ExitOf(v, PE));
    WholePaiseSum(Lost(v), Won(v));
    WholePaiseIsNoTie(Lost(v));
    WholePaiseIsNoTie(Lost(v) + Won(v));
  }

  lemma WholePaiseIsNoTie(x: real)
    requires WholePaise(x)
    ensures !TieRoundsUp(x)
  {
    var m: int :| IsPaise(x, m);
    if n: int :| n % 2 == 1 && IsPaise(x - 0.005, n) {
      assert false;
    }
  }

  // A pair whose loser was cut before the winner was sold.

  /** The two sales of a pair that is cut and then exited. */
  datatype Sales = Sales(loser: real, winner: real)

  ghost predicate OneSaleForMore(a: Sales, b: Sales, loserRaised: bool) {
    if loserRaised then b == Sales(a.loser + 0.01, a.winner) else b == Sales(a.loser, a.winner + 0.01)
  }

  ghost function CutAndSold(v: TradeView, a: Sales, ce: real, pe: real, reason: ExitReason): TradeView {
    CutThenExit(v, a.loser, ce, pe, a.winner, reason)
  }

  lemma CutAndSoldIsWellClosed(v: TradeView, a: Sales, ce: real, pe: real, reason: ExitReason)
    requires v.phase.BothLegs? && PhaseFixesUnits(v)
    ensures
      var w := CutAndSold(v, a, ce, pe, reason);
      && WellClosed(w) && w.losingExit.Some? && w.winner == v.winner && w.Units() == v.Units()
      && w.Exit(v.winner.Other()) == Some(a.loser) && w.Exit(v.winner) == Some(a.winner)
      && Lost(w) == v.LegPnl(v.winner.Other(), a.loser) && Won(w) == v.LegPnl(v.winner, a.winner)
  {
  }

  /** The gross P&L of a single cut unit loses the paisa: where the loser is booked, or where booked loser and winner
      are added unless booking had doubled it. */
  ghost predicate CutLosesThePaisa(v: TradeView, a: Sales, loserRaised: bool) {
    var lost, won := v.LegPnl(v.winner.Other(), a.loser), v.LegPnl(v.winner, a.winner);
    if loserRaised then TieRoundsUp(lost) || (TieRoundsUp(Round2(lost) + won) && !TieRoundsDown(lost))
    else TieRoundsUp(Round2(lost) + won)
  }

  /** Cut and then exited: selling either leg for a paisa more lowers net P&L exactly for a single unit whose gross
      loses the paisa while its charges rise. Quotes in between do not matter. */
  lemma CutNetFallsIff(
    v: TradeView, a: Sales, b: Sales, loserRaised: bool, ce: real, pe: real, reason: ExitReason)
    requires v.phase.BothLegs? && PhaseFixesUnits(v) && v.Units() >= 1 && OneSaleForMore(a, b, loserRaised)
    ensures
      var before, after := CutAndSold(v, a, ce, pe, reason), CutAndSold(v, b, ce, pe, reason);
      after.NetPnl() < before.NetPnl()
      <==> v.Units() == 1 && CutLosesThePaisa(v, a, loserRaised) && after.Costs() > before.Costs()
  {
    CutAndSoldIsWellClosed(v, a, ce, pe, reason);
    CutAndSoldIsWellClosed(v, b, ce, pe, reason);
    CutPairFallsIff(
      v, a, CutAndSold(v, a, ce, pe, reason), CutAndSold(v, b, ce, pe, reason), loserRaised,
      if loserRaised then v.winner.Other() else v.winner);
  }

  lemma CutPairFallsIff(v: TradeView, a: Sales, before: TradeView, after: TradeView, loserRaised: bool, raised: Leg)
    requires SoldForMore(before, after, raised) && before.Units() == v.Units() >= 1
    requires before.winner == v.winner && before.losingExit.Some?
    requires raised == if loserRaised then v.winner.Other() else v.winner
    requires Lost(before) == v.LegPnl(v.winner.Other(), a.loser) && Won(before) == v.LegPnl(v.winner, a.winner)
    ensures after.NetPnl() < before.NetPnl()
       <==> v.Units() == 1 && CutLosesThePaisa(v, a, loserRaised) && after.Costs() > before.Costs()
  {
    ClosedNetFallsIff(before, after, raised);
  }

  /** One unit bought off the paise grid and cut: its loser sold for 126.57 instead of 126.56 nets a paisa less,
      although both legs exited at once at the same prices would not. */
  lemma OneCutUnitCanLose(v: TradeView)
    requires v == Opened(0, PE, 0, 0, 100.005, 100.003, 1, 1, Sideways, 0.0, 0.0)
    ensures CutAndSold(v, Sales(126.56, 100.0), 0.0, 0.0, Manual).NetPnl() == -68.36
    ensures CutAndSold(v, Sales(126.57, 100.0), 0.0, 0.0, Manual).NetPnl() == -68.37
    ensures v.ExitBoth(126.57, 100.0, Manual).NetPnl() == v.ExitBoth(126.56, 100.0, Manual).NetPnl()
  {
    assert ChargesRoundTo(200.008, 226.56, 1515, 3398, 144273, 9492);
    assert ChargesRoundTo(200.008, 226.57, 1515, 3399, 144274, 9493);
    CutUnitNet(v, 126.56, 226.56, 1515, 3398, 144273, 9492);
    CutUnitNet(v, 126.57, 226.57, 1515, 3399, 144274, 9493);
    ExitedUnitNet(v, 126.56, 226.56, 1515, 3398, 144273, 2655, 9492);
    ExitedUnitNet(v, 126.57, 226.57, 1515, 3399, 144274, 2656, 9493);
  }

  lemma CutUnitNet(v: TradeView, loser: real, sold: real, exchange: int, stt: int, gst: int, costs: int)
    requires v == Opened(0, PE, 0, 0, 100.005, 100.003, 1, 1, Sideways, 0.0, 0.0)
    requires sold == loser + 100.0 && IsNearestEven((loser - 100.005) * 100.0, 2656)
    requires ChargesRoundTo(200.008, sold, exchange, stt, gst, costs)
    ensures CutAndSold(v, Sales(loser, 100.0), 0.0, 0.0, Manual).NetPnl() == (2656 - costs) as real / 100.0
  {
    var out := CutAndSold(v, Sales(loser, 100.0), 0.0, 0.0, Manual);
    CutUnitGross(v, loser);
    assert out.Costs() == costs as real / 100.0 by {
      UnitCharges(sold, exchange, stt, gst, costs);
    }
    NearestEvenIsUnique((2656 - costs) as real, 2656 - costs);
  }

  lemma CutUnitGross(v: TradeView, loser: real)
    requires v == Opened(0, PE, 0, 0, 100.005, 100.003, 1, 1, Sideways, 0.0, 0.0)
    requires IsNearestEven((loser - 100.005) * 100.0, 2656)
    ensures CutAndSold(v, Sales(loser, 100.0), 0.0, 0.0, Manual).CombinedPnl() == 26.56
  {
    ValueIsProduct(loser - 100.005, 1);
    ValueIsProduct(-0.003, 1);
    NearestEvenIsUnique((loser - 100.005) * 100.0, 2656);
    NearestEvenIsUnique(2655.7, 2656);
  }

  lemma ExitedUnitNet(
    v: TradeView, ce: real, sold: real, exchange: int, stt: int, gst: int, gross: int, costs: int)
    requires v == Opened(0, PE, 0, 0, 100.005, 100.003, 1, 1, Sideways, 0.0, 0.0)
    requires sold == ce + 100.0 && IsNearestEven((ce - 100.008) * 100.0, gross)
    requires ChargesRoundTo(200.008, sold, exchange, stt, gst, costs)
    ensures v.ExitBoth(ce, 100.0, Manual).NetPnl() == (gross - costs) as real / 100.0
  {
    var out := v.ExitBoth(ce, 100.0, Manual);
    assert out.CombinedPnl() == gross as real / 100.0 by {
      ValueIsProduct(ce - 100.005, 1);
      ValueIsProduct(-0.003, 1);
      NearestEvenIsUnique((ce - 100.008) * 100.0, gross);
    }
    assert out.Costs() == costs as real / 100.0 by {
      UnitCharges(sold, exchange, stt, gst, costs);
    }
    NearestEvenIsUnique((gross - costs) as real, gross - costs);
  }

  lemma UnitCharges(sold: real, exchange: int, stt: int, gst: int, costs: int)
    requires ChargesRoundTo(200.008, sold, exchange, stt, gst, costs)
    ensures TransactionCosts.CostsOfPremiums(200.008, sold, 1) == costs as real / 100.0
  {
    ValueIsProduct(200.008, 1);
    ValueIsProduct(sold, 1);
    ChargesAt(200.008, sold, exchange, stt, gst, costs);
  }
}
