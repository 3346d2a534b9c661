/** The recorded open units of a live trade against the broker's order book, over any requests to exit it. */
module ExitBook {
  import opened Common
  import opened Trading
  import opened OrderBroker
  import opened Confirmation
  import opened ExitProtocol
  import opened BrokerExecutor

  /** What the engine asks the live executor for while a trade is tracked. */
  datatype Request = ExitRequest(reason: ExitReason) | HedgeCutRequest

  /** The tracked trade and every order placed at the broker so far. */
  datatype Desk = Desk(trade: TradeView, orders: seq<Order>)

  /** Units of a leg the request asks the broker to sell. */
  function Asked(v: TradeView, request: Request, leg: Leg): nat {
    match request
    case ExitRequest(reason) => Ordered(v, ExitAttempt(Refused, Refused, reason), leg)
    case HedgeCutRequest => Ordered(v, HedgeCutAttempt(Refused), leg)
  }

  /** The place in the order book of the request's order for a leg: CE first, if CE gets one. */
  function PlaceOf(n: nat, v: TradeView, request: Request, leg: Leg): nat {
    if leg.PE? && Asked(v, request, CE) > 0 then n + 1 else n
  }

  /** The attempt the request comes to when the next order of the book is the n-th. */
  function AttemptOf(fates: nat -> Fate, n: nat, v: TradeView, request: Request): Attempt {
    match request
    case ExitRequest(reason) =>
      ExitAttempt(fates(PlaceOf(n, v, request, CE)), fates(PlaceOf(n, v, request, PE)), reason)
    case HedgeCutRequest => HedgeCutAttempt(fates(n))
  }

  ghost function OrdersOf(fates: nat -> Fate, n: nat, v: TradeView, request: Request): seq<Order> {
    TakeBack(fates, n, CE, Asked(v, request, CE))
    + TakeBack(fates, PlaceOf(n, v, request, PE), PE, Asked(v, request, PE))
  }

  /** One request: the trade moves by one attempt, the order book grows by its orders. */
  ghost function After(fates: nat -> Fate, d: Desk, request: Request): Desk {
    var n := |d.orders|;
    Desk(Dispatch(d.trade, AttemptOf(fates, n, d.trade, request)), d.orders + OrdersOf(fates, n, d.trade, request))
  }

  ghost function AfterAll(fates: nat -> Fate, d: Desk, requests: seq<Request>): Desk
    decreases |requests|
  {
    if |requests| == 0 then d else AfterAll(fates, After(fates, d, requests[0]), requests[1..])
  }

  // The program's notes.

  lemma SaleIsNoted(orders: seq<Order>, fates: nat -> Fate, n: nat, sold: Leg, qty: nat, leg: Leg)
    ensures NetBooked(orders + TakeBack(fates, n, sold, qty), leg)
         == NetBooked(orders, leg) - (if sold == leg then Reported(Confirm(fates(n), qty), qty) else 0)
  {
    if qty == 0 {
      assert orders + TakeBack(fates, n, sold, qty) == orders;
    } else {
      NetOfAppend(orders, TakeBack(fates, n, sold, qty)[0], leg);
    }
  }

  lemma OrdersAreNoted(fates: nat -> Fate, d: Desk, request: Request, leg: Leg)
    ensures
      var a := AttemptOf(fates, |d.orders|, d.trade, request);
      NetBooked(After(fates, d, request).orders, leg) == NetBooked(d.orders, leg) - Sold(d.trade, a, leg)
  {
    var n, v := |d.orders|, d.trade;
    var first := TakeBack(fates, n, CE, Asked(v, request, CE));
    var at := PlaceOf(n, v, request, PE);
    var second := TakeBack(fates, at, PE, Asked(v, request, PE));
    SaleIsNoted(d.orders, fates, n, CE, Asked(v, request, CE), leg);
    SaleIsNoted(d.orders + first, fates, at, PE, Asked(v, request, PE), leg);
    assert d.orders + (first + second) == d.orders + first + second;
    SoldIsReported(fates, n, v, request, leg);
  }

  lemma SoldIsReported(fates: nat -> Fate, n: nat, v: TradeView, request: Request, leg: Leg)
    ensures
      var qty := Asked(v, request, leg);
      Sold(v, AttemptOf(fates, n, v, request), leg) == Reported(Confirm(fates(PlaceOf(n, v, request, leg)), qty), qty)
  {
  }

  /** For every broker, open units move exactly as the program's notes of its orders. */
  lemma {:induction false} OpenFollowsNotes(fates: nat -> Fate, d: Desk, requests: seq<Request>, leg: Leg)
    requires ExitInvariant(d.trade)
    ensures
      var e := AfterAll(fates, d, requests);
      && ExitInvariant(e.trade)
      && e.trade.Open(leg) - d.trade.Open(leg) == NetBooked(e.orders, leg) - NetBooked(d.orders, leg)
    decreases |requests|
  {
    if |requests| > 0 {
      AttemptConserves(d.trade, AttemptOf(fates, |d.orders|, d.trade, requests[0]), leg);
      OrdersAreNoted(fates, d, requests[0], leg);
      OpenFollowsNotes(fates, After(fates, d, requests[0]), requests[1..], leg);
    }
  }

  // The notes and the broker.

  /** A sell order that has been waited for. */
  ghost predicate SettledSell(o: Order) {
    o == Settled(Placed(o.leg, Sell, o.qty, o.fate))
  }

  ghost predicate SettledSells(orders: seq<Order>, from: nat) {
    forall i :: from <= i < |orders| ==> SettledSell(orders[i])
  }

  /** The note of every order of a leg since `from` is safe. */
  ghost predicate NotesAreSafe(orders: seq<Order>, from: nat, leg: Leg) {
    forall i :: from <= i < |orders| && orders[i].leg == leg ==> NoteIsSafe(orders[i])
  }

  /** A waited-for order has really filled what is noted or more, and exactly that if and only if its note is safe. */
  lemma NoteIsALowerBound(o: Order)
    requires SettledSell(o)
    ensures FinalFill(o) >= o.booked
    ensures FinalFill(o) == o.booked <==> NoteIsSafe(o)
  {
    var p := Placed(o.leg, Sell, o.qty, o.fate);
    NoteIsTrueIffSafe(p);
    assert p == p.(looked := 0, cancelSent := false, booked := 0);
    assert NoteIsSafe(p) <==> NoteIsSafe(o);
    SettledFillsItsNote(p);
  }

  lemma SettledFillsItsNote(p: Order)
    requires p == Placed(p.leg, p.side, p.qty, p.fate)
    ensures FinalFill(Settled(p)) >= Settled(p).booked
  {
    if p.fate.Accepted? {
      var stop := StopAt(p.fate, p.qty, 0);
      if stop == |p.fate.looks| && stop > 0 {
        assert !Decisive(LookAt(p.fate, p.qty, stop - 1), p.qty);
      }
    }
  }

  /** After sells only, the broker holds at most what the notes say, and exactly that where all notes are safe. */
  lemma {:induction false} HeldAgainstNotes(orders: seq<Order>, from: nat, leg: Leg)
    requires from <= |orders| && SettledSells(orders, from)
    ensures
      var held := NetHeld(orders, leg) - NetHeld(orders[..from], leg);
      var noted := NetBooked(orders, leg) - NetBooked(orders[..from], leg);
      held <= noted && (held == noted <==> NotesAreSafe(orders, from, leg))
  {
    if from == |orders| {
      assert orders[..from] == orders;
    } else {
      var last := |orders| - 1;
      var init := orders[..last];
      assert init[..from] == orders[..from];
      HeldAgainstNotes(init, from, leg);
      NoteIsALowerBound(orders[last]);
      SafeOfAppend(orders, from, leg);
    }
  }

  lemma SafeOfAppend(orders: seq<Order>, from: nat, leg: Leg)
    requires from < |orders|
    ensures
      var last := |orders| - 1;
      NotesAreSafe(orders, from, leg)
      <==> NotesAreSafe(orders[..last], from, leg) && (orders[last].leg == leg ==> NoteIsSafe(orders[last]))
  {
    var last := |orders| - 1;
    assert forall i :: from <= i < last ==> orders[..last][i] == orders[i];
  }

  lemma RequestPlacesSells(fates: nat -> Fate, n: nat, v: TradeView, request: Request)
    ensures SettledSells(OrdersOf(fates, n, v, request), 0)
  {
  }

  lemma {:induction false} RunPlacesSells(fates: nat -> Fate, d: Desk, requests: seq<Request>)
    ensures
      var e := AfterAll(fates, d, requests);
      && |e.orders| >= |d.orders| && e.orders[..|d.orders|] == d.orders && SettledSells(e.orders, |d.orders|)
    decreases |requests|
  {
    if |requests| > 0 {
      var next := After(fates, d, requests[0]);
      RequestPlacesSells(fates, |d.orders|, d.trade, requests[0]);
      RunPlacesSells(fates, next, requests[1..]);
      var e := AfterAll(fates, next, requests[1..]);
      assert e.orders[..|d.orders|] == next.orders[..|d.orders|];
      assert forall i :: |d.orders| <= i < |next.orders| ==> e.orders[i] == next.orders[i];
    }
  }

  /** Recorded and real holdings, for every broker and any requests: the broker holds at most what is recorded open
      (relative to the start), and exactly that on a leg if and only if the note of each of its sells is safe. */
  lemma HoldingIsRecordedIff(fates: nat -> Fate, d: Desk, requests: seq<Request>, leg: Leg)
    requires ExitInvariant(d.trade)
    ensures
      var e := AfterAll(fates, d, requests);
      var held := NetHeld(e.orders, leg) - NetHeld(d.orders, leg);
      var recorded := e.trade.Open(leg) - d.trade.Open(leg);
      && held <= recorded <= 0
      && (held == recorded <==> NotesAreSafe(e.orders, |d.orders|, leg))
  {
    var e := AfterAll(fates, d, requests);
    OpenFollowsNotes(fates, d, requests, leg);
    RunPlacesSells(fates, d, requests);
    HeldAgainstNotes(e.orders, |d.orders|, leg);
    OpenNeverRises(fates, d, requests, leg);
  }

  lemma {:induction false} OpenNeverRises(fates: nat -> Fate, d: Desk, requests: seq<Request>, leg: Leg)
    requires ExitInvariant(d.trade)
    ensures AfterAll(fates, d, requests).trade.Open(leg) <= d.trade.Open(leg)
    decreases |requests|
  {
    if |requests| > 0 {
      AttemptConserves(d.trade, AttemptOf(fates, |d.orders|, d.trade, requests[0]), leg);
      OpenNeverRises(fates, After(fates, d, requests[0]), requests[1..], leg);
    }
  }

  // A trade that starts in step with the broker.

  /** The broker holds on each leg what is recorded open. */
  ghost predicate InStep(d: Desk) {
    NetHeld(d.orders, CE) == d.trade.Open(CE) && NetHeld(d.orders, PE) == d.trade.Open(PE)
  }

  ghost predicate AllNotesSafe(orders: seq<Order>, from: nat) {
    NotesAreSafe(orders, from, CE) && NotesAreSafe(orders, from, PE)
  }

  /** No order since `from` is for more than the broker held of the leg when it was placed. */
  ghost predicate Covered(orders: seq<Order>, from: nat) {
    forall i :: from <= i < |orders| ==> orders[i].qty <= NetHeld(orders[..i], orders[i].leg)
  }

  lemma BehavedNotesAreSafe(orders: seq<Order>, from: nat)
    requires forall i :: from <= i < |orders| ==> WellBehaved(orders[i].fate, orders[i].qty)
    ensures AllNotesSafe(orders, from)
  {
    forall i | from <= i < |orders|
      ensures NoteIsSafe(orders[i])
    {
      WellBehavedIsSafe(orders[i]);
    }
  }

  lemma RequestIsCovered(fates: nat -> Fate, d: Desk, request: Request)
    requires ExitInvariant(d.trade) && InStep(d)
    ensures Covered(After(fates, d, request).orders, |d.orders|)
  {
    var n, v := |d.orders|, d.trade;
    AskedIsOpen(v, request, CE);
    AskedIsOpen(v, request, PE);
    TwoAreCovered(
      d.orders, TakeBack(fates, n, CE, Asked(v, request, CE)),
      TakeBack(fates, PlaceOf(n, v, request, PE), PE, Asked(v, request, PE)),
      Asked(v, request, CE), Asked(v, request, PE));
  }

  lemma AskedIsOpen(v: TradeView, request: Request, leg: Leg)
    requires ExitInvariant(v)
    ensures Asked(v, request, leg) <= v.Open(leg)
  {
  }

  /** At most one order, for `qty` units of a leg. */
  predicate AtMostOne(sells: seq<Order>, leg: Leg, qty: nat) {
    |sells| <= 1 && (|sells| == 1 ==> sells[0].leg == leg && sells[0].qty == qty)
  }

  lemma OneIsCovered(orders: seq<Order>, sells: seq<Order>, leg: Leg, qty: nat)
    requires AtMostOne(sells, leg, qty) && qty <= NetHeld(orders, leg)
    ensures Covered(orders + sells, |orders|)
    ensures NetHeld(orders + sells, leg.Other()) == NetHeld(orders, leg.Other())
  {
    if |sells| == 0 {
      assert orders + sells == orders;
    } else {
      NetOfAppend(orders, sells[0], leg.Other());
      assert orders + sells == orders + [sells[0]];
      assert (orders + sells)[..|orders|] == orders;
    }
  }

  lemma TwoAreCovered(orders: seq<Order>, first: seq<Order>, second: seq<Order>, ce: nat, pe: nat)
    requires AtMostOne(first, CE, ce) && AtMostOne(second, PE, pe)
    requires ce <= NetHeld(orders, CE) && pe <= NetHeld(orders, PE)
    ensures Covered(orders + (first + second), |orders|)
  {
    OneIsCovered(orders, first, CE, ce);
    OneIsCovered(orders + first, second, PE, pe);
    assert orders + (first + second) == orders + first + second;
    assert (orders + first + second)[..|orders + first|] == orders + first;
    CoveredInTwoParts(orders + first + second, orders + first, |orders|);
  }

  lemma CoveredInTwoParts(orders: seq<Order>, before: seq<Order>, from: nat)
    requires from <= |before| <= |orders| && orders[..|before|] == before
    requires Covered(before, from) && Covered(orders, |before|)
    ensures Covered(orders, from)
  {
    forall i | from <= i < |orders|
      ensures orders[i].qty <= NetHeld(orders[..i], orders[i].leg)
    {
      if i < |before| {
        assert orders[..i] == before[..i] && orders[i] == before[i];
      }
    }
  }

  lemma SafeInTwoParts(orders: seq<Order>, before: seq<Order>, from: nat)
    requires from <= |before| <= |orders| && orders[..|before|] == before
    requires AllNotesSafe(orders, from)
    ensures AllNotesSafe(before, from) && AllNotesSafe(orders, |before|)
  {
    assert forall i :: 0 <= i < |before| ==> before[i] == orders[i];
  }

  /** In step and with safe notes, every sell of every request is covered and the trade stays in step. */
  lemma {:induction false} SellsAreCovered(fates: nat -> Fate, d: Desk, requests: seq<Request>)
    requires ExitInvariant(d.trade) && InStep(d)
    requires AllNotesSafe(AfterAll(fates, d, requests).orders, |d.orders|)
    ensures Covered(AfterAll(fates, d, requests).orders, |d.orders|) && InStep(AfterAll(fates, d, requests))
    decreases |requests|
  {
    if |requests| > 0 {
      var next, e := After(fates, d, requests[0]), AfterAll(fates, d, requests);
      RunPlacesSells(fates, next, requests[1..]);
      RequestIsCovered(fates, d, requests[0]);
      SafeInTwoParts(e.orders, next.orders, |d.orders|);
      StaysInStep(fates, d, requests[0]);
      SellsAreCovered(fates, next, requests[1..]);
      CoveredInTwoParts(e.orders, next.orders, |d.orders|);
    }
  }

  lemma StaysInStep(fates: nat -> Fate, d: Desk, request: Request)
    requires ExitInvariant(d.trade) && InStep(d)
    requires AllNotesSafe(After(fates, d, request).orders, |d.orders|)
    ensures ExitInvariant(After(fates, d, request).trade) && InStep(After(fates, d, request))
  {
    var next := After(fates, d, request);
    assert [request][1..] == [];
    assert AfterAll(fates, d, [request]) == AfterAll(fates, next, []) == next;
    HoldingIsRecordedIff(fates, d, [request], CE);
    HoldingIsRecordedIff(fates, d, [request], PE);
    AttemptConserves(d.trade, AttemptOf(fates, |d.orders|, d.trade, request), CE);
  }

  /** The whole life of a trade, from an entry on a flat book through any requests: for every broker it holds at most
      what is recorded open, and exactly that on a leg if and only if the note of each of its sells is safe. So a
      closed trade is flat on a leg exactly then; and with safe notes no sell was ever for more than was held. */
  lemma TradeLifeIsRecorded(
    fates: nat -> Fate, orders: seq<Order>, plan: EntryPlan, requests: seq<Request>, leg: Leg)
    requires plan.quantity >= 0 && plan.lotSize >= 0
    requires NetHeld(orders, CE) == 0 && NetHeld(orders, PE) == 0
    requires EntryResult(fates, |orders|, plan, UnitsOf(plan.quantity, plan.lotSize)).Opened?
    ensures
      var units := UnitsOf(plan.quantity, plan.lotSize);
      var d := Desk(EntryResult(fates, |orders|, plan, units).view, orders + EntryOrders(fates, |orders|, units));
      var e := AfterAll(fates, d, requests);
      && NetHeld(e.orders, leg) <= e.trade.Open(leg)
      && (NetHeld(e.orders, leg) == e.trade.Open(leg) <==> NotesAreSafe(e.orders, |d.orders|, leg))
      && (e.trade.phase.Closed? ==> (NetHeld(e.orders, leg) == 0 <==> NotesAreSafe(e.orders, |d.orders|, leg)))
      && (AllNotesSafe(e.orders, |d.orders|) ==> Covered(e.orders, |d.orders|))
  {
    var units := UnitsOf(plan.quantity, plan.lotSize);
    var d := Desk(EntryResult(fates, |orders|, plan, units).view, orders + EntryOrders(fates, |orders|, units));
    EntryReportIsTrueIff(fates, orders, plan, units, CE);
    EntryReportIsTrueIff(fates, orders, plan, units, PE);
    assert d.trade.Open(CE) == d.trade.Open(PE) == units;
    DeskLifeIsRecorded(fates, d, requests, leg);
  }

  lemma DeskLifeIsRecorded(fates: nat -> Fate, d: Desk, requests: seq<Request>, leg: Leg)
    requires ExitInvariant(d.trade) && InStep(d)
    ensures
      var e := AfterAll(fates, d, requests);
      && NetHeld(e.orders, leg) <= e.trade.Open(leg)
      && (NetHeld(e.orders, leg) == e.trade.Open(leg) <==> NotesAreSafe(e.orders, |d.orders|, leg))
      && (e.trade.phase.Closed? ==> e.trade.Open(leg) == 0)
      && (AllNotesSafe(e.orders, |d.orders|) ==> Covered(e.orders, |d.orders|))
  {
    HoldingIsRecordedIff(fates, d, requests, leg);
    OpenFollowsNotes(fates, d, requests, leg);
    if AllNotesSafe(AfterAll(fates, d, requests).orders, |d.orders|) {
      SellsAreCovered(fates, d, requests);
    }
  }

  lemma TwoRequests(fates: nat -> Fate, d: Desk, a: Request, b: Request)
    ensures AfterAll(fates, d, [a, b]) == After(fates, After(fates, d, a), b)
  {
    assert [a, b][1..] == [b] && [b][1..] == [];
    assert AfterAll(fates, After(fates, d, a), [b]) == AfterAll(fates, After(fates, After(fates, d, a), b), []);
  }

  /** A sell that times out and whose cancel is not confirmed is retried in full: if it fills after all, the trade is
      recorded closed and the broker is short a whole leg. */
  lemma RetryCanOversell(d: Desk)
    requires d.trade.phase.BothLegs? && PhaseFixesUnits(d.trade) && d.trade.Units() > 0 && InStep(d)
    ensures exists fates: nat -> Fate ::
      var e := AfterAll(fates, d, [ExitRequest(Manual), ExitRequest(Manual)]);
      e.trade.phase.Closed? && NetHeld(e.orders, CE) + d.trade.Units() == 0
  {
    var n, units := |d.orders|, d.trade.Units();
    var lost, filled := Accepted([Seen(Working, 0, None, 0.0)], false, 0, units), PromptFill(units);
    var fates: nat -> Fate := i => if i == n then lost else filled;
    PromptFillIsFull(units);
    assert StopAt(lost, units, 0) == 1;
    assert Confirm(lost, units).Unfilled?;
    FirstSaleIsLost(fates, d, lost, filled);
    var once := After(fates, d, ExitRequest(Manual));
    RetryIsFilled(fates, once, units, filled);
    TwoRequests(fates, d, ExitRequest(Manual), ExitRequest(Manual));
  }

  lemma FirstSaleIsLost(fates: nat -> Fate, d: Desk, lost: Fate, filled: Fate)
    requires d.trade.phase.BothLegs? && PhaseFixesUnits(d.trade) && d.trade.Units() > 0 && InStep(d)
    requires fates(|d.orders|) == lost && fates(|d.orders| + 1) == filled
    requires Confirm(lost, d.trade.Units()).Unfilled? && Confirm(filled, d.trade.Units()).Full?
    requires FinalFill(Settled(Placed(CE, Sell, d.trade.Units(), lost))) == d.trade.Units()
    ensures
      var once := After(fates, d, ExitRequest(Manual));
      && |once.orders| == |d.orders| + 2 && NetHeld(once.orders, CE) == 0
      && once.trade.phase.PartialExit? && once.trade.Open(CE) == d.trade.Units() && once.trade.Open(PE) == 0
  {
    var units := d.trade.Units();
    var a, b := Settled(Placed(CE, Sell, units, lost)), Settled(Placed(PE, Sell, units, filled));
    NetOfAppend(d.orders, a, CE);
    NetOfAppend(d.orders + [a], b, CE);
    assert After(fates, d, ExitRequest(Manual)).orders == d.orders + [a] + [b];
  }

  lemma RetryIsFilled(fates: nat -> Fate, once: Desk, units: nat, filled: Fate)
    requires units > 0 && fates(|once.orders|) == filled && Confirm(filled, units).Full?
    requires once.trade.phase.PartialExit? && once.trade.Open(CE) == units && once.trade.Open(PE) == 0
    ensures
      var twice := After(fates, once, ExitRequest(Manual));
      twice.trade.phase.Closed? && NetHeld(twice.orders, CE) == NetHeld(once.orders, CE) - units
  {
    var c := Settled(Placed(CE, Sell, units, filled));
    FullFillIsReal(Placed(CE, Sell, units, filled));
    NetOfAppend(once.orders, c, CE);
    assert After(fates, once, ExitRequest(Manual)).orders == once.orders + [c];
  }

  /** Carry out one request for the tracked trade: exits by phase, hedge cuts of a whole pair only. */
  method HandleRequest(executor: LiveExecutor, trade: Trade, request: Request)
    modifies executor.broker`orders, trade
    ensures Desk(trade.View(), executor.broker.orders)
         == After(executor.broker.fates, old(Desk(trade.View(), executor.broker.orders)), request)
  {
    match request
    case ExitRequest(reason) =>
      if !trade.phase.Closed? {
        if trade.phase.SingleLeg? {
          var closed := executor.ExecuteSingleLegExit(trade, reason);
        } else {
          var closed := executor.ExecuteExitBoth(trade, reason);
        }
      }
    case HedgeCutRequest =>
      if trade.phase.BothLegs? {
        var cut := executor.ExecuteHedgeCut(trade);
      }
  }
}
