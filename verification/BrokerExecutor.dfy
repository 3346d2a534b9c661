/** Live entry of an option pair: both legs or none, against an arbitrary broker. */
module BrokerExecutor {
  import opened Common
  import opened Money
  import opened Trading
  import opened OrderBroker
  import opened Confirmation
  import opened ExitProtocol
  import TransactionCosts

  datatype EntryPlan = EntryPlan(
    id: nat, winner: Leg, ceStrike: int, peStrike: int, quantity: int, lotSize: int,
    regime: Regime, riskCapital: real, hardStop: real,
    idsKnown: bool, ceAsk: Option<real>, peAsk: Option<real>, brokerFunds: Option<real>)

  /** Blocked: nothing was placed. Contained, Unwound: reported flat. */
  datatype EntryOutcome = Blocked | Opened(view: TradeView) | Contained | Unwound | ManualReconciliation

  /** The independent budget check in front of every live entry. */
  datatype Firewall = Firewall(allocation: real, reserve: real) {
    function Unreserved(): real { allocation * (1.0 - reserve) }

    ghost function Deployable(): real { Round2(Unreserved()) }

    ghost predicate Allows(required: real, funds: Option<real>) {
      && required > 0.0
      && funds.Some? && funds.value >= 0.0
      && required <= allocation && required <= Deployable() && required <= funds.value
    }
  }

  ghost function RequiredFunds(plan: EntryPlan): real
    requires plan.ceAsk.Some? && plan.peAsk.Some? && plan.quantity * plan.lotSize >= 0
  {
    var ce, pe := plan.ceAsk.value, plan.peAsk.value;
    Value(ce + pe, plan.quantity * plan.lotSize)
    + TransactionCosts.TotalCosts(ce, pe, ce, pe, plan.quantity, plan.lotSize)
  }

  ghost predicate Authorized(firewall: Firewall, plan: EntryPlan) {
    && plan.ceAsk.Some? && plan.peAsk.Some? && plan.ceAsk.value > 0.0 && plan.peAsk.value > 0.0
    && plan.quantity > 0 && plan.lotSize > 0 && plan.quantity * plan.lotSize > 0
    && firewall.Allows(RequiredFunds(plan), plan.brokerFunds)
    && plan.idsKnown
  }

  ghost predicate NoteIsTrue(o: Order) {
    FinalFill(o) == o.booked
  }

  /** An order as it is when just placed. */
  function Placed(leg: Leg, side: Side, qty: nat, fate: Fate): Order {
    Order(leg, side, qty, fate, 0, false, 0)
  }

  /** An entry order that containment could not read or cancel. */
  ghost predicate CannotContain(o: Order) {
    o.fate.Accepted? && (
      var l := LookAt(o.fate, o.qty, 0);
      l.LookFailed? || (l.remaining.GetOr(o.qty - l.filled) > 0 && !o.fate.cancelWorks))
  }

  ghost predicate UnconfirmedSell(o: Order) {
    o.side.Sell? && !Confirm(o.fate, o.qty).Full?
  }

  ghost predicate AllConfirmed(sells: seq<Order>) {
    forall i :: 0 <= i < |sells| ==> !UnconfirmedSell(sells[i])
  }

  lemma AllConfirmedOfSum(a: seq<Order>, b: seq<Order>)
    ensures AllConfirmed(a + b) <==> AllConfirmed(a) && AllConfirmed(b)
  {
    assert forall i :: 0 <= i < |a| ==> (a + b)[i] == a[i];
    assert forall i :: 0 <= i < |b| ==> (a + b)[|a| + i] == b[i];
  }

  /** The order after containment: looked at once, cancelled if anything remained, noted if readable. */
  ghost function ContainedOrder(o: Order): Order {
    if o.fate.Refused? then o
    else
      var l := LookAt(o.fate, o.qty, 0);
      if l.LookFailed? then o.(looked := 1)
      else
        var sent := l.remaining.GetOr(o.qty - l.filled) > 0;
        o.(looked := 1, cancelSent := sent, booked := if sent && !o.fate.cancelWorks then 0 else l.filled)
  }

  /** The sell order, if any, that takes back `qty` units; `n` is its place in the order book. */
  ghost function TakeBack(fates: nat -> Fate, n: nat, leg: Leg, qty: nat): seq<Order> {
    if qty == 0 then [] else [Settled(Placed(leg, Sell, qty, fates(n)))]
  }

  /** One of the two placements failed. */
  ghost predicate Mixed(fates: nat -> Fate, n: nat) {
    fates(n).Refused? || fates(n + 1).Refused?
  }

  ghost predicate BothFull(fates: nat -> Fate, n: nat, units: nat) {
    !Mixed(fates, n) && Confirm(fates(n), units).Full? && Confirm(fates(n + 1), units).Full?
  }

  /** The k-th entry order (0 for CE, 1 for PE) after the executor is done with it. */
  ghost function EntryOrder(fates: nat -> Fate, n: nat, units: nat, leg: Leg): Order {
    var o := Placed(leg, Buy, units, fates(if leg.CE? then n else n + 1));
    if Mixed(fates, n) then ContainedOrder(o) else Settled(o)
  }

  /** The sells that take first CE and then PE units back, from the n-th order of the book on. */
  ghost function PairBack(fates: nat -> Fate, n: nat, ce: nat, pe: nat): seq<Order> {
    var first := TakeBack(fates, n, CE, ce);
    first + TakeBack(fates, n + |first|, PE, pe)
  }

  /** The sells that take the fills of an entry back. */
  ghost function TakeBacks(fates: nat -> Fate, n: nat, units: nat): seq<Order> {
    PairBack(fates, n + 2, EntryOrder(fates, n, units, CE).booked, EntryOrder(fates, n, units, PE).booked)
  }

  /** All orders of one entry whose first order is the n-th of the book. */
  ghost function EntryOrders(fates: nat -> Fate, n: nat, units: nat): seq<Order> {
    [EntryOrder(fates, n, units, CE), EntryOrder(fates, n, units, PE)]
    + (if BothFull(fates, n, units) then [] else TakeBacks(fates, n, units))
  }

  /** The orders of an entry of which a placement failed. */
  lemma MixedOrders(fates: nat -> Fate, n: nat, units: nat, before: seq<Order>)
    requires Mixed(fates, n)
    ensures
      var a, b := Placed(CE, Buy, units, fates(n)), Placed(PE, Buy, units, fates(n + 1));
      var first, second := ContainedOrder(a), ContainedOrder(b);
      var sells := PairBack(fates, n + 2, first.booked, second.booked);
      && before + EntryOrders(fates, n, units) == before + [first, second] + sells
      && NeedsManual(fates, n, units) == !(!CannotContain(a) && !CannotContain(b) && AllConfirmed(sells))
  {
    var pair := [EntryOrder(fates, n, units, CE), EntryOrder(fates, n, units, PE)];
    assert before + (pair + TakeBacks(fates, n, units)) == before + pair + TakeBacks(fates, n, units);
  }

  /** The orders of an entry whose placements were accepted and whose fills are taken back. */
  lemma UnwoundOrders(fates: nat -> Fate, n: nat, units: nat, before: seq<Order>)
    requires !Mixed(fates, n) && !BothFull(fates, n, units)
    ensures
      var pair := [EntryOrder(fates, n, units, CE), EntryOrder(fates, n, units, PE)];
      var ce, pe := Reported(Confirm(fates(n), units), units), Reported(Confirm(fates(n + 1), units), units);
      && before + EntryOrders(fates, n, units) == before + pair + PairBack(fates, n + 2, ce, pe)
      && NeedsManual(fates, n, units) == !AllConfirmed(PairBack(fates, n + 2, ce, pe))
  {
    var pair := [EntryOrder(fates, n, units, CE), EntryOrder(fates, n, units, PE)];
    assert before + (pair + TakeBacks(fates, n, units)) == before + pair + TakeBacks(fates, n, units);
  }

  /** Something the executor could not settle by itself. */
  ghost predicate NeedsManual(fates: nat -> Fate, n: nat, units: nat) {
    || (Mixed(fates, n) && CannotContain(Placed(CE, Buy, units, fates(n))))
    || (Mixed(fates, n) && CannotContain(Placed(PE, Buy, units, fates(n + 1))))
    || !AllConfirmed(TakeBacks(fates, n, units))
  }

  ghost function EntryResult(fates: nat -> Fate, n: nat, plan: EntryPlan, units: nat): EntryOutcome
    requires plan.quantity >= 0 && plan.lotSize >= 0
  {
    if BothFull(fates, n, units) then
      Opened(Trading.Opened(
        plan.id, plan.winner, plan.ceStrike, plan.peStrike,
        Confirm(fates(n), units).price, Confirm(fates(n + 1), units).price,
        plan.quantity, plan.lotSize, plan.regime, plan.riskCapital, plan.hardStop))
    else if NeedsManual(fates, n, units) then ManualReconciliation
    else if Mixed(fates, n) then Contained
    else Unwound
  }

  /** When the note of a contained order is the truth, told by the branch containment took. */
  predicate ContainedNoteIsSafe(o: Order) {
    o.fate.Accepted? ==>
      match LookAt(o.fate, o.qty, 0)
      case LookFailed => Min(o.fate.unseen, o.qty) == 0
      case Seen(s, f, r, _) =>
        var over := f == o.qty || Dead(s);
        if r.GetOr(o.qty - f) > 0 && o.fate.cancelWorks then f == o.qty || o.fate.drift == 0
        else if r.GetOr(o.qty - f) > 0 then Min(if over then f + o.fate.drift else o.fate.unseen, o.qty) == 0
        else if over then f == o.qty || o.fate.drift == 0
        else Min(o.fate.unseen, o.qty) == f
  }

  /** Containment's note of an order equals the units really filled exactly in the safe cases. */
  lemma ContainedNoteIsTrueIffSafe(o: Order)
    requires o == Placed(o.leg, o.side, o.qty, o.fate)
    ensures NoteIsTrue(ContainedOrder(o)) <==> ContainedNoteIsSafe(o)
  {
  }

  lemma WellBehavedIsSafelyContained(o: Order)
    requires WellBehaved(o.fate, o.qty) && o == Placed(o.leg, o.side, o.qty, o.fate)
    ensures ContainedNoteIsSafe(o)
  {
    if o.fate.Accepted? {
      assert HonestLook(LookAt(o.fate, o.qty, 0), o.qty);
    }
  }

  /** When the note of an entry order is the truth: by containment if a placement failed, else by the wait. */
  ghost predicate EntryNoteIsSafe(fates: nat -> Fate, n: nat, units: nat, leg: Leg) {
    var o := Placed(leg, Buy, units, fates(if leg.CE? then n else n + 1));
    if Mixed(fates, n) then ContainedNoteIsSafe(o) else NoteIsSafe(o)
  }

  lemma EntryNoteIsTrueIffSafe(fates: nat -> Fate, n: nat, units: nat, leg: Leg)
    ensures NoteIsTrue(EntryOrder(fates, n, units, leg)) <==> EntryNoteIsSafe(fates, n, units, leg)
  {
    var o := Placed(leg, Buy, units, fates(if leg.CE? then n else n + 1));
    ContainedNoteIsTrueIffSafe(o);
    NoteIsTrueIffSafe(o);
    assert o == o.(looked := 0, cancelSent := false, booked := 0);
  }

  /** An order confirmed in full has filled, whatever the broker does. */
  lemma FullFillIsReal(o: Order)
    requires o == Placed(o.leg, o.side, o.qty, o.fate) && Confirm(o.fate, o.qty).Full?
    ensures FinalFill(Settled(o)) == Settled(o).booked == o.qty
  {
  }

  /** Whatever the broker does, the program's own books of a leg end at `units` bought or at zero. */
  lemma EntryBooksAreAtomic(fates: nat -> Fate, orders: seq<Order>, plan: EntryPlan, units: nat, leg: Leg)
    requires plan.quantity >= 0 && plan.lotSize >= 0
    ensures
      var n := |orders|;
      var change := NetBooked(orders + EntryOrders(fates, n, units), leg) - NetBooked(orders, leg);
      match EntryResult(fates, n, plan, units)
      case Opened(_) => change == units
      case ManualReconciliation => true
      case _ => change == 0
  {
    var n := |orders|;
    var ce, pe := EntryOrder(fates, n, units, CE), EntryOrder(fates, n, units, PE);
    if BothFull(fates, n, units) {
      BooksOfPair(orders, ce, pe, leg);
      assert EntryOrders(fates, n, units) == [ce, pe];
    } else if !NeedsManual(fates, n, units) {
      BooksOfPairTakenBack(orders, ce, pe, fates, n + 2, leg);
    }
  }

  lemma BooksOfPair(orders: seq<Order>, ce: Order, pe: Order, leg: Leg)
    requires ce.leg.CE? && ce.side.Buy? && pe.leg.PE? && pe.side.Buy?
    ensures NetBooked(orders + [ce, pe], leg) == NetBooked(orders, leg) + (if leg.CE? then ce.booked else pe.booked)
  {
    NetOfAppend(orders, ce, leg);
    NetOfAppend(orders + [ce], pe, leg);
    assert orders + [ce] + [pe] == orders + [ce, pe];
  }

  lemma BooksOfPairTakenBack(orders: seq<Order>, ce: Order, pe: Order, fates: nat -> Fate, n: nat, leg: Leg)
    requires ce.leg.CE? && ce.side.Buy? && pe.leg.PE? && pe.side.Buy?
    requires
      var first := TakeBack(fates, n, CE, ce.booked);
      AllConfirmed(first + TakeBack(fates, n + |first|, PE, pe.booked))
    ensures
      var first := TakeBack(fates, n, CE, ce.booked);
      var all := [ce, pe] + (first + TakeBack(fates, n + |first|, PE, pe.booked));
      NetBooked(orders + all, leg) == NetBooked(orders, leg)
  {
    var first := TakeBack(fates, n, CE, ce.booked);
    var second := TakeBack(fates, n + |first|, PE, pe.booked);
    AllConfirmedOfSum(first, second);
    BooksOfPair(orders, ce, pe, leg);
    TakenBack(orders + [ce, pe], fates, n, CE, ce.booked, leg);
    TakenBack(orders + [ce, pe] + first, fates, n + |first|, PE, pe.booked, leg);
    FourParts(orders, [ce, pe], first, second);
  }

  lemma FourParts(a: seq<Order>, b: seq<Order>, c: seq<Order>, d: seq<Order>)
    ensures a + (b + (c + d)) == a + b + c + d
  {
    assert b + (c + d) == (b + c) + d;
    assert a + (b + c) == (a + b) + c;
  }

  lemma PairBackInTwo(fates: nat -> Fate, n: nat, ce: nat, pe: nat, first: seq<Order>, second: seq<Order>)
    requires first == TakeBack(fates, n, CE, ce) && second == TakeBack(fates, n + |first|, PE, pe)
    ensures PairBack(fates, n, ce, pe) == first + second
    ensures AllConfirmed(PairBack(fates, n, ce, pe)) <==> AllConfirmed(first) && AllConfirmed(second)
  {
    AllConfirmedOfSum(first, second);
  }

  /** The book while two orders at its end are contained one after the other. */
  lemma BothContained(
    before: seq<Order>, a: Order, b: Order, first: Order, second: Order, sells: seq<Order>, more: seq<Order>)
    ensures
      var n, once := |before|, (before + [a, b])[|before| := first] + sells;
      && |once| == n + 2 + |sells| && once[n + 1] == b
      && once[n + 1 := second] + more == before + [first, second] + (sells + more)
  {
    var n := |before|;
    assert (before + [a, b])[n := first] + sells == before + [first, b] + sells;
    assert (before + [first, b] + sells)[n + 1 := second] == before + [first, second] + sells;
    assert before + [first, second] + sells + more == before + [first, second] + (sells + more);
  }

  lemma TakenBack(orders: seq<Order>, fates: nat -> Fate, n: nat, sold: Leg, qty: nat, leg: Leg)
    requires AllConfirmed(TakeBack(fates, n, sold, qty))
    ensures NetBooked(orders + TakeBack(fates, n, sold, qty), leg)
         == NetBooked(orders, leg) - (if sold == leg then qty else 0)
  {
    if qty == 0 {
      assert orders + TakeBack(fates, n, sold, qty) == orders;
    } else {
      var o := TakeBack(fates, n, sold, qty)[0];
      assert !UnconfirmedSell(o);
      NetOfAppend(orders, o, leg);
    }
  }

  lemma HeldOfPair(orders: seq<Order>, ce: Order, pe: Order, leg: Leg)
    requires ce.leg.CE? && ce.side.Buy? && pe.leg.PE? && pe.side.Buy?
    ensures NetHeld(orders + [ce, pe], leg)
         == NetHeld(orders, leg) + (if leg.CE? then FinalFill(ce) else FinalFill(pe))
  {
    NetOfAppend(orders, ce, leg);
    NetOfAppend(orders + [ce], pe, leg);
    assert orders + [ce] + [pe] == orders + [ce, pe];
  }

  lemma ReallyTakenBack(orders: seq<Order>, fates: nat -> Fate, n: nat, sold: Leg, qty: nat, leg: Leg)
    requires AllConfirmed(TakeBack(fates, n, sold, qty))
    ensures NetHeld(orders + TakeBack(fates, n, sold, qty), leg)
         == NetHeld(orders, leg) - (if sold == leg then qty else 0)
  {
    if qty == 0 {
      assert orders + TakeBack(fates, n, sold, qty) == orders;
    } else {
      var o := TakeBack(fates, n, sold, qty)[0];
      assert !UnconfirmedSell(o);
      FullFillIsReal(Placed(sold, Sell, qty, fates(n)));
      NetOfAppend(orders, o, leg);
    }
  }

  /** A pair bought and what is sold of it again. */
  lemma PairAndSells(
    orders: seq<Order>, ce: Order, pe: Order, first: seq<Order>, second: seq<Order>,
    fates: nat -> Fate, n: nat, leg: Leg)
    requires ce.leg.CE? && ce.side.Buy? && pe.leg.PE? && pe.side.Buy?
    requires first == TakeBack(fates, n, CE, ce.booked) && AllConfirmed(first)
    requires second == TakeBack(fates, n + |first|, PE, pe.booked) && AllConfirmed(second)
    ensures
      var all := [ce, pe] + (first + second);
      NetHeld(orders + all, leg) == NetHeld(orders + [ce, pe], leg) - (if leg.CE? then ce.booked else pe.booked)
  {
    ReallyTakenBack(orders + [ce, pe], fates, n, CE, ce.booked, leg);
    ReallyTakenBack(orders + [ce, pe] + first, fates, n + |first|, PE, pe.booked, leg);
    FourParts(orders, [ce, pe], first, second);
  }

  lemma TakenBackAtMost(orders: seq<Order>, fates: nat -> Fate, n: nat, sold: Leg, qty: nat, leg: Leg)
    ensures
      var left := NetHeld(orders + TakeBack(fates, n, sold, qty), leg);
      NetHeld(orders, leg) - (if sold == leg then qty else 0) <= left <= NetHeld(orders, leg)
  {
    if qty == 0 {
      assert orders + TakeBack(fates, n, sold, qty) == orders;
    } else {
      NetOfAppend(orders, TakeBack(fates, n, sold, qty)[0], leg);
    }
  }

  lemma PairAndSomeSells(
    orders: seq<Order>, ce: Order, pe: Order, first: seq<Order>, second: seq<Order>,
    fates: nat -> Fate, n: nat, leg: Leg)
    requires first == TakeBack(fates, n, CE, ce.booked) && second == TakeBack(fates, n + |first|, PE, pe.booked)
    ensures
      var bought := NetHeld(orders + [ce, pe], leg);
      bought - (if leg.CE? then ce.booked else pe.booked)
        <= NetHeld(orders + ([ce, pe] + (first + second)), leg) <= bought
  {
    TakenBackAtMost(orders + [ce, pe], fates, n, CE, ce.booked, leg);
    TakenBackAtMost(orders + [ce, pe] + first, fates, n + |first|, PE, pe.booked, leg);
    FourParts(orders, [ce, pe], first, second);
  }

  /** Whatever becomes of the sells, an entry that was not opened leaves of a leg at most what its entry order filled,
      and at least what it filled beyond its note. */
  lemma TakingBackLeaves(fates: nat -> Fate, orders: seq<Order>, units: nat, leg: Leg)
    requires !BothFull(fates, |orders|, units)
    ensures
      var n, o := |orders|, EntryOrder(fates, |orders|, units, leg);
      var change := NetHeld(orders + EntryOrders(fates, n, units), leg) - NetHeld(orders, leg);
      FinalFill(o) - o.booked <= change <= FinalFill(o)
  {
    var n := |orders|;
    var ce, pe := EntryOrder(fates, n, units, CE), EntryOrder(fates, n, units, PE);
    var first := TakeBack(fates, n + 2, CE, ce.booked);
    var second := TakeBack(fates, n + 2 + |first|, PE, pe.booked);
    TakenOrders(fates, n, units, ce, pe, first, second);
    HeldOfPair(orders, ce, pe, leg);
    PairAndSomeSells(orders, ce, pe, first, second, fates, n + 2, leg);
  }

  lemma FillsAtMostOrdered(o: Order)
    ensures FinalFill(o) <= o.qty
  {
  }

  /** A flat report leaves of a leg what its entry order filled beyond its note. */
  lemma FlatReportLeaves(fates: nat -> Fate, orders: seq<Order>, units: nat, leg: Leg)
    requires !BothFull(fates, |orders|, units) && !NeedsManual(fates, |orders|, units)
    ensures
      var n, o := |orders|, EntryOrder(fates, |orders|, units, leg);
      NetHeld(orders + EntryOrders(fates, n, units), leg) == NetHeld(orders, leg) + FinalFill(o) - o.booked
  {
    var n := |orders|;
    var ce, pe := EntryOrder(fates, n, units, CE), EntryOrder(fates, n, units, PE);
    var first := TakeBack(fates, n + 2, CE, ce.booked);
    var second := TakeBack(fates, n + 2 + |first|, PE, pe.booked);
    TakenOrders(fates, n, units, ce, pe, first, second);
    AllConfirmedOfSum(first, second);
    HeldOfPair(orders, ce, pe, leg);
    PairAndSells(orders, ce, pe, first, second, fates, n + 2, leg);
  }

  lemma TakenOrders(
    fates: nat -> Fate, n: nat, units: nat, ce: Order, pe: Order, first: seq<Order>, second: seq<Order>)
    requires !BothFull(fates, n, units)
    requires ce == EntryOrder(fates, n, units, CE) && pe == EntryOrder(fates, n, units, PE)
    requires first == TakeBack(fates, n + 2, CE, ce.booked)
    requires second == TakeBack(fates, n + 2 + |first|, PE, pe.booked)
    ensures EntryOrders(fates, n, units) == [ce, pe] + (first + second)
    ensures !NeedsManual(fates, n, units) ==> AllConfirmed(first + second)
  {
  }

  /** When an entry's report is true, for every broker: an opened trade always holds the ordered units, and a flat
      report is true of a leg exactly when the note of that leg's entry order is safe. A call for manual reconciliation
      leaves at most the ordered units, and with a safe note none too few, whatever became of the sells. */
  lemma EntryReportIsTrueIff(fates: nat -> Fate, orders: seq<Order>, plan: EntryPlan, units: nat, leg: Leg)
    requires plan.quantity >= 0 && plan.lotSize >= 0
    ensures
      var n := |orders|;
      var change := NetHeld(orders + EntryOrders(fates, n, units), leg) - NetHeld(orders, leg);
      match EntryResult(fates, n, plan, units)
      case Opened(_) => change == units
      case ManualReconciliation => change <= units && (EntryNoteIsSafe(fates, n, units, leg) ==> 0 <= change)
      case _ => change == 0 <==> EntryNoteIsSafe(fates, n, units, leg)
  {
    if BothFull(fates, |orders|, units) {
      OpenedHoldsPair(fates, orders, units, leg);
    } else if !NeedsManual(fates, |orders|, units) {
      FlatReportLeaves(fates, orders, units, leg);
      EntryNoteIsTrueIffSafe(fates, |orders|, units, leg);
    } else {
      ManualLeaves(fates, orders, units, leg);
    }
  }

  lemma ManualLeaves(fates: nat -> Fate, orders: seq<Order>, units: nat, leg: Leg)
    requires !BothFull(fates, |orders|, units)
    ensures
      var n := |orders|;
      var change := NetHeld(orders + EntryOrders(fates, n, units), leg) - NetHeld(orders, leg);
      change <= units && (EntryNoteIsSafe(fates, n, units, leg) ==> 0 <= change)
  {
    var o := EntryOrder(fates, |orders|, units, leg);
    TakingBackLeaves(fates, orders, units, leg);
    FillsAtMostOrdered(o);
    assert o.qty == units;
    EntryNoteIsTrueIffSafe(fates, |orders|, units, leg);
  }

  lemma OpenedHoldsPair(fates: nat -> Fate, orders: seq<Order>, units: nat, leg: Leg)
    requires BothFull(fates, |orders|, units)
    ensures NetHeld(orders + EntryOrders(fates, |orders|, units), leg) == NetHeld(orders, leg) + units
  {
    var n := |orders|;
    var ce, pe := EntryOrder(fates, n, units, CE), EntryOrder(fates, n, units, PE);
    HeldOfPair(orders, ce, pe, leg);
    FullFillIsReal(Placed(CE, Buy, units, fates(n)));
    FullFillIsReal(Placed(PE, Buy, units, fates(n + 1)));
    assert EntryOrders(fates, n, units) == [ce, pe];
  }

  /** The order was accepted but its first query fails. */
  predicate Unreadable(fate: Fate) {
    fate.Accepted? && (fate.looks == [] || fate.looks[0].LookFailed?)
  }

  /** The units its first answer leaves open: what it says remains, else what it does not say has filled. */
  function Remaining(fate: Fate, qty: nat): int
    requires fate.Accepted? && !Unreadable(fate)
  {
    var l := fate.looks[0];
    if l.remaining.Some? then l.remaining.value else Max(0, qty - l.filled)
  }

  /** A refused leg is left alone; an accepted one is looked at once, cancelled exactly when units remain, and noted
      with the fill it reported unless that cancel failed. */
  lemma ContainedAsSeen(leg: Leg, qty: nat, fate: Fate)
    ensures
      var o, c := Placed(leg, Buy, qty, fate), ContainedOrder(Placed(leg, Buy, qty, fate));
      if fate.Refused? then c == o
      else if Unreadable(fate) then c == o.(looked := 1)
      else
        var sent := Remaining(fate, qty) > 0;
        var noted := if sent && !fate.cancelWorks then 0 else Min(fate.looks[0].filled, qty);
        c == o.(looked := 1, cancelSent := sent, booked := noted)
  {
  }

  /** Accepted, and neither readable and done nor readable and cancelled. */
  ghost predicate Loose(fate: Fate, qty: nat) {
    fate.Accepted? && (Unreadable(fate) || (Remaining(fate, qty) > 0 && !fate.cancelWorks))
  }

  /** How an entry ends: opened exactly when both orders were accepted and fully confirmed; by hand exactly when one
      was refused and the other came loose or a sale of what had filled was not fully confirmed; else flat. */
  lemma EntryEndsAs(fates: nat -> Fate, n: nat, plan: EntryPlan, units: nat)
    requires plan.quantity >= 0 && plan.lotSize >= 0
    ensures
      var ce, pe, result := fates(n), fates(n + 1), EntryResult(fates, n, plan, units);
      var both := ce.Accepted? && pe.Accepted?;
      var full := both && Confirm(ce, units).Full? && Confirm(pe, units).Full?;
      var loose := !both && (Loose(ce, units) || Loose(pe, units));
      var all := EntryOrders(fates, n, units);
      var unsold := exists i :: 2 <= i < |all| && UnconfirmedSell(all[i]);
      && (result.Opened? <==> full)
      && (result.ManualReconciliation? <==> !full && (loose || unsold))
      && (result.Contained? <==> !both && !loose && !unsold)
      && (result.Unwound? <==> both && !full && !unsold)
  {
    var all, sells := EntryOrders(fates, n, units), TakeBacks(fates, n, units);
    LooseIff(Placed(CE, Buy, units, fates(n)));
    LooseIff(Placed(PE, Buy, units, fates(n + 1)));
    if !BothFull(fates, n, units) {
      assert forall i :: 0 <= i < |sells| ==> all[i + 2] == sells[i];
      if i :| 2 <= i < |all| && UnconfirmedSell(all[i]) {
        assert UnconfirmedSell(sells[i - 2]);
      }
      if !AllConfirmed(sells) {
        var i :| 0 <= i < |sells| && UnconfirmedSell(sells[i]);
        assert UnconfirmedSell(all[i + 2]);
      }
    }
  }

  lemma LooseIff(o: Order)
    ensures CannotContain(o) <==> Loose(o.fate, o.qty)
  {
  }

  /** The trade an entry opens is the plan's pair, whole, each leg at the price its own order was last seen at. */
  lemma OpenedAsFilled(fates: nat -> Fate, n: nat, plan: EntryPlan, units: nat, leg: Leg)
    requires plan.quantity >= 0 && plan.lotSize >= 0
    requires EntryResult(fates, n, plan, units).Opened?
    ensures
      var v, o := EntryResult(fates, n, plan, units).view, EntryOrder(fates, n, units, leg);
      && o.looked > 0 && v.Entry(leg) == LookAt(o.fate, o.qty, o.looked - 1).price > 0.0
      && v.Current(leg) == v.Entry(leg) && v.Open(leg) == plan.quantity * plan.lotSize
    ensures
      var v := EntryResult(fates, n, plan, units).view;
      && v.id == plan.id && v.winner == plan.winner && v.ceStrike == plan.ceStrike && v.peStrike == plan.peStrike
      && v.quantity == plan.quantity && v.lotSize == plan.lotSize && v.regime == plan.regime
      && v.riskCapital == plan.riskCapital && v.hardStop == plan.hardStop
      && v.phase.BothLegs? && PhaseFixesUnits(v)
  {
    var o := Placed(leg, Buy, units, fates(if leg.CE? then n else n + 1));
    ConcludedAsSeen(o);
    FullIff(o.fate, o.qty);
  }

  /** What an entry needs: both legs at their asks, and the charges of buying and selling there. */
  lemma RequiredIsOutlayAndCharges(plan: EntryPlan)
    requires plan.ceAsk.Some? && plan.peAsk.Some? && plan.quantity > 0 && plan.lotSize > 0
    ensures plan.quantity * plan.lotSize > 0
    ensures
      var ce, pe := plan.ceAsk.value, plan.peAsk.value;
      RequiredFunds(plan)
      == (ce + pe) * (plan.quantity * plan.lotSize) as real
         + TransactionCosts.TotalCosts(ce, pe, ce, pe, plan.quantity, plan.lotSize)
  {
    PositiveUnits(plan.quantity, plan.lotSize);
    ValueIsProduct(plan.ceAsk.value + plan.peAsk.value, plan.quantity * plan.lotSize);
  }

  lemma PositiveUnits(quantity: int, lotSize: int)
    requires quantity > 0 && lotSize > 0
    ensures quantity * lotSize > 0
  {
  }

  /** Asks, sizes and broker funds are there and usable. */
  predicate Usable(plan: EntryPlan)
    ensures Usable(plan) ==> plan.quantity * plan.lotSize >= 0
  {
    && plan.ceAsk.Some? && plan.peAsk.Some? && plan.ceAsk.value > 0.0 && plan.peAsk.value > 0.0
    && plan.quantity > 0 && plan.lotSize > 0 && plan.idsKnown
    && plan.brokerFunds.Some? && plan.brokerFunds.value >= 0.0
  }

  /** What an entry may need: no more than the allocation, what the reserve leaves of it, and the broker's funds. */
  ghost predicate Fits(firewall: Firewall, needed: real, funds: real) {
    && 0.0 < needed <= firewall.allocation && 0.0 <= funds && needed <= funds
    && needed <= Round2(firewall.allocation * (1.0 - firewall.reserve))
  }

  lemma AllowsIff(firewall: Firewall, needed: real, funds: Option<real>)
    ensures firewall.Allows(needed, funds) <==> funds.Some? && Fits(firewall, needed, funds.value)
  {
  }

  /** An entry is let through exactly when all it takes is there and what it needs fits. */
  lemma AuthorizedIff(firewall: Firewall, plan: EntryPlan)
    ensures Usable(plan) ==>
      (Authorized(firewall, plan) <==> Fits(firewall, RequiredFunds(plan), plan.brokerFunds.value))
    ensures !Usable(plan) ==> !Authorized(firewall, plan)
  {
    if Usable(plan) {
      PositiveUnits(plan.quantity, plan.lotSize);
      AllowsIff(firewall, RequiredFunds(plan), plan.brokerFunds);
    }
  }

  /** The two buys of an entry go to a broker that behaves as assumed; its sells may do anything. */
  ghost predicate BuysBehave(fates: nat -> Fate, n: nat, units: nat) {
    WellBehaved(fates(n), units) && WellBehaved(fates(n + 1), units)
  }

  lemma WellBehavedEntryIsSafe(fates: nat -> Fate, n: nat, units: nat, leg: Leg)
    requires BuysBehave(fates, n, units)
    ensures EntryNoteIsSafe(fates, n, units, leg)
  {
    var o := Placed(leg, Buy, units, fates(if leg.CE? then n else n + 1));
    WellBehavedIsSafelyContained(o);
    WellBehavedIsSafe(o);
  }

  /** Entry atomicity: with a broker that behaves on the two buys, an entry either holds exactly the ordered units on
      both legs, or reports itself flat and is flat on both legs, or asks for manual reconciliation and holds between
      none and the ordered units of each leg. */
  lemma EntryIsAtomic(fates: nat -> Fate, orders: seq<Order>, plan: EntryPlan, units: nat, leg: Leg)
    requires plan.quantity >= 0 && plan.lotSize >= 0
    requires BuysBehave(fates, |orders|, units)
    ensures
      var n := |orders|;
      var change := NetHeld(orders + EntryOrders(fates, n, units), leg) - NetHeld(orders, leg);
      match EntryResult(fates, n, plan, units)
      case Opened(_) => change == units
      case ManualReconciliation => 0 <= change <= units
      case _ => change == 0
  {
    WellBehavedEntryIsSafe(fates, |orders|, units, leg);
    EntryReportIsTrueIff(fates, orders, plan, units, leg);
  }

  /** With a broker that behaves on the two buys, every order of an entry that needs no manual reconciliation is
      noted as it filled, sells included. */
  lemma EntryNotesAreTrue(fates: nat -> Fate, n: nat, units: nat, i: nat)
    requires BuysBehave(fates, n, units) && i < |EntryOrders(fates, n, units)|
    requires i < 2 || !NeedsManual(fates, n, units)
    ensures NoteIsTrue(EntryOrders(fates, n, units)[i])
  {
    if i < 2 {
      var leg := if i == 0 then CE else PE;
      WellBehavedEntryIsSafe(fates, n, units, leg);
      EntryNoteIsTrueIffSafe(fates, n, units, leg);
    } else {
      var o := TakeBacks(fates, n, units)[i - 2];
      assert !UnconfirmedSell(o);
      FullFillIsReal(Placed(o.leg, Sell, o.qty, o.fate));
    }
  }

  /** With such a broker, manual reconciliation is asked for exactly when a sell was not fully confirmed. */
  lemma ManualMeansUnconfirmedSell(fates: nat -> Fate, n: nat, plan: EntryPlan, units: nat)
    requires plan.quantity >= 0 && plan.lotSize >= 0
    requires BuysBehave(fates, n, units)
    ensures EntryResult(fates, n, plan, units).ManualReconciliation?
       <==> exists i :: 0 <= i < |EntryOrders(fates, n, units)| && UnconfirmedSell(EntryOrders(fates, n, units)[i])
  {
    var all, sells := EntryOrders(fates, n, units), TakeBacks(fates, n, units);
    ContainableWhenWellBehaved(Placed(CE, Buy, units, fates(n)));
    ContainableWhenWellBehaved(Placed(PE, Buy, units, fates(n + 1)));
    if !BothFull(fates, n, units) {
      assert forall i :: 0 <= i < |sells| ==> all[i + 2] == sells[i];
      if i :| 0 <= i < |all| && UnconfirmedSell(all[i]) {
        assert UnconfirmedSell(sells[i - 2]);
      }
      if !AllConfirmed(sells) {
        var i :| 0 <= i < |sells| && UnconfirmedSell(sells[i]);
        assert UnconfirmedSell(all[i + 2]);
      }
    }
  }

  lemma ContainableWhenWellBehaved(o: Order)
    requires WellBehaved(o.fate, o.qty)
    ensures !CannotContain(o)
  {
    if o.fate.Accepted? {
      assert HonestLook(LookAt(o.fate, o.qty, 0), o.qty);
    }
  }

  /** A cancel that is not confirmed hides fills: the entry says "unwound" and holds five CE units. */
  lemma UnconfirmedCancelHidesFills(plan: EntryPlan)
    requires plan.quantity >= 0 && plan.lotSize >= 0
    ensures exists fates: nat -> Fate ::
      && EntryResult(fates, 0, plan, 10) == Unwound
      && NetHeld(EntryOrders(fates, 0, 10), CE) == 5
  {
    var ce := Accepted([Seen(Working, 5, None, 100.0)], false, 0, 5);
    var pe := Accepted([Seen(Rejected, 0, None, 0.0)], true, 0, 0);
    var fates: nat -> Fate := n => if n == 0 then ce else pe;
    assert StopAt(ce, 10, 0) == 1;
    assert StopAt(pe, 10, 0) == 0;
    assert FinalFill(Settled(Placed(CE, Buy, 10, ce))) == 5;
    UnseenPairIsUnwound(fates, plan, ce, pe, 10);
  }

  /** Two accepted buys of which no fill is noted are reported unwound. */
  lemma UnseenPairIsUnwound(fates: nat -> Fate, plan: EntryPlan, ce: Fate, pe: Fate, units: nat)
    requires plan.quantity >= 0 && plan.lotSize >= 0
    requires fates(0) == ce && ce.Accepted? && Confirm(ce, units).Unfilled?
    requires fates(1) == pe && pe.Accepted? && Confirm(pe, units).Unfilled?
    ensures EntryResult(fates, 0, plan, units) == Unwound
    ensures NetHeld(EntryOrders(fates, 0, units), CE) == FinalFill(Settled(Placed(CE, Buy, units, ce)))
  {
    assert |TakeBacks(fates, 0, units)| == 0;
    FlatReportLeaves(fates, [], units, CE);
    assert [] + EntryOrders(fates, 0, units) == EntryOrders(fates, 0, units);
  }

  class LiveExecutor {
    const broker: Broker
    const firewall: Firewall

    constructor (broker: Broker, firewall: Firewall)
      ensures this.broker == broker && this.firewall == firewall
    {
      this.broker := broker;
      this.firewall := firewall;
    }

    method Authorize(plan: EntryPlan) returns (ok: bool)
      ensures ok == Authorized(firewall, plan)
    {
      if plan.ceAsk.None? || plan.peAsk.None? || plan.ceAsk.value <= 0.0 || plan.peAsk.value <= 0.0 {
        return false;
      }
      if plan.quantity <= 0 || plan.lotSize <= 0 {
        return false;
      }
      var required := Required(plan);
      var allowed := Allowed(required, plan.brokerFunds);
      ok := allowed && plan.idsKnown;
    }

    method Required(plan: EntryPlan) returns (required: real)
      requires plan.ceAsk.Some? && plan.peAsk.Some? && plan.quantity * plan.lotSize >= 0
      ensures required == RequiredFunds(plan)
    {
      var ce, pe := plan.ceAsk.value, plan.peAsk.value;
      var premium := ComputeValue(ce + pe, plan.quantity * plan.lotSize);
      var costs := TransactionCosts.ComputeTotalCosts(ce, pe, ce, pe, plan.quantity, plan.lotSize);
      required := premium + costs;
    }

    method Allowed(required: real, funds: Option<real>) returns (ok: bool)
      ensures ok == firewall.Allows(required, funds)
    {
      var deployable := ComputeRound2(firewall.Unreserved());
      ok := required > 0.0 && funds.Some? && funds.value >= 0.0
        && required <= firewall.allocation && required <= deployable && required <= funds.value;
    }

    /** Poll an accepted order until it is decided or the deadline passes, then cancel what is left. */
    method AwaitFill(id: nat) returns (c: Confirmed)
      requires id < |broker.orders|
      requires var o := broker.orders[id]; o.fate.Accepted? && o.looked == 0 && !o.cancelSent && o.booked == 0
      modifies broker`orders
      ensures c == old(Confirm(broker.orders[id].fate, broker.orders[id].qty))
      ensures broker.orders == old(broker.orders)[id := Settled(old(broker.orders)[id])]
    {
      ghost var o := broker.orders[id];
      ghost var stop := StopAt(o.fate, o.qty, 0);
      var qty := broker.orders[id].qty;
      var last: Option<Look> := None;
      var late := broker.DeadlinePassed(id);
      ghost var k := 0;
      while !late
        invariant k <= stop
        invariant broker.orders == old(broker.orders)[id := o.(looked := k)]
        invariant late <==> k == |o.fate.looks|
        invariant last == if k == 0 then None else Some(LookAt(o.fate, o.qty, k - 1))
        decreases |o.fate.looks| - k
      {
        var look := broker.GetOrder(id);
        last := Some(look);
        if Decisive(look, qty) {
          c := Conclude(look, qty);
          broker.Book(id, Reported(c, qty));
          return;
        }
        k := k + 1;
        late := broker.DeadlinePassed(id);
      }
      var filled := if last.Some? && last.value.Seen? then last.value.filled else 0;
      c := Unfilled;
      if qty > filled {
        var cancelled := broker.CancelOrder(id);
        if !cancelled {
          return;
        }
      }
      if filled > 0 {
        c := Part(filled, last.value.price);
        broker.Book(id, filled);
      }
    }

    /** Sell `qty` units of a leg back; true when the sale is fully confirmed. */
    method UnwindLeg(leg: Leg, qty: nat) returns (ok: bool)
      requires qty > 0
      modifies broker`orders
      ensures broker.orders == old(broker.orders) + TakeBack(broker.fates, |old(broker.orders)|, leg, qty)
      ensures ok == AllConfirmed(TakeBack(broker.fates, |old(broker.orders)|, leg, qty))
    {
      ghost var n := |broker.orders|;
      ghost var sell := Settled(Placed(leg, Sell, qty, broker.fates(n)));
      assert AllConfirmed([sell]) <==> !UnconfirmedSell([sell][0]);
      var id := broker.Place(leg, Sell, qty);
      if id.None? {
        return false;
      }
      var c := AwaitFill(id.value);
      ok := c.Full?;
    }

    /** After a placement failed: look once at the order, if there is one, cancel what remains, take fills back. */
    method ContainLeg(id: Option<nat>, leg: Leg, units: nat, ghost at: nat) returns (ok: bool)
      requires at < |broker.orders| && broker.orders[at] == Placed(leg, Buy, units, broker.orders[at].fate)
      requires id == if broker.orders[at].fate.Refused? then None else Some(at)
      modifies broker`orders
      ensures
        var o := old(broker.orders)[at];
        var sells := TakeBack(broker.fates, |old(broker.orders)|, leg, ContainedOrder(o).booked);
        && broker.orders == old(broker.orders)[at := ContainedOrder(o)] + sells
        && ok == (!CannotContain(o) && AllConfirmed(sells))
    {
      ok := true;
      if id.None? {
        return;
      }
      var look := broker.GetOrder(id.value);
      if look.LookFailed? {
        return false;
      }
      var remaining := look.remaining.GetOr(Max(0, units - look.filled));
      if remaining > 0 {
        var cancelled := broker.CancelOrder(id.value);
        if !cancelled {
          return false;
        }
      }
      broker.Book(id.value, look.filled);
      if look.filled > 0 {
        ok := UnwindLeg(leg, look.filled);
      }
    }

    /** Place the two buys of an entry. */
    method PlacePair(units: nat) returns (ce: Option<nat>, pe: Option<nat>)
      modifies broker`orders
      ensures |broker.orders| == |old(broker.orders)| + 2
      ensures broker.orders[..|old(broker.orders)|] == old(broker.orders)
      ensures JustPlaced(broker, units, ce, pe)
    {
      ce := broker.Place(CE, Buy, units);
      pe := broker.Place(PE, Buy, units);
    }

    method ExecuteEntry(plan: EntryPlan) returns (r: EntryOutcome)
      modifies broker`orders
      ensures r.Blocked? <==> !Authorized(firewall, plan)
      ensures r.Blocked? ==> broker.orders == old(broker.orders)
      ensures !r.Blocked? ==>
        var n, units := |old(broker.orders)|, UnitsOf(plan.quantity, plan.lotSize);
        && broker.orders == old(broker.orders) + EntryOrders(broker.fates, n, units)
        && r == EntryResult(broker.fates, n, plan, units)
    {
      var ok := Authorize(plan);
      if !ok {
        return Blocked;
      }
      var units: nat := UnitsOf(plan.quantity, plan.lotSize);
      var ce, pe := PlacePair(units);
      if ce.None? || pe.None? {
        var contained := ContainMixedPlacements(ce, pe, units);
        return if contained then Contained else ManualReconciliation;
      }
      r := ConfirmEntry(ce.value, pe.value, units, plan);
    }

    /** Exactly one placement, or none, was accepted. */
    method ContainMixedPlacements(ce: Option<nat>, pe: Option<nat>, units: nat) returns (contained: bool)
      requires |broker.orders| >= 2
      requires JustPlaced(broker, units, ce, pe) && (ce.None? || pe.None?)
      modifies broker`orders
      ensures
        var n := |old(broker.orders)| - 2;
        && broker.orders == old(broker.orders)[..n] + EntryOrders(broker.fates, n, units)
        && contained == !NeedsManual(broker.fates, n, units)
    {
      MixedOrders(broker.fates, |broker.orders| - 2, units, broker.orders[..|broker.orders| - 2]);
      contained := ContainBoth(ce, pe, units);
    }

    /** Contain the CE and then the PE leg; the second is contained even when the first fails. */
    method ContainBoth(ce: Option<nat>, pe: Option<nat>, units: nat) returns (contained: bool)
      requires |broker.orders| >= 2
      requires JustPlaced(broker, units, ce, pe)
      modifies broker`orders
      ensures
        var n := |old(broker.orders)| - 2;
        var a, b := Placed(CE, Buy, units, broker.fates(n)), Placed(PE, Buy, units, broker.fates(n + 1));
        var first, second := ContainedOrder(a), ContainedOrder(b);
        var sells := PairBack(broker.fates, n + 2, first.booked, second.booked);
        && broker.orders == old(broker.orders)[..n] + [first, second] + sells
        && contained == (!CannotContain(a) && !CannotContain(b) && AllConfirmed(sells))
    {
      ghost var before, n := broker.orders[..|broker.orders| - 2], |broker.orders| - 2;
      ghost var a, b := broker.orders[n], broker.orders[n + 1];
      ghost var first, second := ContainedOrder(a), ContainedOrder(b);
      assert broker.orders == before + [a, b];
      ghost var sells := TakeBack(broker.fates, n + 2, CE, first.booked);
      ghost var more := TakeBack(broker.fates, n + 2 + |sells|, PE, second.booked);
      PairBackInTwo(broker.fates, n + 2, first.booked, second.booked, sells, more);
      BothContained(before, a, b, first, second, sells, more);
      var ceOk := ContainLeg(ce, CE, units, n);
      var peOk := ContainLeg(pe, PE, units, n + 1);
      contained := ceOk && peOk;
    }

    /** Wait for both entry orders. */
    method AwaitPair(ce: nat, pe: nat, units: nat) returns (ceFill: Confirmed, peFill: Confirmed)
      requires |broker.orders| >= 2
      requires JustPlaced(broker, units, Some(ce), Some(pe))
      modifies broker`orders
      ensures
        var n := |old(broker.orders)| - 2;
        && broker.orders == old(broker.orders)[..n]
           + [EntryOrder(broker.fates, n, units, CE), EntryOrder(broker.fates, n, units, PE)]
        && ceFill == Confirm(broker.fates(n), units) && peFill == Confirm(broker.fates(n + 1), units)
    {
      ghost var before, n := broker.orders[..|broker.orders| - 2], |broker.orders| - 2;
      assert broker.orders == before + [broker.orders[n], broker.orders[n + 1]];
      ceFill := AwaitFill(ce);
      peFill := AwaitFill(pe);
    }

    /** Both placements were accepted: wait for both, keep the pair or sell every confirmed unit back. */
    method ConfirmEntry(ce: nat, pe: nat, units: nat, plan: EntryPlan) returns (r: EntryOutcome)
      requires units > 0 && plan.quantity >= 0 && plan.lotSize >= 0
      requires |broker.orders| >= 2
      requires JustPlaced(broker, units, Some(ce), Some(pe))
      modifies broker`orders
      ensures
        var n := |old(broker.orders)| - 2;
        && broker.orders == old(broker.orders)[..n] + EntryOrders(broker.fates, n, units)
        && r == EntryResult(broker.fates, n, plan, units)
    {
      ghost var before, n := broker.orders[..|broker.orders| - 2], |broker.orders| - 2;
      var ceFill, peFill := AwaitPair(ce, pe, units);
      if ceFill.Full? && peFill.Full? {
        return Opened(Trading.Opened(
          plan.id, plan.winner, plan.ceStrike, plan.peStrike, ceFill.price, peFill.price,
          plan.quantity, plan.lotSize, plan.regime, plan.riskCapital, plan.hardStop));
      }
      UnwoundOrders(broker.fates, n, units, before);
      var unwound := UnwindFills(Reported(ceFill, units), Reported(peFill, units));
      r := if unwound then Unwound else ManualReconciliation;
    }

    /** Sell back the confirmed units of both legs, CE first; true when every sale is fully confirmed. */
    method UnwindFills(ceFilled: nat, peFilled: nat) returns (ok: bool)
      modifies broker`orders
      ensures
        var all := PairBack(broker.fates, |old(broker.orders)|, ceFilled, peFilled);
        broker.orders == old(broker.orders) + all && ok == AllConfirmed(all)
    {
      ghost var before, n := broker.orders, |broker.orders|;
      var ceOk, peOk := true, true;
      if ceFilled > 0 {
        ceOk := UnwindLeg(CE, ceFilled);
      }
      ghost var first := TakeBack(broker.fates, n, CE, ceFilled);
      assert broker.orders == before + first;
      if peFilled > 0 {
        peOk := UnwindLeg(PE, peFilled);
      }
      ghost var second := TakeBack(broker.fates, n + |first|, PE, peFilled);
      assert broker.orders == before + first + second == before + (first + second);
      AllConfirmedOfSum(first, second);
      ok := ceOk && peOk;
    }

    /** Confirm a sell order that may have been refused. */
    method ConfirmSale(id: Option<nat>, ghost at: nat) returns (c: Confirmed)
      requires at < |broker.orders|
      requires
        var o := broker.orders[at];
        && o == Placed(o.leg, Sell, o.qty, o.fate)
        && id == (if o.fate.Refused? then None else Some(at))
      modifies broker`orders
      ensures c == old(SaleOf(broker.orders[at].fate, broker.orders[at].qty))
      ensures broker.orders == old(broker.orders)[at := Settled(old(broker.orders)[at])]
    {
      c := Unfilled;
      if id.Some? {
        c := AwaitFill(id.value);
      }
    }

    /** Note on the trade what a sale of all open units of a leg brought. */
    method RecordConfirmed(trade: Trade, leg: Leg, requested: nat, c: Confirmed)
      requires trade.View().Open(leg) == requested
      modifies trade
      ensures trade.View() == AfterSale(old(trade.View()), leg, c)
    {
      match c
      case Full(p) => trade.RecordSale(leg, p, 0);
      case Part(f, p) => trade.RecordSale(leg, p, Max(0, requested - f));
      case Unfilled =>
    }

    /** Place a sell order for the open units of a leg, if it has any. */
    method PlaceExit(leg: Leg, units: int) returns (id: Option<nat>)
      modifies broker`orders
      ensures
        var n := |old(broker.orders)|;
        && broker.orders == old(broker.orders)
           + (if units > 0 then [Placed(leg, Sell, units, broker.fates(n))] else [])
        && id == (if units <= 0 || broker.fates(n).Refused? then None else Some(n))
    {
      id := None;
      if units > 0 {
        id := broker.Place(leg, Sell, units);
      }
    }

    /** Confirm the sell order of a leg, if it got one, and note on the trade what it brought. */
    method SettleExit(trade: Trade, leg: Leg, units: int, id: Option<nat>, ghost at: nat) returns (failed: bool)
      requires trade.View().Open(leg) == units
      requires units > 0 ==>
        && at < |broker.orders| && broker.orders[at] == Placed(leg, Sell, units, broker.orders[at].fate)
        && id == (if broker.orders[at].fate.Refused? then None else Some(at))
      modifies broker`orders, trade
      ensures units <= 0 ==> !failed && broker.orders == old(broker.orders) && trade.View() == old(trade.View())
      ensures units > 0 ==>
        var o := old(broker.orders)[at];
        && broker.orders == old(broker.orders)[at := Settled(o)]
        && trade.View() == AfterSale(old(trade.View()), leg, SaleOf(o.fate, units))
        && failed == !SaleOf(o.fate, units).Full?
    {
      failed := false;
      if units > 0 {
        var c := ConfirmSale(id, at);
        RecordConfirmed(trade, leg, units, c);
        failed := !c.Full?;
      }
    }

    /** Place and confirm a sell order for the open units of each leg that has any. */
    method SellOpenLegs(trade: Trade) returns (failed: bool)
      modifies broker`orders, trade
      ensures
        var n, v := |old(broker.orders)|, old(trade.View());
        var ce, pe := LegSale(v, CE, broker.fates(n)), LegSale(v, PE, PeExitFate(broker.fates, n, v));
        && broker.orders == old(broker.orders) + ExitOrders(broker.fates, n, v)
        && trade.View() == ApplySale(ApplySale(v, CE, ce), PE, pe)
        && failed == !(FullOrNone(ce) && FullOrNone(pe))
    {
      ghost var before, n, v := broker.orders, |broker.orders|, trade.View();
      var ceUnits, peUnits := trade.View().Open(CE), trade.View().Open(PE);
      var ce := PlaceExit(CE, ceUnits);
      ghost var peAt := |broker.orders|;
      var pe := PlaceExit(PE, peUnits);
      var ceFailed := SettleExit(trade, CE, ceUnits, ce, n);
      var peFailed := SettleExit(trade, PE, peUnits, pe, peAt);
      assert broker.orders == before + ExitOrders(broker.fates, n, v);
      failed := ceFailed || peFailed;
    }

    /** Sell whatever is still open on both legs. */
    method ExecuteExitBoth(trade: Trade, reason: ExitReason) returns (closed: bool)
      modifies broker`orders, trade
      ensures
        var n, v := |old(broker.orders)|, old(trade.View());
        && broker.orders == old(broker.orders) + ExitOrders(broker.fates, n, v)
        && trade.View() == AfterExitBoth(v, broker.fates(n), PeExitFate(broker.fates, n, v), reason)
      ensures closed ==> trade.phase.Closed?
      ensures !closed ==> old(trade.View()) == trade.View() || trade.phase.PartialExit?
    {
      if trade.View().Open(CE) <= 0 && trade.View().Open(PE) <= 0 {
        return false;
      }
      var failed := SellOpenLegs(trade);
      if failed || trade.View().Open(CE) > 0 || trade.View().Open(PE) > 0 {
        trade.phase := PartialExit;
        return false;
      }
      trade.exitReason, trade.phase := Some(reason), Closed;
      closed := true;
    }

    /** Sell the losing leg; the other leg is left alone. */
    method ExecuteHedgeCut(trade: Trade) returns (cut: bool)
      modifies broker`orders, trade
      ensures
        var n, v := |old(broker.orders)|, old(trade.View());
        var loser := v.winner.Other();
        && broker.orders == old(broker.orders) + TakeBack(broker.fates, n, loser, Max(0, v.Open(loser)))
        && trade.View() == AfterHedgeCut(v, broker.fates(n))
    {
      ghost var before, n := broker.orders, |broker.orders|;
      var loser := trade.winner.Other();
      var units := trade.View().Open(loser);
      if units <= 0 {
        return false;
      }
      var id := broker.Place(loser, Sell, units);
      var c := ConfirmSale(id, n);
      assert broker.orders == before + TakeBack(broker.fates, n, loser, units);
      match c
      case Full(p) =>
        trade.HedgeCut(p);
        cut := true;
      case Part(_, _) =>
        RecordConfirmed(trade, loser, units, c);
        trade.phase := PartialExit;
        cut := false;
      case Unfilled =>
        cut := false;
    }

    /** Sell the winning leg; the other leg is left alone. */
    method ExecuteSingleLegExit(trade: Trade, reason: ExitReason) returns (closed: bool)
      modifies broker`orders, trade
      ensures
        var n, v := |old(broker.orders)|, old(trade.View());
        && broker.orders == old(broker.orders) + TakeBack(broker.fates, n, v.winner, Max(0, v.Open(v.winner)))
        && trade.View() == AfterSingleLegExit(v, broker.fates(n), reason)
    {
      ghost var before, n := broker.orders, |broker.orders|;
      var units := trade.View().Open(trade.winner);
      if units <= 0 {
        return false;
      }
      var id := broker.Place(trade.winner, Sell, units);
      var c := ConfirmSale(id, n);
      assert broker.orders == before + TakeBack(broker.fates, n, trade.winner, units);
      match c
      case Full(p) =>
        trade.SingleLegExit(p, reason);
        closed := true;
      case Part(_, _) =>
        RecordConfirmed(trade, trade.winner, units, c);
        trade.phase := PartialExit;
        closed := false;
      case Unfilled =>
        closed := false;
    }
  }

  /** The sells of an exit of both legs whose first order is the n-th of the book. */
  ghost function ExitOrders(fates: nat -> Fate, n: nat, v: TradeView): seq<Order> {
    var first := TakeBack(fates, n, CE, Max(0, v.Open(CE)));
    first + TakeBack(fates, n + |first|, PE, Max(0, v.Open(PE)))
  }

  /** The fate the exit's PE order meets: the next one after the CE order, if there is a CE order. */
  ghost function PeExitFate(fates: nat -> Fate, n: nat, v: TradeView): Fate {
    if v.Open(CE) > 0 then fates(n + 1) else fates(n)
  }

  /** The last two orders of the book are the fresh CE and PE buys with these ids. */
  ghost predicate JustPlaced(broker: Broker, units: nat, ce: Option<nat>, pe: Option<nat>)
    requires |broker.orders| >= 2
    reads broker
  {
    var n := |broker.orders| - 2;
    && broker.orders[n] == Placed(CE, Buy, units, broker.fates(n))
    && broker.orders[n + 1] == Placed(PE, Buy, units, broker.fates(n + 1))
    && ce == (if broker.fates(n).Refused? then None else Some(n))
    && pe == (if broker.fates(n + 1).Refused? then None else Some(n + 1))
  }
}
