/** The broker as an adversary: what happens to each order is fixed by an arbitrary Fate. */
module OrderBroker {
  import opened Common

  datatype Side = Buy | Sell
  datatype Status = Traded | Rejected | Cancelled | Expired | Working

  /** One answer to a status query. */
  datatype Look = LookFailed | Seen(status: Status, filled: nat, remaining: Option<nat>, price: real)

  /** What the broker will do with an order.
      looks: the answers to the queries made before the fill deadline;
      cancelWorks: a cancel request is confirmed;
      drift: units that still fill after the last query although the order was dead, full or cancelled;
      unseen: units that fill if nobody pins the order down. */
  datatype Fate = Refused | Accepted(looks: seq<Look>, cancelWorks: bool, drift: nat, unseen: nat)

  /** An order, with the broker's truth (fate) and what has been done and noted about it. */
  datatype Order = Order(leg: Leg, side: Side, qty: nat, fate: Fate, looked: nat, cancelSent: bool, booked: nat)

  predicate Dead(s: Status) {
    s.Rejected? || s.Cancelled? || s.Expired?
  }

  /** The k-th answer; the broker never reports more units than were ordered. */
  function LookAt(fate: Fate, qty: nat, k: nat): Look {
    if fate.Refused? || k >= |fate.looks| then LookFailed
    else match fate.looks[k]
      case LookFailed => LookFailed
      case Seen(s, f, r, p) => Seen(s, Min(f, qty), r, p)
  }

  /** Units the order has filled once everything has settled. */
  function FinalFill(o: Order): nat {
    if o.fate.Refused? then 0
    else if o.looked == 0 then Min(o.fate.unseen, o.qty)
    else match LookAt(o.fate, o.qty, o.looked - 1)
      case LookFailed => Min(o.fate.unseen, o.qty)
      case Seen(s, f, _, _) =>
        if f == o.qty || Dead(s) || (o.cancelSent && o.fate.cancelWorks) then Min(f + o.fate.drift, o.qty)
        else Min(o.fate.unseen, o.qty)
  }

  /** The broker assumptions: queries and cancels succeed, fills stop at the last query,
      filled plus remaining is what was ordered, and fills carry a positive price. */
  ghost predicate WellBehaved(fate: Fate, qty: nat) {
    fate.Accepted? ==>
      && |fate.looks| >= 1 && fate.cancelWorks && fate.drift == 0
      && forall k :: 0 <= k < |fate.looks| ==> HonestLook(LookAt(fate, qty, k), qty)
  }

  ghost predicate HonestLook(l: Look, qty: nat) {
    && l.Seen?
    && (l.filled > 0 ==> l.price > 0.0)
    && (l.remaining.Some? ==> l.remaining.value == qty - l.filled)
  }

  function Signed(side: Side, units: int): int {
    if side.Buy? then units else -units
  }

  /** Net units of a leg held at the broker through the given orders. */
  ghost function NetHeld(orders: seq<Order>, leg: Leg): int {
    if |orders| == 0 then 0
    else
      var o := orders[|orders| - 1];
      NetHeld(orders[..|orders| - 1], leg) + (if o.leg == leg then Signed(o.side, FinalFill(o)) else 0)
  }

  /** Net units of a leg according to the program's own notes. */
  ghost function NetBooked(orders: seq<Order>, leg: Leg): int {
    if |orders| == 0 then 0
    else
      var o := orders[|orders| - 1];
      NetBooked(orders[..|orders| - 1], leg) + (if o.leg == leg then Signed(o.side, o.booked) else 0)
  }

  lemma NetOfAppend(orders: seq<Order>, o: Order, leg: Leg)
    ensures NetHeld(orders + [o], leg)
         == NetHeld(orders, leg) + (if o.leg == leg then Signed(o.side, FinalFill(o)) else 0)
    ensures NetBooked(orders + [o], leg)
         == NetBooked(orders, leg) + (if o.leg == leg then Signed(o.side, o.booked) else 0)
  {
    assert (orders + [o])[..|orders|] == orders;
  }

  /** Where the program's note of every order since `from` is right, its net position is right. */
  lemma {:induction false} NotesAreTheTruth(orders: seq<Order>, from: nat, leg: Leg)
    requires from <= |orders|
    requires forall i :: from <= i < |orders| ==> FinalFill(orders[i]) == orders[i].booked
    ensures NetHeld(orders, leg) - NetHeld(orders[..from], leg)
         == NetBooked(orders, leg) - NetBooked(orders[..from], leg)
  {
    var last := |orders| - 1;
    if from == |orders| {
      assert orders[..from] == orders;
    } else {
      assert orders[..last][..from] == orders[..from];
      NotesAreTheTruth(orders[..last], from, leg);
    }
  }

  class Broker {
    /** The adversary: what becomes of the n-th order placed. */
    const fates: nat -> Fate
    var orders: seq<Order>

    constructor (fates: nat -> Fate)
      ensures this.fates == fates && orders == []
    {
      this.fates := fates;
      orders := [];
    }

    /** An order id, or none when the placement fails. */
    method Place(leg: Leg, side: Side, qty: nat) returns (id: Option<nat>)
      modifies this`orders
      ensures orders == old(orders) + [Order(leg, side, qty, fates(|old(orders)|), 0, false, 0)]
      ensures id == if fates(|old(orders)|).Refused? then None else Some(|old(orders)|)
    {
      var fate := fates(|orders|);
      id := if fate.Refused? then None else Some(|orders|);
      orders := orders + [Order(leg, side, qty, fate, 0, false, 0)];
    }

    method GetOrder(id: nat) returns (l: Look)
      requires id < |orders|
      modifies this`orders
      ensures l == old(LookAt(orders[id].fate, orders[id].qty, orders[id].looked))
      ensures orders == old(orders)[id := old(orders)[id].(looked := old(orders[id].looked) + 1)]
    {
      l := LookAt(orders[id].fate, orders[id].qty, orders[id].looked);
      orders := orders[id := orders[id].(looked := orders[id].looked + 1)];
    }

    method CancelOrder(id: nat) returns (confirmed: bool)
      requires id < |orders| && orders[id].fate.Accepted?
      modifies this`orders
      ensures confirmed == old(orders[id].fate.cancelWorks)
      ensures orders == old(orders)[id := old(orders)[id].(cancelSent := true)]
    {
      confirmed := orders[id].fate.cancelWorks;
      orders := orders[id := orders[id].(cancelSent := true)];
    }

    /** The clock: has the fill deadline of this order passed? */
    method DeadlinePassed(id: nat) returns (passed: bool)
      requires id < |orders| && orders[id].fate.Accepted?
      ensures passed == (orders[id].looked >= |orders[id].fate.looks|)
    {
      passed := orders[id].looked >= |orders[id].fate.looks|;
    }

    /** Note how many units the program takes the order to have filled. */
    method Book(id: nat, units: nat)
      requires id < |orders|
      modifies this`orders
      ensures orders == old(orders)[id := old(orders)[id].(booked := units)]
    {
      orders := orders[id := orders[id].(booked := units)];
    }
  }
}
