/** What the fill-confirmation loop concludes about an order, and when that is the truth. */
module Confirmation {
  import opened Common
  import opened OrderBroker

  /** Full: all units confirmed; Part: a confirmed portion, the rest dead or cancelled;
      Unfilled: an exception that carries no quantity. */
  datatype Confirmed = Full(price: real) | Part(filled: nat, price: real) | Unfilled

  function Reported(c: Confirmed, qty: nat): nat {
    match c
    case Full(_) => qty
    case Part(f, _) => f
    case Unfilled => 0
  }

  /** Does this answer end the polling? */
  predicate Decisive(l: Look, qty: nat) {
    l.LookFailed? || (l.status.Traded? && l.filled == qty) || Dead(l.status)
  }

  /** The conclusion drawn from a decisive answer. */
  function Conclude(l: Look, qty: nat): Confirmed
    requires Decisive(l, qty)
  {
    match l
    case LookFailed => Unfilled
    case Seen(s, f, _, p) =>
      if s.Traded? && f == qty then (if p <= 0.0 then Unfilled else Full(p))
      else if f > 0 then Part(f, p)
      else Unfilled
  }

  /** The conclusion at the deadline from the last answer, if any. */
  function ConcludeLate(last: Option<Look>, qty: nat, cancelWorks: bool): Confirmed {
    var filled := if last.Some? && last.value.Seen? then last.value.filled else 0;
    if qty > filled && !cancelWorks then Unfilled
    else if filled > 0 && last.Some? && last.value.Seen? then Part(filled, last.value.price)
    else Unfilled
  }

  /** The query at which polling ends, from the k-th on; the number of queries if the deadline ends it. */
  function StopAt(fate: Fate, qty: nat, k: nat): (stop: nat)
    requires fate.Accepted? && k <= |fate.looks|
    ensures k <= stop <= |fate.looks|
    ensures forall i :: k <= i < stop ==> !Decisive(LookAt(fate, qty, i), qty)
    ensures stop < |fate.looks| ==> Decisive(LookAt(fate, qty, stop), qty)
    decreases |fate.looks| - k
  {
    if k == |fate.looks| || Decisive(LookAt(fate, qty, k), qty) then k else StopAt(fate, qty, k + 1)
  }

  function LastLook(fate: Fate, qty: nat): Option<Look>
    requires fate.Accepted?
  {
    if |fate.looks| == 0 then None else Some(LookAt(fate, qty, |fate.looks| - 1))
  }

  function UnfilledAtDeadline(fate: Fate, qty: nat): bool
    requires fate.Accepted?
  {
    var last := LastLook(fate, qty);
    last.Some? && last.value.Seen? ==> last.value.filled < qty
  }

  /** What the confirmation loop returns for an accepted order; a refused one is never confirmed. */
  function Confirm(fate: Fate, qty: nat): (c: Confirmed)
    ensures Reported(c, qty) <= qty
    ensures c.Part? ==> c.filled > 0
  {
    if fate.Refused? then Unfilled
    else
      var stop := StopAt(fate, qty, 0);
      if stop < |fate.looks| then Conclude(LookAt(fate, qty, stop), qty)
      else
        LateConclusionFits(fate, qty);
        ConcludeLate(LastLook(fate, qty), qty, fate.cancelWorks)
  }

  lemma LateConclusionFits(fate: Fate, qty: nat)
    requires fate.Accepted?
    ensures Reported(ConcludeLate(LastLook(fate, qty), qty, fate.cancelWorks), qty) <= qty
  {
  }

  /** The order once it has been waited for: queried, cancelled if unfinished, and noted. */
  function Settled(o: Order): Order {
    if o.fate.Refused? then o
    else
      var stop := StopAt(o.fate, o.qty, 0);
      o.(looked := if stop < |o.fate.looks| then stop + 1 else stop,
         cancelSent := stop == |o.fate.looks| && UnfilledAtDeadline(o.fate, o.qty) && o.qty > 0,
         booked := Reported(Confirm(o.fate, o.qty), o.qty))
  }

  /** When the note is the truth, told by the branch that ended the wait. */
  predicate NoteIsSafe(o: Order) {
    o.fate.Accepted? ==>
      var stop := StopAt(o.fate, o.qty, 0);
      if stop < |o.fate.looks| then
        match LookAt(o.fate, o.qty, stop)
        case LookFailed => Min(o.fate.unseen, o.qty) == 0
        case Seen(s, f, _, p) =>
          if f == o.qty then !s.Traded? || p > 0.0 || o.qty == 0 else o.fate.drift == 0
      else if UnfilledAtDeadline(o.fate, o.qty) && o.qty > 0 then
        if o.fate.cancelWorks && |o.fate.looks| > 0 then o.fate.drift == 0 else Min(o.fate.unseen, o.qty) == 0
      else true
  }

  /** The program's note of an order it waited for equals the units really filled exactly in the safe cases. */
  lemma NoteIsTrueIffSafe(o: Order)
    ensures FinalFill(Settled(o.(looked := 0, cancelSent := false, booked := 0)))
         == Settled(o.(looked := 0, cancelSent := false, booked := 0)).booked
       <==> NoteIsSafe(o)
  {
    if o.fate.Accepted? {
      var stop := StopAt(o.fate, o.qty, 0);
      if stop == |o.fate.looks| && stop > 0 {
        assert !Decisive(LookAt(o.fate, o.qty, stop - 1), o.qty);
      }
    }
  }

  /** A well-behaved broker is always in a safe case. */
  lemma WellBehavedIsSafe(o: Order)
    requires WellBehaved(o.fate, o.qty)
    ensures NoteIsSafe(o)
  {
    if o.fate.Accepted? {
      var stop := StopAt(o.fate, o.qty, 0);
      if stop < |o.fate.looks| {
        assert HonestLook(LookAt(o.fate, o.qty, stop), o.qty);
      }
    }
  }

  /** An order is confirmed in full exactly when the query that ended the wait said TRADED, all units, at a positive
      price; and that is the price. */
  lemma FullIff(fate: Fate, qty: nat)
    ensures Confirm(fate, qty).Full?
       <==> && fate.Accepted? && StopAt(fate, qty, 0) < |fate.looks|
            && var l := LookAt(fate, qty, StopAt(fate, qty, 0));
               l.Seen? && l.status.Traded? && l.filled == qty && l.price > 0.0
    ensures Confirm(fate, qty).Full? ==> Confirm(fate, qty).price == LookAt(fate, qty, StopAt(fate, qty, 0)).price
  {
  }

  /** The quantity and the price of a conclusion are those of the last answer there was. */
  lemma ConcludedAsSeen(o: Order)
    requires !Confirm(o.fate, o.qty).Unfilled?
    ensures
      var c, looked := Confirm(o.fate, o.qty), Settled(o).looked;
      && looked > 0 && LookAt(o.fate, o.qty, looked - 1).Seen?
      && c.price == LookAt(o.fate, o.qty, looked - 1).price
      && Reported(c, o.qty) == LookAt(o.fate, o.qty, looked - 1).filled
  {
  }
}
