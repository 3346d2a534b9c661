/** The engine's signal handlers and the entry coordinator, each run without interference. */
module LiveEngine {
  import opened Common
  import opened PositionReservation
  import opened SlotProtocol

  class Engine {
    const reservation: Reservation
    var stored: Option<nat>
    var position: Option<Position>
    var nextId: nat
    var queue: seq<Signal>
    var realized: int
    var rows: seq<Row>
    ghost var sales: seq<Row>
    ghost var entered: int
    ghost var replaced: int

    /** A stopped engine that has just loaded its recovery state. */
    constructor (recovered: Option<Position>, realized: int, rows: seq<Row>, nextId: nat)
      ensures Valid() && fresh(reservation)
      ensures View() == Initial(None, realized, rows, nextId).(
        position := recovered, entered := if recovered.Some? then recovered.value.id else -1)
    {
      reservation := new Reservation();
      entered, replaced := if recovered.Some? then recovered.value.id else -1, -1;
      stored, position, queue, sales := None, recovered, [], [];
      this.realized, this.rows, this.nextId := realized, rows, nextId;
    }

    predicate Valid()
      reads this, reservation
    {
      reservation.Valid()
    }

    /** The protocol state while neither thread is inside a step. */
    ghost function View(): State
      reads this, reservation
      requires Valid()
    {
      State(reservation.View(), reservation.nextToken, stored, position, nextId, queue, Idle, Waiting,
            realized, rows, sales, entered, replaced)
    }

    /** Take the slot again for a recovered open trade. */
    method ReserveRecoveredPosition()
      requires Valid()
      modifies this`stored, reservation
      ensures Valid()
      ensures
        var s := old(View());
        View() ==
          if s.IsOpen() && s.slot.Empty? then
            s.(slot := Active(s.nextToken), nextToken := s.nextToken + 1, stored := Some(s.nextToken))
          else s
    {
      if position.None? || position.value.phase.Closed? || !reservation.state.StateEmpty? {
        return;
      }
      var token := reservation.TryReserve("RECOVERED");
      if token.Some? {
        var active := reservation.Activate(token.value);
        if active {
          stored := token;
        }
      }
    }

    /** Release the given token, or the stored one, and forget the stored token if it was that one. */
    method ReleaseReservation(token: Option<nat>)
      requires Valid()
      modifies this`stored, reservation
      ensures Valid()
      ensures
        View() == GivenBack(old(View()), if token.Some? then token else old(stored))
    {
      var owner := if token.Some? then token else stored;
      if owner.Some? {
        var released := reservation.Release(owner.value);
      }
      if owner == stored {
        stored := None;
      }
    }

    /** The entry callback: enqueue, or refuse an unsuitable candidate. */
    method QueueEntry(suitable: bool, token: nat) returns (accepted: bool)
      requires Valid()
      modifies this`queue
      ensures Valid() && accepted == suitable
      ensures View() == if suitable then old(View()).(queue := old(queue) + [EntrySignal(token)]) else old(View())
    {
      if suitable {
        queue := queue + [EntrySignal(token)];
      }
      accepted := suitable;
    }

    /** A paper fill; when it fails the reservation is released before the error travels on. */
    method ExecutePaperPlan(token: Option<nat>, c: Choices, ghost rotating: bool) returns (filled: bool)
      requires Valid()
      modifies this, reservation
      ensures Valid() && filled == c.entryFills
      ensures
        var s := old(View());
        View() == if c.entryFills then OpenNew(s, rotating)
                  else GivenBack(s, if token.Some? then token else old(stored))
    {
      filled := c.entryFills;
      if filled {
        position := Some(Position(nextId, BothLegs, 0));
        entered, replaced := if rotating then entered else nextId, if rotating then nextId else replaced;
        nextId := nextId + 1;
      } else {
        ReleaseReservation(token);
      }
    }

    /** After a failed entry: keep the slot if a position may exist, otherwise release once more. */
    method HandleEntryFailure(token: nat)
      requires Valid()
      modifies this`stored, reservation
      ensures Valid()
      ensures
        var s := old(View());
        View() == if s.IsOpen() then s else GivenBack(s, Some(token))
    {
      if position.Some? && !position.value.phase.Closed? {
        return;
      }
      ReleaseReservation(Some(token));
    }

    /** Close the active trade at the executor, add its result and write its ledger row; false when the ledger
        refuses the row, which ends the signal with the closed trade still tracked. */
    method CloseActive(c: Choices) returns (written: bool)
      requires Valid() && position.Some? && c.legsSell
      modifies this
      ensures Valid()
      ensures written == !Refuses(old(rows), Row(old(position).value.id, c.net))
      ensures View() == if written then ClosedOut(old(View()), c.net) else BookedOut(old(View()), c.net)
    {
      var row := Row(position.value.id, c.net);
      position := Some(position.value.(phase := Closed, net := c.net));
      realized := realized + c.net;
      sales := sales + [row];
      if Refuses(rows, row) {
        return false;
      }
      rows := RecordTradePnl(rows, row);
      position := None;
      written := true;
    }

    /** Take the next signal from the queue and carry it out; errors end the signal, not the worker. */
    method ProcessNext(c: Choices)
      requires Valid() && |queue| > 0
      modifies this, reservation
      ensures Valid()
      ensures View() == HandleNext(old(View()), c)
    {
      ghost var s := View();
      var signal := queue[0];
      queue := queue[1..];
      ghost var dequeued := View();
      var open := position.Some? && !position.value.phase.Closed?;
      match signal
      case EntrySignal(token) =>
        EntryHandled(s, c);
        if open {
          ReleaseReservation(Some(token));
        } else {
          var filled := ExecutePaperPlan(Some(token), c, false);
          if filled {
            stored := Some(token);
          } else {
            HandleEntryFailure(token);
          }
        }
      case ExitSignal(id) =>
        ExitHandled(s, c);
        if open && (id.None? || id.value == position.value.id) && c.legsSell {
          var written := CloseActive(c);
          if written {
            ReleaseReservation(None);
          }
        }
      case HedgeCutSignal(_) =>
        HedgeCutHandled(s, c);
        if c.hedgeCuts && position.Some? && position.value.phase.BothLegs? {
          position := Some(position.value.(phase := SingleLeg));
        }
      case RotationSignal(_) =>
        RotationHandled(s, c);
        if open && c.legsSell {
          var written := CloseActive(c);
          if written {
            var filled := ExecutePaperPlan(stored, c, true);
          }
        }
    }
  }

  /** The slot given back by `owner`, and the stored token forgotten if it was that one. */
  function GivenBack(s: State, owner: Option<nat>): State {
    if owner.None? then s else Forget(s.(slot := s.slot.Release(owner.value)), owner.value)
  }

  /** The active trade sold, booked, written to the ledger and cleared. */
  function ClosedOut(s: State, net: int): State
    requires s.position.Some?
  {
    var row := Row(s.position.value.id, net);
    s.(position := None, realized := s.realized + net, rows := RecordTradePnl(s.rows, row), sales := s.sales + [row])
  }

  /** The active trade sold and its result added, its row not or not yet written. */
  function BookedOut(s: State, net: int): State
    requires s.position.Some?
  {
    s.(position := Some(s.position.value.(phase := Closed, net := net)),
       sales := s.sales + [Row(s.position.value.id, net)], realized := s.realized + net)
  }

  /** The ledger refuses the result of the active trade. */
  predicate RowRefused(s: State, net: int)
    requires s.position.Some?
  {
    Refuses(s.rows, Row(s.position.value.id, net))
  }

  lemma DriveOnce(s: State, c: Choices, n: nat, next: State)
    requires n > 0 && !s.worker.Waiting? && next == WorkerStep(s, NextAction(s.worker, c))
    ensures Drive(s, c, n) == Drive(next, c, n - 1)
  {
  }

  lemma NextActionIsTheWorkers(w: WorkerAt, c: Choices)
    requires !w.Waiting?
    ensures !IsEngineAction(NextAction(w, c))
  {
  }

  /** What the worker does for a signal is a run of the protocol. */
  lemma {:induction false} DriveIsRun(s: State, c: Choices, n: nat) returns (actions: seq<Action>)
    ensures Drive(s, c, n) == Run(s, actions)
    decreases n
  {
    if n == 0 || s.worker.Waiting? {
      actions := [];
    } else {
      var a := NextAction(s.worker, c);
      NextActionIsTheWorkers(s.worker, c);
      var rest := DriveIsRun(Step(s, a), c, n - 1);
      RunFirst(s, a, rest);
      actions := [a] + rest;
    }
  }

  /** A signal handled from start to end with nothing in between is a run of the protocol. */
  lemma HandlingIsRun(s: State, c: Choices) returns (actions: seq<Action>)
    ensures HandleNext(s, c) == Run(s, actions)
  {
    if |s.queue| == 0 {
      actions := [];
    } else {
      var rest := DriveIsRun(Step(s, Dequeue), c, AccessesOf(s.queue[0]));
      DequeueIsTheWorkers(s);
      RunFirst(s, Dequeue, rest);
      actions := [Dequeue] + rest;
    }
  }

  lemma DequeueIsTheWorkers(s: State)
    ensures Step(s, Dequeue) == WorkerStep(s, Dequeue)
  {
  }

  /** So it keeps what every run keeps. */
  lemma DriveKeepsInvariants(s: State, c: Choices, n: nat, rows: seq<Row>, realized: int)
    requires SlotInvariant(s) && BooksStand(s, rows, realized)
    ensures SlotInvariant(Drive(s, c, n)) && BooksStand(Drive(s, c, n), rows, realized)
  {
    var actions := DriveIsRun(s, c, n);
    RunKeepsLedger(s, actions, rows, realized);
  }

  /** The worker's accesses for an entry add up to the entry handler. */
  lemma EntryHandled(s: State, c: Choices)
    requires s.worker.Waiting? && |s.queue| > 0 && s.queue[0].EntrySignal?
    ensures
      var d, t := s.(queue := s.queue[1..]), s.queue[0].token;
      HandleNext(s, c) ==
        if s.IsOpen() then GivenBack(d, Some(t))
        else if c.entryFills then OpenNew(d, false).(stored := Some(t))
        else GivenBack(GivenBack(d, Some(t)), Some(t))
  {
    EntryWorked(s.(queue := s.queue[1..]), c, s.queue[0].token, AccessesOf(s.queue[0]));
  }

  lemma EntryWorked(d: State, c: Choices, t: nat, n: nat)
    requires d.worker.Waiting? && n >= 7
    ensures Drive(d.(worker := EntryChecking(t)), c, n) ==
      if d.IsOpen() then GivenBack(d, Some(t))
      else if c.entryFills then OpenNew(d, false).(stored := Some(t))
      else GivenBack(GivenBack(d, Some(t)), Some(t))
  {
    if d.IsOpen() {
      BlockedEntryWorked(d, c, t, n);
    } else {
      DriveOnce(d.(worker := EntryChecking(t)), c, n, d.(worker := EntryFilling(t)));
      if c.entryFills {
        FilledEntryWorked(d, c, t, n - 1);
      } else {
        FailedEntryWorked(d, c, t, n - 1);
      }
    }
  }

  lemma BlockedEntryWorked(d: State, c: Choices, t: nat, n: nat)
    requires d.worker.Waiting? && d.IsOpen() && n >= 3
    ensures Drive(d.(worker := EntryChecking(t)), c, n) == GivenBack(d, Some(t))
  {
    var freed := d.(slot := d.slot.Release(t));
    DriveOnce(d.(worker := EntryChecking(t)), c, n, d.(worker := EntryAlreadyActive(t)));
    DriveOnce(d.(worker := EntryAlreadyActive(t)), c, n - 1, freed.(worker := Forgetting(t)));
    DriveOnce(freed.(worker := Forgetting(t)), c, n - 2, Forget(freed, t));
  }

  lemma FilledEntryWorked(d: State, c: Choices, t: nat, n: nat)
    requires d.worker.Waiting? && c.entryFills && n >= 2
    ensures Drive(d.(worker := EntryFilling(t)), c, n) == OpenNew(d, false).(stored := Some(t))
  {
    DriveOnce(d.(worker := EntryFilling(t)), c, n, OpenNew(d, false).(worker := EntryFilled(t)));
    DriveOnce(OpenNew(d, false).(worker := EntryFilled(t)), c, n - 1, OpenNew(d, false).(stored := Some(t)));
  }

  lemma FailedEntryWorked(d: State, c: Choices, t: nat, n: nat)
    requires d.worker.Waiting? && !d.IsOpen() && !c.entryFills && n >= 6
    ensures Drive(d.(worker := EntryFilling(t)), c, n) == GivenBack(GivenBack(d, Some(t)), Some(t))
  {
    var once, freed := GivenBack(d, Some(t)), d.(slot := d.slot.Release(t));
    DriveOnce(d.(worker := EntryFilling(t)), c, n, d.(worker := EntryFailed(t)));
    DriveOnce(d.(worker := EntryFailed(t)), c, n - 1, freed.(worker := EntryForgetting(t)));
    DriveOnce(freed.(worker := EntryForgetting(t)), c, n - 2, once.(worker := ErrorChecking(t)));
    EntryErrorWorked(once, c, t, n - 3);
  }

  lemma EntryErrorWorked(d: State, c: Choices, t: nat, n: nat)
    requires d.worker.Waiting? && !d.IsOpen() && n >= 3
    ensures Drive(d.(worker := ErrorChecking(t)), c, n) == GivenBack(d, Some(t))
  {
    var freed := d.(slot := d.slot.Release(t));
    DriveOnce(d.(worker := ErrorChecking(t)), c, n, d.(worker := ErrorReleasing(t)));
    DriveOnce(d.(worker := ErrorReleasing(t)), c, n - 1, freed.(worker := ErrorForgetting(t)));
    DriveOnce(freed.(worker := ErrorForgetting(t)), c, n - 2, Forget(freed, t));
  }

  lemma SaleWorked(d: State, c: Choices, p: Purpose, n: nat)
    requires d.worker.Waiting? && d.position.Some? && c.legsSell && n >= 2
    ensures Drive(d.(worker := Selling(p)), c, n) == Drive(BookedOut(d, c.net).(worker := Booked(p)), c, n - 2)
  {
    var id := d.position.value.id;
    var sold := d.(position := Some(d.position.value.(phase := Closed, net := c.net)),
                   sales := d.sales + [Row(id, c.net)]);
    DriveOnce(d.(worker := Selling(p)), c, n, sold.(worker := SlotProtocol.Sold(p)));
    DriveOnce(sold.(worker := SlotProtocol.Sold(p)), c, n - 1, BookedOut(d, c.net).(worker := Booked(p)));
  }

  function AfterClose(p: Purpose): WorkerAt {
    if p.ForExit? then Releasing else RotationFilling
  }

  lemma WriteWorked(d: State, c: Choices, p: Purpose, n: nat)
    requires d.position.Some? && !RowRefused(d, c.net) && n >= 2
    ensures Drive(BookedOut(d, c.net).(worker := Booked(p)), c, n)
         == Drive(ClosedOut(d, c.net).(worker := AfterClose(p)), c, n - 2)
  {
    var booked := BookedOut(d, c.net);
    var written := booked.(rows := RecordTradePnl(d.rows, Row(d.position.value.id, c.net)));
    DriveOnce(booked.(worker := Booked(p)), c, n, written.(worker := Ledgered(p)));
    DriveOnce(written.(worker := Ledgered(p)), c, n - 1, ClosedOut(d, c.net).(worker := AfterClose(p)));
  }

  lemma WriteRefused(d: State, c: Choices, p: Purpose, n: nat)
    requires d.worker.Waiting? && d.position.Some? && RowRefused(d, c.net) && n >= 1
    ensures Drive(BookedOut(d, c.net).(worker := Booked(p)), c, n) == BookedOut(d, c.net)
  {
    DriveOnce(BookedOut(d, c.net).(worker := Booked(p)), c, n, BookedOut(d, c.net));
  }

  /** Selling, booking, writing and clearing, for either purpose. */
  lemma CloseWorked(d: State, c: Choices, p: Purpose, n: nat)
    requires d.worker.Waiting? && d.position.Some? && c.legsSell && n >= 4
    ensures Drive(d.(worker := Selling(p)), c, n) ==
      if RowRefused(d, c.net) then BookedOut(d, c.net)
      else Drive(ClosedOut(d, c.net).(worker := AfterClose(p)), c, n - 4)
  {
    var left := n - 2;
    SaleWorked(d, c, p, n);
    if RowRefused(d, c.net) {
      WriteRefused(d, c, p, left);
    } else {
      WriteWorked(d, c, p, left);
    }
  }

  lemma ReleaseWorked(d: State, c: Choices, n: nat)
    requires d.worker.Waiting? && n >= 2
    ensures Drive(d.(worker := Releasing), c, n) == GivenBack(d, d.stored)
  {
    if d.stored.None? {
      DriveOnce(d.(worker := Releasing), c, n, d);
    } else {
      StoredReleaseWorked(d, d.(slot := d.slot.Release(d.stored.value)), d.stored.value, c, n);
    }
  }

  lemma StoredReleaseWorked(d: State, freed: State, t: nat, c: Choices, n: nat)
    requires d.worker.Waiting? && d.stored == Some(t) && freed == d.(slot := d.slot.Release(t)) && n >= 2
    ensures Drive(d.(worker := Releasing), c, n) == Forget(freed, t)
  {
    DriveOnce(d.(worker := Releasing), c, n, freed.(worker := Forgetting(t)));
    DriveOnce(freed.(worker := Forgetting(t)), c, n - 1, Forget(freed, t));
  }

  /** An exit whose legs sold: the slot given back, or the trade stranded by a refused row. */
  function ExitDone(d: State, net: int): State
    requires d.position.Some?
  {
    if RowRefused(d, net) then BookedOut(d, net) else GivenBack(ClosedOut(d, net), d.stored)
  }

  /** A rotation whose legs sold: a new trade, the slot given back, or the trade stranded by a refused row. */
  function RotationDone(d: State, c: Choices): State
    requires d.position.Some?
  {
    if RowRefused(d, c.net) then BookedOut(d, c.net)
    else if c.entryFills then OpenNew(ClosedOut(d, c.net), true)
    else GivenBack(ClosedOut(d, c.net), d.stored)
  }

  /** The worker's accesses for an exit add up to the exit handler. */
  lemma ExitHandled(s: State, c: Choices)
    requires s.worker.Waiting? && |s.queue| > 0 && s.queue[0].ExitSignal?
    ensures
      var d, id := s.(queue := s.queue[1..]), s.queue[0].tradeId;
      HandleNext(s, c) ==
        if s.IsOpen() && (id.None? || id.value == s.position.value.id) && c.legsSell then ExitDone(d, c.net)
        else d
  {
    ExitWorked(s.(queue := s.queue[1..]), c, s.queue[0].tradeId, AccessesOf(s.queue[0]));
  }

  lemma ExitWorked(d: State, c: Choices, id: Option<nat>, n: nat)
    requires d.worker.Waiting? && n >= 7
    ensures Drive(d.(worker := ExitChecking(id)), c, n) ==
      if d.IsOpen() && (id.None? || id.value == d.position.value.id) && c.legsSell then ExitDone(d, c.net) else d
  {
    if d.IsOpen() && (id.None? || id.value == d.position.value.id) {
      DriveOnce(d.(worker := ExitChecking(id)), c, n, d.(worker := Selling(ForExit)));
      ExitSaleWorked(d, c, n - 1);
    } else {
      DriveOnce(d.(worker := ExitChecking(id)), c, n, d);
    }
  }

  lemma ExitSaleWorked(d: State, c: Choices, n: nat)
    requires d.worker.Waiting? && d.position.Some? && n >= 6
    ensures Drive(d.(worker := Selling(ForExit)), c, n) ==
      if c.legsSell then ExitDone(d, c.net) else d
  {
    if c.legsSell {
      SoldExitWorked(d, c, n);
    } else {
      SaleFailed(d, c, ForExit, n);
    }
  }

  lemma SoldExitWorked(d: State, c: Choices, n: nat)
    requires d.worker.Waiting? && d.position.Some? && c.legsSell && n >= 6
    ensures Drive(d.(worker := Selling(ForExit)), c, n) == ExitDone(d, c.net)
  {
    CloseWorked(d, c, ForExit, n);
    if !RowRefused(d, c.net) {
      ExitReleased(ClosedOut(d, c.net), d.stored, c, n - 4);
    }
  }

  lemma ExitReleased(d: State, stored: Option<nat>, c: Choices, n: nat)
    requires d.worker.Waiting? && d.stored == stored && n >= 2
    ensures Drive(d.(worker := AfterClose(ForExit)), c, n) == GivenBack(d, stored)
  {
    ReleaseWorked(d, c, n);
  }

  lemma SaleFailed(d: State, c: Choices, p: Purpose, n: nat)
    requires d.worker.Waiting? && !c.legsSell && n > 0
    ensures Drive(d.(worker := Selling(p)), c, n) == d
  {
    DriveOnce(d.(worker := Selling(p)), c, n, d);
  }

  lemma HedgeCutHandled(s: State, c: Choices)
    requires s.worker.Waiting? && |s.queue| > 0 && s.queue[0].HedgeCutSignal?
    ensures
      var d := s.(queue := s.queue[1..]);
      HandleNext(s, c) ==
        if c.hedgeCuts && s.position.Some? && s.position.value.phase.BothLegs?
        then d.(position := Some(s.position.value.(phase := SingleLeg)))
        else d
  {
    var d := s.(queue := s.queue[1..]);
    var cutting := d.(worker := HedgeCutting(s.queue[0].target));
    DriveOnce(cutting, c, AccessesOf(s.queue[0]), WorkerStep(cutting, CutHedge(c.hedgeCuts)));
  }

  /** The worker's accesses for a rotation add up to the rotation handler, replacement failed or not. */
  lemma RotationHandled(s: State, c: Choices)
    requires s.worker.Waiting? && |s.queue| > 0 && s.queue[0].RotationSignal?
    ensures
      var d := s.(queue := s.queue[1..]);
      HandleNext(s, c) ==
        if s.IsOpen() && c.legsSell then RotationDone(d, c) else d
  {
    RotationWorked(s.(queue := s.queue[1..]), c, s.queue[0].target, AccessesOf(s.queue[0]));
  }

  lemma RotationWorked(d: State, c: Choices, target: nat, n: nat)
    requires d.worker.Waiting? && n >= 8
    ensures Drive(d.(worker := RotationChecking(target)), c, n) ==
      if d.IsOpen() && c.legsSell then RotationDone(d, c) else d
  {
    if d.IsOpen() {
      DriveOnce(d.(worker := RotationChecking(target)), c, n, d.(worker := Selling(ForRotation)));
      RotationSaleWorked(d, c, n - 1);
    } else {
      DriveOnce(d.(worker := RotationChecking(target)), c, n, d);
    }
  }

  lemma RotationSaleWorked(d: State, c: Choices, n: nat)
    requires d.worker.Waiting? && d.position.Some? && n >= 7
    ensures Drive(d.(worker := Selling(ForRotation)), c, n) ==
      if c.legsSell then RotationDone(d, c) else d
  {
    if c.legsSell {
      CloseWorked(d, c, ForRotation, n);
      if !RowRefused(d, c.net) {
        ReplacementWorked(ClosedOut(d, c.net), c, n - 4);
      }
    } else {
      SaleFailed(d, c, ForRotation, n);
    }
  }

  lemma ReplacementWorked(d: State, c: Choices, n: nat)
    requires d.worker.Waiting? && n >= 3
    ensures Drive(d.(worker := RotationFilling), c, n)
         == if c.entryFills then OpenNew(d, true) else GivenBack(d, d.stored)
  {
    if c.entryFills {
      ReplacementFilled(d, c, n);
    } else {
      ReplacementFailed(d, c, n);
    }
  }

  lemma ReplacementFilled(d: State, c: Choices, n: nat)
    requires d.worker.Waiting? && c.entryFills && n >= 1
    ensures Drive(d.(worker := RotationFilling), c, n) == OpenNew(d, true)
  {
    DriveOnce(d.(worker := RotationFilling), c, n, OpenNew(d, true));
  }

  lemma ReplacementFailed(d: State, c: Choices, n: nat)
    requires d.worker.Waiting? && !c.entryFills && n >= 3
    ensures Drive(d.(worker := RotationFilling), c, n) == GivenBack(d, d.stored)
  {
    DriveOnce(d.(worker := RotationFilling), c, n, d.(worker := Releasing));
    ReleaseWorked(d, c, n - 1);
  }
}
