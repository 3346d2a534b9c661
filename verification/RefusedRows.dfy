/** A trade whose result the ledger refuses: when that happens and what becomes of it. */
module RefusedRows {
  import opened Common
  import opened PositionReservation
  import opened SlotProtocol

  /** Somewhere on the way the ledger refuses a row. */
  predicate RefusedDuring(s: State, actions: seq<Action>)
    decreases |actions|
  {
    |actions| > 0 && (RefusesRow(s, actions[0]) || RefusedDuring(Step(s, actions[0]), actions[1..]))
  }

  /** No other step leaves a closed trade behind. */
  lemma OnlyRefusalsStrand(s: State, a: Action)
    requires SlotInvariant(s) && !Stranded(s) && !RefusesRow(s, a)
    ensures !Stranded(Step(s, a))
  {
    if IsEngineAction(a) {
      EngineLeavesBooks(s, a);
    } else if s.worker.Waiting? {
      DequeueLeavesBooks(s, a);
    } else if WorkerToken(s.worker).Some? {
      EntryStrandsNothing(s, a);
    } else if GivenUp(s.worker).Some? {
      GivingUpLeavesBooks(s, a);
    } else {
      CloseStrandsNothing(s, a);
    }
  }

  lemma EntryStrandsNothing(s: State, a: Action)
    requires SlotInvariant(s) && !Stranded(s) && WorkerToken(s.worker).Some?
    ensures !Stranded(EntryStep(s, a))
  {
  }

  lemma CloseStrandsNothing(s: State, a: Action)
    requires !Stranded(s) && !RefusesRow(s, a)
    ensures !Stranded(CloseStep(s, a))
  {
  }

  /** In every interleaving a closed trade is left tracked exactly when the ledger refused a row on the way. */
  lemma {:induction false} StrandedIffRefused(s: State, actions: seq<Action>)
    requires SlotInvariant(s)
    ensures Stranded(Run(s, actions)) <==> Stranded(s) || RefusedDuring(s, actions)
    decreases |actions|
  {
    if |actions| > 0 {
      StepKeepsSlotInvariant(s, actions[0]);
      if Stranded(s) {
        StrandedStays(s, actions[0]);
      } else if RefusesRow(s, actions[0]) {
        RefusalStrands(s, actions[0]);
      } else {
        OnlyRefusalsStrand(s, actions[0]);
      }
      StrandedIffRefused(Step(s, actions[0]), actions[1..]);
    }
  }

  /** Once stranded, always: whatever both threads go on to do, the trade stays tracked, the slot stays taken by it,
      and the books stand still. */
  lemma {:induction false} StrandedForever(s: State, actions: seq<Action>)
    requires SlotInvariant(s) && Stranded(s)
    ensures Stranded(Run(s, actions)) && SameTradeAndBooks(s, Run(s, actions))
    decreases |actions|
  {
    if |actions| == 0 {
      StrandedBlocksEntries(s);
    } else {
      StepKeepsSlotInvariant(s, actions[0]);
      StrandedStays(s, actions[0]);
      StrandedForever(Step(s, actions[0]), actions[1..]);
    }
  }

  /** From a start of the engine only a trade that had its row already, with another amount, can be stranded. */
  lemma StrandedHadOtherRow(
    recovered: Option<Position>, realized: int, rows: seq<Row>, nextId: nat, actions: seq<Action>)
    requires IdsAreOld(recovered, rows, nextId)
    ensures
      var s := Run(Initial(recovered, realized, rows, nextId), actions);
      Stranded(s) ==> HadOtherRow(s.position.value, rows)
  {
    StartOfBooks(recovered, realized, rows, nextId);
    RunKeepsLedger(Initial(recovered, realized, rows, nextId), actions, rows, realized);
  }

  /** It does happen: the engine stops after the row of a sale is written and before its recovery state is saved, the
      trade is recovered as open, and its next sale brings another amount. */
  lemma SoldAgainIsStranded(id: nat, realized: int, nextId: nat, amount: int, net: int)
    requires amount != net
    ensures
      var start := Initial(Some(Position(id, BothLegs, 0)), realized, [Row(id, amount)], nextId);
      Stranded(Run(start, [SeeTrade, EnqueueExit] + [Dequeue, CheckExit, Sell(true, net)] + [Book, WriteLedger]))
  {
    var start := Initial(Some(Position(id, BothLegs, 0)), realized, [Row(id, amount)], nextId);
    var asked := start.(queue := [ExitSignal(Some(id))]);
    var sold := start.(
      position := Some(Position(id, Closed, net)), sales := [Row(id, net)], worker := Sold(ForExit));
    ExitIsAsked(start, id, asked);
    ExitSells(asked, id, net, sold);
    RowIsRefused(sold, id, net);
    RunInThreeParts(start, [SeeTrade, EnqueueExit], [Dequeue, CheckExit, Sell(true, net)], [Book, WriteLedger]);
  }

  lemma ExitIsAsked(s: State, id: nat, t: State)
    requires s.engine.Idle? && s.IsOpen() && s.position.value.id == id && s.queue == []
    requires t == s.(queue := [ExitSignal(Some(id))])
    ensures Run(s, [SeeTrade, EnqueueExit]) == t
  {
    RunTwo(s, SeeTrade, EnqueueExit, s.(engine := Monitoring(id)), t);
  }

  lemma ExitSells(s: State, id: nat, net: int, t: State)
    requires s.worker.Waiting? && s.queue == [ExitSignal(Some(id))] && s.IsOpen() && s.position.value.id == id
    requires s.sales == []
    requires t == s.(queue := [], position := Some(Position(id, Closed, net)), sales := [Row(id, net)],
                     worker := Sold(ForExit))
    ensures Run(s, [Dequeue, CheckExit, Sell(true, net)]) == t
  {
    var taken := s.(queue := []);
    ExitTaken(s, id, taken.(worker := ExitChecking(Some(id))));
    ExitChecked(taken.(worker := ExitChecking(Some(id))), taken.(worker := Selling(ForExit)));
    ExitSold(taken.(worker := Selling(ForExit)), id, net, t);
    RunThree(s, Dequeue, CheckExit, Sell(true, net),
             taken.(worker := ExitChecking(Some(id))), taken.(worker := Selling(ForExit)), t);
  }

  lemma ExitTaken(s: State, id: nat, t: State)
    requires s.worker.Waiting? && s.queue == [ExitSignal(Some(id))]
    requires t == s.(queue := [], worker := ExitChecking(Some(id)))
    ensures Step(s, Dequeue) == t
  {
  }

  lemma ExitChecked(s: State, t: State)
    requires s.IsOpen() && s.worker == ExitChecking(Some(s.position.value.id)) && t == s.(worker := Selling(ForExit))
    ensures Step(s, CheckExit) == t
  {
  }

  lemma ExitSold(s: State, id: nat, net: int, t: State)
    requires s.worker == Selling(ForExit) && s.position.Some? && s.position.value.id == id
    requires t == s.(position := Some(Position(id, Closed, net)), sales := s.sales + [Row(id, net)],
                     worker := Sold(ForExit))
    ensures Step(s, Sell(true, net)) == t
  {
  }

  lemma RowIsRefused(s: State, id: nat, net: int)
    requires s.worker == Sold(ForExit) && s.position == Some(Position(id, Closed, net)) && s.stored.Some?
    requires Refuses(s.rows, Row(id, net))
    ensures Stranded(Run(s, [Book, WriteLedger]))
  {
    var booked := s.(realized := s.realized + net, worker := Booked(ForExit));
    RowIsBooked(s, net, booked);
    RefusalStrands(booked, WriteLedger);
    RunTwo(s, Book, WriteLedger, booked, booked.(worker := Waiting));
  }

  lemma RowIsBooked(s: State, net: int, t: State)
    requires s.worker == Sold(ForExit) && s.position.Some? && s.position.value.net == net
    requires t == s.(realized := s.realized + net, worker := Booked(ForExit))
    ensures Step(s, Book) == t
  {
  }

  // Restarts.

  /** The recovered trade is still tracked under the slot, nothing else was opened, and no row was written. */
  predicate KeepsSlot(s: State, id: nat, rows: seq<Row>) {
    && s.position.Some? && s.position.value.id == id && s.rows == rows
    && s.stored.Some? && !s.slot.Empty? && s.entered == id && s.replaced == -1
  }

  /** That, with the trade not closed for the amount of its row. */
  predicate KeepsSlotUnbooked(s: State, id: nat, amount: int, rows: seq<Row>) {
    && KeepsSlot(s, id, rows) && !s.worker.Ledgered?
    && (IsTrackedClosed(s) ==> s.position.value.net != amount)
  }

  lemma OwnerBlocksEntries(s: State)
    requires SlotInvariant(s) && s.position.Some? && s.stored.Some?
    ensures !s.slot.Empty? && s.stored == Some(s.slot.owner)
    ensures WorkerToken(s.worker).None? && !s.worker.Forgetting? && !s.worker.Releasing? && !s.worker.RotationFilling?
    ensures EngineToken(s.engine).None? && !s.engine.DroppingActivation?
  {
  }

  lemma EngineKeepsSlot(s: State, a: Action, id: nat, amount: int, rows: seq<Row>)
    requires KeepsSlotUnbooked(s, id, amount, rows) && EngineToken(s.engine).None? && !s.engine.DroppingActivation?
    ensures KeepsSlotUnbooked(EngineStep(s, a), id, amount, rows)
  {
    if Watching(s.engine) {
      MonitorLooksOrAsks(s, a);
    }
  }

  lemma GivingUpKeepsSlot(s: State, a: Action, id: nat, amount: int, rows: seq<Row>)
    requires SlotInvariant(s) && KeepsSlotUnbooked(s, id, amount, rows) && GivenUp(s.worker).Some?
    requires s.stored == Some(s.slot.owner)
    ensures KeepsSlotUnbooked(GiveUpStep(s, a), id, amount, rows)
  {
  }

  lemma CloseKeepsSlot(s: State, a: Action, id: nat, amount: int, rows: seq<Row>)
    requires SlotInvariant(s) && KeepsSlotUnbooked(s, id, amount, rows) && RecordedAmount(rows, id) == Some(amount)
    requires !s.worker.Releasing? && !s.worker.RotationFilling?
    ensures KeepsSlotUnbooked(CloseStep(s, a), id, amount, rows) || Row(id, amount) in CloseStep(s, a).sales
  {
    if s.worker.Selling? && a.Sell? && a.sold {
      assert CloseStep(s, a).sales == s.sales + [Row(id, a.net)];
    }
  }

  lemma StepKeepsSlot(s: State, a: Action, id: nat, amount: int, rows: seq<Row>)
    requires SlotInvariant(s) && KeepsSlotUnbooked(s, id, amount, rows) && RecordedAmount(rows, id) == Some(amount)
    ensures KeepsSlotUnbooked(Step(s, a), id, amount, rows) || Row(id, amount) in Step(s, a).sales
  {
    OwnerBlocksEntries(s);
    if IsEngineAction(a) {
      EngineKeepsSlot(s, a, id, amount, rows);
    } else if s.worker.Waiting? {
    } else if GivenUp(s.worker).Some? {
      GivingUpKeepsSlot(s, a, id, amount, rows);
    } else {
      CloseKeepsSlot(s, a, id, amount, rows);
    }
  }

  lemma SalesOnlyGrow(s: State, a: Action, row: Row)
    requires row in s.sales
    ensures row in Step(s, a).sales
  {
    if IsEngineAction(a) {
      EngineLeavesBooks(s, a);
    } else if s.worker.Waiting? {
      DequeueLeavesBooks(s, a);
    } else if GivenUp(s.worker).Some? {
      GivingUpLeavesBooks(s, a);
    } else if WorkerToken(s.worker).Some? {
      assert EntryStep(s, a).sales == s.sales;
    } else {
      assert s.sales <= CloseStep(s, a).sales;
    }
  }

  lemma {:induction false} RunKeepsSlot(s: State, actions: seq<Action>, id: nat, amount: int, rows: seq<Row>)
    requires SlotInvariant(s) && RecordedAmount(rows, id) == Some(amount)
    requires KeepsSlotUnbooked(s, id, amount, rows) || Row(id, amount) in s.sales
    ensures KeepsSlotUnbooked(Run(s, actions), id, amount, rows) || Row(id, amount) in Run(s, actions).sales
    decreases |actions|
  {
    if |actions| > 0 {
      StepKeepsSlotInvariant(s, actions[0]);
      if Row(id, amount) in s.sales {
        SalesOnlyGrow(s, actions[0], Row(id, amount));
      } else {
        StepKeepsSlot(s, actions[0], id, amount, rows);
      }
      RunKeepsSlot(Step(s, actions[0]), actions[1..], id, amount, rows);
    }
  }

  /** One life of the engine, from a start that recovers the trade. */
  datatype Session = Session(recovered: Position, realized: int, nextId: nat, actions: seq<Action>)

  function EndOf(rows: seq<Row>, x: Session): State {
    Run(Initial(Some(x.recovered), x.realized, rows, x.nextId), x.actions)
  }

  /** Every session recovers the trade as open, and none sells it for that amount. */
  ghost predicate RecoveredAndNeverSoldFor(rows: seq<Row>, sessions: seq<Session>, id: nat, amount: int)
    decreases |sessions|
  {
    |sessions| > 0 ==>
      var x := sessions[0];
      && x.recovered.id == id && !x.recovered.phase.Closed? && Row(id, amount) !in EndOf(rows, x).sales
      && RecoveredAndNeverSoldFor(EndOf(rows, x).rows, sessions[1..], id, amount)
  }

  /** At the end of every session the trade holds the slot, and no other trade was opened. */
  ghost predicate EverySessionKeepsSlot(rows: seq<Row>, sessions: seq<Session>, id: nat)
    decreases |sessions|
  {
    |sessions| > 0 ==>
      var e := EndOf(rows, sessions[0]);
      KeepsSlot(e, id, rows) && EverySessionKeepsSlot(e.rows, sessions[1..], id)
  }

  /** Restarts do not help: over any sessions that recover the trade as open, it keeps the slot, no entry opens another
      trade and the ledger stays as it is, until the trade is sold for exactly the amount of its row. */
  lemma {:induction false} RestartsDoNotFree(rows: seq<Row>, sessions: seq<Session>, id: nat, amount: int)
    requires RecordedAmount(rows, id) == Some(amount) && RecoveredAndNeverSoldFor(rows, sessions, id, amount)
    ensures EverySessionKeepsSlot(rows, sessions, id)
    decreases |sessions|
  {
    if |sessions| > 0 {
      var x := sessions[0];
      RecoveredKeepsSlot(rows, x, id, amount);
      RestartsDoNotFree(rows, sessions[1..], id, amount);
    }
  }

  lemma RecoveredKeepsSlot(rows: seq<Row>, x: Session, id: nat, amount: int)
    requires RecordedAmount(rows, id) == Some(amount) && x.recovered.id == id && !x.recovered.phase.Closed?
    ensures KeepsSlot(EndOf(rows, x), id, rows) || Row(id, amount) in EndOf(rows, x).sales
  {
    var start := Initial(Some(x.recovered), x.realized, rows, x.nextId);
    StartIsConsistent(Some(x.recovered), x.realized, rows, x.nextId);
    RunKeepsSlot(start, x.actions, id, amount, rows);
  }

  lemma StartIsConsistent(recovered: Option<Position>, realized: int, rows: seq<Row>, nextId: nat)
    ensures SlotInvariant(Initial(recovered, realized, rows, nextId))
  {
  }

  /** And such a sale does: its row is there already, so nothing is refused, and the slot is given back. */
  lemma SoldForItsRowIsFreed(id: nat, realized: int, nextId: nat, amount: int)
    ensures
      var start := Initial(Some(Position(id, BothLegs, 0)), realized, [Row(id, amount)], nextId);
      var sold := Run(start, [SeeTrade, EnqueueExit] + [Dequeue, CheckExit, Sell(true, amount)]
                             + ([Book, WriteLedger] + [Clear, ReleaseStored]));
      sold.slot.Empty? && sold.position.None? && sold.rows == [Row(id, amount)]
  {
    var start := Initial(Some(Position(id, BothLegs, 0)), realized, [Row(id, amount)], nextId);
    var asked := start.(queue := [ExitSignal(Some(id))]);
    var sold := start.(
      position := Some(Position(id, Closed, amount)), sales := [Row(id, amount)], worker := Sold(ForExit));
    ExitIsAsked(start, id, asked);
    ExitSells(asked, id, amount, sold);
    RowIsAccepted(sold, id, amount);
    RunInThreeParts(start, [SeeTrade, EnqueueExit], [Dequeue, CheckExit, Sell(true, amount)],
                    [Book, WriteLedger] + [Clear, ReleaseStored]);
  }

  lemma RowIsAccepted(s: State, id: nat, net: int)
    requires s.worker == Sold(ForExit) && s.position == Some(Position(id, Closed, net))
    requires s.slot == Active(0) && s.stored == Some(0) && s.rows == [Row(id, net)]
    ensures
      var t := Run(s, [Book, WriteLedger] + [Clear, ReleaseStored]);
      t.slot.Empty? && t.position.None? && t.rows == s.rows
  {
    var booked := s.(realized := s.realized + net, worker := Booked(ForExit));
    var written := booked.(worker := Ledgered(ForExit));
    var cleared := written.(position := None, worker := Releasing);
    RowIsBooked(s, net, booked);
    KnownRowIsWritten(booked, id, net, written);
    RunTwo(s, Book, WriteLedger, booked, written);
    TradeIsCleared(written, cleared);
    SlotIsReleased(cleared, cleared.(slot := Empty, worker := Forgetting(0)));
    RunTwo(written, Clear, ReleaseStored, cleared, cleared.(slot := Empty, worker := Forgetting(0)));
    RunInTwoParts(s, [Book, WriteLedger], [Clear, ReleaseStored]);
  }

  lemma KnownRowIsWritten(s: State, id: nat, net: int, t: State)
    requires s.worker == Booked(ForExit) && s.position == Some(Position(id, Closed, net)) && s.rows == [Row(id, net)]
    requires t == s.(worker := Ledgered(ForExit))
    ensures Step(s, WriteLedger) == t
  {
    OneRow(Row(id, net));
  }

  lemma OneRow(row: Row)
    ensures RecordedAmount([row], row.tradeId) == Some(row.amount) && row.tradeId in Ids([row])
  {
    assert [row][..0] == [];
  }

  lemma TradeIsCleared(s: State, t: State)
    requires s.worker == Ledgered(ForExit) && t == s.(position := None, worker := Releasing)
    ensures Step(s, Clear) == t
  {
  }

  lemma SlotIsReleased(s: State, t: State)
    requires s.worker.Releasing? && s.slot == Active(0) && s.stored == Some(0)
    requires t == s.(slot := Empty, worker := Forgetting(0))
    ensures Step(s, ReleaseStored) == t
  {
  }
}
