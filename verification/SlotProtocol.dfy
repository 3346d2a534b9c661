/** The engine thread and the queue worker in PAPER mode, one shared access at a time. */
module SlotProtocol {
  import opened Common
  import opened PositionReservation

  /** target is the trade the signal was raised for. The worker reads neither: a hedge cut carries its trade's id
      unread, and a rotation's target is history only. */
  datatype Signal =
    | EntrySignal(token: nat)
    | ExitSignal(tradeId: Option<nat>)
    | HedgeCutSignal(target: nat)
    | RotationSignal(target: nat)

  datatype LivePhase = BothLegs | SingleLeg | Closed

  /** The active trade; net is its P&L in paise once it is closed. */
  datatype Position = Position(id: nat, phase: LivePhase, net: int)

  /** A TRADE_PNL row of the ledger, in paise. */
  datatype Row = Row(tradeId: nat, amount: int)

  datatype EngineAt =
    | Idle
    | Scanning
    | Dispatching(token: nat)
    | Rejecting(token: nat)
    | Activating(token: nat)
    | DroppingActivation(token: nat)
    | Monitoring(tradeId: nat)
    | Rotating(tradeId: nat) /* a trade was still tracked after the rotation scan */
    | Judging(tradeId: nat) /* the trade judged for rotation */

  /** What the worker closes a trade for. */
  datatype Purpose = ForExit | ForRotation

  datatype WorkerAt =
    | Waiting
    | EntryChecking(token: nat)
    | EntryAlreadyActive(token: nat)
    | EntryFilling(token: nat)
    | EntryFilled(token: nat)
    | EntryFailed(token: nat)
    | EntryForgetting(token: nat)
    | ErrorChecking(token: nat)
    | ErrorReleasing(token: nat)
    | ErrorForgetting(token: nat)
    | ExitChecking(tradeId: Option<nat>)
    | HedgeCutting(target: nat)
    | RotationChecking(target: nat)
    | Selling(purpose: Purpose)
    | Sold(purpose: Purpose)
    | Booked(purpose: Purpose)
    | Ledgered(purpose: Purpose)
    | Releasing
    | RotationFilling
    | Forgetting(owner: nat)

  datatype State = State(
    slot: Slot, nextToken: nat, stored: Option<nat>,
    position: Option<Position>, nextId: nat, queue: seq<Signal>,
    engine: EngineAt, worker: WorkerAt,
    realized: int, rows: seq<Row>,
    sales: seq<Row>, /* history: every sale that closed a trade */
    entered: int,    /* history: the last trade an entry opened, else the recovered one, else -1 */
    replaced: int    /* history: the last trade a rotation opened, else -1 */)
  {
    predicate IsOpen() { position.Some? && !position.value.phase.Closed? }
  }

  datatype Action =
    | SeeNoTrade | SeeTrade | GiveUpScan | Reserve
    | Callback(accepted: bool) | Reject | ActivateSlot | DropActivation
    | EnqueueExit | EnqueueHedgeCut | GuardRotation | JudgeRotation | EnqueueRotation | MonitorOnly
    | Dequeue
    | CheckEntry | ReleaseBlocked | FillEntry(filled: bool) | StoreToken
    | ReleaseFailed | ForgetFailed | CheckError | ReleaseAgain | ForgetAgain
    | CheckExit | CheckRotation | CutHedge(cut: bool)
    | Sell(sold: bool, net: int) | Book | WriteLedger | Clear
    | FillRotation(filled: bool) | ReleaseStored | ForgetStored

  /** One step of the engine thread; a step that is not next for it changes nothing. */
  function EngineStep(s: State, a: Action): State {
    if Watching(s.engine) then MonitorStep(s, a) else DispatchStep(s, a)
  }

  /** At rest or watching a trade. */
  predicate Watching(e: EngineAt) {
    e.Idle? || e.Monitoring? || e.Rotating? || e.Judging?
  }

  function MonitorStep(s: State, a: Action): State {
    match (s.engine, a)
    case (Idle, SeeNoTrade) => if s.IsOpen() then s else s.(engine := Scanning)
    case (Idle, SeeTrade) => if s.IsOpen() then s.(engine := Monitoring(s.position.value.id)) else s
    case (Monitoring(id), EnqueueExit) => s.(queue := s.queue + [ExitSignal(Some(id))], engine := Idle)
    case (Monitoring(id), EnqueueHedgeCut) => s.(queue := s.queue + [HedgeCutSignal(id)], engine := Idle)
    case (Monitoring(id), GuardRotation) => s.(engine := if s.position.Some? then Rotating(id) else Idle)
    case (Rotating(_), JudgeRotation) =>
      s.(engine := if s.position.Some? then Judging(s.position.value.id) else Idle)
    case (Judging(id), EnqueueRotation) => s.(queue := s.queue + [RotationSignal(id)], engine := Idle)
    case (Monitoring(_), MonitorOnly) => s.(engine := Idle)
    case (Rotating(_), MonitorOnly) => s.(engine := Idle)
    case (Judging(_), MonitorOnly) => s.(engine := Idle)
    case _ => s
  }

  function DispatchStep(s: State, a: Action): State {
    match (s.engine, a)
    case (Scanning, GiveUpScan) => s.(engine := Idle)
    case (Scanning, Reserve) =>
      if s.slot.Empty? then
        s.(slot := s.slot.Reserve(s.nextToken), nextToken := s.nextToken + 1, engine := Dispatching(s.nextToken))
      else s.(engine := Idle)
    case (Dispatching(t), Callback(accepted)) =>
      if accepted then s.(queue := s.queue + [EntrySignal(t)], engine := Activating(t))
      else s.(engine := Rejecting(t))
    case (Rejecting(t), Reject) => s.(slot := s.slot.Release(t), engine := Idle)
    case (Activating(t), ActivateSlot) =>
      s.(slot := s.slot.Activate(t), engine := if s.slot == Reserved(t) then Idle else DroppingActivation(t))
    case (DroppingActivation(t), DropActivation) => s.(slot := s.slot.Release(t), engine := Idle)
    case _ => s
  }

  function Start(signal: Signal): WorkerAt {
    match signal
    case EntrySignal(t) => EntryChecking(t)
    case ExitSignal(id) => ExitChecking(id)
    case HedgeCutSignal(id) => HedgeCutting(id)
    case RotationSignal(id) => RotationChecking(id)
  }

  function OpenNew(s: State, rotating: bool): State {
    s.(position := Some(Position(s.nextId, BothLegs, 0)), nextId := s.nextId + 1,
       entered := if rotating then s.entered else s.nextId, replaced := if rotating then s.nextId else s.replaced)
  }

  function Forget(s: State, owner: nat): State {
    if s.stored == Some(owner) then s.(stored := None) else s
  }

  function Ids(rows: seq<Row>): set<nat> {
    if |rows| == 0 then {} else Ids(rows[..|rows| - 1]) + {rows[|rows| - 1].tradeId}
  }

  /** The amount of the first row of a trade. */
  function RecordedAmount(rows: seq<Row>, id: nat): Option<int> {
    if |rows| == 0 then None
    else
      var last := rows[|rows| - 1];
      var before := RecordedAmount(rows[..|rows| - 1], id);
      if before.Some? then before else if last.tradeId == id then Some(last.amount) else None
  }

  /** The ledger refuses a second result of a trade that differs from the first. */
  predicate Refuses(rows: seq<Row>, row: Row) {
    var known := RecordedAmount(rows, row.tradeId);
    known.Some? && known.value != row.amount
  }

  /** A trade's result is written once; a second write of the same result adds nothing. */
  function RecordTradePnl(rows: seq<Row>, row: Row): seq<Row> {
    if row.tradeId in Ids(rows) then rows else rows + [row]
  }

  /** One step of the queue worker; a step that is not next for it changes nothing. */
  function WorkerStep(s: State, a: Action): State {
    if s.worker.Waiting? then
      (if a.Dequeue? && |s.queue| > 0 then s.(queue := s.queue[1..], worker := Start(s.queue[0])) else s)
    else if WorkerToken(s.worker).Some? then EntryStep(s, a)
    else if GivenUp(s.worker).Some? then GiveUpStep(s, a)
    else CloseStep(s, a)
  }

  /** An entry until it is filled or its token released. */
  function EntryStep(s: State, a: Action): State {
    match (s.worker, a)
    case (EntryChecking(t), CheckEntry) => s.(worker := if s.IsOpen() then EntryAlreadyActive(t) else EntryFilling(t))
    case (EntryAlreadyActive(t), ReleaseBlocked) => s.(slot := s.slot.Release(t), worker := Forgetting(t))
    case (EntryFilling(t), FillEntry(filled)) =>
      if filled then OpenNew(s, false).(worker := EntryFilled(t)) else s.(worker := EntryFailed(t))
    case (EntryFilled(t), StoreToken) => s.(stored := Some(t), worker := Waiting)
    case (EntryFailed(t), ReleaseFailed) => s.(slot := s.slot.Release(t), worker := EntryForgetting(t))
    case _ => s
  }

  /** What is left to do with a released token. */
  function GiveUpStep(s: State, a: Action): State {
    match (s.worker, a)
    case (EntryForgetting(t), ForgetFailed) => Forget(s, t).(worker := ErrorChecking(t))
    case (ErrorChecking(t), CheckError) => s.(worker := if s.IsOpen() then Waiting else ErrorReleasing(t))
    case (ErrorReleasing(t), ReleaseAgain) => s.(slot := s.slot.Release(t), worker := ErrorForgetting(t))
    case (ErrorForgetting(t), ForgetAgain) => Forget(s, t).(worker := Waiting)
    case (Forgetting(t), ForgetStored) => Forget(s, t).(worker := Waiting)
    case _ => s
  }

  /** Exits, hedge cuts and rotations. */
  function CloseStep(s: State, a: Action): State {
    match (s.worker, a)
    case (ExitChecking(id), CheckExit) =>
      if s.IsOpen() && (id.None? || id.value == s.position.value.id) then s.(worker := Selling(ForExit))
      else s.(worker := Waiting)
    case (RotationChecking(_), CheckRotation) => s.(worker := if s.IsOpen() then Selling(ForRotation) else Waiting)
    case (HedgeCutting(_), CutHedge(cut)) =>
      if cut && s.position.Some? && s.position.value.phase.BothLegs? then
        s.(position := Some(s.position.value.(phase := SingleLeg)), worker := Waiting)
      else s.(worker := Waiting)
    case (Selling(p), Sell(sold, net)) =>
      if sold && s.position.Some? then
        s.(position := Some(s.position.value.(phase := Closed, net := net)),
           sales := s.sales + [Row(s.position.value.id, net)], worker := Sold(p))
      else s.(worker := Waiting)
    case (Sold(p), Book) =>
      if s.position.Some? then s.(realized := s.realized + s.position.value.net, worker := Booked(p)) else s
    case (Booked(p), WriteLedger) =>
      if s.position.None? then s
      else
        var row := Row(s.position.value.id, s.position.value.net);
        if Refuses(s.rows, row) then s.(worker := Waiting) /* an error ends the signal here */
        else s.(rows := RecordTradePnl(s.rows, row), worker := Ledgered(p))
    case (Ledgered(p), Clear) => s.(position := None, worker := if p.ForExit? then Releasing else RotationFilling)
    case (RotationFilling, FillRotation(filled)) =>
      if filled then OpenNew(s, true).(worker := Waiting) else s.(worker := Releasing)
    case (Releasing, ReleaseStored) =>
      if s.stored.None? then s.(worker := Waiting)
      else s.(slot := s.slot.Release(s.stored.value), worker := Forgetting(s.stored.value))
    case _ => s
  }

  predicate IsEngineAction(a: Action) {
    || a.SeeNoTrade? || a.SeeTrade? || a.GiveUpScan? || a.Reserve? || a.Callback? || a.Reject? || a.ActivateSlot?
    || a.DropActivation? || a.EnqueueExit? || a.EnqueueHedgeCut? || a.GuardRotation? || a.JudgeRotation?
    || a.EnqueueRotation? || a.MonitorOnly?
  }

  function Step(s: State, a: Action): State {
    if IsEngineAction(a) then EngineStep(s, a) else WorkerStep(s, a)
  }

  function Run(s: State, actions: seq<Action>): State
    decreases |actions|
  {
    if |actions| == 0 then s else Run(Step(s, actions[0]), actions[1..])
  }

  /** Engine start: nothing tracked, or the recovered trade, with its slot taken again if it is open. */
  function Initial(recovered: Option<Position>, realized: int, rows: seq<Row>, nextId: nat): State {
    var entered := if recovered.Some? then recovered.value.id else -1;
    var s := State(Empty, 0, None, recovered, nextId, [], Idle, Waiting, realized, rows, [], entered, -1);
    if s.IsOpen() then s.(slot := Empty.Reserve(0).Activate(0), nextToken := 1, stored := Some(0)) else s
  }

  /** What the executors will do while one signal is handled. */
  datatype Choices = Choices(entryFills: bool, legsSell: bool, hedgeCuts: bool, net: int)

  /** The next access of the worker on its way through a signal. */
  function NextAction(w: WorkerAt, c: Choices): Action {
    match w
    case Waiting => MonitorOnly
    case EntryChecking(_) => CheckEntry
    case EntryAlreadyActive(_) => ReleaseBlocked
    case EntryFilling(_) => FillEntry(c.entryFills)
    case EntryFilled(_) => StoreToken
    case EntryFailed(_) => ReleaseFailed
    case EntryForgetting(_) => ForgetFailed
    case ErrorChecking(_) => CheckError
    case ErrorReleasing(_) => ReleaseAgain
    case ErrorForgetting(_) => ForgetAgain
    case ExitChecking(_) => CheckExit
    case HedgeCutting(_) => CutHedge(c.hedgeCuts)
    case RotationChecking(_) => CheckRotation
    case Selling(_) => Sell(c.legsSell, c.net)
    case Sold(_) => Book
    case Booked(_) => WriteLedger
    case Ledgered(_) => Clear
    case Releasing => ReleaseStored
    case RotationFilling => FillRotation(c.entryFills)
    case Forgetting(_) => ForgetStored
  }

  /** The worker alone, for at most n accesses or until it waits again. */
  function Drive(s: State, c: Choices, n: nat): State
    decreases n
  {
    if n == 0 || s.worker.Waiting? then s else Drive(WorkerStep(s, NextAction(s.worker, c)), c, n - 1)
  }

  /** One queued signal handled from start to end with nothing in between. */
  function HandleNext(s: State, c: Choices): State {
    if |s.queue| == 0 then s else Drive(WorkerStep(s, Dequeue), c, AccessesOf(s.queue[0]))
  }

  /** A bound on the worker's accesses for a signal. */
  function AccessesOf(signal: Signal): nat {
    match signal
    case EntrySignal(_) => 7
    case ExitSignal(_) => 7
    case HedgeCutSignal(_) => 1
    case RotationSignal(_) => 8
  }

  // What holds the slot.

  function EntriesQueued(queue: seq<Signal>): nat {
    if |queue| == 0 then 0
    else (if queue[0].EntrySignal? then 1 else 0) + EntriesQueued(queue[1..])
  }

  /** The token of a scan the engine thread is still dispatching. */
  function EngineToken(e: EngineAt): Option<nat> {
    match e
    case Dispatching(t) => Some(t)
    case Rejecting(t) => Some(t)
    case _ => None
  }

  /** The token of an entry the worker has taken and not given up. */
  function WorkerToken(w: WorkerAt): Option<nat> {
    match w
    case EntryChecking(t) => Some(t)
    case EntryAlreadyActive(t) => Some(t)
    case EntryFilling(t) => Some(t)
    case EntryFilled(t) => Some(t)
    case EntryFailed(t) => Some(t)
    case _ => None
  }

  /** The stored token, unless it has been released and is only waiting to be forgotten. */
  function StoredToken(s: State): Option<nat> {
    if s.worker.Forgetting? then None else s.stored
  }

  function One(token: Option<nat>): nat {
    if token.Some? then 1 else 0
  }

  /** Everything that holds the slot: a dispatch, a queued entry, an entry at work, a stored token. */
  function Holders(s: State): nat {
    One(EngineToken(s.engine)) + EntriesQueued(s.queue) + One(WorkerToken(s.worker)) + One(StoredToken(s))
  }

  /** Entries waiting in the queue or being executed and still able to open a trade. */
  function LiveEntries(s: State): nat {
    EntriesQueued(s.queue) + One(WorkerToken(s.worker))
  }

  ghost predicate OwnedBy(slot: Slot, token: Option<nat>) {
    token.Some? ==> !slot.Empty? && slot.owner == token.value
  }

  // The invariant.

  /** The slot is free with no holder, or taken by exactly one, whose token owns it. */
  ghost predicate SlotIsAccountedFor(s: State) {
    && Holders(s) == (if s.slot.Empty? then 0 else 1)
    && OwnedBy(s.slot, EngineToken(s.engine))
    && OwnedBy(s.slot, WorkerToken(s.worker))
    && OwnedBy(s.slot, StoredToken(s))
    && QueueOwned(s.slot, s.queue)
  }

  ghost predicate QueueOwned(slot: Slot, queue: seq<Signal>) {
    forall i :: 0 <= i < |queue| && queue[i].EntrySignal? ==> OwnedBy(slot, Some(queue[i].token))
  }

  /** Between the closing sale and the end of its signal. */
  predicate Closing(w: WorkerAt) {
    w.Sold? || w.Booked? || w.Ledgered?
  }

  predicate IsTrackedClosed(s: State) {
    s.position.Some? && s.position.value.phase.Closed?
  }

  /** A closed trade found at the start: tracked without a slot until another one is opened. */
  predicate IsLeftover(s: State) {
    IsTrackedClosed(s) && s.stored.None?
  }

  /** The stored token stands for the tracked position, mid-close and mid-rotation included. */
  ghost predicate StoredStandsForPosition(s: State) {
    && (s.position.Some? && !IsLeftover(s) <==>
      || (s.stored.Some? && !s.worker.Forgetting? && !s.worker.Releasing? && !s.worker.RotationFilling?)
      || s.worker.EntryFilled?)
    && (s.worker.EntryFilled? ==> s.stored.None? && s.IsOpen())
    && (s.worker.Releasing? || s.worker.RotationFilling? ==> s.stored.Some? && s.position.None?)
    && (s.worker.Forgetting? ==> s.stored == Some(s.worker.owner) && s.position.None?)
    && (Closing(s.worker) ==> s.stored.Some?)
  }

  /** A closed trade is still tracked and holds the slot although no signal is at work on it: its row was refused. */
  predicate Stranded(s: State) {
    IsTrackedClosed(s) && s.stored.Some? && !Closing(s.worker)
  }

  ghost predicate WorkerIsConsistent(s: State) {
    && !s.worker.EntryAlreadyActive?
    && (s.worker.Selling? ==> s.IsOpen())
    && (Closing(s.worker) ==> IsTrackedClosed(s))
  }

  /** The slot is only reserved, not active, while its owner's entry is being dispatched. */
  ghost predicate ReservedOnlyInDispatch(s: State) {
    && (s.slot.Reserved? ==>
      || s.engine == Dispatching(s.slot.owner) || s.engine == Rejecting(s.slot.owner)
      || s.engine == Activating(s.slot.owner))
    && (s.engine.Dispatching? || s.engine.Rejecting? ==> s.slot == Reserved(s.engine.token))
    && (s.engine.Activating? ==> s.slot.Empty? || s.slot == Reserved(s.engine.token))
    && (s.engine.DroppingActivation? ==> s.slot.Empty?)
  }

  ghost predicate TokensAreFresh(s: State) {
    && (!s.slot.Empty? ==> s.slot.owner < s.nextToken)
    && (GivenUp(s.worker).Some? ==>
      GivenUp(s.worker).value < s.nextToken && DoesNotOwn(GivenUp(s.worker).value, s.slot))
  }

  /** The token the worker has already released and is done with. */
  function GivenUp(w: WorkerAt): Option<nat> {
    match w
    case EntryForgetting(t) => Some(t)
    case ErrorChecking(t) => Some(t)
    case ErrorReleasing(t) => Some(t)
    case ErrorForgetting(t) => Some(t)
    case Forgetting(t) => Some(t)
    case _ => None
  }

  ghost predicate DoesNotOwn(token: nat, slot: Slot) {
    slot.Empty? || slot.owner != token
  }

  ghost predicate SlotInvariant(s: State) {
    && SlotIsAccountedFor(s) && StoredStandsForPosition(s) && WorkerIsConsistent(s)
    && ReservedOnlyInDispatch(s) && TokensAreFresh(s)
  }

  lemma {:induction false} EntriesQueuedOfAppend(queue: seq<Signal>, signal: Signal)
    ensures EntriesQueued(queue + [signal]) == EntriesQueued(queue) + (if signal.EntrySignal? then 1 else 0)
  {
    if |queue| == 0 {
      assert queue + [signal] == [signal];
    } else {
      assert (queue + [signal])[1..] == queue[1..] + [signal];
      EntriesQueuedOfAppend(queue[1..], signal);
    }
  }

  lemma {:induction false} QueuedEntryCounts(queue: seq<Signal>, i: nat)
    requires i < |queue| && queue[i].EntrySignal?
    ensures EntriesQueued(queue) >= 1
  {
    if i > 0 {
      QueuedEntryCounts(queue[1..], i - 1);
    }
  }

  lemma NoEntriesNoOwner(slot: Slot, queue: seq<Signal>)
    requires EntriesQueued(queue) == 0
    ensures QueueOwned(slot, queue)
  {
    forall i | 0 <= i < |queue| && queue[i].EntrySignal?
      ensures false
    {
      QueuedEntryCounts(queue, i);
    }
  }

  lemma ReservingKeepsSlotInvariant(s: State)
    requires SlotInvariant(s) && s.engine.Scanning?
    ensures SlotInvariant(DispatchStep(s, Reserve))
  {
    if s.slot.Empty? {
      NoEntriesNoOwner(DispatchStep(s, Reserve).slot, s.queue);
    }
  }

  lemma CallbackKeepsSlotInvariant(s: State, accepted: bool)
    requires SlotInvariant(s) && s.engine.Dispatching?
    ensures SlotInvariant(DispatchStep(s, Callback(accepted)))
  {
    EntriesQueuedOfAppend(s.queue, EntrySignal(s.engine.token));
  }

  lemma DispatchKeepsSlotInvariant(s: State, a: Action)
    requires SlotInvariant(s) && !Watching(s.engine)
    ensures SlotInvariant(DispatchStep(s, a))
  {
    match (s.engine, a)
    case (Scanning, Reserve) => ReservingKeepsSlotInvariant(s);
    case (Dispatching(_), Callback(accepted)) => CallbackKeepsSlotInvariant(s, accepted);
    case _ => RestOfDispatchKeepsSlotInvariant(s, a);
  }

  lemma RestOfDispatchKeepsSlotInvariant(s: State, a: Action)
    requires SlotInvariant(s) && !Watching(s.engine)
    requires !(s.engine.Scanning? && a.Reserve?) && !(s.engine.Dispatching? && a.Callback?)
    ensures SlotInvariant(DispatchStep(s, a))
  {
    if s.engine.Rejecting? {
      NoEntriesNoOwner(Empty, s.queue);
    }
  }

  /** A step that only moves the engine thread among its looks. */
  predicate Looks(s: State, t: State) {
    t == s.(engine := t.engine) && (Watching(t.engine) || t.engine.Scanning?)
  }

  /** A step that queues an exit, a hedge cut or a rotation. */
  predicate Asks(s: State, t: State) {
    |t.queue| == |s.queue| + 1 && !t.queue[|s.queue|].EntrySignal?
    && t == s.(queue := s.queue + [t.queue[|s.queue|]], engine := Idle)
  }

  lemma MonitorLooksOrAsks(s: State, a: Action)
    requires Watching(s.engine)
    ensures Looks(s, MonitorStep(s, a)) || Asks(s, MonitorStep(s, a))
  {
  }

  lemma MonitorKeepsSlotInvariant(s: State, a: Action)
    requires SlotInvariant(s) && Watching(s.engine)
    ensures SlotInvariant(MonitorStep(s, a))
  {
    var t := MonitorStep(s, a);
    MonitorLooksOrAsks(s, a);
    if Looks(s, t) {
      LookingKeepsSlotInvariant(s, t.engine);
    } else {
      AskingKeepsSlotInvariant(s, t.queue[|s.queue|]);
    }
  }

  lemma AskingKeepsSlotInvariant(s: State, signal: Signal)
    requires SlotInvariant(s) && Watching(s.engine) && !signal.EntrySignal?
    ensures SlotInvariant(s.(queue := s.queue + [signal], engine := Idle))
  {
    EntriesQueuedOfAppend(s.queue, signal);
  }

  lemma LookingKeepsSlotInvariant(s: State, e: EngineAt)
    requires SlotInvariant(s) && Watching(s.engine) && (Watching(e) || e.Scanning?)
    ensures SlotInvariant(s.(engine := e))
  {
  }

  lemma EntryKeepsSlotInvariant(s: State, a: Action)
    requires SlotInvariant(s) && WorkerToken(s.worker).Some?
    ensures SlotInvariant(EntryStep(s, a))
  {
    NoEntriesNoOwner(Empty, s.queue);
  }

  lemma GiveUpKeepsSlotInvariant(s: State, a: Action)
    requires SlotInvariant(s) && GivenUp(s.worker).Some?
    ensures SlotInvariant(GiveUpStep(s, a))
  {
  }

  lemma CloseKeepsSlotInvariant(s: State, a: Action)
    requires SlotInvariant(s) && WorkerToken(s.worker).None? && GivenUp(s.worker).None?
    ensures SlotInvariant(CloseStep(s, a))
  {
    if s.worker.Releasing? {
      NoEntriesNoOwner(Empty, s.queue);
    } else {
      ClosingLeavesSlot(s, a);
      SameSlotKeepsAccount(s, CloseStep(s, a));
    }
  }

  /** Until the final release, closing changes nothing that accounts for the slot. */
  lemma ClosingLeavesSlot(s: State, a: Action)
    requires SlotInvariant(s) && WorkerToken(s.worker).None? && GivenUp(s.worker).None? && !s.worker.Releasing?
    ensures
      var t := CloseStep(s, a);
      && t.slot == s.slot && t.nextToken == s.nextToken && t.stored == s.stored && t.queue == s.queue
      && t.engine == s.engine && WorkerToken(t.worker).None? && GivenUp(t.worker).None?
      && StoredStandsForPosition(t) && WorkerIsConsistent(t)
  {
  }

  lemma SameSlotKeepsAccount(s: State, t: State)
    requires SlotInvariant(s) && WorkerToken(s.worker).None? && GivenUp(s.worker).None?
    requires t.slot == s.slot && t.nextToken == s.nextToken && t.stored == s.stored && t.queue == s.queue
    requires t.engine == s.engine && WorkerToken(t.worker).None? && GivenUp(t.worker).None?
    ensures SlotIsAccountedFor(t) && ReservedOnlyInDispatch(t) && TokensAreFresh(t)
  {
  }

  lemma EngineKeepsSlotInvariant(s: State, a: Action)
    requires SlotInvariant(s)
    ensures SlotInvariant(EngineStep(s, a))
  {
    if Watching(s.engine) {
      MonitorKeepsSlotInvariant(s, a);
    } else {
      DispatchKeepsSlotInvariant(s, a);
    }
  }

  lemma DequeueKeepsSlotInvariant(s: State, a: Action)
    requires SlotInvariant(s) && s.worker.Waiting?
    ensures SlotInvariant(WorkerStep(s, a))
  {
  }

  lemma StepKeepsSlotInvariant(s: State, a: Action)
    requires SlotInvariant(s)
    ensures SlotInvariant(Step(s, a))
  {
    if IsEngineAction(a) {
      EngineKeepsSlotInvariant(s, a);
    } else if s.worker.Waiting? {
      DequeueKeepsSlotInvariant(s, a);
    } else if WorkerToken(s.worker).Some? {
      EntryKeepsSlotInvariant(s, a);
    } else if GivenUp(s.worker).Some? {
      GiveUpKeepsSlotInvariant(s, a);
    } else {
      CloseKeepsSlotInvariant(s, a);
    }
  }

  lemma {:induction false} RunKeepsSlotInvariant(s: State, actions: seq<Action>)
    requires SlotInvariant(s)
    ensures SlotInvariant(Run(s, actions))
    decreases |actions|
  {
    if |actions| > 0 {
      StepKeepsSlotInvariant(s, actions[0]);
      RunKeepsSlotInvariant(Step(s, actions[0]), actions[1..]);
    }
  }

  /** Slot safety, in every interleaving from a fresh or recovered start. */
  lemma SlotIsSafe(
    recovered: Option<Position>, realized: int, rows: seq<Row>, nextId: nat, actions: seq<Action>)
    ensures
      var s := Run(Initial(recovered, realized, rows, nextId), actions);
      && LiveEntries(s) <= 1
      && (s.IsOpen() ==> !s.slot.Empty?)
      && (s.IsOpen() && !s.worker.EntryFilled? ==> s.stored == Some(s.slot.owner))
      && (s.IsOpen() && s.worker.EntryFilled? ==> s.worker.token == s.slot.owner)
      && (s.worker.RotationFilling? ==> !s.slot.Empty? && s.stored == Some(s.slot.owner))
      && !s.worker.EntryAlreadyActive?
      && (LiveEntries(s) == 1 ==> !s.IsOpen() || s.worker.EntryFilled?)
  {
    RunKeepsSlotInvariant(Initial(recovered, realized, rows, nextId), actions);
  }

  /** No slot leak: with the queue empty and both threads at rest, the slot is free exactly when no token is stored,
      and unless a closed trade is stranded exactly when no trade is open. */
  lemma SlotDoesNotLeak(
    recovered: Option<Position>, realized: int, rows: seq<Row>, nextId: nat, actions: seq<Action>)
    ensures
      var s := Run(Initial(recovered, realized, rows, nextId), actions);
      s.queue == [] && s.engine.Idle? && s.worker.Waiting? ==>
        && (s.slot.Empty? <==> s.stored.None?)
        && (s.stored.Some? ==> s.slot.Active? && s.stored == Some(s.slot.owner) && s.position.Some?)
        && (!Stranded(s) ==> (s.slot.Empty? <==> !s.IsOpen()))
  {
    RunKeepsSlotInvariant(Initial(recovered, realized, rows, nextId), actions);
  }

  // Profit and loss against the ledger.

  function Total(rows: seq<Row>): int {
    if |rows| == 0 then 0 else Total(rows[..|rows| - 1]) + rows[|rows| - 1].amount
  }

  /** The sales whose ledger row is already written. */
  function Written(s: State): seq<Row> {
    if (s.worker.Sold? || s.worker.Booked?) && |s.sales| > 0 then s.sales[..|s.sales| - 1] else s.sales
  }

  /** No trade occurs twice. */
  ghost predicate Distinct(rows: seq<Row>) {
    |rows| > 0 ==> rows[|rows| - 1].tradeId !in Ids(rows[..|rows| - 1]) && Distinct(rows[..|rows| - 1])
  }

  ghost predicate AllBelow(ids: set<nat>, bound: nat) {
    forall id :: id in ids ==> id < bound
  }

  /** The rows of trades that are not listed. */
  ghost function NotIn(rows: seq<Row>, ids: set<nat>): seq<Row> {
    if |rows| == 0 then []
    else NotIn(rows[..|rows| - 1], ids) + if rows[|rows| - 1].tradeId in ids then [] else [rows[|rows| - 1]]
  }

  /** The rows written since the start are the written sales, but for a trade that had its row already. */
  ghost predicate LedgerInvariant(s: State, rows: seq<Row>, realized: int) {
    && s.rows == rows + NotIn(Written(s), Ids(rows))
    && s.realized
       == realized + Total(Written(s)) + (if s.worker.Booked? && s.position.Some? then s.position.value.net else 0)
    && Distinct(s.sales)
    && AllBelow(Ids(s.sales), s.nextId) && AllBelow(Ids(rows), s.nextId)
    && (s.position.Some? ==> s.position.value.id < s.nextId)
    && (s.IsOpen() ==> s.position.value.id !in Ids(s.sales))
    && !Stranded(s) && (Closing(s.worker) ==> s.position.Some? && IsLastSale(s.sales, s.position.value))
  }

  predicate IsLastSale(sales: seq<Row>, p: Position) {
    |sales| > 0 && sales[|sales| - 1] == Row(p.id, p.net)
  }

  /** No trade that is open, being closed or sold had a row at the start. */
  ghost predicate FreshBooks(s: State, rows: seq<Row>) {
    && Ids(s.sales) !! Ids(rows) && AllBelow(Ids(rows), s.nextId)
    && (s.IsOpen() || Closing(s.worker) ==> s.position.Some? && s.position.value.id !in Ids(rows))
  }

  /** The books agree, or they stopped at a stranded trade that had its row before. */
  ghost predicate BooksStand(s: State, rows: seq<Row>, realized: int) {
    || LedgerInvariant(s, rows, realized)
    || (Stranded(s) && rows <= s.rows && Distinct(s.sales) && HadOtherRow(s.position.value, rows))
  }

  /** The trade had a row at the start, with another amount. */
  predicate HadOtherRow(p: Position, rows: seq<Row>) {
    Refuses(rows, Row(p.id, p.net))
  }

  lemma TotalOfAppend(rows: seq<Row>, row: Row)
    ensures Total(rows + [row]) == Total(rows) + row.amount
  {
    assert (rows + [row])[..|rows|] == rows;
  }

  lemma IdsOfAppend(rows: seq<Row>, row: Row)
    ensures Ids(rows + [row]) == Ids(rows) + {row.tradeId}
    ensures Distinct(rows) && row.tradeId !in Ids(rows) ==> Distinct(rows + [row])
  {
    assert (rows + [row])[..|rows|] == rows;
  }

  lemma {:induction false} IdsOfSum(a: seq<Row>, b: seq<Row>)
    ensures Ids(a + b) == Ids(a) + Ids(b)
  {
    if |b| == 0 {
      assert a + b == a;
    } else {
      assert (a + b)[..|a + b| - 1] == a + b[..|b| - 1];
      IdsOfSum(a, b[..|b| - 1]);
    }
  }

  lemma {:induction false} DistinctPairwise(rows: seq<Row>, i: nat, j: nat)
    requires Distinct(rows) && i < j < |rows|
    ensures rows[i].tradeId != rows[j].tradeId
  {
    if j == |rows| - 1 {
      IdIsListed(rows[..j], i);
    } else {
      DistinctPairwise(rows[..|rows| - 1], i, j);
    }
  }

  lemma {:induction false} IdIsListed(rows: seq<Row>, i: nat)
    requires i < |rows|
    ensures rows[i].tradeId in Ids(rows)
  {
    if i < |rows| - 1 {
      IdIsListed(rows[..|rows| - 1], i);
    }
  }

  lemma OpenNewKeepsLedger(s: State, rows: seq<Row>, realized: int, next: WorkerAt, rotating: bool)
    requires WorkerIsConsistent(s) && LedgerInvariant(s, rows, realized)
    requires s.worker.EntryFilling? || s.worker.RotationFilling?
    requires next.Waiting? || next.EntryFilled?
    ensures LedgerInvariant(OpenNew(s, rotating).(worker := next), rows, realized)
  {
  }

  lemma SellKeepsLedger(s: State, rows: seq<Row>, realized: int, net: int)
    requires WorkerIsConsistent(s) && LedgerInvariant(s, rows, realized) && s.worker.Selling?
    ensures LedgerInvariant(CloseStep(s, Sell(true, net)), rows, realized)
  {
    var row := Row(s.position.value.id, net);
    IdsOfAppend(s.sales, row);
    assert (s.sales + [row])[..|s.sales|] == s.sales;
  }

  lemma {:induction false} RecordedIffListed(rows: seq<Row>, id: nat)
    ensures RecordedAmount(rows, id).Some? <==> id in Ids(rows)
  {
    if |rows| > 0 {
      RecordedIffListed(rows[..|rows| - 1], id);
    }
  }

  lemma {:induction false} NotInIsPart(rows: seq<Row>, ids: set<nat>)
    ensures Ids(NotIn(rows, ids)) <= Ids(rows)
  {
    if |rows| > 0 {
      var before := NotIn(rows[..|rows| - 1], ids);
      NotInIsPart(rows[..|rows| - 1], ids);
      IdsOfAppend(before, rows[|rows| - 1]);
      assert before + [] == before;
    }
  }

  lemma {:induction false} NotInIsAll(rows: seq<Row>, ids: set<nat>)
    requires Ids(rows) !! ids
    ensures NotIn(rows, ids) == rows
  {
    if |rows| > 0 {
      NotInIsAll(rows[..|rows| - 1], ids);
      InitAndLast(rows);
    }
  }

  lemma NotInOfAppend(rows: seq<Row>, row: Row, ids: set<nat>)
    ensures NotIn(rows + [row], ids) == NotIn(rows, ids) + if row.tradeId in ids then [] else [row]
  {
    assert (rows + [row])[..|rows|] == rows;
  }

  /** The row being written is the last sale; the ledger does not hold it yet unless it did at the start. */
  lemma WriteAddsLastSale(s: State, rows: seq<Row>, realized: int)
    requires WorkerIsConsistent(s) && LedgerInvariant(s, rows, realized) && s.worker.Booked?
    ensures s.position.Some? && |s.sales| > 0
    ensures RecordTradePnl(s.rows, Row(s.position.value.id, s.position.value.net)) == rows + NotIn(s.sales, Ids(rows))
    ensures Total(s.sales) == Total(Written(s)) + s.position.value.net
  {
    var last, written := s.sales[|s.sales| - 1], Written(s);
    InitAndLast(s.sales);
    TotalOfAppend(written, last);
    IdsOfAppend(written, last);
    WriteAddsRow(rows, NotIn(written, Ids(rows)), NotIn(s.sales, Ids(rows)), written, last, Ids(rows));
  }

  lemma WriteAddsRow(rows: seq<Row>, more: seq<Row>, all: seq<Row>, written: seq<Row>, last: Row, ids: set<nat>)
    requires ids == Ids(rows) && last.tradeId !in Ids(written)
    requires more == NotIn(written, ids) && all == NotIn(written + [last], ids)
    ensures RecordTradePnl(rows + more, last) == rows + all
  {
    NotInIsPart(written, ids);
    NotInOfAppend(written, last, ids);
    AppendsUnlessListed(rows, more, last, ids);
  }

  lemma AppendsUnlessListed(rows: seq<Row>, more: seq<Row>, last: Row, ids: set<nat>)
    requires ids == Ids(rows) && last.tradeId !in Ids(more)
    ensures RecordTradePnl(rows + more, last) == rows + (more + if last.tradeId in ids then [] else [last])
  {
    IdsOfSum(rows, more);
    if last.tradeId in ids {
      assert more + [] == more;
    } else {
      assert rows + more + [last] == rows + (more + [last]);
    }
  }

  /** The ledger refuses the row the worker is about to write. */
  predicate RefusesRow(s: State, a: Action) {
    s.worker.Booked? && a.WriteLedger? && s.position.Some?
    && Refuses(s.rows, Row(s.position.value.id, s.position.value.net))
  }

  lemma WriteKeepsLedger(s: State, rows: seq<Row>, realized: int)
    requires WorkerIsConsistent(s) && LedgerInvariant(s, rows, realized) && s.worker.Booked?
    requires !RefusesRow(s, WriteLedger)
    ensures LedgerInvariant(CloseStep(s, WriteLedger), rows, realized)
  {
    WriteAddsLastSale(s, rows, realized);
    var t := CloseStep(s, WriteLedger);
    assert t == s.(rows := rows + NotIn(s.sales, Ids(rows)), worker := t.worker) && t.worker.Ledgered?;
  }

  lemma ClearKeepsLedger(s: State, rows: seq<Row>, realized: int)
    requires WorkerIsConsistent(s) && LedgerInvariant(s, rows, realized) && s.worker.Ledgered?
    ensures LedgerInvariant(CloseStep(s, Clear), rows, realized)
  {
  }

  lemma BookKeepsLedger(s: State, rows: seq<Row>, realized: int)
    requires WorkerIsConsistent(s) && LedgerInvariant(s, rows, realized) && s.worker.Sold?
    ensures LedgerInvariant(CloseStep(s, Book), rows, realized)
  {
  }

  lemma CutKeepsLedger(s: State, cut: bool, rows: seq<Row>, realized: int)
    requires WorkerIsConsistent(s) && LedgerInvariant(s, rows, realized) && s.worker.HedgeCutting?
    ensures LedgerInvariant(CloseStep(s, CutHedge(cut)), rows, realized)
  {
  }

  /** Does this step change the books? */
  predicate ChangesBooks(w: WorkerAt, a: Action) {
    || (w.Selling? && a.Sell? && a.sold) || (w.Sold? && a.Book?) || (w.Booked? && a.WriteLedger?)
    || (w.Ledgered? && a.Clear?) || (w.HedgeCutting? && a.CutHedge?)
    || (w.RotationFilling? && a.FillRotation? && a.filled)
  }

  lemma RestOfCloseLeavesBooks(s: State, a: Action)
    requires WorkerIsConsistent(s) && !ChangesBooks(s.worker, a)
    ensures SameBooks(s, CloseStep(s, a))
  {
  }

  lemma CloseKeepsLedger(s: State, a: Action, rows: seq<Row>, realized: int)
    requires WorkerIsConsistent(s) && LedgerInvariant(s, rows, realized) && !RefusesRow(s, a)
    requires WorkerToken(s.worker).None? && GivenUp(s.worker).None?
    ensures LedgerInvariant(CloseStep(s, a), rows, realized)
  {
    if ChangesBooks(s.worker, a) {
      BookChangeKeepsLedger(s, a, rows, realized);
    } else {
      RestOfCloseLeavesBooks(s, a);
      SameBooksKeepLedger(s, CloseStep(s, a), rows, realized);
    }
  }

  lemma BookChangeKeepsLedger(s: State, a: Action, rows: seq<Row>, realized: int)
    requires WorkerIsConsistent(s) && LedgerInvariant(s, rows, realized)
    requires ChangesBooks(s.worker, a) && !RefusesRow(s, a)
    ensures LedgerInvariant(CloseStep(s, a), rows, realized)
  {
    match a
    case Sell(_, net) => SellKeepsLedger(s, rows, realized, net);
    case Book => BookKeepsLedger(s, rows, realized);
    case WriteLedger => WriteKeepsLedger(s, rows, realized);
    case Clear => ClearKeepsLedger(s, rows, realized);
    case CutHedge(cut) => CutKeepsLedger(s, cut, rows, realized);
    case FillRotation(_) => OpenNewKeepsLedger(s, rows, realized, Waiting, true);
  }

  lemma EntryKeepsLedger(s: State, a: Action, rows: seq<Row>, realized: int)
    requires SlotInvariant(s) && LedgerInvariant(s, rows, realized) && WorkerToken(s.worker).Some?
    ensures LedgerInvariant(EntryStep(s, a), rows, realized)
  {
    if s.worker.EntryFilling? && a.FillEntry? && a.filled {
      OpenNewKeepsLedger(s, rows, realized, EntryFilled(s.worker.token), false);
    } else {
      RestOfEntryLeavesBooks(s, a);
      SameBooksKeepLedger(s, EntryStep(s, a), rows, realized);
    }
  }

  lemma RestOfEntryLeavesBooks(s: State, a: Action)
    requires StoredStandsForPosition(s)
    requires WorkerToken(s.worker).Some? && !(s.worker.EntryFilling? && a.FillEntry? && a.filled)
    ensures SameBooks(s, EntryStep(s, a))
  {
  }

  /** Nothing the books depend on differs. */
  ghost predicate SameBooks(s: State, t: State) {
    && t.rows == s.rows && t.realized == s.realized && t.sales == s.sales
    && t.position == s.position && t.nextId == s.nextId
    && (t.worker.Sold? <==> s.worker.Sold?) && (t.worker.Booked? <==> s.worker.Booked?)
    && (t.worker.Ledgered? <==> s.worker.Ledgered?)
    && (t.stored.Some? ==> s.stored.Some? || s.IsOpen())
  }

  lemma EngineLeavesBooks(s: State, a: Action)
    ensures SameBooks(s, EngineStep(s, a))
  {
    if Watching(s.engine) {
      assert SameBooks(s, MonitorStep(s, a));
    }
  }

  lemma GivingUpLeavesBooks(s: State, a: Action)
    requires GivenUp(s.worker).Some?
    ensures SameBooks(s, GiveUpStep(s, a))
  {
  }

  lemma SameBooksKeepLedger(s: State, t: State, rows: seq<Row>, realized: int)
    requires LedgerInvariant(s, rows, realized) && SameBooks(s, t)
    ensures LedgerInvariant(t, rows, realized)
  {
  }

  lemma StepKeepsLedger(s: State, a: Action, rows: seq<Row>, realized: int)
    requires SlotInvariant(s) && LedgerInvariant(s, rows, realized) && !RefusesRow(s, a)
    ensures LedgerInvariant(Step(s, a), rows, realized)
  {
    if IsEngineAction(a) {
      EngineLeavesBooks(s, a);
      SameBooksKeepLedger(s, EngineStep(s, a), rows, realized);
    } else if s.worker.Waiting? {
      SameBooksKeepLedger(s, WorkerStep(s, a), rows, realized);
    } else if GivenUp(s.worker).Some? {
      GivingUpLeavesBooks(s, a);
      SameBooksKeepLedger(s, GiveUpStep(s, a), rows, realized);
    } else if WorkerToken(s.worker).Some? {
      EntryKeepsLedger(s, a, rows, realized);
    } else {
      CloseKeepsLedger(s, a, rows, realized);
    }
  }

  /** A refused row strands the trade: it stays tracked, closed, and with it the slot. */
  lemma RefusalStrands(s: State, a: Action)
    requires WorkerIsConsistent(s) && s.stored.Some? && RefusesRow(s, a)
    ensures Step(s, a) == s.(worker := Waiting) && Stranded(Step(s, a))
  {
  }

  /** What a stranded trade holds on to. */
  predicate SameTradeAndBooks(s: State, t: State) {
    && t.position == s.position && t.stored == s.stored
    && !s.slot.Empty? && !t.slot.Empty? && t.slot.owner == s.slot.owner
    && t.realized == s.realized && t.rows == s.rows && t.sales == s.sales
  }

  lemma StrandedBlocksEntries(s: State)
    requires SlotInvariant(s) && Stranded(s)
    ensures !s.slot.Empty? && s.stored == Some(s.slot.owner)
    ensures WorkerToken(s.worker).None? && !s.worker.Forgetting? && !s.worker.Selling?
    ensures EngineToken(s.engine).None?
  {
  }

  /** Nothing ever moves a stranded trade: no exit, hedge cut, rotation or scan, in any order. */
  lemma StrandedStays(s: State, a: Action)
    requires SlotInvariant(s) && Stranded(s)
    ensures Stranded(Step(s, a)) && SameTradeAndBooks(s, Step(s, a))
  {
    StrandedBlocksEntries(s);
    if IsEngineAction(a) {
      EngineLeavesStranded(s, a);
    } else {
      WorkerLeavesStranded(s, a);
    }
  }

  lemma EngineLeavesStranded(s: State, a: Action)
    requires !s.slot.Empty? && EngineToken(s.engine).None? && !s.engine.DroppingActivation?
    ensures SameTradeAndBooks(s, EngineStep(s, a)) && EngineStep(s, a).worker == s.worker
  {
    if Watching(s.engine) {
      assert SameTradeAndBooks(s, MonitorStep(s, a)) && MonitorStep(s, a).worker == s.worker;
    }
  }

  lemma WorkerLeavesStranded(s: State, a: Action)
    requires SlotInvariant(s) && Stranded(s)
    requires !s.slot.Empty? && s.stored == Some(s.slot.owner)
    requires WorkerToken(s.worker).None? && !s.worker.Forgetting? && !s.worker.Selling?
    ensures Stranded(WorkerStep(s, a)) && SameTradeAndBooks(s, WorkerStep(s, a))
  {
    if !s.worker.Waiting? && GivenUp(s.worker).Some? {
      assert Stranded(GiveUpStep(s, a)) && SameTradeAndBooks(s, GiveUpStep(s, a));
    }
  }

  lemma StepKeepsBooks(s: State, a: Action, rows: seq<Row>, realized: int)
    requires SlotInvariant(s) && BooksStand(s, rows, realized)
    ensures BooksStand(Step(s, a), rows, realized)
  {
    if !LedgerInvariant(s, rows, realized) {
      StrandedStays(s, a);
    } else if RefusesRow(s, a) {
      RefusalStrands(s, a);
      RefusedRowIsOld(s, rows, realized);
    } else {
      StepKeepsLedger(s, a, rows, realized);
    }
  }

  /** A row is only refused for the sake of one that was there at the start. */
  lemma RefusedRowIsOld(s: State, rows: seq<Row>, realized: int)
    requires WorkerIsConsistent(s) && LedgerInvariant(s, rows, realized) && RefusesRow(s, WriteLedger)
    ensures HadOtherRow(s.position.value, rows)
  {
    var last, written := s.sales[|s.sales| - 1], Written(s);
    InitAndLast(s.sales);
    NotInIsPart(written, Ids(rows));
    RecordedInSum(rows, NotIn(written, Ids(rows)), last.tradeId);
  }

  lemma {:induction false} RecordedInSum(rows: seq<Row>, more: seq<Row>, id: nat)
    requires id !in Ids(more)
    ensures RecordedAmount(rows + more, id) == RecordedAmount(rows, id)
    decreases |more|
  {
    if |more| == 0 {
      assert rows + more == rows;
    } else {
      assert (rows + more)[..|rows + more| - 1] == rows + more[..|more| - 1];
      RecordedInSum(rows, more[..|more| - 1], id);
    }
  }

  lemma {:induction false} RunKeepsLedger(s: State, actions: seq<Action>, rows: seq<Row>, realized: int)
    requires SlotInvariant(s) && BooksStand(s, rows, realized)
    ensures SlotInvariant(Run(s, actions)) && BooksStand(Run(s, actions), rows, realized)
    decreases |actions|
  {
    if |actions| > 0 {
      StepKeepsSlotInvariant(s, actions[0]);
      StepKeepsBooks(s, actions[0], rows, realized);
      RunKeepsLedger(Step(s, actions[0]), actions[1..], rows, realized);
    }
  }

  /** With fresh books no row is refused. */
  lemma FreshRowIsAccepted(s: State, a: Action, rows: seq<Row>, realized: int)
    requires WorkerIsConsistent(s) && LedgerInvariant(s, rows, realized) && FreshBooks(s, rows)
    ensures !RefusesRow(s, a)
  {
    if s.worker.Booked? {
      var last, written := s.sales[|s.sales| - 1], Written(s);
      InitAndLast(s.sales);
      IdsOfSum(rows, NotIn(written, Ids(rows)));
      NotInIsPart(written, Ids(rows));
      RecordedIffListed(s.rows, last.tradeId);
    }
  }

  lemma SellKeepsFresh(s: State, rows: seq<Row>, row: Row)
    requires FreshBooks(s, rows) && row.tradeId !in Ids(rows)
    ensures Ids(s.sales + [row]) !! Ids(rows)
  {
    IdsOfAppend(s.sales, row);
  }

  lemma StepKeepsFresh(s: State, a: Action, rows: seq<Row>)
    requires SlotInvariant(s) && FreshBooks(s, rows)
    ensures FreshBooks(Step(s, a), rows)
  {
    if IsEngineAction(a) {
      EngineLeavesBooks(s, a);
    } else if s.worker.Selling? && a.Sell? && s.position.Some? {
      SellKeepsFresh(s, rows, Row(s.position.value.id, a.net));
    } else {
      RestKeepsFresh(s, a, rows);
    }
  }

  lemma SameBooksKeepFresh(s: State, t: State, rows: seq<Row>)
    requires FreshBooks(s, rows) && SameBooks(s, t)
    ensures FreshBooks(t, rows)
  {
  }

  lemma RestKeepsFresh(s: State, a: Action, rows: seq<Row>)
    requires SlotInvariant(s) && FreshBooks(s, rows) && !(s.worker.Selling? && a.Sell? && s.position.Some?)
    ensures FreshBooks(WorkerStep(s, a), rows)
  {
    if s.worker.Waiting? {
      DequeueLeavesBooks(s, a);
      SameBooksKeepFresh(s, WorkerStep(s, a), rows);
    } else if WorkerToken(s.worker).Some? {
      EntryKeepsFresh(s, a, rows);
    } else if GivenUp(s.worker).Some? {
      GivingUpLeavesBooks(s, a);
      SameBooksKeepFresh(s, GiveUpStep(s, a), rows);
    } else {
      CloseKeepsFresh(s, a, rows);
    }
  }

  lemma DequeueLeavesBooks(s: State, a: Action)
    requires s.worker.Waiting?
    ensures SameBooks(s, WorkerStep(s, a))
  {
  }

  lemma EntryKeepsFresh(s: State, a: Action, rows: seq<Row>)
    requires SlotInvariant(s) && FreshBooks(s, rows) && WorkerToken(s.worker).Some?
    ensures FreshBooks(EntryStep(s, a), rows)
  {
    if s.worker.EntryFilling? && a.FillEntry? && a.filled {
      assert EntryStep(s, a) == OpenNew(s, false).(worker := EntryFilled(s.worker.token));
    } else {
      RestOfEntryLeavesBooks(s, a);
      SameBooksKeepFresh(s, EntryStep(s, a), rows);
    }
  }

  lemma CloseKeepsFresh(s: State, a: Action, rows: seq<Row>)
    requires SlotInvariant(s) && FreshBooks(s, rows) && !(s.worker.Selling? && a.Sell? && s.position.Some?)
    ensures FreshBooks(CloseStep(s, a), rows)
  {
    var t := CloseStep(s, a);
    assert t.sales == s.sales && t.nextId >= s.nextId;
  }

  lemma {:induction false} RunKeepsFresh(s: State, actions: seq<Action>, rows: seq<Row>, realized: int)
    requires SlotInvariant(s) && LedgerInvariant(s, rows, realized) && FreshBooks(s, rows)
    ensures LedgerInvariant(Run(s, actions), rows, realized) && FreshBooks(Run(s, actions), rows)
    decreases |actions|
  {
    if |actions| > 0 {
      FreshRowIsAccepted(s, actions[0], rows, realized);
      StepKeepsSlotInvariant(s, actions[0]);
      StepKeepsLedger(s, actions[0], rows, realized);
      StepKeepsFresh(s, actions[0], rows);
      RunKeepsFresh(Step(s, actions[0]), actions[1..], rows, realized);
    }
  }

  /** The start of a session: every id in the ledger and that of the recovered trade are old. */
  ghost predicate IdsAreOld(recovered: Option<Position>, rows: seq<Row>, nextId: nat) {
    AllBelow(Ids(rows), nextId) && (recovered.Some? ==> recovered.value.id < nextId)
  }

  /** A recovered open trade has no row yet. */
  ghost predicate FreshStart(recovered: Option<Position>, rows: seq<Row>, nextId: nat) {
    && IdsAreOld(recovered, rows, nextId)
    && (recovered.Some? && !recovered.value.phase.Closed? ==> recovered.value.id !in Ids(rows))
  }

  lemma StartOfBooks(recovered: Option<Position>, realized: int, rows: seq<Row>, nextId: nat)
    requires IdsAreOld(recovered, rows, nextId)
    ensures
      var s := Initial(recovered, realized, rows, nextId);
      && SlotInvariant(s) && LedgerInvariant(s, rows, realized)
      && (FreshStart(recovered, rows, nextId) ==> FreshBooks(s, rows))
  {
    assert rows + [] == rows;
  }

  /** Profit and ledger agree, in every interleaving: between closes the session's realized P&L is the sum of its
      closing sales, one for each closed trade, and the rows it wrote are those sales but for a recovered trade that
      had its row already; unless a refused row has stranded that trade. */
  lemma ProfitMatchesLedger(
    recovered: Option<Position>, realized: int, rows: seq<Row>, nextId: nat, actions: seq<Action>)
    requires IdsAreOld(recovered, rows, nextId)
    ensures
      var s := Run(Initial(recovered, realized, rows, nextId), actions);
      && (forall i, j :: 0 <= i < j < |s.sales| ==> s.sales[i].tradeId != s.sales[j].tradeId)
      && rows <= s.rows
      && (!s.worker.Sold? && !s.worker.Booked? && !Stranded(s) ==>
           s.rows == rows + NotIn(s.sales, Ids(rows)) && s.realized - realized == Total(s.sales))
  {
    StartOfBooks(recovered, realized, rows, nextId);
    RunKeepsLedger(Initial(recovered, realized, rows, nextId), actions, rows, realized);
    var s := Run(Initial(recovered, realized, rows, nextId), actions);
    forall i, j | 0 <= i < j < |s.sales|
      ensures s.sales[i].tradeId != s.sales[j].tradeId
    {
      DistinctPairwise(s.sales, i, j);
    }
  }

  /** With no row yet for the recovered trade nothing is ever refused: between closes the realized P&L is the sum of
      the rows written, and those are the closing sales. */
  lemma FreshProfitMatchesLedger(
    recovered: Option<Position>, realized: int, rows: seq<Row>, nextId: nat, actions: seq<Action>)
    requires FreshStart(recovered, rows, nextId)
    ensures
      var s := Run(Initial(recovered, realized, rows, nextId), actions);
      && !Stranded(s) && rows <= s.rows
      && (!s.worker.Sold? && !s.worker.Booked? ==>
           s.rows == rows + s.sales && s.realized - realized == Total(s.rows[|rows|..]))
  {
    var start := Initial(recovered, realized, rows, nextId);
    StartOfBooks(recovered, realized, rows, nextId);
    RunKeepsFresh(start, actions, rows, realized);
    ProfitMatchesLedger(recovered, realized, rows, nextId, actions);
    NotInIsAll(Run(start, actions).sales, Ids(rows));
  }

  /** An exit signal for a trade that was already closed, or for any other trade, sells and writes nothing. */
  lemma StaleExitDoesNothing(
    recovered: Option<Position>, realized: int, rows: seq<Row>, nextId: nat, actions: seq<Action>, id: nat)
    requires IdsAreOld(recovered, rows, nextId)
    ensures
      var s := Run(Initial(recovered, realized, rows, nextId), actions);
      s.worker == ExitChecking(Some(id)) && (id in Ids(s.sales) || s.position.None? || s.position.value.id != id) ==>
        Step(s, CheckExit) == s.(worker := Waiting)
  {
    var s := Run(Initial(recovered, realized, rows, nextId), actions);
    StartOfBooks(recovered, realized, rows, nextId);
    RunKeepsLedger(Initial(recovered, realized, rows, nextId), actions, rows, realized);
    if s.worker == ExitChecking(Some(id)) {
      StaleExitIsIgnored(s, id, rows, realized);
    }
  }

  lemma StaleExitIsIgnored(s: State, id: nat, rows: seq<Row>, realized: int)
    requires BooksStand(s, rows, realized) && s.worker == ExitChecking(Some(id))
    ensures id in Ids(s.sales) || s.position.None? || s.position.value.id != id ==>
      Step(s, CheckExit) == s.(worker := Waiting)
  {
  }

  // What the two threads can do.

  /** The engine thread scans only after a look found no open trade, watches only the open trade it saw, and goes on to
      rotate only with a trade tracked. */
  lemma LooksAreTrue(s: State, a: Action)
    requires s.engine.Idle?
    ensures Step(s, a).engine.Scanning? <==>
      a.SeeNoTrade? && (s.position == None || s.position.value.phase == Closed)
    ensures Step(s, a).engine.Monitoring? <==>
      a.SeeTrade? && s.position.Some? && s.position.value.phase in {BothLegs, SingleLeg}
    ensures Step(s, a).engine.Monitoring? ==> Step(s, a).engine.tradeId == s.position.value.id
  {
    WorkerLeavesEngine(s, a);
  }

  /** It scans and watches for no other reason, and goes on to rotate only with a trade tracked. */
  lemma OnlyLooksStartScans(s: State, a: Action)
    requires !s.engine.Idle?
    ensures Step(s, a).engine.Scanning? ==> s.engine.Scanning?
    ensures Step(s, a).engine.Monitoring? ==> s.engine == Step(s, a).engine
    ensures s.engine.Monitoring? ==> (Step(s, a).engine.Rotating? <==> a.GuardRotation? && s.position != None)
  {
    WorkerLeavesEngine(s, a);
  }

  lemma WorkerLeavesEngine(s: State, a: Action)
    ensures !IsEngineAction(a) ==> Step(s, a).engine == s.engine
  {
  }

  /** A scan or a watch without a result puts the engine thread to rest and moves nothing else; a thread does nothing
      that is not next for it. */
  lemma GivingUpMovesNothing(s: State, a: Action)
    ensures s.engine.Scanning? ==> Step(s, GiveUpScan) == s.(engine := Idle)
    ensures s.engine.Monitoring? || s.engine.Rotating? || s.engine.Judging? ==>
      Step(s, MonitorOnly) == s.(engine := Idle)
    ensures IsEngineAction(a) && s.engine.Monitoring? ==>
      a.EnqueueExit? || a.EnqueueHedgeCut? || a.GuardRotation? || a.MonitorOnly? || Step(s, a) == s
    ensures IsEngineAction(a) && s.engine.Scanning? && !(a.GiveUpScan? || a.Reserve?) ==> Step(s, a) == s
    ensures !IsEngineAction(a) && s.worker.Waiting? && (!a.Dequeue? || s.queue == []) ==> Step(s, a) == s
  {
  }

  /** An activation is done exactly when the slot was reserved for its token, and otherwise leaves the slot alone. */
  lemma ActivationIff(s: State)
    requires s.engine.Activating?
    ensures
      var t := Step(s, ActivateSlot);
      && (t.engine == Idle <==> s.slot == Reserved(s.engine.token))
      && t.slot == if t.engine == Idle then Active(s.engine.token) else s.slot
  {
  }

  /** Both threads at rest with nothing queued. */
  predicate AtRest(s: State) {
    s.engine.Idle? && s.worker.Waiting? && s.queue == []
  }

  /** Some interleaving leads from one state to the other. */
  ghost predicate Reaches(s: State, t: State) {
    exists actions :: Run(s, actions) == t
  }

  lemma ReachesByStep(s: State, a: Action)
    ensures Reaches(s, Step(s, a))
  {
    RunOne(s, a);
  }

  lemma ReachesThrough(s: State, t: State, u: State)
    requires Reaches(s, t) && Reaches(t, u)
    ensures Reaches(s, u)
  {
    var a :| Run(s, a) == t;
    var b :| Run(t, b) == u;
    RunInTwoParts(s, a, b);
  }

  lemma ReachesByTwo(s: State, a: Action, t: State, b: Action, u: State)
    requires t == Step(s, a) && u == Step(t, b)
    ensures Reaches(s, u)
  {
    ReachesByStep(s, a);
    ReachesByStep(t, b);
    ReachesThrough(s, t, u);
  }

  /** The engine thread has queued an entry and not yet activated its reservation. */
  ghost function EntryDispatched(s: State): State {
    s.(slot := Reserved(s.nextToken), nextToken := s.nextToken + 1,
       queue := [EntrySignal(s.nextToken)], engine := Activating(s.nextToken))
  }

  lemma ScanDispatches(s: State)
    requires AtRest(s) && !s.IsOpen() && s.slot.Empty?
    ensures Reaches(s, EntryDispatched(s))
  {
    var scanning, dispatched := s.(engine := Scanning), EntryDispatched(s);
    var reserved := s.(slot := Reserved(s.nextToken), nextToken := s.nextToken + 1, engine := Dispatching(s.nextToken));
    ReachesByTwo(s, SeeNoTrade, scanning, Reserve, reserved);
    assert Step(reserved, Callback(true)) == dispatched;
    ReachesByStep(reserved, Callback(true));
    ReachesThrough(s, reserved, dispatched);
  }

  lemma DispatchedIsTaken(s: State, t: nat)
    requires s.slot == Reserved(t) && s.queue == [EntrySignal(t)] && s.engine == Activating(t) && s.worker.Waiting?
    ensures Reaches(s, s.(slot := Active(t), engine := Idle, queue := [], worker := EntryChecking(t)))
  {
    var active := s.(slot := Active(t), engine := Idle);
    ReachesByTwo(s, ActivateSlot, active, Dequeue, active.(queue := [], worker := EntryChecking(t)));
  }

  lemma TakenIsFilled(s: State, t: nat)
    requires s.worker == EntryChecking(t) && !s.IsOpen()
    ensures Reaches(s, OpenNew(s, false).(stored := Some(t), worker := Waiting))
  {
    var filling := s.(worker := EntryFilling(t));
    var filled := OpenNew(filling, false).(worker := EntryFilled(t));
    ReachesByTwo(s, CheckEntry, filling, FillEntry(true), filled);
    ReachesByStep(filled, StoreToken);
    ReachesThrough(s, filled, OpenNew(s, false).(stored := Some(t), worker := Waiting));
  }

  /** Free and at rest, the threads can scan, reserve, enter and keep the token: the slot is then held for a new open
      trade. */
  lemma FreeSlotCanBeEntered(s: State)
    requires AtRest(s) && !s.IsOpen() && s.slot.Empty?
    ensures
      var t, id := s.nextToken, s.nextId;
      Reaches(s, s.(slot := Active(t), nextToken := t + 1, stored := Some(t),
                    position := Some(Position(id, BothLegs, 0)), nextId := id + 1, entered := id))
  {
    var t, queued := s.nextToken, EntryDispatched(s);
    var taken := s.(slot := Active(t), nextToken := t + 1, worker := EntryChecking(t));
    ScanDispatches(s);
    DispatchedIsTaken(queued, t);
    assert queued.(slot := Active(t), engine := Idle, queue := [], worker := EntryChecking(t)) == taken;
    ReachesThrough(s, queued, taken);
    TakenIsFilled(taken, t);
    ReachesThrough(s, taken, OpenNew(taken, false).(stored := Some(t), worker := Waiting));
  }

  lemma OpenTradeIsSeen(s: State)
    requires AtRest(s) && s.IsOpen()
    ensures Reaches(s, s.(worker := ExitChecking(Some(s.position.value.id))))
  {
    var id := s.position.value.id;
    var queued := s.(queue := [ExitSignal(Some(id))]);
    ReachesByTwo(s, SeeTrade, s.(engine := Monitoring(id)), EnqueueExit, queued);
    ReachesByStep(queued, Dequeue);
    ReachesThrough(s, queued, s.(worker := ExitChecking(Some(id))));
  }

  lemma SeenIsSold(s: State, net: int)
    requires s.IsOpen() && s.worker == ExitChecking(Some(s.position.value.id))
    ensures Reaches(s, s.(position := Some(s.position.value.(phase := Closed, net := net)),
                          sales := s.sales + [Row(s.position.value.id, net)], worker := Sold(ForExit)))
  {
    ReachesByTwo(s, CheckExit, s.(worker := Selling(ForExit)), Sell(true, net),
                 s.(position := Some(s.position.value.(phase := Closed, net := net)),
                    sales := s.sales + [Row(s.position.value.id, net)], worker := Sold(ForExit)));
  }

  lemma SoldIsWritten(s: State)
    requires s.position.Some? && s.worker == Sold(ForExit)
    requires RecordedAmount(s.rows, s.position.value.id).None? && s.position.value.id !in Ids(s.rows)
    ensures
      var row := Row(s.position.value.id, s.position.value.net);
      Reaches(s, s.(realized := s.realized + row.amount, rows := s.rows + [row], worker := Ledgered(ForExit)))
  {
    var row := Row(s.position.value.id, s.position.value.net);
    var booked := s.(realized := s.realized + row.amount, worker := Booked(ForExit));
    ReachesByTwo(s, Book, booked, WriteLedger, booked.(rows := s.rows + [row], worker := Ledgered(ForExit)));
  }

  lemma WrittenIsCleared(s: State)
    requires s.worker == Ledgered(ForExit)
    ensures Reaches(s, s.(position := None, worker := Releasing))
  {
    ReachesByStep(s, Clear);
  }

  lemma ClearedIsReleased(s: State, t: nat)
    requires s.worker.Releasing? && s.stored == Some(t) && s.slot == Active(t)
    ensures Reaches(s, s.(slot := Empty, worker := Forgetting(t)))
  {
    ReachesByStep(s, ReleaseStored);
  }

  lemma ReleasedIsForgotten(s: State, t: nat)
    requires s.worker == Forgetting(t) && s.stored == Some(t)
    ensures Reaches(s, s.(stored := None, worker := Waiting))
  {
    ReachesByStep(s, ForgetStored);
  }

  lemma WrittenIsFreed(s: State, t: nat)
    requires s.worker == Ledgered(ForExit) && s.stored == Some(t) && s.slot == Active(t)
    ensures Reaches(s, s.(position := None, slot := Empty, stored := None, worker := Waiting))
  {
    var cleared := s.(position := None, worker := Releasing);
    var released := cleared.(slot := Empty, worker := Forgetting(t));
    WrittenIsCleared(s);
    ClearedIsReleased(cleared, t);
    ReachesThrough(s, cleared, released);
    ReleasedIsForgotten(released, t);
    ReachesThrough(s, released, released.(stored := None, worker := Waiting));
  }

  /** At rest with an open trade of which nothing is written, the threads can see it, sell it, book and write its
      result once, and give the slot back. */
  lemma OpenTradeCanBeExited(s: State, net: int)
    requires AtRest(s) && s.IsOpen() && s.stored.Some? && s.slot == Active(s.stored.value)
    requires RecordedAmount(s.rows, s.position.value.id).None? && s.position.value.id !in Ids(s.rows)
    ensures
      var row := Row(s.position.value.id, net);
      Reaches(s, s.(slot := Empty, stored := None, position := None, realized := s.realized + net,
                    rows := s.rows + [row], sales := s.sales + [row]))
  {
    var id, row := s.position.value.id, Row(s.position.value.id, net);
    var seen := s.(worker := ExitChecking(Some(id)));
    var sold := s.(position := Some(s.position.value.(phase := Closed, net := net)), sales := s.sales + [row],
                   worker := Sold(ForExit));
    OpenTradeIsSeen(s);
    SeenIsSold(seen, net);
    ReachesThrough(s, seen, sold);
    SoldIsFreed(s, sold, s.stored.value);
  }

  lemma SoldIsFreed(s: State, sold: State, t: nat)
    requires Reaches(s, sold) && sold.position.Some? && sold.worker == Sold(ForExit)
    requires RecordedAmount(sold.rows, sold.position.value.id).None? && sold.position.value.id !in Ids(sold.rows)
    requires sold.stored == Some(t) && sold.slot == Active(t)
    ensures
      var position := sold.position.value;
      Reaches(s, sold.(slot := Empty, stored := None, position := None, realized := sold.realized + position.net,
                       rows := sold.rows + [Row(position.id, position.net)], worker := Waiting))
  {
    var position := sold.position.value;
    var written := sold.(realized := sold.realized + position.net,
                         rows := sold.rows + [Row(position.id, position.net)], worker := Ledgered(ForExit));
    SoldIsWritten(sold);
    ReachesThrough(s, sold, written);
    WrittenIsFreed(written, t);
    ReachesThrough(s, written, written.(position := None, slot := Empty, stored := None, worker := Waiting));
  }

  // Runs in parts.

  lemma RunFirst(s: State, a: Action, rest: seq<Action>)
    ensures Run(s, [a] + rest) == Run(Step(s, a), rest)
  {
    assert ([a] + rest)[1..] == rest;
  }

  lemma RunOne(s: State, a: Action)
    ensures Run(s, [a]) == Step(s, a)
  {
    RunFirst(s, a, []);
  }

  lemma {:induction false} RunInTwoParts(s: State, a: seq<Action>, b: seq<Action>)
    ensures Run(s, a + b) == Run(Run(s, a), b)
    decreases |a|
  {
    if |a| == 0 {
      assert a + b == b;
    } else {
      assert (a + b)[1..] == a[1..] + b;
      RunInTwoParts(Step(s, a[0]), a[1..], b);
    }
  }

  /** Two or three steps, given one by one. */
  lemma RunTwo(s: State, a: Action, b: Action, t: State, u: State)
    requires Step(s, a) == t && Step(t, b) == u
    ensures Run(s, [a, b]) == u
  {
    RunFirst(s, a, [b]);
    RunFirst(t, b, []);
  }

  lemma RunThree(s: State, a: Action, b: Action, c: Action, t: State, u: State, v: State)
    requires Step(s, a) == t && Step(t, b) == u && Step(u, c) == v
    ensures Run(s, [a, b, c]) == v
  {
    RunFirst(s, a, [b, c]);
    RunTwo(t, b, c, u, v);
    assert [a, b, c] == [a] + [b, c];
  }

  lemma RunInThreeParts(s: State, a: seq<Action>, b: seq<Action>, c: seq<Action>)
    ensures Run(s, a + b + c) == Run(Run(Run(s, a), b), c)
  {
    RunInTwoParts(s, a + b, c);
    RunInTwoParts(s, a, b);
  }
}
