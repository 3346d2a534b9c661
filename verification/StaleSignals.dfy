/** Hedge cuts and rotations are carried out on whatever trade is tracked: when that is not the trade they were raised
    for, in every interleaving of the engine thread and the queue worker. */
module StaleSignals {
  import opened Common
  import opened SlotProtocol

  /** The trade the engine thread is looking at. */
  function EngineTarget(e: EngineAt): Option<nat> {
    match e
    case Monitoring(id) => Some(id)
    case Rotating(id) => Some(id)
    case Judging(id) => Some(id)
    case _ => None
  }

  /** The trade the signal the worker is at was raised for. */
  function WorkerTarget(w: WorkerAt): Option<nat> {
    match w
    case HedgeCutting(id) => Some(id)
    case RotationChecking(id) => Some(id)
    case _ => None
  }

  function SignalTarget(signal: Signal): Option<nat> {
    match signal
    case HedgeCutSignal(id) => Some(id)
    case RotationSignal(id) => Some(id)
    case _ => None
  }

  /** An entry that may still open a trade. */
  predicate AboutToEnter(w: WorkerAt) {
    w.EntryChecking? || w.EntryFilling?
  }

  /** The last trade opened. */
  function LastOpened(s: State): int {
    Max(s.entered, s.replaced)
  }

  /** Since the trade was looked at, no entry has opened another one. */
  predicate NoEntrySince(s: State, target: nat) {
    s.entered <= target <= LastOpened(s)
  }

  ghost predicate NoEntryQueued(queue: seq<Signal>) {
    forall j :: 0 <= j < |queue| ==> !queue[j].EntrySignal?
  }

  /** No entry stands in the queue before a hedge cut or a rotation. */
  ghost predicate EntriesComeLast(queue: seq<Signal>) {
    forall i, j :: 0 <= j < i < |queue| && SignalTarget(queue[i]).Some? ==> !queue[j].EntrySignal?
  }

  ghost predicate TrackedIsLast(s: State) {
    LastOpened(s) < s.nextId && (s.position.Some? ==> s.position.value.id == LastOpened(s))
  }

  ghost predicate EngineTargetStands(s: State) {
    EngineTarget(s.engine).Some? ==>
      NoEntrySince(s, EngineTarget(s.engine).value) && NoEntryQueued(s.queue) && !AboutToEnter(s.worker)
  }

  ghost predicate QueuedTargetsStand(s: State) {
    && EntriesComeLast(s.queue)
    && (forall i :: 0 <= i < |s.queue| && SignalTarget(s.queue[i]).Some? ==>
         NoEntrySince(s, SignalTarget(s.queue[i]).value) && !AboutToEnter(s.worker))
  }

  /** What makes a rotation the only way for a signal to miss its trade. */
  ghost predicate TargetInvariant(s: State) {
    && TrackedIsLast(s) && EngineTargetStands(s) && QueuedTargetsStand(s)
    && (WorkerTarget(s.worker).Some? ==> NoEntrySince(s, WorkerTarget(s.worker).value))
  }

  lemma {:induction false} NoneQueued(queue: seq<Signal>)
    requires EntriesQueued(queue) == 0
    ensures NoEntryQueued(queue)
  {
    forall j | 0 <= j < |queue|
      ensures !queue[j].EntrySignal?
    {
      if queue[j].EntrySignal? {
        QueuedEntryCounts(queue, j);
      }
    }
  }

  /** While a trade is open no entry is waiting or about to open another. */
  lemma OpenTradeBlocksEntries(s: State)
    requires SlotInvariant(s) && s.IsOpen()
    ensures NoEntryQueued(s.queue) && !AboutToEnter(s.worker)
  {
    assert EntriesQueued(s.queue) == 0;
    NoneQueued(s.queue);
  }

  lemma MonitorKeepsTargets(s: State, a: Action)
    requires SlotInvariant(s) && TargetInvariant(s) && Watching(s.engine)
    ensures TargetInvariant(MonitorStep(s, a))
  {
    if s.engine.Idle? && a.SeeTrade? && s.IsOpen() {
      OpenTradeBlocksEntries(s);
    }
  }

  lemma DispatchKeepsTargets(s: State, a: Action)
    requires TargetInvariant(s) && !Watching(s.engine)
    ensures TargetInvariant(DispatchStep(s, a))
  {
  }

  /** A worker's step that opens nothing. */
  ghost predicate OpensNothing(s: State, t: State) {
    && t.engine == s.engine && t.queue == s.queue
    && t.entered == s.entered && t.replaced == s.replaced && t.nextId == s.nextId
    && (t.position.Some? ==> s.position.Some? && t.position.value.id == s.position.value.id)
    && (AboutToEnter(t.worker) ==> AboutToEnter(s.worker)) && WorkerTarget(t.worker).None?
  }

  lemma OpeningNothingKeepsTargets(s: State, t: State)
    requires TargetInvariant(s) && OpensNothing(s, t)
    ensures TargetInvariant(t)
  {
  }

  /** Does this step of the worker open a trade? */
  predicate Opens(w: WorkerAt, a: Action) {
    (w.EntryFilling? && a.FillEntry? && a.filled) || (w.RotationFilling? && a.FillRotation? && a.filled)
  }

  lemma EntryOpensNothing(s: State, a: Action)
    requires WorkerToken(s.worker).Some? && !Opens(s.worker, a)
    ensures OpensNothing(s, EntryStep(s, a))
  {
  }

  lemma GivingUpOpensNothing(s: State, a: Action)
    requires GivenUp(s.worker).Some?
    ensures OpensNothing(s, GiveUpStep(s, a))
  {
  }

  lemma CloseOpensNothing(s: State, a: Action)
    requires WorkerToken(s.worker).None? && !Opens(s.worker, a)
    ensures CloseStep(s, a) == s || OpensNothing(s, CloseStep(s, a))
  {
  }

  lemma OpeningKeepsTargets(s: State, rotating: bool, next: WorkerAt)
    requires TargetInvariant(s) && (if rotating then s.worker.RotationFilling? else s.worker.EntryFilling?)
    requires next.Waiting? || next.EntryFilled?
    ensures TargetInvariant(OpenNew(s, rotating).(worker := next))
  {
  }

  lemma DequeueKeepsTargets(s: State, a: Action)
    requires TargetInvariant(s) && s.worker.Waiting?
    ensures TargetInvariant(WorkerStep(s, a))
  {
  }

  lemma RestOpensNothing(s: State, a: Action)
    requires !s.worker.Waiting? && !Opens(s.worker, a)
    ensures WorkerStep(s, a) == s || OpensNothing(s, WorkerStep(s, a))
  {
    if WorkerToken(s.worker).Some? {
      EntryOpensNothing(s, a);
    } else if GivenUp(s.worker).Some? {
      GivingUpOpensNothing(s, a);
    } else {
      CloseOpensNothing(s, a);
    }
  }

  lemma WorkerKeepsTargets(s: State, a: Action)
    requires TargetInvariant(s)
    ensures TargetInvariant(WorkerStep(s, a))
  {
    if s.worker.Waiting? {
      DequeueKeepsTargets(s, a);
    } else if Opens(s.worker, a) {
      OpeningKeepsTargets(s, s.worker.RotationFilling?, WorkerStep(s, a).worker);
    } else {
      RestOpensNothing(s, a);
      if WorkerStep(s, a) != s {
        OpeningNothingKeepsTargets(s, WorkerStep(s, a));
      }
    }
  }

  lemma StepKeepsTargets(s: State, a: Action)
    requires SlotInvariant(s) && TargetInvariant(s)
    ensures TargetInvariant(Step(s, a))
  {
    if IsEngineAction(a) {
      if Watching(s.engine) {
        MonitorKeepsTargets(s, a);
      } else {
        DispatchKeepsTargets(s, a);
      }
    } else {
      WorkerKeepsTargets(s, a);
    }
  }

  lemma {:induction false} RunKeepsTargets(s: State, actions: seq<Action>)
    requires SlotInvariant(s) && TargetInvariant(s)
    ensures SlotInvariant(Run(s, actions)) && TargetInvariant(Run(s, actions))
    decreases |actions|
  {
    if |actions| > 0 {
      StepKeepsSlotInvariant(s, actions[0]);
      StepKeepsTargets(s, actions[0]);
      RunKeepsTargets(Step(s, actions[0]), actions[1..]);
    }
  }

  // When a signal misses its trade.

  /** This step opens the replacement of a rotation. */
  predicate FillsRotation(s: State, a: Action) {
    s.worker.RotationFilling? && a == FillRotation(true)
  }

  /** Somewhere on the way a rotation's replacement is filled. */
  predicate RotatedDuring(s: State, actions: seq<Action>)
    decreases |actions|
  {
    |actions| > 0 && (FillsRotation(s, actions[0]) || RotatedDuring(Step(s, actions[0]), actions[1..]))
  }

  lemma EngineReplacesNothing(s: State, a: Action)
    ensures EngineStep(s, a).replaced == s.replaced && EngineStep(s, a).nextId == s.nextId
  {
    if Watching(s.engine) {
      assert MonitorStep(s, a).replaced == s.replaced && MonitorStep(s, a).nextId == s.nextId;
    }
  }

  lemma OnlyRotationsReplace(s: State, a: Action)
    ensures Step(s, a).replaced == if FillsRotation(s, a) then s.nextId else s.replaced
    ensures Step(s, a).nextId >= s.nextId
  {
    if IsEngineAction(a) {
      EngineReplacesNothing(s, a);
    } else if !s.worker.Waiting? && !Opens(s.worker, a) {
      RestOpensNothing(s, a);
    }
  }

  /** The history field tells whether a rotation was filled after trade t was known. */
  lemma {:induction false} ReplacedLaterIff(s: State, actions: seq<Action>, t: int)
    requires SlotInvariant(s) && TargetInvariant(s) && t < s.nextId
    ensures Run(s, actions).replaced > t <==> s.replaced > t || RotatedDuring(s, actions)
    decreases |actions|
  {
    if |actions| > 0 {
      OnlyRotationsReplace(s, actions[0]);
      StepKeepsSlotInvariant(s, actions[0]);
      StepKeepsTargets(s, actions[0]);
      ReplacedLaterIff(Step(s, actions[0]), actions[1..], t);
    }
  }

  lemma StartStands(recovered: Option<Position>, realized: int, rows: seq<Row>, nextId: nat)
    requires recovered.Some? ==> recovered.value.id < nextId
    ensures
      var s := Initial(recovered, realized, rows, nextId);
      SlotInvariant(s) && TargetInvariant(s)
  {
  }

  /** The hedge cut at hand, if it succeeds, changes another trade than the one it was raised for. */
  predicate CutsAnother(s: State) {
    && s.worker.HedgeCutting? && s.position.Some? && s.position.value.id != s.worker.target
    && Step(s, CutHedge(true)).position != s.position
  }

  /** The rotation at hand goes on to sell another trade than the one it was raised for. */
  predicate SellsAnother(s: State) {
    && s.worker.RotationChecking? && s.position.Some? && s.position.value.id != s.worker.target
    && Step(s, CheckRotation).worker == Selling(ForRotation)
  }

  /** A tracked trade other than a signal's target was opened by a rotation after the target was looked at. */
  lemma OtherTradeIsReplacement(s: State)
    requires TargetInvariant(s) && WorkerTarget(s.worker).Some? && s.position.Some?
    ensures s.position.value.id != WorkerTarget(s.worker).value <==> s.replaced > WorkerTarget(s.worker).value
    ensures s.position.value.id != WorkerTarget(s.worker).value ==> s.position.value.id == s.replaced
  {
  }

  /** In every interleaving, a hedge cut changes a trade other than the one the monitor looked at exactly when, between
      the look and the cut, a rotation's replacement was filled that is still whole. It is that replacement. */
  lemma HedgeCutMissesIffRotated(
    recovered: Option<Position>, realized: int, rows: seq<Row>, nextId: nat, before: seq<Action>, after: seq<Action>)
    requires recovered.Some? ==> recovered.value.id < nextId
    ensures
      var look := Run(Initial(recovered, realized, rows, nextId), before);
      var seen := Step(look, SeeTrade);
      var s := Run(seen, after);
      look.engine.Idle? && look.IsOpen() && s.worker == HedgeCutting(look.position.value.id) ==>
        && (CutsAnother(s)
            <==> RotatedDuring(seen, after) && s.position.Some? && s.position.value.phase.BothLegs?)
        && (CutsAnother(s) ==> s.position.value.id == s.replaced)
  {
    var look := Run(Initial(recovered, realized, rows, nextId), before);
    StartStands(recovered, realized, rows, nextId);
    RunKeepsTargets(Initial(recovered, realized, rows, nextId), before);
    if look.engine.Idle? && look.IsOpen() {
      SeenCutMissesIffRotated(look, after);
    }
  }

  /** The same for a rotation: it sells another trade than the one judged exactly when a replacement was filled in
      between and is still open. */
  lemma RotationMissesIffRotated(
    recovered: Option<Position>, realized: int, rows: seq<Row>, nextId: nat, before: seq<Action>, after: seq<Action>)
    requires recovered.Some? ==> recovered.value.id < nextId
    ensures
      var look := Run(Initial(recovered, realized, rows, nextId), before);
      var seen := Step(look, JudgeRotation);
      var s := Run(seen, after);
      look.engine.Rotating? && look.position.Some? && s.worker == RotationChecking(look.position.value.id) ==>
        && (SellsAnother(s) <==> RotatedDuring(seen, after) && s.IsOpen())
        && (SellsAnother(s) ==> s.position.value.id == s.replaced)
  {
    var look := Run(Initial(recovered, realized, rows, nextId), before);
    StartStands(recovered, realized, rows, nextId);
    RunKeepsTargets(Initial(recovered, realized, rows, nextId), before);
    if look.engine.Rotating? && look.position.Some? {
      JudgedSaleMissesIffRotated(look, after);
    }
  }

  lemma SeenCutMissesIffRotated(look: State, after: seq<Action>)
    requires SlotInvariant(look) && TargetInvariant(look) && look.position.Some?
    ensures
      var seen := Step(look, SeeTrade);
      var s := Run(seen, after);
      s.worker == HedgeCutting(look.position.value.id) ==>
        && (CutsAnother(s)
            <==> RotatedDuring(seen, after) && s.position.Some? && s.position.value.phase.BothLegs?)
        && (CutsAnother(s) ==> s.position.value.id == s.replaced)
  {
    SignalMissesIffRotated(look, Step(look, SeeTrade), after, look.position.value.id);
    CutChangesWholePair(Run(Step(look, SeeTrade), after));
  }

  lemma CutChangesWholePair(s: State)
    ensures CutsAnother(s)
       <==> s.worker.HedgeCutting? && s.position.Some? && s.position.value.id != s.worker.target
            && s.position.value.phase.BothLegs?
  {
  }

  lemma JudgedSaleMissesIffRotated(look: State, after: seq<Action>)
    requires SlotInvariant(look) && TargetInvariant(look) && look.position.Some?
    ensures
      var seen := Step(look, JudgeRotation);
      var s := Run(seen, after);
      s.worker == RotationChecking(look.position.value.id) ==>
        && (SellsAnother(s) <==> RotatedDuring(seen, after) && s.IsOpen())
        && (SellsAnother(s) ==> s.position.value.id == s.replaced)
  {
    SignalMissesIffRotated(look, Step(look, JudgeRotation), after, look.position.value.id);
    CheckSellsOpenTrade(Run(Step(look, JudgeRotation), after));
  }

  lemma CheckSellsOpenTrade(s: State)
    ensures SellsAnother(s)
       <==> s.worker.RotationChecking? && s.IsOpen() && s.position.value.id != s.worker.target
  {
  }

  /** From a look at trade t on. */
  lemma SignalMissesIffRotated(look: State, seen: State, after: seq<Action>, t: nat)
    requires SlotInvariant(look) && TargetInvariant(look) && look.position.Some? && look.position.value.id == t
    requires seen == Step(look, SeeTrade) || seen == Step(look, JudgeRotation)
    ensures
      var s := Run(seen, after);
      WorkerTarget(s.worker) == Some(t) && s.position.Some? ==>
        && (s.position.value.id != t <==> RotatedDuring(seen, after))
        && (s.position.value.id != t ==> s.position.value.id == s.replaced)
  {
    var s := Run(seen, after);
    StepKeepsSlotInvariant(look, SeeTrade);
    StepKeepsTargets(look, SeeTrade);
    StepKeepsSlotInvariant(look, JudgeRotation);
    StepKeepsTargets(look, JudgeRotation);
    RunKeepsTargets(seen, after);
    OnlyRotationsReplace(look, SeeTrade);
    OnlyRotationsReplace(look, JudgeRotation);
    ReplacedLaterIff(seen, after, t);
    if WorkerTarget(s.worker) == Some(t) && s.position.Some? {
      OtherTradeIsReplacement(s);
    }
  }

  // Both do happen.

  const ASK_ROTATION := [SeeTrade, GuardRotation] + [JudgeRotation, EnqueueRotation]
  const ASK_HEDGE_CUT := [SeeTrade, EnqueueHedgeCut]

  lemma RotationAsked(s: State)
    requires s.engine.Idle? && s.IsOpen()
    ensures Run(s, ASK_ROTATION) == s.(queue := s.queue + [RotationSignal(s.position.value.id)])
  {
    var id := s.position.value.id;
    var asked := s.(queue := s.queue + [RotationSignal(id)]);
    LookStep(s);
    GuardStep(s.(engine := Monitoring(id)));
    RunTwo(s, SeeTrade, GuardRotation, s.(engine := Monitoring(id)), s.(engine := Rotating(id)));
    JudgeStep(s.(engine := Rotating(id)));
    AskStep(s.(engine := Judging(id)), asked);
    RunTwo(s.(engine := Rotating(id)), JudgeRotation, EnqueueRotation, s.(engine := Judging(id)), asked);
    RunInTwoParts(s, [SeeTrade, GuardRotation], [JudgeRotation, EnqueueRotation]);
  }

  lemma LookStep(s: State)
    requires s.engine.Idle? && s.IsOpen()
    ensures Step(s, SeeTrade) == s.(engine := Monitoring(s.position.value.id))
  {
  }

  lemma GuardStep(s: State)
    requires s.engine.Monitoring? && s.position.Some?
    ensures Step(s, GuardRotation) == s.(engine := Rotating(s.engine.tradeId))
  {
  }

  lemma JudgeStep(s: State)
    requires s.engine.Rotating? && s.position.Some?
    ensures Step(s, JudgeRotation) == s.(engine := Judging(s.position.value.id))
  {
  }

  lemma AskStep(s: State, t: State)
    requires s.engine.Judging? && t == s.(queue := s.queue + [RotationSignal(s.engine.tradeId)], engine := Idle)
    ensures Step(s, EnqueueRotation) == t
  {
  }

  lemma AskCutStep(s: State, t: State)
    requires s.engine.Monitoring? && t == s.(queue := s.queue + [HedgeCutSignal(s.engine.tradeId)], engine := Idle)
    ensures Step(s, EnqueueHedgeCut) == t
  {
  }

  lemma HedgeCutAsked(s: State)
    requires s.engine.Idle? && s.IsOpen()
    ensures Run(s, ASK_HEDGE_CUT) == s.(queue := s.queue + [HedgeCutSignal(s.position.value.id)])
  {
    var id := s.position.value.id;
    var asked := s.(queue := s.queue + [HedgeCutSignal(id)]);
    LookStep(s);
    AskCutStep(s.(engine := Monitoring(id)), asked);
    RunTwo(s, SeeTrade, EnqueueHedgeCut, s.(engine := Monitoring(id)), asked);
  }

  /** The close of the tracked trade by the rotation at the head of the queue. */
  function RotationSale(net: int): seq<Action> {
    [Dequeue, CheckRotation, Sell(true, net)]
  }

  /** What follows it until a replacement is filled. */
  const REPLACE := [Book, WriteLedger, Clear] + [FillRotation(true)]

  /** What is true once a rotation's replacement is filled. */
  predicate Replaced(s: State, t: State, rest: seq<Signal>, net: int)
    requires s.position.Some?
  {
    && t.worker.Waiting? && t.queue == rest && t.engine == s.engine && t.nextId == s.nextId + 1
    && t.position == Some(Position(s.nextId, BothLegs, 0)) && t.sales == s.sales + [Row(s.position.value.id, net)]
  }

  lemma RotationSells(s: State, id: nat, rest: seq<Signal>, net: int)
    requires s.worker.Waiting? && s.IsOpen() && s.queue == [RotationSignal(id)] + rest
    ensures
      var sold := Run(s, RotationSale(net));
      && sold.worker == Sold(ForRotation) && sold.queue == rest && sold.engine == s.engine
      && sold.nextId == s.nextId && sold.sales == s.sales + [Row(s.position.value.id, net)]
      && sold.rows == s.rows && sold.position == Some(Position(s.position.value.id, Closed, net))
  {
    var taken := s.(queue := rest);
    var sold := taken.(
      position := Some(s.position.value.(phase := Closed, net := net)),
      sales := s.sales + [Row(s.position.value.id, net)], worker := Sold(ForRotation));
    DequeueStep(s, taken.(worker := RotationChecking(id)));
    CheckStep(taken.(worker := RotationChecking(id)), taken.(worker := Selling(ForRotation)));
    SellStep(taken.(worker := Selling(ForRotation)), net, sold);
    RunThree(s, Dequeue, CheckRotation, Sell(true, net),
             taken.(worker := RotationChecking(id)), taken.(worker := Selling(ForRotation)), sold);
  }

  lemma DequeueStep(s: State, t: State)
    requires s.worker.Waiting? && |s.queue| > 0 && t == s.(queue := s.queue[1..], worker := Start(s.queue[0]))
    ensures Step(s, Dequeue) == t
  {
  }

  lemma CheckStep(s: State, t: State)
    requires s.worker.RotationChecking? && s.IsOpen() && t == s.(worker := Selling(ForRotation))
    ensures Step(s, CheckRotation) == t
  {
  }

  lemma SellStep(s: State, net: int, t: State)
    requires s.worker == Selling(ForRotation) && s.position.Some?
    requires t == s.(position := Some(s.position.value.(phase := Closed, net := net)),
                     sales := s.sales + [Row(s.position.value.id, net)], worker := Sold(ForRotation))
    ensures Step(s, Sell(true, net)) == t
  {
  }

  lemma CutStep(s: State, t: State)
    requires s.worker.HedgeCutting? && s.position.Some? && s.position.value.phase.BothLegs?
    requires t == s.(position := Some(s.position.value.(phase := SingleLeg)), worker := Waiting)
    ensures Step(s, CutHedge(true)) == t
  {
  }

  predicate RefusesItsRow(s: State)
    requires s.position.Some?
  {
    Refuses(s.rows, Row(s.position.value.id, s.position.value.net))
  }

  lemma SoldIsCleared(s: State)
    requires s.worker == Sold(ForRotation) && s.position.Some? && !RefusesItsRow(s)
    ensures
      var t := Run(s, [Book, WriteLedger, Clear]);
      && t.worker.RotationFilling? && t.queue == s.queue && t.engine == s.engine
      && t.nextId == s.nextId && t.sales == s.sales
  {
    var booked := s.(realized := s.realized + s.position.value.net, worker := Booked(ForRotation));
    var written := booked.(
      rows := RecordTradePnl(s.rows, Row(s.position.value.id, s.position.value.net)), worker := Ledgered(ForRotation));
    var cleared := written.(position := None, worker := RotationFilling);
    BookStep(s, booked);
    WriteStep(booked, written);
    ClearStep(written, cleared);
    RunThree(s, Book, WriteLedger, Clear, booked, written, cleared);
  }

  lemma BookStep(s: State, t: State)
    requires s.worker == Sold(ForRotation) && s.position.Some?
    requires t == s.(realized := s.realized + s.position.value.net, worker := Booked(ForRotation))
    ensures Step(s, Book) == t
  {
  }

  lemma WriteStep(s: State, t: State)
    requires s.worker == Booked(ForRotation) && s.position.Some? && !RefusesItsRow(s)
    requires t == s.(rows := RecordTradePnl(s.rows, Row(s.position.value.id, s.position.value.net)),
                     worker := Ledgered(ForRotation))
    ensures Step(s, WriteLedger) == t
  {
  }

  lemma ClearStep(s: State, t: State)
    requires s.worker == Ledgered(ForRotation) && t == s.(position := None, worker := RotationFilling)
    ensures Step(s, Clear) == t
  {
  }

  lemma FillStep(s: State, t: State)
    requires s.worker.RotationFilling? && t == OpenNew(s, true).(worker := Waiting)
    ensures Step(s, FillRotation(true)) == t
  {
  }

  lemma ReplacementIsFilled(s: State)
    requires s.worker.RotationFilling?
    ensures Run(s, [FillRotation(true)]) == OpenNew(s, true).(worker := Waiting)
  {
    FillStep(s, OpenNew(s, true).(worker := Waiting));
    RunOne(s, FillRotation(true));
  }

  lemma SoldIsReplaced(s: State)
    requires s.worker == Sold(ForRotation) && s.position.Some? && !RefusesItsRow(s)
    ensures
      var t := Run(s, REPLACE);
      && t.worker.Waiting? && t.queue == s.queue && t.engine == s.engine && t.nextId == s.nextId + 1
      && t.position == Some(Position(s.nextId, BothLegs, 0)) && t.sales == s.sales
  {
    SoldIsCleared(s);
    ReplacementIsFilled(Run(s, [Book, WriteLedger, Clear]));
    RunInTwoParts(s, [Book, WriteLedger, Clear], [FillRotation(true)]);
  }

  lemma RotationReplaces(s: State, id: nat, rest: seq<Signal>, net: int)
    requires s.worker.Waiting? && s.IsOpen() && s.queue == [RotationSignal(id)] + rest
    requires !Refuses(s.rows, Row(s.position.value.id, net))
    ensures Replaced(s, Run(s, RotationSale(net) + REPLACE), rest, net)
  {
    RunInTwoParts(s, RotationSale(net), REPLACE);
    RotationSells(s, id, rest, net);
    SoldIsReplaced(Run(s, RotationSale(net)));
  }

  /** A recovered trade, and the signals raised for it at the first two looks. */
  lemma BothAsked(id: nat, realized: int, rows: seq<Row>, nextId: nat)
    ensures
      var s := Initial(Some(Position(id, BothLegs, 0)), realized, rows, nextId);
      && Run(s, ASK_ROTATION + ASK_HEDGE_CUT) == s.(queue := [RotationSignal(id)] + [HedgeCutSignal(id)])
      && Run(s, ASK_ROTATION + ASK_ROTATION) == s.(queue := [RotationSignal(id)] + [RotationSignal(id)])
  {
    var s := Initial(Some(Position(id, BothLegs, 0)), realized, rows, nextId);
    var once := s.(queue := [] + [RotationSignal(id)]);
    RotationAsked(s);
    RotationAsked(once);
    HedgeCutAsked(once);
    RunInTwoParts(s, ASK_ROTATION, ASK_HEDGE_CUT);
    RunInTwoParts(s, ASK_ROTATION, ASK_ROTATION);
    assert [] + [RotationSignal(id)] == [RotationSignal(id)];
  }

  /** The rotation at the head of the queue replaces the trade, then the hedge cut behind it cuts the replacement. */
  lemma CutAfterRotation(s: State, id: nat, net: int)
    requires s.worker.Waiting? && s.IsOpen() && s.queue == [RotationSignal(id)] + [HedgeCutSignal(id)]
    requires !Refuses(s.rows, Row(s.position.value.id, net))
    ensures
      var end := Run(Run(s, RotationSale(net) + REPLACE), [Dequeue, CutHedge(true)]);
      && end.position == Some(Position(s.nextId, SingleLeg, 0))
      && end.sales == s.sales + [Row(s.position.value.id, net)]
  {
    RotationReplaces(s, id, [HedgeCutSignal(id)], net);
    TrackedIsCut(Run(s, RotationSale(net) + REPLACE), id);
  }

  lemma TrackedIsCut(s: State, id: nat)
    requires s.worker.Waiting? && s.queue == [HedgeCutSignal(id)]
    requires s.position.Some? && s.position.value.phase.BothLegs?
    ensures Run(s, [Dequeue, CutHedge(true)])
         == s.(queue := [], position := Some(s.position.value.(phase := SingleLeg)))
  {
    var cutting := s.(queue := [], worker := HedgeCutting(id));
    var cut := s.(queue := [], position := Some(s.position.value.(phase := SingleLeg)));
    DequeueStep(s, cutting);
    CutStep(cutting, cut);
    RunTwo(s, Dequeue, CutHedge(true), cutting, cut);
  }

  lemma SaleAfterRotation(s: State, id: nat, net: int, net': int)
    requires s.worker.Waiting? && s.IsOpen() && s.queue == [RotationSignal(id)] + [RotationSignal(id)]
    requires !Refuses(s.rows, Row(s.position.value.id, net))
    ensures Run(Run(s, RotationSale(net) + REPLACE), RotationSale(net')).sales
         == s.sales + [Row(s.position.value.id, net)] + [Row(s.nextId, net')]
  {
    RotationReplaces(s, id, [RotationSignal(id)], net);
    RotationSells(Run(s, RotationSale(net) + REPLACE), id, [], net');
  }

  lemma {:induction false} NoRowIsRecorded(rows: seq<Row>, id: nat)
    requires forall i :: 0 <= i < |rows| ==> rows[i].tradeId != id
    ensures RecordedAmount(rows, id).None?
  {
    if |rows| > 0 {
      NoRowIsRecorded(rows[..|rows| - 1], id);
    }
  }

  /** From a start with a recovered trade: a hedge cut raised for it behind a rotation cuts the replacement. */
  lemma StaleHedgeCutHitsReplacement(id: nat, realized: int, rows: seq<Row>, nextId: nat, net: int)
    requires forall i :: 0 <= i < |rows| ==> rows[i].tradeId != id
    ensures
      var start := Initial(Some(Position(id, BothLegs, 0)), realized, rows, nextId);
      var rotate := RotationSale(net) + REPLACE;
      var end := Run(start, ASK_ROTATION + ASK_HEDGE_CUT + rotate + [Dequeue, CutHedge(true)]);
      end.position == Some(Position(nextId, SingleLeg, 0)) && end.sales == [Row(id, net)]
  {
    var start := Initial(Some(Position(id, BothLegs, 0)), realized, rows, nextId);
    NoRowIsRecorded(rows, id);
    BothAsked(id, realized, rows, nextId);
    CutAfterRotation(start.(queue := [RotationSignal(id)] + [HedgeCutSignal(id)]), id, net);
    RunInThreeParts(start, ASK_ROTATION + ASK_HEDGE_CUT, RotationSale(net) + REPLACE, [Dequeue, CutHedge(true)]);
  }

  /** And a second rotation raised for it sells the replacement. */
  lemma StaleRotationSellsReplacement(id: nat, realized: int, rows: seq<Row>, nextId: nat, net: int, net': int)
    requires forall i :: 0 <= i < |rows| ==> rows[i].tradeId != id
    ensures
      var start := Initial(Some(Position(id, BothLegs, 0)), realized, rows, nextId);
      var rotate := RotationSale(net) + REPLACE;
      Run(start, ASK_ROTATION + ASK_ROTATION + rotate + RotationSale(net')).sales
      == [Row(id, net), Row(nextId, net')]
  {
    var start := Initial(Some(Position(id, BothLegs, 0)), realized, rows, nextId);
    NoRowIsRecorded(rows, id);
    BothAsked(id, realized, rows, nextId);
    SaleAfterRotation(start.(queue := [RotationSignal(id)] + [RotationSignal(id)]), id, net, net');
    RunInThreeParts(start, ASK_ROTATION + ASK_ROTATION, RotationSale(net) + REPLACE, RotationSale(net'));
  }
}
