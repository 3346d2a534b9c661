/** Selection of at most one candidate across index scans, and its dispatch through the slot. */
module MultiIndexCoordinator {
  import opened Common
  import opened PositionReservation
  import opened SlotProtocol
  import LiveEngine

  /** A ranked candidate; suitable is what the entry callback will make of it. */
  datatype Candidate = Candidate(projectedNet: real, confidence: real, suitable: bool)

  /** One index's scan. Symbols are numbered in their alphabetical order. */
  datatype Scan = Scan(symbol: nat, candidate: Option<Candidate>)

  datatype Outcome =
    | PauseNewEntries
    | SlotUnavailable
    | NoExecutableCandidate
    | ExecutionRejected(symbol: nat)
    | ActivationFailed(symbol: nat)
    | Queued(symbol: nat)

  datatype Selection = Selection(paused: bool, symbols: set<nat>, tradable: set<nat>)

  predicate Eligible(scan: Scan, selection: Selection) {
    scan.symbol in selection.symbols && scan.candidate.Some? && scan.symbol in selection.tradable
  }

  /** Ranking of eligible scans: net, then confidence, then symbol. */
  predicate RanksAbove(a: Scan, b: Scan)
    requires a.candidate.Some? && b.candidate.Some?
  {
    var x, y := a.candidate.value, b.candidate.value;
    || x.projectedNet > y.projectedNet
    || (x.projectedNet == y.projectedNet && x.confidence > y.confidence)
    || (x.projectedNet == y.projectedNet && x.confidence == y.confidence && a.symbol > b.symbol)
  }

  /** The first eligible scan that no eligible scan ranks above. */
  ghost predicate IsWinner(scans: seq<Scan>, selection: Selection, w: nat) {
    && w < |scans| && Eligible(scans[w], selection)
    && (forall i :: 0 <= i < |scans| && Eligible(scans[i], selection) ==> !RanksAbove(scans[i], scans[w]))
    && (forall i :: 0 <= i < w && Eligible(scans[i], selection) ==> RanksAbove(scans[w], scans[i]))
  }

  /** A scan that may be entered: selected, tradable, and with a candidate. */
  ghost predicate MayEnter(scan: Scan, selection: Selection) {
    scan.symbol in selection.symbols * selection.tradable && scan.candidate != None
  }

  /** Net first, then confidence, then the symbol later in the alphabet; the same on all three is no better. */
  ghost predicate AtLeast(a: Scan, b: Scan)
    requires a.candidate.Some? && b.candidate.Some?
  {
    var x, y := a.candidate.value, b.candidate.value;
    && y.projectedNet <= x.projectedNet
    && (y.projectedNet == x.projectedNet ==> y.confidence <= x.confidence)
    && (y.projectedNet == x.projectedNet && y.confidence == x.confidence ==> b.symbol <= a.symbol)
  }

  /** The winner may be entered and is at least as good as all that may, the first among equals. */
  lemma WinnerIff(scans: seq<Scan>, selection: Selection, w: nat)
    ensures IsWinner(scans, selection, w) <==>
      && w < |scans| && MayEnter(scans[w], selection)
      && (forall i :: 0 <= i < |scans| && MayEnter(scans[i], selection) ==> AtLeast(scans[w], scans[i]))
      && (forall i :: 0 <= i < w && MayEnter(scans[i], selection) ==> !AtLeast(scans[i], scans[w]))
  {
    assert forall i :: 0 <= i < |scans| ==> (MayEnter(scans[i], selection) <==> Eligible(scans[i], selection));
  }

  /** Where the eligible scans among the first n stand. */
  ghost function Places(scans: seq<Scan>, selection: Selection, n: nat): (places: seq<nat>)
    requires n <= |scans|
    ensures forall j :: 0 <= j < |places| ==> places[j] < n && Eligible(scans[places[j]], selection)
  {
    if n == 0 then []
    else Places(scans, selection, n - 1) + if Eligible(scans[n - 1], selection) then [n - 1] else []
  }

  ghost predicate Increasing(places: seq<nat>) {
    forall i, j :: 0 <= i < j < |places| ==> places[i] < places[j]
  }

  lemma {:induction false} PlacesIncrease(scans: seq<Scan>, selection: Selection, n: nat)
    requires n <= |scans|
    ensures Increasing(Places(scans, selection, n))
  {
    if n > 0 {
      PlacesIncrease(scans, selection, n - 1);
    }
  }

  lemma {:induction false} PlaceOf(scans: seq<Scan>, selection: Selection, n: nat, i: nat) returns (j: nat)
    requires i < n <= |scans| && Eligible(scans[i], selection)
    ensures j < |Places(scans, selection, n)| && Places(scans, selection, n)[j] == i
  {
    if i == n - 1 {
      j := |Places(scans, selection, n - 1)|;
    } else {
      j := PlaceOf(scans, selection, n - 1, i);
    }
  }

  /** The first eligible scan that no eligible one ranks above, found among the eligible ones. */
  lemma BestPlaceWins(scans: seq<Scan>, selection: Selection, best: nat)
    requires
      var places := Places(scans, selection, |scans|);
      && best < |places|
      && (forall j :: 0 <= j < |places| ==> !RanksAbove(scans[places[j]], scans[places[best]]))
      && (forall j :: 0 <= j < best ==> RanksAbove(scans[places[best]], scans[places[j]]))
    ensures IsWinner(scans, selection, Places(scans, selection, |scans|)[best])
  {
    var places := Places(scans, selection, |scans|);
    PlacesIncrease(scans, selection, |scans|);
    forall i | 0 <= i < |scans| && Eligible(scans[i], selection)
      ensures !RanksAbove(scans[i], scans[places[best]])
      ensures i < places[best] ==> RanksAbove(scans[places[best]], scans[i])
    {
      var j := PlaceOf(scans, selection, |scans|, i);
    }
  }

  method SelectWinner(scans: seq<Scan>, selection: Selection) returns (winner: Option<Scan>)
    ensures winner.None? ==> forall i :: 0 <= i < |scans| ==> !Eligible(scans[i], selection)
    ensures winner.Some? ==> exists w: nat :: IsWinner(scans, selection, w) && winner.value == scans[w]
  {
    var eligible: seq<Scan> := [];
    ghost var places := Places(scans, selection, |scans|);
    for k := 0 to |scans|
      invariant |eligible| == |Places(scans, selection, k)|
      invariant forall j :: 0 <= j < |eligible| ==> eligible[j] == scans[Places(scans, selection, k)[j]]
    {
      if Eligible(scans[k], selection) {
        eligible := eligible + [scans[k]];
      }
    }
    if |eligible| == 0 {
      forall i | 0 <= i < |scans|
        ensures !Eligible(scans[i], selection)
      {
        if Eligible(scans[i], selection) {
          var j := PlaceOf(scans, selection, |scans|, i);
        }
      }
      return None;
    }
    var best := BestOf(eligible);
    BestPlaceWins(scans, selection, best);
    winner := Some(eligible[best]);
  }

  /** The index of the first scan that none of the others ranks above. */
  method BestOf(eligible: seq<Scan>) returns (best: nat)
    requires |eligible| > 0 && forall j :: 0 <= j < |eligible| ==> eligible[j].candidate.Some?
    ensures best < |eligible|
    ensures forall j :: 0 <= j < |eligible| ==> !RanksAbove(eligible[j], eligible[best])
    ensures forall j :: 0 <= j < best ==> RanksAbove(eligible[best], eligible[j])
  {
    best := 0;
    for k := 1 to |eligible|
      invariant best < k
      invariant forall j :: 0 <= j < k ==> !RanksAbove(eligible[j], eligible[best])
      invariant forall j :: 0 <= j < best ==> RanksAbove(eligible[best], eligible[j])
    {
      if RanksAbove(eligible[k], eligible[best]) {
        best := k;
      }
    }
  }

  class Coordinator {
    const engine: LiveEngine.Engine

    constructor (engine: LiveEngine.Engine)
      ensures this.engine == engine
    {
      this.engine := engine;
    }

    /** Activate the reservation, or give it back. */
    method ActivateOrRelease(token: nat) returns (active: bool)
      requires engine.Valid()
      modifies engine.reservation
      ensures engine.Valid() && engine.reservation.nextToken == old(engine.reservation.nextToken)
      ensures active <==> old(engine.reservation.View()) == Reserved(token)
      ensures engine.reservation.View() ==
        if active then Active(token) else old(engine.reservation.View()).Release(token)
    {
      active := engine.reservation.Activate(token);
      if !active {
        var released := engine.reservation.Release(token);
      }
    }

    /** Reserve, dispatch and activate one candidate on an empty slot. */
    method DispatchWinner(symbol: nat, candidate: Candidate) returns (outcome: Outcome)
      requires engine.Valid() && engine.View().slot.Empty?
      modifies engine, engine.reservation
      ensures engine.Valid()
      ensures
        var s := old(engine.View());
        if candidate.suitable then
          && outcome == Queued(symbol)
          && engine.View() == s.(slot := Active(s.nextToken), nextToken := s.nextToken + 1,
                                 queue := s.queue + [EntrySignal(s.nextToken)])
        else
          outcome == ExecutionRejected(symbol) && engine.View() == s.(nextToken := s.nextToken + 1)
    {
      var token := engine.reservation.TryReserve("CANDIDATE");
      if token.None? {
        return SlotUnavailable;
      }
      var accepted := engine.QueueEntry(candidate.suitable, token.value);
      if !accepted {
        var released := engine.reservation.Release(token.value);
        return ExecutionRejected(symbol);
      }
      var active := ActivateOrRelease(token.value);
      outcome := if active then Queued(symbol) else ActivationFailed(symbol);
    }

    /** Reserve, dispatch and activate the winner; give the slot back whenever that does not succeed. */
    method Coordinate(scans: seq<Scan>, selection: Selection) returns (outcome: Outcome)
      requires engine.Valid()
      modifies engine, engine.reservation
      ensures engine.Valid()
      ensures
        var s := old(engine.View());
        if selection.paused then outcome == PauseNewEntries && engine.View() == s
        else if !s.slot.Empty? then outcome == SlotUnavailable && engine.View() == s
        else if forall i :: 0 <= i < |scans| ==> !Eligible(scans[i], selection) then
          outcome == NoExecutableCandidate && engine.View() == s
        else
          exists w: nat :: IsWinner(scans, selection, w) && (
            var token, dispatched := s.nextToken, s.(engine := Scanning);
            if scans[w].candidate.value.suitable then
              && outcome == Queued(scans[w].symbol)
              && engine.View() == Run(dispatched, [Reserve, Callback(true), ActivateSlot])
            else
              && outcome == ExecutionRejected(scans[w].symbol)
              && engine.View() == Run(dispatched, [Reserve, Callback(false), Reject]))
    {
      ghost var s := engine.View();
      if selection.paused {
        return PauseNewEntries;
      }
      if !engine.reservation.state.StateEmpty? {
        return SlotUnavailable;
      }
      var winner := SelectWinner(scans, selection);
      if winner.None? {
        return NoExecutableCandidate;
      }
      DispatchOf(s);
      outcome := DispatchWinner(winner.value.symbol, winner.value.candidate.value);
    }
  }

  /** What the engine thread's steps come to when the worker does not interfere. */
  lemma DispatchOf(s: State)
    requires s.slot.Empty? && s.engine.Idle?
    ensures
      var t, scanning := s.nextToken, s.(engine := Scanning);
      && Run(scanning, [Reserve, Callback(true), ActivateSlot])
         == s.(slot := Active(t), nextToken := t + 1, queue := s.queue + [EntrySignal(t)])
      && Run(scanning, [Reserve, Callback(false), Reject]) == s.(nextToken := t + 1)
  {
    AcceptedDispatch(s);
    RejectedDispatch(s);
  }

  lemma AcceptedDispatch(s: State)
    requires s.slot.Empty? && s.engine.Idle?
    ensures Run(s.(engine := Scanning), [Reserve, Callback(true), ActivateSlot])
         == s.(slot := Active(s.nextToken), nextToken := s.nextToken + 1, queue := s.queue + [EntrySignal(s.nextToken)])
  {
    var t := s.nextToken;
    var reserved := s.(slot := Reserved(t), nextToken := t + 1, engine := Dispatching(t));
    var queued := reserved.(queue := s.queue + [EntrySignal(t)], engine := Activating(t));
    RunThree(s.(engine := Scanning), Reserve, Callback(true), ActivateSlot,
             reserved, queued, queued.(slot := Active(t), engine := Idle));
  }

  lemma RejectedDispatch(s: State)
    requires s.slot.Empty? && s.engine.Idle?
    ensures Run(s.(engine := Scanning), [Reserve, Callback(false), Reject]) == s.(nextToken := s.nextToken + 1)
  {
    var t := s.nextToken;
    var reserved := s.(slot := Reserved(t), nextToken := t + 1, engine := Dispatching(t));
    RunThree(s.(engine := Scanning), Reserve, Callback(false), Reject,
             reserved, reserved.(engine := Rejecting(t)), s.(nextToken := t + 1));
  }
}
