/** The one position slot shared by all index scanners. */
module PositionReservation {
  import opened Common

  datatype Slot = Empty | Reserved(owner: nat) | Active(owner: nat) {
    /** Reserve an empty slot for a fresh token; a taken slot stays as it is. */
    function Reserve(token: nat): Slot {
      if Empty? then Reserved(token) else this
    }

    /** A reservation becomes active for its owner only. */
    function Activate(token: nat): Slot {
      if this == Reserved(token) then Active(token) else this
    }

    /** A taken slot is freed by its owner only. */
    function Release(token: nat): Slot {
      if this == Reserved(token) || this == Active(token) then Empty else this
    }
  }

  /** A taken slot obeys its owner alone: nobody reserves over it, and other tokens neither activate nor free it. */
  lemma OnlyOwnerMoves(slot: Slot, owner: nat, token: nat)
    requires slot in {Reserved(owner), Active(owner)}
    ensures slot.Reserve(token) == slot && slot.Release(owner) == Empty && slot.Activate(owner) == Active(owner)
    ensures token != owner ==> slot.Activate(token) == slot == slot.Release(token)
    ensures Empty.Reserve(token) == Reserved(token) && Empty.Activate(token) == Empty == Empty.Release(token)
  {
  }

  datatype SlotState = StateEmpty | StateReserved | StateActive

  class Reservation {
    var state: SlotState
    var owner: Option<nat>
    var candidateId: Option<string>
    /** The supply of fresh tokens. */
    var nextToken: nat

    constructor ()
      ensures Valid() && View() == Empty && nextToken == 0
    {
      state, owner, candidateId, nextToken := StateEmpty, None, None, 0;
    }

    predicate Valid()
      reads this
    {
      && (state.StateEmpty? <==> owner.None?)
      && (owner.None? <==> candidateId.None?)
      && (owner.Some? ==> owner.value < nextToken)
    }

    function View(): Slot
      reads this
      requires Valid()
    {
      match state
      case StateEmpty => Empty
      case StateReserved => Reserved(owner.value)
      case StateActive => Active(owner.value)
    }

    method TryReserve(candidate: string) returns (token: Option<nat>)
      requires Valid()
      modifies this
      ensures Valid()
      ensures token == if old(View()).Empty? then Some(old(nextToken)) else None
      ensures View() == old(View()).Reserve(old(nextToken))
      ensures nextToken == if token.Some? then old(nextToken) + 1 else old(nextToken)
    {
      if !state.StateEmpty? {
        return None;
      }
      token := Some(nextToken);
      nextToken := nextToken + 1;
      state, owner, candidateId := StateReserved, token, Some(candidate);
    }

    method Activate(token: nat) returns (done: bool)
      requires Valid()
      modifies this
      ensures Valid() && nextToken == old(nextToken)
      ensures View() == old(View()).Activate(token)
      ensures done <==> old(View()) == Reserved(token)
    {
      if !state.StateReserved? || owner != Some(token) {
        return false;
      }
      state := StateActive;
      done := true;
    }

    method Release(token: nat) returns (done: bool)
      requires Valid()
      modifies this
      ensures Valid() && nextToken == old(nextToken)
      ensures View() == old(View()).Release(token)
      ensures done <==> old(View()) == Reserved(token) || old(View()) == Active(token)
    {
      if state.StateEmpty? || owner != Some(token) {
        return false;
      }
      state, owner, candidateId := StateEmpty, None, None;
      done := true;
    }
  }
}
