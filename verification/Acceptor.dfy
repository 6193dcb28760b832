/** The acceptor of one slot: what it has promised, and the last value it has accepted. */
module Acceptors {
  import opened Types

  /** `voted` is history: every ballot accepted so far.  The rest are the fields of the code. */
  datatype AcceptorState = AcceptorState(
    maxProposed: nat,
    maxAccepted: nat,
    maxValue: Option<PropValue>,
    voted: set<nat>)

  const FRESH: AcceptorState := AcceptorState(0, 0, None, {})

  /** State after a prepare request. */
  function OnPrepare(a: AcceptorState, ballot: nat): AcceptorState
  {
    if ballot > a.maxProposed then a.(maxProposed := ballot) else a
  }

  /** The reply to a prepare request that finds the acceptor in state `a`. */
  function PromiseReply(a: AcceptorState, me: nat, slot: nat, ballot: nat): Msg
  {
    if ballot > a.maxProposed
    then Promise(me, slot, ballot, true, a.maxAccepted, a.maxValue)
    else Promise(me, slot, ballot, false, a.maxAccepted, None)
  }

  /** State after an accept request; a value with the id already stored is not stored again. */
  function OnAccept(a: AcceptorState, ballot: nat, value: PropValue): AcceptorState
  {
    if ballot >= a.maxProposed then
      AcceptorState(
        ballot, ballot,
        if a.maxValue.None? || a.maxValue.value.id != value.id then Some(value) else a.maxValue,
        a.voted + {ballot})
    else a
  }

  function AcceptReply(a: AcceptorState, me: nat, slot: nat, ballot: nat): Msg
  {
    Accepted(me, slot, ballot, ballot >= a.maxProposed)
  }

  /** What one step of an acceptor may change: promises only rise, votes are never withdrawn, and
      a new vote respects the promise it finds. */
  ghost predicate Advances(a: AcceptorState, b: AcceptorState)
  {
    && a.maxProposed <= b.maxProposed
    && a.voted <= b.voted
    && forall k :: k in b.voted && k !in a.voted ==> k >= a.maxProposed
  }

  lemma PrepareAdvances(a: AcceptorState, ballot: nat)
    ensures Advances(a, OnPrepare(a, ballot))
    ensures ballot <= OnPrepare(a, ballot).maxProposed
  {
  }

  lemma AcceptAdvances(a: AcceptorState, ballot: nat, value: PropValue)
    ensures Advances(a, OnAccept(a, ballot, value))
    ensures ballot in OnAccept(a, ballot, value).voted || ballot < a.maxProposed
  {
  }

  /** The acceptor object. */
  class Acceptor {
    var maxProposed: nat
    var maxAccepted: nat
    var maxValue: Option<PropValue>
    ghost var voted: set<nat>

    ghost function State(): AcceptorState
      reads this
    {
      AcceptorState(maxProposed, maxAccepted, maxValue, voted)
    }

    constructor ()
      ensures State() == FRESH
    {
      maxProposed, maxAccepted, maxValue, voted := 0, 0, None, {};
    }

    method HandleMsgPrepare(me: nat, m: Msg) returns (ack: Msg)
      requires m.Prepare?
      modifies this
      ensures State() == OnPrepare(old(State()), m.ballot)
      ensures ack == PromiseReply(old(State()), me, m.slot, m.ballot)
    {
      if m.ballot > maxProposed {
        maxProposed := m.ballot;
        ack := Promise(me, m.slot, m.ballot, true, maxAccepted, maxValue);
      } else {
        ack := Promise(me, m.slot, m.ballot, false, maxAccepted, None);
      }
    }

    method HandleMsgAccept(me: nat, m: Msg) returns (ack: Msg)
      requires m.Accept?
      modifies this
      ensures State() == OnAccept(old(State()), m.ballot, m.value)
      ensures ack == AcceptReply(old(State()), me, m.slot, m.ballot)
    {
      if m.ballot >= maxProposed {
        maxProposed := m.ballot;
        maxAccepted := m.ballot;
        if maxValue.None? || maxValue.value.id != m.value.id {
          maxValue := Some(m.value);
        }
        voted := voted + {m.ballot};
        ack := Accepted(me, m.slot, m.ballot, true);
      } else {
        ack := Accepted(me, m.slot, m.ballot, false);
      }
    }

    method GetMaxValue() returns (v: Option<PropValue>)
      ensures v == State().maxValue
    {
      v := maxValue;
    }

    method UpdateMaxProposed(ballot: nat)
      modifies this
      ensures State() == old(State()).(maxProposed := ballot)
    {
      maxProposed := ballot;
    }
  }
}
