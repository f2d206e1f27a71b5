/**
 * The awakable registry kept for each end of a data pipe: the wait requests registered
 * against that end, each with its interest mask and the caller's context value. An
 * awakable (a `Waiter` in the tests) is identified by a number.
 */
module AwakableList {
  import opened Wrappers
  import opened MojoResults
  import opened HandleSignals

  type AwakableId = nat

  datatype Registration = Registration(awakable: AwakableId, signals: Signals, context: nat)

  /** One call `awakable->Awake(result, context)` made when the end's state changes. */
  datatype Wakeup = Wakeup(awakable: AwakableId, result: MojoResult, context: nat)

  /**
   * The decision of `AddAwakable`: a wait that is already satisfied is refused with
   * ALREADY_EXISTS, one that can never be satisfied with FAILED_PRECONDITION, and any
   * other wait is registered (OK).
   */
  function AddDecision(state: HandleSignalsState, signals: Signals): (r: MojoResult)
    ensures r in {Ok, AlreadyExists, FailedPrecondition}
    ensures r == Ok ==> !state.Satisfies(signals) && state.CanSatisfy(signals)
  {
    if state.Satisfies(signals) then AlreadyExists
    else if !state.CanSatisfy(signals) then FailedPrecondition
    else Ok
  }

  /** How a state change wakes one registration, if at all. */
  function Outcome(reg: Registration, state: HandleSignalsState): Option<MojoResult> {
    if state.Satisfies(reg.signals) then Some(Ok)
    else if !state.CanSatisfy(reg.signals) then Some(FailedPrecondition)
    else None
  }

  /**
   * The awake calls made, in registration order, when the end enters `state`: OK for
   * each registration now satisfied, FAILED_PRECONDITION for each that can no longer be
   * satisfied. Registrations stay in the list; the waiter removes itself afterwards.
   */
  function AwakeForStateChange(list: seq<Registration>, state: HandleSignalsState): (r: seq<Wakeup>)
    ensures |r| <= |list|
    ensures forall w :: w in r ==> w.result == Ok || w.result == FailedPrecondition
    decreases |list|
  {
    if list == [] then []
    else
      var rest := AwakeForStateChange(list[1..], state);
      match Outcome(list[0], state)
      case Some(result) => [Wakeup(list[0].awakable, result, list[0].context)] + rest
      case None => rest
  }

  /** Wake the registrations only when the state actually changed. */
  function AwakeIfChanged(list: seq<Registration>, before: HandleSignalsState, after: HandleSignalsState): seq<Wakeup> {
    if before == after then [] else AwakeForStateChange(list, after)
  }

  /** Every registration the new state decides is woken, with that decision's result. */
  lemma {:induction false} AwakeComplete(list: seq<Registration>, state: HandleSignalsState, reg: Registration)
    requires reg in list && Outcome(reg, state).Some?
    ensures Wakeup(reg.awakable, Outcome(reg, state).value, reg.context) in AwakeForStateChange(list, state)
    decreases |list|
  {
    if list[0] != reg {
      AwakeComplete(list[1..], state, reg);
    }
  }

  /** Nothing is woken that was not registered, and only with the result the state decides. */
  lemma {:induction false} AwakeSound(list: seq<Registration>, state: HandleSignalsState, w: Wakeup)
    requires w in AwakeForStateChange(list, state)
    ensures exists reg :: reg in list && reg.awakable == w.awakable && reg.context == w.context && Outcome(reg, state) == Some(w.result)
    decreases |list|
  {
    var rest := AwakeForStateChange(list[1..], state);
    if w in rest {
      AwakeSound(list[1..], state, w);
      var reg :| reg in list[1..] && reg.awakable == w.awakable && reg.context == w.context && Outcome(reg, state) == Some(w.result);
      assert reg in list;
    } else {
      assert list[0] in list;
    }
  }

  /**
   * `AddAwakable` refuses exactly the registrations that would be woken at once, and its
   * refusal tells which way: ALREADY_EXISTS where the wake would say OK, FAILED_PRECONDITION
   * where it would say FAILED_PRECONDITION.
   */
  lemma AddRefusesWhatWouldWakeAtOnce(state: HandleSignalsState, reg: Registration)
    ensures AddDecision(state, reg.signals) == Ok <==> AwakeForStateChange([reg], state) == []
    ensures AddDecision(state, reg.signals) == AlreadyExists <==> AwakeForStateChange([reg], state) == [Wakeup(reg.awakable, Ok, reg.context)]
    ensures AddDecision(state, reg.signals) == FailedPrecondition <==> AwakeForStateChange([reg], state) == [Wakeup(reg.awakable, FailedPrecondition, reg.context)]
  {
    assert [reg][1..] == [];
    var woken := AwakeForStateChange([reg], state);
    assert woken == if Outcome(reg, state).Some? then [Wakeup(reg.awakable, Outcome(reg, state).value, reg.context)] else [];
  }

  /** `RemoveAwakable`: drops every registration of `awakable` and keeps the others in order. */
  function Remove(list: seq<Registration>, awakable: AwakableId): (r: seq<Registration>)
    ensures |r| <= |list|
    ensures forall reg :: reg in r ==> reg in list && reg.awakable != awakable
    ensures forall reg :: reg in list && reg.awakable != awakable ==> reg in r
    decreases |list|
  {
    if list == [] then []
    else if list[0].awakable == awakable then Remove(list[1..], awakable)
    else [list[0]] + Remove(list[1..], awakable)
  }
}
