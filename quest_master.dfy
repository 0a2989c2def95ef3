// The quest master's state machine
// (src/game/npc/quest_master/statemachine.py): three named states, one
// action `persuade`, and one edge from untrusting to trusting.  An action
// outside the action list is refused before anything happens; the state
// library refuses `persuade` from a state the edge does not leave.  The
// caller's callback runs only after a successful step, and only when one
// is given.
module QuestMaster {

  const QuestStates: seq<string> := ["untrusting", "trusting", "helpful"]
  const QuestActions: seq<string> := ["persuade"]
  const QuestInitState := "untrusting"

  /** The exceptions a step can raise. */
  datatype Raised =
    | InvalidAction     // the `MachineError` raised for an unknown action
    | InvalidTrigger    // the library's `MachineError` for `persuade` off its edge
    | MissingTrigger    // the `AttributeError` of looking the trigger up on the library object

  datatype StepResult = Raise(error: Raised) | Done(callbackRan: bool)

  /** `next_state` as evidently intended: the trigger fires on the machine's
      model, so `persuade` follows the one edge. */
  function QuestStep(state: string, action: string, hasCallback: bool): (r: (string, StepResult))
    ensures r.1 == Raise(InvalidAction) <==> action !in QuestActions
    ensures r.1.Done? <==> action == "persuade" && state == "untrusting"
    ensures r.1.Done? ==> r.0 == "trusting" && r.1.callbackRan == hasCallback
    ensures r.1.Raise? ==> r.0 == state
  {
    if action !in QuestActions then (state, Raise(InvalidAction))
    else if state == "untrusting" then ("trusting", Done(hasCallback))
    else (state, Raise(InvalidTrigger))
  }

  /** `next_state` as written: the trigger is looked up on the library's
      `Machine` object, which the library never gives the trigger (it adds
      triggers to the model passed in), so `persuade` raises before the
      state changes or the callback runs. */
  function QuestStepAsWritten(state: string, action: string, hasCallback: bool): (r: (string, StepResult))
    ensures r.0 == state && r.1.Raise?
    ensures r.1 == Raise(InvalidAction) <==> action !in QuestActions
  {
    if action !in QuestActions then (state, Raise(InvalidAction))
    else (state, Raise(MissingTrigger))
  }

  /** As written, persuading an untrusting quest master raises instead of
      making it trusting; as intended, it succeeds and runs the callback. */
  lemma PersuadeAsWrittenRaises(hasCallback: bool)
    ensures QuestStepAsWritten("untrusting", "persuade", hasCallback) == ("untrusting", Raise(MissingTrigger))
    ensures QuestStep("untrusting", "persuade", hasCallback) == ("trusting", Done(hasCallback))
  {
  }

  /** The state after a run of actions; refused actions change nothing. */
  function QuestRun(state: string, actions: seq<string>): string {
    if actions == [] then state
    else QuestStep(QuestRun(state, actions[..|actions| - 1]), actions[|actions| - 1], false).0
  }

  /** From the initial state no sequence of actions reaches `helpful`:
      the only edge leads from untrusting to trusting. */
  lemma {:induction false} HelpfulIsUnreachable(actions: seq<string>)
    ensures QuestRun(QuestInitState, actions) in {"untrusting", "trusting"}
    ensures QuestRun(QuestInitState, actions) != "helpful"
  {
    if actions != [] {
      HelpfulIsUnreachable(actions[..|actions| - 1]);
    }
  }

  /** Each step's outcome does not depend on whether a callback is given,
      so the run above describes every call sequence. */
  lemma CallbackDoesNotSteer(state: string, action: string, a: bool, b: bool)
    ensures QuestStep(state, action, a).0 == QuestStep(state, action, b).0
    ensures QuestStep(state, action, a).1.Raise? == QuestStep(state, action, b).1.Raise?
  {
  }

  class QuestMasterStateMachine {
    var state: string

    constructor ()
      ensures state == QuestInitState
    {
      state := QuestInitState;
    }

    /** `next_state(action, callback)` as intended; `hasCallback` says
        whether the callback is truthy, and the result says whether it ran. */
    method NextState(action: string, hasCallback: bool) returns (result: StepResult)
      modifies this
      ensures (state, result) == QuestStep(old(state), action, hasCallback)
    {
      if action !in QuestActions {
        return Raise(InvalidAction);
      }
      if state != "untrusting" {
        return Raise(InvalidTrigger);
      }
      state := "trusting";
      result := Done(hasCallback);
    }
  }
}
