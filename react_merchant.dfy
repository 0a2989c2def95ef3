// The ReAct merchant's decision rules
// (src/game/npc/merchant/react/react_merchant.py).
//
// The observation's intent, entities and tone, and the answers of the
// helper methods that the source leaves as stubs (sensitive topic, known
// secret, trade knowledge, secrets, response content), are inputs.
module ReActMerchant {
  import opened Support
  import opened Models
  import opened MerchantStates

  /** What `_observe` extracts from a player message. */
  datatype Observation = Observation(intent: string, entities: seq<string>, tone: string)

  const TriggerOrder: seq<string> :=
    ["player_shared_personal_info", "player_offer_bribe", "player_threaten_npc"]

  /** `xs` occurs in `ys` in order, possibly with gaps. */
  predicate IsSubsequence(xs: seq<string>, ys: seq<string>) {
    if xs == [] then true
    else if ys == [] then false
    else if xs[0] == ys[0] then IsSubsequence(xs[1..], ys[1..])
    else IsSubsequence(xs, ys[1..])
  }

  predicate NoDuplicates(xs: seq<string>) {
    forall i, j :: 0 <= i < j < |xs| ==> xs[i] != xs[j]
  }

  /** `_detect_state_triggers`.  Python's `or` binds looser than `and`, so
      a bribe is an explicit "bribe" entity, or "gold" offered. */
  function DetectStateTriggers(obs: Observation): (triggers: seq<string>)
    ensures "player_shared_personal_info" in triggers <==> "personal_info" in obs.entities
    ensures "player_offer_bribe" in triggers
        <==> "bribe" in obs.entities || ("gold" in obs.entities && obs.intent == "offer")
    ensures "player_threaten_npc" in triggers <==> obs.tone == "threatening"
  {
    var personal := if "personal_info" in obs.entities then ["player_shared_personal_info"] else [];
    var bribe :=
      if "bribe" in obs.entities || ("gold" in obs.entities && obs.intent == "offer")
      then ["player_offer_bribe"] else [];
    var threat := if obs.tone == "threatening" then ["player_threaten_npc"] else [];
    personal + bribe + threat
  }

  /** The detected triggers keep the fixed order, never repeat, and are
      all configured condition names, so each can be fired. */
  lemma DetectedTriggersInOrder(obs: Observation)
    ensures IsSubsequence(DetectStateTriggers(obs), TriggerOrder)
    ensures NoDuplicates(DetectStateTriggers(obs))
    ensures forall t :: t in DetectStateTriggers(obs) ==> IsConditionName(t)
  {
    var p := "personal_info" in obs.entities;
    var b := "bribe" in obs.entities || ("gold" in obs.entities && obs.intent == "offer");
    var t := obs.tone == "threatening";
    var tail := if t then [TriggerOrder[2]] else [];
    var mid := (if b then [TriggerOrder[1]] else []) + tail;
    var all := (if p then [TriggerOrder[0]] else []) + mid;
    assert DetectStateTriggers(obs) == all;
    SelectionInOrder(p, b, t);
    TriggerOrderIsConfigured();
  }

  /** Keeping any selection of the three triggers, in order, gives an
      ordered subsequence without repeats. */
  lemma SelectionInOrder(p: bool, b: bool, t: bool)
    ensures var all := (if p then [TriggerOrder[0]] else []) + (if b then [TriggerOrder[1]] else [])
                       + (if t then [TriggerOrder[2]] else []);
            IsSubsequence(all, TriggerOrder) && NoDuplicates(all)
            && forall x :: x in all ==> x in TriggerOrder
  {
    var o := TriggerOrder;
    assert |o[0]| == 27 && |o[1]| == 18 && |o[2]| == 19;
    assert o[1..][1..] == o[2..] && o[2..][1..] == [];
    var tail := if t then [o[2]] else [];
    assert IsSubsequence(tail, o[2..]);
    var mid := (if b then [o[1]] else []) + tail;
    if b {
      assert mid[1..] == tail;
    } else {
      assert mid == tail;
    }
    assert IsSubsequence(mid, o[1..]);
    var all := (if p then [o[0]] else []) + mid;
    if p {
      assert all[1..] == mid;
    } else {
      assert all == mid;
    }
    assert IsSubsequence(all, o);
    assert (if p then [o[0]] else []) + (if b then [o[1]] else []) + tail == all;
  }

  /** The three triggers are exactly the configured condition names. */
  lemma TriggerOrderIsConfigured()
    ensures forall t :: t in TriggerOrder <==> IsConditionName(t)
  {
    ConfiguredNames();
  }

  datatype Reasoning = Reasoning(
    responseType: Option<string>,
    relevantKnowledge: seq<string>,
    emotionalResponse: Option<string>)

  /** `_reason`: the emotional response follows the state; a response type
      is chosen only for the intent that the state reacts to. */
  function Reason(
    obs: Observation, currentState: string,
    isSensitiveTopic: bool, knowsSecret: bool,
    tradeKnowledge: seq<string>, relevantSecrets: seq<string>): (r: Reasoning)
    ensures currentState == "untrusting" ==> r.emotionalResponse == Some("cautious")
    ensures currentState == "trusting" ==> r.emotionalResponse == Some("neutral")
    ensures currentState == "helpful" ==> r.emotionalResponse == Some("friendly")
    ensures !IsStateName(currentState) ==> r == Reasoning(None, [], None)
    ensures r.responseType == Some("trade") <==> currentState == "trusting" && obs.intent == "trade_request"
    ensures r.responseType == Some("share_secret")
        <==> currentState == "helpful" && obs.intent == "question" && knowsSecret
    ensures r.responseType.Some? ==>
              obs.intent == (if currentState == "trusting" then "trade_request" else "question")
    ensures IsStateName(currentState)
            && obs.intent == (if currentState == "trusting" then "trade_request" else "question")
            ==> r.responseType.Some?
    ensures r.responseType == Some("deflect")
        <==> currentState == "untrusting" && obs.intent == "question" && isSensitiveTopic
    ensures r.responseType == Some("basic_info")
        <==> obs.intent == "question"
             && ((currentState == "untrusting" && !isSensitiveTopic) || (currentState == "helpful" && !knowsSecret))
    ensures r.responseType == Some("trade") ==> r.relevantKnowledge == tradeKnowledge
    ensures currentState == "helpful" && obs.intent == "question" ==> r.relevantKnowledge == relevantSecrets
    ensures !(currentState == "trusting" && obs.intent == "trade_request")
            && !(currentState == "helpful" && obs.intent == "question")
            ==> r.relevantKnowledge == []
  {
    ConfiguredNames();
    var none := Reasoning(None, [], None);
    if currentState == "untrusting" then
      var r := none.(emotionalResponse := Some("cautious"));
      if obs.intent == "question" then
        r.(responseType := Some(if isSensitiveTopic then "deflect" else "basic_info"))
      else r
    else if currentState == "trusting" then
      var r := none.(emotionalResponse := Some("neutral"));
      if obs.intent == "trade_request" then
        r.(responseType := Some("trade"), relevantKnowledge := tradeKnowledge)
      else r
    else if currentState == "helpful" then
      var r := none.(emotionalResponse := Some("friendly"));
      if obs.intent == "question" then
        r.(responseType := Some(if knowsSecret then "share_secret" else "basic_info"),
           relevantKnowledge := relevantSecrets)
      else r
    else none
  }

  datatype ResponsePlan = ResponsePlan(responseType: string, content: string, emotionalTone: Option<string>)

  /** `_plan`.  None stands for the IndexError that `available_actions[0]`
      raises on an empty action list. */
  function Plan(
    reasoning: Reasoning, availableActions: seq<string>,
    generateContent: (string, Reasoning) -> string): (p: Option<ResponsePlan>)
    ensures p.None? <==> availableActions == []
    ensures p.Some? ==> p.value.responseType in availableActions
    ensures p.Some? ==> p.value.emotionalTone == reasoning.emotionalResponse
    ensures p.Some? ==> p.value.content == generateContent(p.value.responseType, reasoning)
    ensures p.Some? && reasoning.responseType.Some? && reasoning.responseType.value in availableActions
            ==> p.value.responseType == reasoning.responseType.value
    ensures p.Some? && !(reasoning.responseType.Some? && reasoning.responseType.value in availableActions)
            ==> p.value.responseType == (if "basic_info" in availableActions then "basic_info" else availableActions[0])
  {
    var allowed := reasoning.responseType.Some? && reasoning.responseType.value in availableActions;
    if !allowed && availableActions == [] then None
    else
      var responseType :=
        if allowed then reasoning.responseType.value
        else if "basic_info" in availableActions then "basic_info"
        else availableActions[0];
      Some(ResponsePlan(responseType, generateContent(responseType, reasoning), reasoning.emotionalResponse))
  }

  function StateActionNames(state: string): seq<string>
    requires state in StatesMap
  {
    ActionNames(StatesMap[state].availableActions)
  }

  /** Reasoning followed by planning against the current state's actions
      always yields one of that state's actions. */
  lemma PlanStaysWithinState(
    obs: Observation, state: string, sensitive: bool, knows: bool,
    trade: seq<string>, secrets: seq<string>, g: (string, Reasoning) -> string)
    requires state in StatesMap
    ensures var p := Plan(Reason(obs, state, sensitive, knows, trade, secrets), StateActionNames(state), g);
            p.Some? && p.value.responseType in StateActionNames(state)
  {
    assert StateActionNames(state) != [];
  }

  /** The helpful state has no `basic_info`, so a question it holds no
      secret about falls back to its first action, `share_secret`; an
      untrusting merchant's `deflect` falls back to `basic_info`. */
  lemma PlanFallbacks(obs: Observation, g: (string, Reasoning) -> string)
    requires obs.intent == "question"
    ensures Plan(Reason(obs, "helpful", false, false, [], []), StateActionNames("helpful"), g).value.responseType
         == "share_secret"
    ensures Plan(Reason(obs, "untrusting", true, false, [], []), StateActionNames("untrusting"), g).value.responseType
         == "basic_info"
  {
    assert StateActionNames("helpful") == ["share_secret", "trade", "give_quest"];
    assert StateActionNames("untrusting") == ["basic_info", "question_player", "take_bribe"];
  }

  class ReActMerchant {
    const stateMachine: MerchantStateMachine

    constructor ()
      ensures fresh(stateMachine) && stateMachine.state == InitState && stateMachine.Valid()
    {
      stateMachine := new MerchantStateMachine();
    }

    /** `_apply_triggers`: each trigger fires against the state the
        previous one left; inapplicable ones are skipped. */
    method ApplyTriggers(triggers: seq<string>)
      requires forall t :: t in triggers ==> IsConditionName(t)
      modifies stateMachine
      ensures stateMachine.state == RunTriggers(old(stateMachine.state), triggers)
    {
      for i := 0 to |triggers|
        invariant stateMachine.state == RunTriggers(old(stateMachine.state), triggers[..i])
      {
        assert triggers[..i + 1][..i] == triggers[..i];
        stateMachine.Transition(triggers[i]);
      }
      assert triggers[..|triggers|] == triggers;
    }

    /** `process_player_input`: detect the triggers, apply them, report
        the resulting state. */
    method ProcessPlayerInput(obs: Observation) returns (response: string)
      modifies stateMachine
      ensures stateMachine.state == RunTriggers(old(stateMachine.state), DetectStateTriggers(obs))
      ensures old(stateMachine.Valid()) ==> stateMachine.Valid()
      ensures response == "The current state is: " + stateMachine.state
    {
      var triggers := DetectStateTriggers(obs);
      DetectedTriggersInOrder(obs);
      ApplyTriggers(triggers);
      if old(stateMachine.Valid()) {
        RunStaysConfigured(old(stateMachine.state), triggers);
      }
      response := "The current state is: " + stateMachine.state;
    }
  }

  /** A gold offer made in a threatening tone raises the bribe trigger and
      then the threat trigger. */
  lemma BribeAndThreatDetected()
    ensures DetectStateTriggers(Observation("offer", ["gold"], "threatening"))
         == ["player_offer_bribe", "player_threaten_npc"]
  {
  }

  /** Two triggers fired in a row. */
  lemma RunTwo(state: string, first: string, second: string)
    ensures RunTriggers(state, [first, second]) == Step(Step(state, first), second)
  {
    var ts := [first, second];
    assert ts[..1] == [first];
    assert [first][..0] == [];
    assert RunTriggers(state, [first]) == Step(state, first);
    assert RunTriggers(state, ts) == Step(RunTriggers(state, ts[..1]), second);
  }

  /** Fired in that order, they make a trusting merchant helpful and then
      untrusting. */
  lemma BribeThenThreat()
    ensures RunTriggers("trusting", ["player_offer_bribe", "player_threaten_npc"]) == "untrusting"
  {
    RunTwo("trusting", "player_offer_bribe", "player_threaten_npc");
  }
}
