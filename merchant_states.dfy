// The ReAct merchant's emotional-state machine
// (src/game/npc/merchant/react/react_merchant_statemachine.py).
//
// The configuration (three states with their allowed actions, five
// transitions labelled by few-shot intents) is constant data.  The source
// registers every (condition, source, destination) triple with a generic
// state-machine library and fires a condition by looking up a method of
// that name; here the lookup is the explicit function `Fire` over the
// configured transitions, in configuration order, and `Edge` is the
// intended table, proved equal to it.
module MerchantStates {
  import opened Support
  import opened Models

  const InitState: string := "trusting"

  const BasicInfo := Action("basic_info", "Provide simple, non-sensitive information about topics you know about.")
  const QuestionPlayer := Action("question_player", "Ask the player questions to determine their intentions")
  const TakeBribe := Action("take_bribe", "Accept money for information")
  const TradeAction := Action("trade", "Offer to buy/sell items with player.")
  const GiveQuest := Action("give_quest", "Offer the player quests from your quest log.")
  const ShareSecret := Action("share_secret", "Share secrets from your hidden secrets log.")

  const Untrusting := State(
    "untrusting",
    "Distant and cold. Greeting the player with limited enthusiasm.",
    [BasicInfo, QuestionPlayer, TakeBribe])
  const Trusting := State(
    "trusting",
    "Courteous but calculating. Primary objective is to trade items with profit.",
    [BasicInfo, TradeAction, GiveQuest, TakeBribe])
  const Helpful := State(
    "helpful",
    "Friendly and enthusiastic to help. Tries to offer player quest and secrets that might help the player.",
    [ShareSecret, TradeAction, GiveQuest])

  const StatesMap: map<string, State> :=
    map["untrusting" := Untrusting, "trusting" := Trusting, "helpful" := Helpful]

  const SharedPersonalInfo := FewShotIntent(
    "player_shared_personal_info",
    ["My name is ___.", "I am a traveller from the far west. They call me ___"])
  const OfferBribe := FewShotIntent(
    "player_offer_bribe",
    ["Some gold for some information?", "Will some gold change your mind?",
     "I will offer you some gold for information."])
  const ThreatenNpc := FewShotIntent(
    "player_threaten_npc",
    ["I will hurt you if you don't comply", "Don't you dare thinking about lying to me.",
     "You do not want me as your enemy."])

  /** `state_config`: the states in `states_map` order and the five edges. */
  const StateConfig := NpcConfig(
    [Untrusting, Trusting, Helpful],
    [ StateTransition(Untrusting, Trusting, [SharedPersonalInfo]),
      StateTransition(Untrusting, Helpful, [OfferBribe]),
      StateTransition(Trusting, Helpful, [OfferBribe]),
      StateTransition(Trusting, Untrusting, [ThreatenNpc]),
      StateTransition(Helpful, Untrusting, [ThreatenNpc]) ])

  function StateNamesOf(states: seq<State>): seq<string> {
    MapSeq(states, (s: State) => s.name)
  }

  function ActionNames(actions: seq<Action>): seq<string> {
    MapSeq(actions, (a: Action) => a.name)
  }

  /** The states the machine is built with: `[s.name for s in states]`. */
  predicate IsStateName(s: string) {
    s in StateNamesOf(StateConfig.states)
  }

  function IntentNames(cs: seq<FewShotIntent>): set<string> {
    set c | c in cs :: c.name
  }

  /** Names of all conditions on the given transitions. */
  function ConditionNamesOf(ts: seq<StateTransition>): set<string> {
    if ts == [] then {} else ConditionNamesOf(ts[..|ts| - 1]) + IntentNames(ts[|ts| - 1].conditions)
  }

  predicate IsConditionName(n: string) {
    n in ConditionNamesOf(StateConfig.transitions)
  }

  lemma ConditionNamesSnoc(ts: seq<StateTransition>, k: int)
    requires 0 <= k < |ts|
    ensures ConditionNamesOf(ts[..k + 1]) == ConditionNamesOf(ts[..k]) + IntentNames(ts[k].conditions)
  {
    assert ts[..k + 1][..k] == ts[..k];
  }

  /** The condition names of five transitions, each with the given
      names. */
  lemma ConditionNamesOfFive(ts: seq<StateTransition>, n0: set<string>, n1: set<string>, n2: set<string>, n3: set<string>, n4: set<string>)
    requires |ts| == 5
    requires IntentNames(ts[0].conditions) == n0 && IntentNames(ts[1].conditions) == n1
    requires IntentNames(ts[2].conditions) == n2 && IntentNames(ts[3].conditions) == n3
    requires IntentNames(ts[4].conditions) == n4
    ensures ConditionNamesOf(ts) == n0 + n1 + n2 + n3 + n4
  {
    assert ts[..0] == [] && ts[..5] == ts;
    ConditionNamesSnoc(ts, 0);
    ConditionNamesSnoc(ts, 1);
    ConditionNamesSnoc(ts, 2);
    ConditionNamesSnoc(ts, 3);
    ConditionNamesSnoc(ts, 4);
  }

  lemma ConfiguredNames()
    ensures StateNamesOf(StateConfig.states) == ["untrusting", "trusting", "helpful"]
    ensures ConditionNamesOf(StateConfig.transitions)
         == {"player_shared_personal_info", "player_offer_bribe", "player_threaten_npc"}
    ensures forall s :: s in StatesMap <==> IsStateName(s)
  {
    var ts := StateConfig.transitions;
    var p, b, t := {"player_shared_personal_info"}, {"player_offer_bribe"}, {"player_threaten_npc"};
    assert IntentNames(ts[0].conditions) == p;
    assert IntentNames(ts[1].conditions) == b;
    assert IntentNames(ts[2].conditions) == b;
    assert IntentNames(ts[3].conditions) == t;
    assert IntentNames(ts[4].conditions) == t;
    ConditionNamesOfFive(ts, p, b, b, t, t);
    assert StatesMap.Keys == {"untrusting", "trusting", "helpful"};
  }

  /** Every state offers at least one action and no action twice. */
  lemma AvailableActionsWellFormed(s: State)
    requires s in StateConfig.states
    ensures |s.availableActions| > 0
    ensures forall i, j :: 0 <= i < j < |s.availableActions| ==>
              s.availableActions[i].name != s.availableActions[j].name
  {
  }

  predicate HasCondition(cs: seq<FewShotIntent>, name: string) {
    exists k :: 0 <= k < |cs| && cs[k].name == name
  }

  /** Transition `t` leaves `state` when `trigger` is fired. */
  predicate Labels(t: StateTransition, state: string, trigger: string) {
    t.source.name == state && HasCondition(t.conditions, trigger)
  }

  /** The destination of the first configured transition that leaves
      `state` on `trigger`, or None when no edge does. */
  function Fire(ts: seq<StateTransition>, state: string, trigger: string): (dest: Option<string>)
    ensures dest.Some? <==> exists i :: 0 <= i < |ts| && Labels(ts[i], state, trigger)
    ensures dest.Some? ==>
              exists i :: 0 <= i < |ts| && Labels(ts[i], state, trigger) && ts[i].destination.name == dest.value
  {
    if ts == [] then None
    else if Labels(ts[0], state, trigger) then Some(ts[0].destination.name)
    else
      var rest := Fire(ts[1..], state, trigger);
      assert forall i :: 1 <= i < |ts| ==> ts[i] == ts[1..][i - 1];
      rest
  }

  /** The intended transition table, as `state_config` lists it. */
  function Edge(state: string, condition: string): Option<string> {
    if state == "untrusting" && condition == "player_shared_personal_info" then Some("trusting")
    else if (state == "untrusting" || state == "trusting") && condition == "player_offer_bribe" then Some("helpful")
    else if (state == "trusting" || state == "helpful") && condition == "player_threaten_npc" then Some("untrusting")
    else None
  }

  /** Each configured transition carries exactly one condition, so it is
      labelled by that condition's name and no other. */
  lemma ConfigLabels(i: int, state: string, condition: string)
    requires 0 <= i < |StateConfig.transitions|
    ensures Labels(StateConfig.transitions[i], state, condition) <==>
              StateConfig.transitions[i].source.name == state
              && StateConfig.transitions[i].conditions[0].name == condition
  {
    var cs := StateConfig.transitions[i].conditions;
    assert |cs| == 1;
    if cs[0].name == condition {
      assert HasCondition(cs, condition);
    }
  }

  lemma FireCons(ts: seq<StateTransition>, state: string, trigger: string)
    requires ts != []
    ensures Fire(ts, state, trigger)
         == if Labels(ts[0], state, trigger) then Some(ts[0].destination.name) else Fire(ts[1..], state, trigger)
  {
  }

  /** The configured transitions realise exactly the intended table. */
  lemma ConfigIsEdgeTable(state: string, condition: string)
    ensures Fire(StateConfig.transitions, state, condition) == Edge(state, condition)
  {
    var ts := StateConfig.transitions;
    ConfigLabels(0, state, condition);
    ConfigLabels(1, state, condition);
    ConfigLabels(2, state, condition);
    ConfigLabels(3, state, condition);
    ConfigLabels(4, state, condition);
    var t1, t2, t3, t4 := ts[1..], ts[2..], ts[3..], ts[4..];
    assert t1[0] == ts[1] && t1[1..] == t2;
    assert t2[0] == ts[2] && t2[1..] == t3;
    assert t3[0] == ts[3] && t3[1..] == t4;
    assert t4[0] == ts[4] && t4[1..] == [];
    FireCons(ts, state, condition);
    FireCons(t1, state, condition);
    FireCons(t2, state, condition);
    FireCons(t3, state, condition);
    FireCons(t4, state, condition);
  }

  /** Within one source state a condition name labels at most one edge. */
  lemma ConditionLabelsOneEdge(i: int, j: int, name: string)
    requires 0 <= i < |StateConfig.transitions| && 0 <= j < |StateConfig.transitions|
    requires StateConfig.transitions[i].source.name == StateConfig.transitions[j].source.name
    requires HasCondition(StateConfig.transitions[i].conditions, name)
    requires HasCondition(StateConfig.transitions[j].conditions, name)
    ensures i == j
  {
  }

  /** The destination the configured transitions give `condition` from
      `state`, as the state-machine library looks it up. */
  function Next(state: string, condition: string): (dest: Option<string>)
    ensures dest == Edge(state, condition)
  {
    ConfigIsEdgeTable(state, condition);
    Fire(StateConfig.transitions, state, condition)
  }

  /** The state after firing `condition`: the edge's destination, or the
      same state when no edge leaves it on that condition. */
  function Step(state: string, condition: string): string {
    match Edge(state, condition)
    case Some(d) => d
    case None => state
  }

  /** Triggers fired one after another, each from the state the previous
      one left. */
  function RunTriggers(state: string, triggers: seq<string>): string {
    if triggers == [] then state
    else Step(RunTriggers(state, triggers[..|triggers| - 1]), triggers[|triggers| - 1])
  }

  /** A step never leaves the configured states. */
  lemma StepStaysConfigured(state: string, condition: string)
    requires IsStateName(state)
    ensures IsStateName(Step(state, condition))
  {
    ConfiguredNames();
  }

  lemma {:induction false} RunStaysConfigured(state: string, triggers: seq<string>)
    requires IsStateName(state)
    ensures IsStateName(RunTriggers(state, triggers))
  {
    if triggers != [] {
      RunStaysConfigured(state, triggers[..|triggers| - 1]);
      StepStaysConfigured(RunTriggers(state, triggers[..|triggers| - 1]), triggers[|triggers| - 1]);
    }
  }

  /** A condition changes nothing exactly when no edge leaves the current
      state on it (every edge leads to a different state); for instance
      sharing personal information with a trusting merchant, or offering a
      bribe to a helpful one. */
  lemma InvalidTriggersAreNoOps(state: string, condition: string)
    ensures Step(state, condition) == state <==> Edge(state, condition) == None
    ensures Edge("trusting", "player_shared_personal_info") == None
    ensures Edge("helpful", "player_offer_bribe") == None
  {
  }

  /** The transitions leaving `s`, in configuration order. */
  function FromSource(ts: seq<StateTransition>, s: string): (r: seq<StateTransition>)
    ensures |r| <= |ts|
  {
    if ts == [] then []
    else FromSource(ts[..|ts| - 1], s) + (if ts[|ts| - 1].source.name == s then [ts[|ts| - 1]] else [])
  }

  /** `FromSource` keeps exactly the transitions whose source is `s`. */
  lemma {:induction false} FromSourceMembers(ts: seq<StateTransition>, s: string)
    ensures forall t :: t in FromSource(ts, s) <==> t in ts && t.source.name == s
  {
    if ts != [] {
      var init := ts[..|ts| - 1];
      FromSourceMembers(init, s);
      assert forall t :: t in ts <==> t in init || t == ts[|ts| - 1];
    }
  }

  lemma {:induction false} FromSourceEmpty(ts: seq<StateTransition>, s: string)
    requires forall t :: t in ts ==> t.source.name != s
    ensures FromSource(ts, s) == []
  {
    if ts != [] {
      FromSourceEmpty(ts[..|ts| - 1], s);
    }
  }

  /** The names of the states that some transition leaves. */
  function SourcesOf(ts: seq<StateTransition>): set<string> {
    set t | t in ts :: t.source.name
  }

  lemma SourcesSnoc(ts: seq<StateTransition>, k: int)
    requires 0 <= k < |ts|
    ensures SourcesOf(ts[..k + 1]) == SourcesOf(ts[..k]) + {ts[k].source.name}
  {
    assert ts[..k + 1] == ts[..k] + [ts[k]];
  }

  /** The `transition_map` loop of `__init__`: source state name to the
      transitions leaving it. */
  method BuildTransitionMap(ts: seq<StateTransition>) returns (m: map<string, seq<StateTransition>>)
    ensures m.Keys == SourcesOf(ts)
    ensures forall s :: s in m ==> m[s] == FromSource(ts, s)
  {
    m := map[];
    for i := 0 to |ts|
      invariant m.Keys == SourcesOf(ts[..i])
      invariant forall s :: s in m ==> m[s] == FromSource(ts[..i], s)
    {
      var t := ts[i];
      var src := t.source.name;
      SourcesSnoc(ts, i);
      forall s | s in m || s == src
        ensures FromSource(ts[..i + 1], s) == FromSource(ts[..i], s) + (if src == s then [t] else [])
      {
        FromSourceSnoc(ts, i, s);
      }
      if src !in m {
        FromSourceEmpty(ts[..i], src);
      }
      m := m[src := (if src in m then m[src] else []) + [t]];
    }
    assert ts[..|ts|] == ts;
  }

  lemma FromSourceSnoc(ts: seq<StateTransition>, k: int, s: string)
    requires 0 <= k < |ts|
    ensures FromSource(ts[..k + 1], s)
         == FromSource(ts[..k], s) + (if ts[k].source.name == s then [ts[k]] else [])
  {
    assert ts[..k + 1][..k] == ts[..k];
  }

  /** With the configured source names, untrusting lists the first two transitions. */
  lemma FromSourceUntrusting(ts: seq<StateTransition>)
    requires |ts| == 5
    requires ts[0].source.name == "untrusting" && ts[1].source.name == "untrusting"
    requires ts[2].source.name == "trusting" && ts[3].source.name == "trusting"
    requires ts[4].source.name == "helpful"
    ensures FromSource(ts, "untrusting") == ts[..2]
  {
    assert ts[..0] == [] && ts[..5] == ts;
    FromSourceSnoc(ts, 0, "untrusting");
    assert FromSource(ts[..1], "untrusting") == [ts[0]];
    FromSourceSnoc(ts, 1, "untrusting");
    assert FromSource(ts[..2], "untrusting") == [ts[0], ts[1]];
    FromSourceSnoc(ts, 2, "untrusting");
    assert FromSource(ts[..3], "untrusting") == [ts[0], ts[1]];
    FromSourceSnoc(ts, 3, "untrusting");
    assert FromSource(ts[..4], "untrusting") == [ts[0], ts[1]];
    FromSourceSnoc(ts, 4, "untrusting");
    assert FromSource(ts[..5], "untrusting") == [ts[0], ts[1]];
  }

  /** With the configured source names, trusting lists the third and
      fourth transitions. */
  lemma FromSourceTrusting(ts: seq<StateTransition>)
    requires |ts| == 5
    requires ts[0].source.name == "untrusting" && ts[1].source.name == "untrusting"
    requires ts[2].source.name == "trusting" && ts[3].source.name == "trusting"
    requires ts[4].source.name == "helpful"
    ensures FromSource(ts, "trusting") == ts[2..4]
  {
    assert ts[..0] == [] && ts[..5] == ts;
    FromSourceSnoc(ts, 0, "trusting");
    assert FromSource(ts[..1], "trusting") == [];
    FromSourceSnoc(ts, 1, "trusting");
    assert FromSource(ts[..2], "trusting") == [];
    FromSourceSnoc(ts, 2, "trusting");
    assert FromSource(ts[..3], "trusting") == [ts[2]];
    FromSourceSnoc(ts, 3, "trusting");
    assert FromSource(ts[..4], "trusting") == [ts[2], ts[3]];
    FromSourceSnoc(ts, 4, "trusting");
    assert FromSource(ts[..5], "trusting") == [ts[2], ts[3]];
  }

  /** With the configured source names, helpful lists the last
      transition. */
  lemma FromSourceHelpful(ts: seq<StateTransition>)
    requires |ts| == 5
    requires ts[0].source.name == "untrusting" && ts[1].source.name == "untrusting"
    requires ts[2].source.name == "trusting" && ts[3].source.name == "trusting"
    requires ts[4].source.name == "helpful"
    ensures FromSource(ts, "helpful") == ts[4..]
  {
    assert ts[..0] == [] && ts[..5] == ts;
    FromSourceSnoc(ts, 0, "helpful");
    assert FromSource(ts[..1], "helpful") == [];
    FromSourceSnoc(ts, 1, "helpful");
    assert FromSource(ts[..2], "helpful") == [];
    FromSourceSnoc(ts, 2, "helpful");
    assert FromSource(ts[..3], "helpful") == [];
    FromSourceSnoc(ts, 3, "helpful");
    assert FromSource(ts[..4], "helpful") == [];
    FromSourceSnoc(ts, 4, "helpful");
    assert FromSource(ts[..5], "helpful") == [ts[4]];
  }

  /** For the configuration, the map lists two, two and one transitions,
      in configuration order. */
  lemma ConfiguredTransitionMap()
    ensures FromSource(StateConfig.transitions, "untrusting") == StateConfig.transitions[..2]
    ensures FromSource(StateConfig.transitions, "trusting") == StateConfig.transitions[2..4]
    ensures FromSource(StateConfig.transitions, "helpful") == StateConfig.transitions[4..]
  {
    var ts := StateConfig.transitions;
    assert ts[0].source.name == "untrusting" && ts[1].source.name == "untrusting";
    assert ts[2].source.name == "trusting" && ts[3].source.name == "trusting";
    assert ts[4].source.name == "helpful";
    FromSourceUntrusting(ts);
    FromSourceTrusting(ts);
    FromSourceHelpful(ts);
  }

  /** Exactly the three configured states have outgoing transitions. */
  lemma ConfiguredSources(s: string)
    ensures s in SourcesOf(StateConfig.transitions) <==> IsStateName(s)
  {
    ConfiguredNames();
    var ts := StateConfig.transitions;
    if IsStateName(s) {
      var t := if s == "untrusting" then ts[0] else if s == "trusting" then ts[2] else ts[4];
      assert t in ts && t.source.name == s;
    }
  }

  /** No two members of `s` share a name, as for a Python set whose
      elements compare by name. */
  ghost predicate NameUnique(s: set<FewShotIntent>) {
    forall a, b :: a in s && b in s && a.name == b.name ==> a == b
  }

  function NamesOf(s: set<FewShotIntent>): set<string> {
    set c | c in s :: c.name
  }

  function IntentSet(cs: seq<FewShotIntent>): set<FewShotIntent> {
    set c | c in cs
  }

  function IntentsOf(ts: seq<StateTransition>): set<FewShotIntent> {
    if ts == [] then {} else IntentsOf(ts[..|ts| - 1]) + IntentSet(ts[|ts| - 1].conditions)
  }

  lemma IntentsSnoc(ts: seq<StateTransition>, k: int)
    requires 0 <= k < |ts|
    ensures IntentsOf(ts[..k + 1]) == IntentsOf(ts[..k]) + IntentSet(ts[k].conditions)
  {
    assert ts[..k + 1][..k] == ts[..k];
  }

  /** `set.add` for intents compared by name: the element is added unless
      one with the same name is already present. */
  method AddIntent(all: set<FewShotIntent>, c: FewShotIntent) returns (all': set<FewShotIntent>)
    requires NameUnique(all)
    ensures NameUnique(all') && all <= all' <= all + {c}
    ensures NamesOf(all') == NamesOf(all) + {c.name}
  {
    if exists x :: x in all && x.name == c.name {
      all' := all;
    } else {
      all' := all + {c};
      assert NamesOf(all') == NamesOf(all) + {c.name};
    }
  }

  /** `set.update` with a list of intents compared by name: each is added
      in turn unless one with its name is already present. */
  method Update(all: set<FewShotIntent>, conds: seq<FewShotIntent>) returns (all': set<FewShotIntent>)
    requires NameUnique(all)
    ensures NameUnique(all')
    ensures NamesOf(all') == NamesOf(all) + IntentNames(conds)
    ensures all <= all' <= all + IntentSet(conds)
  {
    all' := all;
    for j := 0 to |conds|
      invariant NameUnique(all')
      invariant NamesOf(all') == NamesOf(all) + IntentNames(conds[..j])
      invariant all <= all' <= all + IntentSet(conds[..j])
    {
      assert conds[..j + 1] == conds[..j] + [conds[j]];
      assert IntentNames(conds[..j + 1]) == IntentNames(conds[..j]) + {conds[j].name};
      all' := AddIntent(all', conds[j]);
    }
    assert conds[..|conds|] == conds;
  }

  /** `_get_all_conditions`: the set-union of every transition's
      conditions, where intents with equal names are one element. */
  method GetAllConditions(ts: seq<StateTransition>) returns (all: set<FewShotIntent>)
    ensures NameUnique(all)
    ensures NamesOf(all) == ConditionNamesOf(ts)
    ensures all <= IntentsOf(ts)
  {
    all := {};
    for i := 0 to |ts|
      invariant NameUnique(all)
      invariant NamesOf(all) == ConditionNamesOf(ts[..i])
      invariant all <= IntentsOf(ts[..i])
    {
      ConditionNamesSnoc(ts, i);
      IntentsSnoc(ts, i);
      all := Update(all, ts[i].conditions);
    }
    assert ts[..|ts|] == ts;
  }

  lemma {:induction false} UniqueNamesCardinality(s: set<FewShotIntent>)
    requires NameUnique(s)
    ensures |NamesOf(s)| == |s|
  {
    if s != {} {
      var x :| x in s;
      var rest := s - {x};
      UniqueNamesCardinality(rest);
      assert NamesOf(s) == NamesOf(rest) + {x.name};
      assert x.name !in NamesOf(rest);
    }
  }

  /** `all_transition_conditions` has three members: the two bribe and the
      two threat intents each collapse to one. */
  lemma ConfiguredConditionCount(all: set<FewShotIntent>)
    requires NameUnique(all)
    requires NamesOf(all) == ConditionNamesOf(StateConfig.transitions)
    ensures |all| == 3
  {
    ConfiguredNames();
    UniqueNamesCardinality(all);
  }

  class MerchantStateMachine {
    var state: string
    const transitionMap: map<string, seq<StateTransition>>
    const allTransitionConditions: set<FewShotIntent>

    ghost predicate Valid()
      reads this
    {
      IsStateName(state)
    }

    constructor ()
      ensures state == InitState && Valid()
      ensures forall s :: s in transitionMap <==> IsStateName(s)
      ensures forall s :: s in transitionMap ==> transitionMap[s] == FromSource(StateConfig.transitions, s)
      ensures NameUnique(allTransitionConditions) && |allTransitionConditions| == 3
      ensures NamesOf(allTransitionConditions) == ConditionNamesOf(StateConfig.transitions)
    {
      var m := BuildTransitionMap(StateConfig.transitions);
      var all := GetAllConditions(StateConfig.transitions);
      state := InitState;
      transitionMap := m;
      allTransitionConditions := all;
      ConfiguredNames();
      ConfiguredConditionCount(all);
      forall s: string ensures s in m <==> IsStateName(s) {
        ConfiguredSources(s);
      }
    }

    /** `transition`: fire the named condition; with no edge from the
        current state the error is only reported and the state stays. */
    method Transition(incomingConditionName: string)
      requires IsConditionName(incomingConditionName)
      modifies this
      ensures state == Step(old(state), incomingConditionName)
      ensures old(Valid()) ==> Valid()
    {
      match Next(state, incomingConditionName) {
        case Some(d) => state := d;
        case None =>
      }
      if old(Valid()) {
        StepStaysConfigured(old(state), incomingConditionName);
      }
    }
  }
}
