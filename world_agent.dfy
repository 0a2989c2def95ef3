// The world sketch's self-contained helpers (src/game/world/world_agent.py):
// the NPC registry, the world memory, the action dispatch table and the
// quest-progress scan.  The action handlers, the quest objective check and
// the quest update are parameters here: `handle_navigation` and
// `action_progresses_quest` have no bodies, `handle_npc_interaction` calls a
// merchant method that does not exist, and the other four handlers and
// `update_quest_progress` are never defined.
module World {
  import opened Support

  /** The registry as a function of the registrations made, in order. */
  function Registered<N>(regs: seq<(string, N)>): map<string, N> {
    if regs == [] then map[]
    else Registered(regs[..|regs| - 1])[regs[|regs| - 1].0 := regs[|regs| - 1].1]
  }

  /** The instance of the last registration under `id`, searching from
      the end. */
  function LastRegistration<N>(regs: seq<(string, N)>, id: string): Option<N> {
    if regs == [] then None
    else if regs[|regs| - 1].0 == id then Some(regs[|regs| - 1].1)
    else LastRegistration(regs[..|regs| - 1], id)
  }

  /** Looking an id up after any registrations gives the instance last
      registered under it, and nothing for an id never registered. */
  lemma {:induction false} LastRegistrationWins<N>(regs: seq<(string, N)>, id: string)
    ensures id in Registered(regs) <==> LastRegistration(regs, id).Some?
    ensures id in Registered(regs) ==> Registered(regs)[id] == LastRegistration(regs, id).value
  {
    if regs != [] {
      LastRegistrationWins(regs[..|regs| - 1], id);
    }
  }

  class NPCRegistry<N> {
    var npcs: map<string, N>

    constructor ()
      ensures npcs == map[]
    {
      npcs := map[];
    }

    /** `register_npc`: a later registration under the same id replaces
        the earlier one. */
    method RegisterNpc(npcId: string, npcInstance: N)
      modifies this
      ensures npcs == old(npcs)[npcId := npcInstance]
    {
      npcs := npcs[npcId := npcInstance];
    }

    /** `get_npc`: `dict.get`, None for an unknown id. */
    function GetNpc(npcId: string): (r: Option<N>)
      reads this
      ensures r.Some? <==> npcId in npcs
      ensures r.Some? ==> r.value == npcs[npcId]
    {
      if npcId in npcs then Some(npcs[npcId]) else None
    }
  }

  class WorldMemory<E, I> {
    var eventHistory: seq<E>
    var playerInteractions: map<string, seq<I>>

    constructor ()
      ensures eventHistory == [] && playerInteractions == map[]
    {
      eventHistory := [];
      playerInteractions := map[];
    }

    /** `record_event`: append at the end. */
    method RecordEvent(event: E)
      modifies this
      ensures eventHistory == old(eventHistory) + [event]
      ensures playerInteractions == old(playerInteractions)
    {
      eventHistory := eventHistory + [event];
    }

    /** `record_npc_interaction`: start an empty log on an id's first use,
        then append; every other id's log is unchanged. */
    method RecordNpcInteraction(npcId: string, interaction: I)
      modifies this
      ensures npcId in playerInteractions
      ensures playerInteractions[npcId]
           == (if npcId in old(playerInteractions) then old(playerInteractions)[npcId] else []) + [interaction]
      ensures forall id :: id != npcId ==>
                (id in playerInteractions <==> id in old(playerInteractions))
      ensures forall id :: id != npcId && id in playerInteractions ==>
                playerInteractions[id] == old(playerInteractions)[id]
      ensures eventHistory == old(eventHistory)
    {
      if npcId !in playerInteractions {
        playerInteractions := playerInteractions[npcId := []];
      }
      playerInteractions := playerInteractions[npcId := playerInteractions[npcId] + [interaction]];
    }

    /** `get_recent_events(count)`: `event_history[-count:]`, the last
        `count` events in order (five when no count is given); a count of
        0 gives them all. */
    function GetRecentEvents(count: int := 5): (r: seq<E>)
      reads this
      ensures |r| <= |eventHistory| && r == eventHistory[|eventHistory| - |r|..]
      ensures count >= 1 ==> |r| == (if count < |eventHistory| then count else |eventHistory|)
      ensures count == 0 ==> r == eventHistory
    {
      TailSlice(eventHistory, -count)
    }
  }

  /** The handler methods of `ActionHandler`. */
  datatype Handler = Navigation | NpcInteraction | Combat | ItemUse | Examine | QuestAction

  /** `ActionHandler.action_map`. */
  const ActionMap: map<string, Handler> := map[
    "navigate" := Navigation,
    "talk_to_npc" := NpcInteraction,
    "combat" := Combat,
    "use_item" := ItemUse,
    "examine" := Examine,
    "quest_action" := QuestAction]

  /** What `execute_action` returns: the mapped handler's result, or a
      failed `ActionResult` naming the reason. */
  datatype Dispatched<R> = Delegated(value: R) | Failed(success: bool, reason: string)

  /** `execute_action`: delegate to the handler mapped to the action's
      type; refuse any other type. */
  function ExecuteAction<A, R>(actionType: string, action: A, run: (Handler, A) -> R): (r: Dispatched<R>)
    ensures r.Delegated? <==> actionType in ActionMap
    ensures r.Delegated? ==> r.value == run(ActionMap[actionType], action)
    ensures r.Failed? ==> r == Failed(false, "Unknown action type")
  {
    if actionType in ActionMap then Delegated(run(ActionMap[actionType], action))
    else Failed(false, "Unknown action type")
  }

  /** Exactly six action types are handled, each by its own handler. */
  lemma ActionMapIsOneToOne(a: string, b: string)
    ensures ActionMap.Keys == {"navigate", "talk_to_npc", "combat", "use_item", "examine", "quest_action"}
    ensures a in ActionMap && b in ActionMap && ActionMap[a] == ActionMap[b] ==> a == b
  {
  }

  /** The quests of the log that the action progresses, in log order. */
  function Progressed<Q, R>(questLog: seq<Q>, actionResult: R, progresses: (R, Q) -> bool): seq<Q> {
    if questLog == [] then []
    else
      var prefix := Progressed(questLog[..|questLog| - 1], actionResult, progresses);
      var q := questLog[|questLog| - 1];
      if progresses(actionResult, q) then prefix + [q] else prefix
  }

  /** The progressed quests are exactly the log's quests the action
      progresses, and never more than the log holds. */
  lemma {:induction false} ProgressedMembers<Q, R>(questLog: seq<Q>, actionResult: R, progresses: (R, Q) -> bool)
    ensures |Progressed(questLog, actionResult, progresses)| <= |questLog|
    ensures forall q :: q in Progressed(questLog, actionResult, progresses)
                    <==> q in questLog && progresses(actionResult, q)
  {
    if questLog != [] {
      var init := questLog[..|questLog| - 1];
      ProgressedMembers(init, actionResult, progresses);
      assert questLog == init + [questLog[|questLog| - 1]];
    }
  }

  /** `QuestManager.check_quest_progress`: one update per progressed
      quest, in quest-log order.  Reads and changes nothing else. */
  method CheckQuestProgress<Q, R, U>(
    questLog: seq<Q>, actionResult: R,
    progresses: (R, Q) -> bool, update: (Q, R) -> U)
    returns (updates: seq<U>)
    ensures |updates| == |Progressed(questLog, actionResult, progresses)|
    ensures forall i :: 0 <= i < |updates| ==>
              updates[i] == update(Progressed(questLog, actionResult, progresses)[i], actionResult)
  {
    updates := [];
    for k := 0 to |questLog|
      invariant |updates| == |Progressed(questLog[..k], actionResult, progresses)|
      invariant forall i :: 0 <= i < |updates| ==>
                  updates[i] == update(Progressed(questLog[..k], actionResult, progresses)[i], actionResult)
    {
      assert questLog[..k + 1][..k] == questLog[..k];
      if progresses(actionResult, questLog[k]) {
        updates := updates + [update(questLog[k], actionResult)];
      }
    }
    assert questLog[..|questLog|] == questLog;
  }
}
