# NPC dialogue logic of text_quest_ai, in Dafny

text_quest_ai is a text role-playing game whose non-player characters
(NPCs) talk through a language model. Every model call only produces a
label: a route, a list of actions, an item id, an intent, or reply text.
Once those labels are inputs, what is left is deterministic, and this
project models it and proves what it promises:

- **The ReAct merchant's emotional-state machine** (`MerchantStates`).
  There are three states (untrusting, trusting, helpful), each with its
  allowed actions. Five transitions are labelled by few-shot intents.
  Building the machine fills a transition map and a set of all
  conditions. Firing a condition with no edge from the current state only
  reports the error. The value records it uses are in `Models`.
- **The ReAct merchant's decision rules** (`ReActMerchant`): trigger
  detection from an observation, applying triggers in order,
  state-dependent reasoning, and a planning fallback.
- **The inventory transactions** of the routed merchants
  (`Transactions`, `SimpleMerchant`, `LegacyMerchant`). A merchant buys
  an item from the player or sells one to the player. The guards are
  "item present" and "enough gold", and both inventories change in
  place. The merchant classes are proved to agree with pure `Buy`/`Sell`
  functions, and the properties are proved about those functions.
- **The chat memory** (`Memory`): an append-only history whose entries
  record their position, rendered as a window of recent turns.
- **The trade sub-system's conversation flags** (`TradeSubsystem`).
- **The quest master's one-edge state machine** (`QuestMaster`).
- **The world sketch's helpers** (`World`): the NPC registry, the world
  memory, the action dispatch table and the quest-progress scan.
- **Items** (`Items`): the enums and the item constructors, plus an
  inventory class that stands in for the `Inventory` both merchants import.

Python semantics are written out where they matter:

- `s[-k:]` with a computed, possibly zero or negative, `k` is
  `Support.TailSlice`.
- Sets of intents compare by name.
- `and` binds tighter than `or`.
- `dict.get` gives None for a missing key.

The model keeps these behaviours of the code as written:

- A completed sale debits the player but never credits the merchant, so
  combined gold drops by the price (`Transactions.CombinedGold`).
- A completed purchase or sale assigns the item under its id in the
  receiver's map. If the receiver already holds that id, its old item is
  overwritten and the total item count falls by one
  (`Transactions.ItemCount`).
- The older merchant's `buy_item` branch does nothing to the inventories.

## Model

| member | source | states |
|---|---|---|
| Support.MapSeq | src/game/npc/merchant/react/react_merchant_statemachine.py:150 | a list comprehension has one image per element, in order |
| Support.TailSlice | src/game/npc/npc_memory.py:33 | Python's `s[start:]`: a suffix of `s`; a non-negative start drops that many elements (all, past the end), a negative start keeps that many from the end (all, past the start) |
| Support.LastElements | src/game/world/world_agent.py:149 | `s[-k:]` is the last min(k, n) elements for k >= 1 and the whole sequence for k = 0 |
| Items.ItemTypeValue | src/game/items/items.py:3-6 | item type codes are 1 to 3, WEAPON is 1 and ARMOR is 2 |
| Items.ItemRarityValue | src/game/items/items.py:8-13 | rarity codes are 1 to 5 |
| Items.PotionEffectValue | src/game/items/items.py:15-17 | potion effect codes are 1 to 2, HEAL is 1 |
| Items.EnumCodesDistinct | src/game/items/items.py:3-13 | distinct rarities and distinct item types have distinct codes |
| Items.Weapon | src/game/items/items.py:24-27 | a weapon is tagged WEAPON, keeps its damage, and its rarity slot holds its name |
| Items.Armour | src/game/items/items.py:29-32 | armour is tagged ARMOR, keeps its defense, and its rarity slot holds its name |
| Items.Potion | src/game/items/items.py:34-37 | a potion is tagged POTION, keeps its effect, has no points, and its rarity slot holds its name; it carries the given price |
| Items.HealthPotion | src/game/items/items.py:39-42 | a health potion is a POTION with effect HEAL that keeps its points and price |
| Items.DefensePotion | src/game/items/items.py:44-47 | a defense potion is a POTION with effect DEFENSE that keeps its points and price |
| Items.SubclassesAreTagged | src/game/items/items.py:19-47 | every subclass-built item has the type tag matching its attributes and a name in its rarity slot |
| Items.Inventory.constructor | src/game/npc/merchant/simple/merchant.py:69-76 | an inventory holds the given item map and gold |
| Models.IntentEquals | src/game/npc/merchant/react/models.py:12-15 | an intent equals only another intent, and then exactly when their names agree |
| Models.IntentHash | src/game/npc/merchant/react/models.py:17-18 | the hash agrees with equality: any intent equal to this one has the same hash |
| Models.IntentEqualityByName | src/game/npc/merchant/react/models.py:12-15 | two intents are equal iff their names are equal, examples ignored; an intent never equals a value of another type |
| Models.IntentEqualityIsEquivalence | src/game/npc/merchant/react/models.py:12-18 | equality is reflexive, symmetric and transitive, and equal intents hash equally |
| MerchantStates.ConditionNamesSnoc | src/game/npc/merchant/react/react_merchant_statemachine.py:156-165 | the condition names of a prefix of the transitions grow by the next transition's names |
| MerchantStates.ConditionNamesOfFive | src/game/npc/merchant/react/react_merchant_statemachine.py:156-165 | the condition names registered from five transitions are the union of each one's names |
| MerchantStates.ConfiguredNames | src/game/npc/merchant/react/react_merchant_statemachine.py:11-145 | the states are untrusting, trusting, helpful in that order, the condition names are the three triggers, and `states_map` has exactly the state names as keys |
| MerchantStates.AvailableActionsWellFormed | src/game/npc/merchant/react/react_merchant_statemachine.py:11-70 | every configured state has a non-empty action list with no repeated action name |
| MerchantStates.Fire | src/game/npc/merchant/react/react_merchant_statemachine.py:160-165 | firing a trigger gives a destination iff some transition leaves the state on it, and that destination is such a transition's |
| MerchantStates.ConfigLabels | src/game/npc/merchant/react/react_merchant_statemachine.py:73-145 | each configured transition is labelled by exactly its one condition |
| MerchantStates.FireCons | src/game/npc/merchant/react/react_merchant_statemachine.py:160-165 | the first matching transition, in configuration order, decides the destination |
| MerchantStates.ConfigIsEdgeTable | src/game/npc/merchant/react/react_merchant_statemachine.py:73-145 | the configured transitions realise exactly the table: untrusting to trusting on shared personal info, untrusting and trusting to helpful on a bribe, trusting and helpful to untrusting on a threat, nothing else |
| MerchantStates.ConditionLabelsOneEdge | src/game/npc/merchant/react/react_merchant_statemachine.py:73-145 | within one source state a condition name labels at most one transition, so the next state is a function of state and name |
| MerchantStates.Next | src/game/npc/merchant/react/react_merchant_statemachine.py:160-165 | the library's lookup over the registered transitions gives the table's destination |
| MerchantStates.StepStaysConfigured | src/game/npc/merchant/react/react_merchant_statemachine.py:150 | one step from a configured state stays among the configured states |
| MerchantStates.RunStaysConfigured | src/game/npc/merchant/react/react_merchant_statemachine.py:150 | any sequence of steps from a configured state stays among the configured states |
| MerchantStates.InvalidTriggersAreNoOps | src/game/npc/merchant/react/react_merchant_statemachine.py:176-180 | a condition leaves the state unchanged iff no edge leaves the state on it; sharing personal info while trusting and a bribe while helpful are such conditions |
| MerchantStates.FromSource | src/game/npc/merchant/react/react_merchant_statemachine.py:158 | the transitions leaving a state are never more than all transitions |
| MerchantStates.FromSourceMembers | src/game/npc/merchant/react/react_merchant_statemachine.py:155-158 | the transitions listed for a state are exactly those whose source is that state |
| MerchantStates.FromSourceEmpty | src/game/npc/merchant/react/react_merchant_statemachine.py:158 | a state no transition leaves lists nothing, as `.get(name, [])` starts it |
| MerchantStates.BuildTransitionMap | src/game/npc/merchant/react/react_merchant_statemachine.py:155-158 | the map's keys are the source states, and each lists the transitions leaving it in configuration order |
| MerchantStates.FromSourceSnoc | src/game/npc/merchant/react/react_merchant_statemachine.py:158 | one more transition extends only its own source's list, at the end |
| MerchantStates.FromSourceUntrusting | src/game/npc/merchant/react/react_merchant_statemachine.py:75-101 | with the configured source names, untrusting lists the first two transitions |
| MerchantStates.FromSourceTrusting | src/game/npc/merchant/react/react_merchant_statemachine.py:102-129 | with the configured source names, trusting lists the third and fourth transitions |
| MerchantStates.FromSourceHelpful | src/game/npc/merchant/react/react_merchant_statemachine.py:130-143 | with the configured source names, helpful lists the last transition |
| MerchantStates.ConfiguredTransitionMap | src/game/npc/merchant/react/react_merchant_statemachine.py:155-158 | for the configuration the map lists two, two and one transitions, in configuration order |
| MerchantStates.ConfiguredSources | src/game/npc/merchant/react/react_merchant_statemachine.py:155-158 | exactly the three configured states are keys of the transition map |
| MerchantStates.AddIntent | src/game/npc/merchant/react/react_merchant_statemachine.py:172 | adding an intent to a set compared by name keeps names unique and adds exactly its name |
| MerchantStates.Update | src/game/npc/merchant/react/react_merchant_statemachine.py:172 | `set.update` with intents compared by name keeps names unique, adds exactly the list's names, and only adds the list's intents |
| MerchantStates.GetAllConditions | src/game/npc/merchant/react/react_merchant_statemachine.py:169-173 | the result holds one intent per condition name, drawn from the transitions' conditions |
| MerchantStates.UniqueNamesCardinality | src/game/npc/merchant/react/react_merchant_statemachine.py:169-173 | a set whose members have distinct names has as many members as names |
| MerchantStates.ConfiguredConditionCount | src/game/npc/merchant/react/react_merchant_statemachine.py:167-173 | `all_transition_conditions` has exactly three members |
| MerchantStates.MerchantStateMachine.constructor | src/game/npc/merchant/react/react_merchant_statemachine.py:147-167 | the machine starts trusting, its map has exactly the three states as keys with their transitions, and it holds three conditions |
| MerchantStates.MerchantStateMachine.Transition | src/game/npc/merchant/react/react_merchant_statemachine.py:176-180 | the new state is the table's destination, or the old state when no edge leaves it; the state stays configured |
| ReActMerchant.DetectStateTriggers | src/game/npc/merchant/react/react_merchant.py:59-75 | personal info is detected iff that entity is present; a bribe iff "bribe" is present or "gold" is present with intent "offer"; a threat iff the tone is threatening |
| ReActMerchant.DetectedTriggersInOrder | src/game/npc/merchant/react/react_merchant.py:59-75 | the detected triggers are an ordered, duplicate-free subsequence of the three triggers, all configured conditions |
| ReActMerchant.SelectionInOrder | src/game/npc/merchant/react/react_merchant.py:64-71 | any selection of the three triggers in order is an ordered subsequence without repeats |
| ReActMerchant.TriggerOrderIsConfigured | src/game/npc/merchant/react/react_merchant.py:64-71 | the three detectable triggers are exactly the configured condition names |
| ReActMerchant.Reason | src/game/npc/merchant/react/react_merchant.py:88-118 | the emotional response is cautious, neutral or friendly by state; `trade` comes only when trusting with a trade request, `share_secret` only when helpful with a question and a known secret; a type is chosen exactly for the state's intent, `deflect` iff an untrusting question is sensitive, `basic_info` iff an untrusting question is not sensitive or a helpful one has no known secret; the knowledge is the trade knowledge for a trade, the relevant secrets for any helpful question, and empty otherwise; an unknown state gives empty reasoning |
| ReActMerchant.Plan | src/game/npc/merchant/react/react_merchant.py:120-139 | with a non-empty action list the plan's type is one of the actions: the reasoned type if allowed, else `basic_info` if present, else the first action; the tone passes through; an empty list raises |
| ReActMerchant.PlanStaysWithinState | src/game/npc/merchant/react/react_merchant.py:88-139 | reasoning then planning against a state's actions always lands on one of that state's actions |
| ReActMerchant.PlanFallbacks | src/game/npc/merchant/react/react_merchant.py:120-130 | helpful without a secret falls back to `share_secret`, its first action; untrusting's `deflect` falls back to `basic_info` |
| ReActMerchant.ReActMerchant.constructor | src/game/npc/merchant/react/react_merchant.py:8 | the merchant starts with a fresh machine in the trusting state |
| ReActMerchant.ReActMerchant.ApplyTriggers | src/game/npc/merchant/react/react_merchant.py:77-86 | the triggers fire in list order, each from the state the previous left, inapplicable ones skipped |
| ReActMerchant.ReActMerchant.ProcessPlayerInput | src/game/npc/merchant/react/react_merchant.py:10-43 | the detected triggers are applied in order, the state stays configured, and the reply names the resulting state |
| ReActMerchant.BribeAndThreatDetected | src/game/npc/merchant/react/react_merchant.py:67-71 | a gold offer in a threatening tone raises the bribe and then the threat trigger |
| ReActMerchant.RunTwo | src/game/npc/merchant/react/react_merchant.py:79-83 | two triggers fire one after the other |
| ReActMerchant.BribeThenThreat | src/game/npc/merchant/react/react_merchant.py:77-86 | from trusting, a bribe then a threat ends untrusting |
| Memory.RoleValue | src/game/npc/npc_memory.py:13-15 | the role strings are exactly "player" and "npc" |
| Memory.RenderAppend | src/game/npc/npc_memory.py:31-35 | rendering distributes over concatenation, one line per entry in order |
| Memory.WindowIsRecentTurns | src/game/npc/npc_memory.py:31-33 | the window is the last min(n, 2 * limit) entries for a positive limit and the whole history for a zero limit |
| Memory.NPCMemory.constructor | src/game/npc/npc_memory.py:22-25 | a new memory is empty with index 0 and no player name |
| Memory.NPCMemory.AddChatHistory | src/game/npc/npc_memory.py:27-29 | one entry stamped with the old index is appended, the index grows by one, earlier entries are untouched, and index equals length with entry i stamped i |
| Memory.NPCMemory.ToContext | src/game/npc/npc_memory.py:31-35 | the result renders the recent window (two turns when no limit is given), oldest first, one "role: text" line each, and the memory is unchanged |
| Memory.TwoAppendsRender | src/game/npc/npc_memory.py:27-35 | after two appends the rendering gains exactly their two lines, in order |
| Transactions.Buy | src/game/npc/merchant/simple/merchant.py:177-255 | the buy fails with item-not-found iff the player lacks the id, with insufficient gold iff the merchant cannot afford it, and a failure changes neither inventory |
| Transactions.Sell | src/game/npc/merchant.py:304-430 | the sale fails with item-not-found iff the merchant lacks the id, with insufficient gold iff the player cannot afford it, and a failure changes neither inventory |
| Transactions.BuyMovesItemAndGold | src/game/npc/merchant/simple/merchant.py:231-241 | a completed buy moves the item from player to merchant, leaves every other key alone, and moves the price from merchant to player |
| Transactions.SellMovesItemAndGold | src/game/npc/merchant/simple/merchant.py:312-319 | a completed sale moves the item from merchant to player, leaves every other key alone, debits the player, and leaves merchant gold unchanged |
| Transactions.CombinedGold | src/game/npc/merchant/simple/merchant.py:231-319 | a buy conserves combined gold; a completed sale lowers it by the price |
| Transactions.TransactionsKeepSolvent | src/game/npc/merchant/simple/merchant.py:215-319 | non-negative gold and prices stay so after any buy or sale |
| Transactions.ItemCount | src/game/npc/merchant/simple/merchant.py:238-319 | the combined item count is kept, except that an id the receiver already holds is overwritten |
| Transactions.RunTradesInvariants | src/game/npc/merchant/simple/merchant.py:177-334 | over any sequence of trades, solvent parties stay solvent and combined gold never grows |
| Transactions.MerchantStock | src/game/npc/merchant.py:65-73 | the opening stock holds three items and 1523 gold, each item priced above zero and within that gold |
| Transactions.MerchantStockContents | src/game/npc/merchant.py:65-73 | the opening stock is sword 10, shield 25, potion 5 with 1523 gold, and is solvent |
| Transactions.RouteFor | src/game/npc/merchant/simple/merchant.py:100-105 | a known destination gets its own template, any other the default |
| Transactions.RouteForNames | src/game/npc/merchant.py:225-228 | every route is reached by its own name; a non-default route only by its name |
| SimpleMerchant.Dispatch | src/game/npc/merchant/simple/merchant.py:149-161 | only the transaction route buys or sells; selling needs `sell_item`, buying needs `buy_item` without `sell_item` |
| SimpleMerchant.DispatchOrder | src/game/npc/merchant/simple/merchant.py:148-170 | on the transaction route `sell_item` wins over `buy_item`; other routes only reply |
| SimpleMerchant.Merchant.constructor | src/game/npc/merchant/simple/merchant.py:37-76 | the merchant starts with the opening stock and an empty valid memory |
| SimpleMerchant.Merchant.HandleBuyItem | src/game/npc/merchant/simple/merchant.py:177-255 | the outcome and both inventories afterwards are those of `Buy` |
| SimpleMerchant.Merchant.HandleSellItem | src/game/npc/merchant/simple/merchant.py:257-334 | the outcome and both inventories afterwards are those of `Sell` |
| SimpleMerchant.Merchant.Answer | src/game/npc/merchant/simple/merchant.py:148-175 | a sell reply sells, else a buy reply buys, else the reply text is returned with both inventories unchanged |
| SimpleMerchant.Merchant.ProcessInput | src/game/npc/merchant/simple/merchant.py:113-175 | the branch taken follows the route and the reply's actions, and exactly two entries, player then NPC, are appended; the player's name is kept |
| LegacyMerchant.SellsItem | src/game/npc/merchant.py:280-282 | a sale runs only on the transaction route with `sell_item` listed, and never otherwise |
| LegacyMerchant.Merchant.constructor | src/game/npc/merchant.py:34-73 | the merchant starts with the opening stock and an empty valid memory |
| LegacyMerchant.Merchant.HandleSellItem | src/game/npc/merchant.py:304-430 | the outcome and both inventories afterwards are those of `Sell` |
| LegacyMerchant.Merchant.ProcessInput | src/game/npc/merchant.py:236-302 | only a transaction reply listing `sell_item` sells; anything else, `buy_item` included, changes no inventory; exactly two entries are appended and the player's name is kept |
| LegacyMerchant.BuyRequestIsAnsweredOnly | src/game/npc/merchant.py:292-294 | a reply asking only to buy runs no transaction |
| TradeSubsystem.IntentCatalogue | src/game/npc/merchant/react/sub_system/trade.py:86-123 | the catalogue is exactly buy, see_collection, exit, with ten, ten and three examples |
| TradeSubsystem.Respond | src/game/npc/merchant/react/sub_system/trade.py:190-218 | every message leaves the trade initiated, completion is never undone and is set only by exit, and a line is returned unless the trade is initiated and unfinished |
| TradeSubsystem.RespondCases | src/game/npc/merchant/react/sub_system/trade.py:190-218 | the first message only welcomes, a finished trade only says goodbye, otherwise nothing is returned and only exit finishes |
| TradeSubsystem.FlagsAreMonotone | src/game/npc/merchant/react/sub_system/trade.py:130-180 | neither flag is ever reset |
| TradeSubsystem.ExitEndsTheTrade | src/game/npc/merchant/react/sub_system/trade.py:178-202 | after exit every later message gets the goodbye line |
| TradeSubsystem.TradeSystem.constructor | src/game/npc/merchant/react/sub_system/trade.py:130-131 | a new trade is neither initiated nor completed |
| TradeSubsystem.TradeSystem.Greeting | src/game/npc/merchant/react/sub_system/trade.py:186-188 | greeting initiates the trade and returns the welcome line |
| TradeSubsystem.TradeSystem.PerformAction | src/game/npc/merchant/react/sub_system/trade.py:167-183 | only exit sets completed; the result always reports success with the given intent and item |
| TradeSubsystem.TradeSystem.ProcessInput | src/game/npc/merchant/react/sub_system/trade.py:190-218 | the flags and the reply follow `Respond` |
| QuestMaster.QuestStep | src/game/npc/quest_master/statemachine.py:15-24 | an unknown action raises; persuade succeeds exactly from untrusting, moving to trusting and running the callback iff one is given; a raise changes nothing |
| QuestMaster.QuestStepAsWritten | src/game/npc/quest_master/statemachine.py:15-24 | as written every step raises and leaves the state as it was; an unknown action raises the invalid-action error |
| QuestMaster.PersuadeAsWrittenRaises | src/game/npc/quest_master/statemachine.py:20-21 | as written, persuading raises; as intended, it moves untrusting to trusting |
| QuestMaster.HelpfulIsUnreachable | src/game/npc/quest_master/statemachine.py:4-12 | from the initial state no action sequence reaches helpful |
| QuestMaster.CallbackDoesNotSteer | src/game/npc/quest_master/statemachine.py:23-24 | whether a callback is given changes neither the state nor whether the step raises |
| QuestMaster.QuestMasterStateMachine.constructor | src/game/npc/quest_master/statemachine.py:8-9 | the machine starts untrusting |
| QuestMaster.QuestMasterStateMachine.NextState | src/game/npc/quest_master/statemachine.py:15-24 | state and result follow the intended step |
| World.LastRegistrationWins | src/game/world/world_agent.py:123-129 | an id is known iff it was registered, and lookup gives its last registration |
| World.NPCRegistry.constructor | src/game/world/world_agent.py:120-121 | a new registry is empty |
| World.NPCRegistry.RegisterNpc | src/game/world/world_agent.py:123-125 | registering overwrites the id's entry and nothing else |
| World.NPCRegistry.GetNpc | src/game/world/world_agent.py:127-129 | the registered instance, or None for an unknown id |
| World.WorldMemory.constructor | src/game/world/world_agent.py:132-134 | a new world memory is empty |
| World.WorldMemory.RecordEvent | src/game/world/world_agent.py:137-139 | the event is appended at the end |
| World.WorldMemory.RecordNpcInteraction | src/game/world/world_agent.py:141-145 | the id's log gains the interaction, started empty on first use; every other id's log is unchanged |
| World.WorldMemory.GetRecentEvents | src/game/world/world_agent.py:147-149 | the last `count` events in order, five when no count is given, all of them for a count of 0 |
| World.ExecuteAction | src/game/world/world_agent.py:80-84 | a mapped type is delegated to its handler, any other fails with "Unknown action type" |
| World.ActionMapIsOneToOne | src/game/world/world_agent.py:71-78 | exactly six action types are mapped, each to its own handler |
| World.ProgressedMembers | src/game/world/world_agent.py:175-181 | the progressed quests are exactly the log's quests the action progresses |
| World.CheckQuestProgress | src/game/world/world_agent.py:175-181 | one update per progressed quest, in quest-log order |

## Findings

| source | as written | input that shows it | evidently intended | confidence | as-written member | corrected member |
|---|---|---|---|---|---|---|
| src/game/npc/quest_master/statemachine.py:20-21 | `persuade` is called on the library's `Machine` object, but the library adds trigger methods to the model passed in (`self`), so the call raises `AttributeError` before the state changes or the callback runs | `next_state("persuade", cb)` on a new quest master | persuading an untrusting quest master makes it trusting, then runs the callback | medium, not executed | QuestMaster.PersuadeAsWrittenRaises | QuestMaster.QuestMasterStateMachine.NextState |

## Left out

- The language-model calls are inputs: the route classification, the routed reply's action list and text, the extracted item id, the reply written for a transaction outcome, the trade intent and item, and the observation's intent, entities and tone. The routed reply and the transaction reply receive the player's message and both inventories with their gold, as their prompts do. The NPC's name, role, traits and allowed actions are fixed for a merchant and are not passed. Prompt texts, parsers, temperatures and agent memories are not modelled.
- `print` calls, logging, the console drivers and `WorldAgent.main` are not modelled.
- The ReAct merchant's stub helpers (`_is_sensitive_topic`, `_knows_secret_about`, `_get_trade_knowledge`, `_get_relevant_secrets`, `_generate_response_content`) are inputs. `_observe` and `_act` only call stubs and are not modelled. Neither are the constructor's knowledge base, personality and conversation history, which nothing reads.
- MerchantStates.MerchantStateMachine.Transition: requires a configured condition name. Other names reach attributes that `getattr` finds on the machine, such as the library's generated `to_<state>` methods, whose effects are not modelled.
- ReActMerchant.ReActMerchant.ApplyTriggers: requires configured condition names, for the same reason. Its only caller passes detected triggers, which are always configured names.
- SimpleMerchant.Merchant.HandleBuyItem: requires the player's inventory to be a different object from the merchant's. Aliasing of the two inventories is not modelled. The same holds for both merchants' `HandleSellItem` and `ProcessInput`.
- The success replies read `item.name`, which the item classes never set. As written, that read raises AttributeError after both inventories have already changed, so a completed purchase or sale produces no reply and `process_input` never adds its two chat entries. The model gives the intended reply (the `narrate` input) and records both entries.
- The merchants build items with `price` and `effect` keywords that the item constructors do not accept, and read `item.price`. As written those constructor calls raise TypeError. Every item here carries a price, and a potion's effect is fixed by its class.
- Both merchants import `Inventory` from `src/game/items/items.py`, which defines no such class, so as written those imports fail. `Items.Inventory` (an item map and gold, as the merchant code uses them) stands in for it.
- The older merchant imports its player from `src/game/player/player.py`, whose inventory class (a list of items and a money count) does not match the merchant code. The newer merchant imports `game.player.simple.player`, which is not part of this model. `Items.Inventory` is used for the player of both merchants.
- `src/game/npc/merchant/react/sub_system/trade.py` annotates its item schemas and `__perform_action` with `Item` (lines 47, 51, 73 and 167), which neither the file nor the `models` module it star-imports defines. On Python before 3.14, which evaluates annotations eagerly, the module raises NameError at import and no `TradeSystem` is ever built; from 3.14 the annotations are deferred and the name stays unresolved until the schemas use it. Past that, item identification in `process_input` reads `self.merchant.inventory.items` (line 212); `ReActMerchant` defines no `inventory`, so every message after the greeting would raise AttributeError before any action runs, and `exit` would never set `completed`. The model takes the identified item as an input and follows the flow the code evidently intends.
- Only `__perform_action`'s flag update and result are modelled. Its console output for `buy` and `see_collection` is not.
- `TradeSystem.process_input` falls off its end after an action and returns None. That is modelled as an absent reply.
- QuestMaster.QuestMasterStateMachine.NextState: models the intended step; see Findings. The callback's own effect is not modelled, only whether it ran. The annotation `callback:function` (src/game/npc/quest_master/statemachine.py:15) names no defined type: on Python before 3.14, which evaluates annotations eagerly, it raises NameError when the `def` runs, so the module does not load. The error message's f-string (line 18) nests single quotes, which only Python 3.12 and later accept. On 3.14 and later the module loads and the Findings row's AttributeError is reached directly.
- The world action handlers, the quest objective check and the quest update are parameters. `handle_navigation` and `action_progresses_quest` have docstrings but no code. `handle_npc_interaction` has a body, but it names `ReActMerchant`, which the file does not import, and calls a `process_input` that class does not define (it has `process_player_input`). `handle_combat`, `handle_item_use`, `handle_examine`, `handle_quest_action` and `update_quest_progress` are never defined, so as written `ActionHandler.__init__` raises AttributeError when it builds the action map. The module also fails to load as written, on every Python version: `class WorldState(BaseModel)` (src/game/world/world_agent.py:50) names `BaseModel`, which no import brings in. Pydantic field annotations at lines 41 and 51 use `Location`, which is never defined or imported, and `Dict` (line 51), which is not imported either; on Python before 3.14 those annotations fail too. `WorldMemory.quest_progress` is never used and is not modelled. Neither are `WorldState`, `NarrativeGenerator` and the combat classes, which have no behaviour.
- Models.IntentHash: the interpreter's string hash is a parameter.
- Python integers are unbounded, as Dafny's are, so there is no wrap-around to model. Confidence scores are floats that no code reads.
