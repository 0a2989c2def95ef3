// The ReAct merchant's trade sub-system
// (src/game/npc/merchant/react/sub_system/trade.py): a conversation gated
// by two flags.  The first message only opens the trade, an `exit` intent
// closes it for good, and the remaining intents have no implemented
// effect.  The intent and the item that the language-model agents detect
// are inputs.  As written, item identification reads an `inventory` the
// ReAct merchant does not have, so every message after the greeting raises
// before reaching the flags; the model follows the flow past that lookup.
module TradeSubsystem {
  import opened Support
  import opened Items
  import opened Models

  /** The intent catalogue offered to the intent agent. */
  const Intents: seq<FewShotIntent> := [
    FewShotIntent("buy", [
      "I want to buy a sword",
      "Can I buy a potion?",
      "I want the",
      "Give me the",
      "I will take the",
      "I need to purchase a shield",
      "Can I get the armor?",
      "I would like to buy the dagger",
      "Do you have any potions for sale?",
      "I am looking to buy a helmet"]),
    FewShotIntent("see_collection", [
      "Show me your collection",
      "What do you have?",
      "Can I see your items?",
      "What are you selling?",
      "Show me what you got",
      "Let me see your inventory",
      "What do you have in stock?",
      "Can I browse your goods?",
      "What items do you have?",
      "Show me your wares"]),
    FewShotIntent("exit", [
      "I am done",
      "I don't need anything else",
      "I have enough"])]

  function IntentNameList(cs: seq<FewShotIntent>): seq<string> {
    MapSeq(cs, (c: FewShotIntent) => c.name)
  }

  /** The catalogue is exactly `buy`, `see_collection`, `exit`, with ten,
      ten and three examples. */
  lemma IntentCatalogue()
    ensures IntentNameList(Intents) == ["buy", "see_collection", "exit"]
    ensures |Intents[0].examples| == 10 && |Intents[1].examples| == 10 && |Intents[2].examples| == 3
  {
  }

  const WelcomeLine := "Merchant: Welcome! What can I do for you today?"
  const GoodbyeLine := "Merchant: Goodbye!"

  /** `TransactionResult`. */
  datatype TransactionResult = TransactionResult(success: bool, intent: FewShotIntent, item: Option<Item>, message: string)

  /** The two flags of a trade conversation. */
  datatype Flags = Flags(completed: bool, initiated: bool)

  /** One `process_input` on the flags: the new flags and the returned
      line (None: the method falls off its end and returns nothing). */
  function Respond(f: Flags, intentName: string): (r: (Flags, Option<string>))
    ensures r.0.initiated
    ensures f.completed ==> r.0.completed
    ensures r.0.completed && !f.completed ==> f.initiated && intentName == "exit"
    ensures r.1.None? <==> f.initiated && !f.completed
  {
    if !f.initiated then (f.(initiated := true), Some(WelcomeLine))
    else if f.completed then (f, Some(GoodbyeLine))
    else (f.(completed := intentName == "exit"), None)
  }

  /** What a reply does, case by case: the first message only welcomes, a
      finished trade only says goodbye, and otherwise nothing is returned
      and only `exit` finishes the trade. */
  lemma RespondCases(f: Flags, intentName: string)
    ensures !f.initiated ==> Respond(f, intentName) == (Flags(f.completed, true), Some(WelcomeLine))
    ensures f.initiated && f.completed ==> Respond(f, intentName) == (f, Some(GoodbyeLine))
    ensures f.initiated && !f.completed ==>
              Respond(f, intentName).1 == None
              && Respond(f, intentName).0 == Flags(intentName == "exit", true)
  {
  }

  /** The flags after a conversation whose messages carried `intentNames`. */
  function Converse(f: Flags, intentNames: seq<string>): Flags {
    if intentNames == [] then f
    else Respond(Converse(f, intentNames[..|intentNames| - 1]), intentNames[|intentNames| - 1]).0
  }

  /** Neither flag is ever reset. */
  lemma {:induction false} FlagsAreMonotone(f: Flags, intentNames: seq<string>)
    ensures f.completed ==> Converse(f, intentNames).completed
    ensures f.initiated ==> Converse(f, intentNames).initiated
  {
    if intentNames != [] {
      FlagsAreMonotone(f, intentNames[..|intentNames| - 1]);
    }
  }

  /** Once an open trade receives `exit`, every later message, whatever
      its intent, is answered with the goodbye line. */
  lemma ExitEndsTheTrade(f: Flags, later: seq<string>, intentName: string)
    requires f.initiated && !f.completed
    ensures Respond(Converse(Respond(f, "exit").0, later), intentName).1 == Some(GoodbyeLine)
  {
    FlagsAreMonotone(Respond(f, "exit").0, later);
  }

  class TradeSystem {
    var completed: bool
    var initiated: bool

    constructor ()
      ensures !completed && !initiated
    {
      completed := false;
      initiated := false;
    }

    function View(): (f: Flags)
      reads this
      ensures f.completed == completed && f.initiated == initiated
    {
      Flags(completed, initiated)
    }

    /** `greeting`: opens the trade. */
    method Greeting() returns (line: string)
      modifies this
      ensures initiated && completed == old(completed)
      ensures line == WelcomeLine
    {
      initiated := true;
      line := WelcomeLine;
    }

    /** `__perform_action`: only `exit` has an effect; the result always
        reports success. */
    method PerformAction(intent: FewShotIntent, item: Option<Item>) returns (result: TransactionResult)
      modifies this
      ensures completed == (old(completed) || intent.name == "exit")
      ensures initiated == old(initiated)
      ensures result == TransactionResult(true, intent, item, "Transaction completed")
    {
      if intent.name == "exit" {
        completed := true;
      }
      result := TransactionResult(true, intent, item, "Transaction completed");
    }

    /** `process_input`, with the agents' detected intent and item. */
    method ProcessInput(intent: FewShotIntent, item: Option<Item>) returns (reply: Option<string>)
      modifies this
      ensures (View(), reply) == Respond(old(View()), intent.name)
    {
      if !initiated {
        initiated := true;
        return Some(WelcomeLine);
      }
      if completed {
        return Some(GoodbyeLine);
      }
      var _ := PerformAction(intent, item);
      reply := None;
    }
  }
}
