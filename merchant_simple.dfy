// The routed merchant (src/game/npc/merchant/simple/merchant.py): it buys
// and sells items in place on its own and the player's inventory, and
// records every exchange in its chat memory.
//
// The language-model calls become inputs: `classify` picks a destination
// from the player's message and the recent conversation; `respond` is the
// routed template's parsed reply, given the route, the message, the
// conversation and both inventories with their gold; `itemId` is the
// extracted item id; and `narrate` is the reply written for a transaction's
// outcome, given the message and both inventories as they were before it.
module SimpleMerchant {
  import opened Items
  import opened Memory
  import opened Transactions

  /** `NPCResponse` as parsed from the routed reply (its confidence is not
      read by the code). */
  datatype NPCResponse = NPCResponse(actions: seq<string>, responseText: string)

  /** Which branch of `process_input` handles a reply. */
  datatype Branch = SellBranch | BuyBranch | ReplyBranch

  /** A transaction-routed reply listing `sell_item` sells, else one
      listing `buy_item` buys; anything else is answered with the reply. */
  function Dispatch(destination: string, actions: seq<string>): (b: Branch)
    ensures b != ReplyBranch ==> destination == "transaction"
    ensures b == SellBranch ==> "sell_item" in actions
    ensures b == BuyBranch ==> "buy_item" in actions && "sell_item" !in actions
  {
    if destination == "transaction" && "sell_item" in actions then SellBranch
    else if destination == "transaction" && "buy_item" in actions then BuyBranch
    else ReplyBranch
  }

  /** Selling is tried before buying, and only the transaction route
      touches the inventories. */
  lemma DispatchOrder(destination: string, actions: seq<string>)
    ensures Dispatch(destination, actions) == SellBranch
        <==> destination == "transaction" && "sell_item" in actions
    ensures Dispatch(destination, actions) == BuyBranch
        <==> destination == "transaction" && "buy_item" in actions && "sell_item" !in actions
    ensures destination != "transaction" ==> Dispatch(destination, actions) == ReplyBranch
  {
  }

  /** How a routed reply is answered: a sale or a purchase runs that
      exchange on the holdings and narrates its outcome; any other reply is
      returned as it is and both holdings stay as they were. */
  ghost predicate Answered(
    b: Branch, responseText: string, playerInput: string, itemId: string,
    narrate: (Trade, Outcome, string, Holdings, Holdings) -> string,
    merchant: Holdings, player: Holdings, merchant': Holdings, player': Holdings, reply: string)
  {
    match b
    case SellBranch =>
      var e := Sell(merchant, player, itemId);
      reply == narrate(Sale(itemId), e.outcome, playerInput, merchant, player)
      && merchant' == e.merchant && player' == e.player
    case BuyBranch =>
      var e := Buy(merchant, player, itemId);
      reply == narrate(Purchase(itemId), e.outcome, playerInput, merchant, player)
      && merchant' == e.merchant && player' == e.player
    case ReplyBranch =>
      reply == responseText && merchant' == merchant && player' == player
  }

  class Merchant {
    const inventory: Inventory
    const memory: NPCMemory

    constructor ()
      ensures fresh(inventory) && fresh(memory)
      ensures inventory.View() == MerchantStock()
      ensures memory.chatHistory == [] && memory.currIndex == 0 && memory.Valid()
    {
      var stock := MerchantStock();
      inventory := new Inventory(stock.items, stock.gold);
      memory := new NPCMemory();
    }

    /** `handle_buy_item`: the merchant buys the player's item `itemId`. */
    method HandleBuyItem(itemId: string, player: Inventory) returns (outcome: Outcome)
      requires player != inventory
      modifies inventory, player
      ensures var e := Buy(old(inventory.View()), old(player.View()), itemId);
              outcome == e.outcome && inventory.View() == e.merchant && player.View() == e.player
    {
      if itemId !in player.items {
        return ItemNotFound;
      }
      var item := player.items[itemId];
      if inventory.gold < item.price {
        return InsufficientGold;
      }
      inventory.gold := inventory.gold - item.price;
      player.gold := player.gold + item.price;
      inventory.items := inventory.items[itemId := item];
      player.items := player.items - {itemId};
      outcome := Completed;
    }

    /** `handle_sell_item`: the merchant sells its item `itemId` to the
        player. */
    method HandleSellItem(itemId: string, player: Inventory) returns (outcome: Outcome)
      requires player != inventory
      modifies inventory, player
      ensures var e := Sell(old(inventory.View()), old(player.View()), itemId);
              outcome == e.outcome && inventory.View() == e.merchant && player.View() == e.player
    {
      if itemId !in inventory.items {
        return ItemNotFound;
      }
      var item := inventory.items[itemId];
      if player.gold < item.price {
        return InsufficientGold;
      }
      player.gold := player.gold - item.price;
      player.items := player.items[itemId := item];
      inventory.items := inventory.items - {itemId};
      outcome := Completed;
    }

    /** The transaction branch of `process_input` for a routed reply:
        sell, buy, or answer with the reply's text. */
    method Answer(
      playerInput: string, destination: string, parsed: NPCResponse, player: Inventory,
      itemId: string, narrate: (Trade, Outcome, string, Holdings, Holdings) -> string)
      returns (reply: string)
      requires player != inventory
      modifies inventory, player
      ensures Answered(Dispatch(destination, parsed.actions), parsed.responseText, playerInput, itemId, narrate,
                       old(inventory.View()), old(player.View()), inventory.View(), player.View(), reply)
    {
      var merchantBefore, playerBefore := inventory.View(), player.View();
      match Dispatch(destination, parsed.actions)
      case SellBranch =>
        var outcome := HandleSellItem(itemId, player);
        reply := narrate(Sale(itemId), outcome, playerInput, merchantBefore, playerBefore);
      case BuyBranch =>
        var outcome := HandleBuyItem(itemId, player);
        reply := narrate(Purchase(itemId), outcome, playerInput, merchantBefore, playerBefore);
      case ReplyBranch =>
        reply := parsed.responseText;
    }

    /** `process_input`: route the message, run the transaction the reply
        asks for, and record the player's message and the answer. */
    method ProcessInput(
      playerInput: string, player: Inventory,
      classify: (string, string) -> string,
      respond: (Route, string, string, Holdings, Holdings) -> NPCResponse,
      itemId: string, narrate: (Trade, Outcome, string, Holdings, Holdings) -> string)
      returns (reply: string)
      requires player != inventory
      modifies inventory, player, memory
      ensures var context := Render(Window(old(memory.chatHistory), 2));
              var destination := classify(playerInput, context);
              var parsed := respond(RouteFor(destination), playerInput, context, old(inventory.View()), old(player.View()));
              Answered(Dispatch(destination, parsed.actions), parsed.responseText, playerInput, itemId, narrate,
                       old(inventory.View()), old(player.View()), inventory.View(), player.View(), reply)
      ensures memory.chatHistory == old(memory.chatHistory)
                + [ChatHistory(PlayerRole, playerInput, old(memory.currIndex)),
                   ChatHistory(NpcRole, reply, old(memory.currIndex) + 1)]
      ensures memory.currIndex == old(memory.currIndex) + 2
      ensures memory.playerName == old(memory.playerName)
      ensures old(memory.Valid()) ==> memory.Valid()
    {
      var context := memory.ToContext();
      var destination := classify(playerInput, context);
      var parsed := respond(RouteFor(destination), playerInput, context, inventory.View(), player.View());
      reply := Answer(playerInput, destination, parsed, player, itemId, narrate);
      ghost var merchantAfter, playerAfter := inventory.View(), player.View();
      memory.AddChatHistory(PlayerRole, playerInput);
      memory.AddChatHistory(NpcRole, reply);
      assert inventory.View() == merchantAfter && player.View() == playerAfter;
    }
  }
}
