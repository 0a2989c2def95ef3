// The older routed merchant (src/game/npc/merchant.py).  It sells items to
// the player in place, but its `buy_item` branch has no implementation:
// the reply is answered like any other and no inventory changes.
//
// The language-model calls become inputs as in the newer merchant.
module LegacyMerchant {
  import opened Items
  import opened Memory
  import opened Transactions

  datatype NPCResponse = NPCResponse(actions: seq<string>, responseText: string)

  /** Only a transaction-routed reply listing `sell_item` runs a
      transaction. */
  function SellsItem(destination: string, actions: seq<string>): (sells: bool)
    ensures sells ==> destination == "transaction" && "sell_item" in actions
    ensures destination != "transaction" || "sell_item" !in actions ==> !sells
  {
    destination == "transaction" && "sell_item" in actions
  }

  class Merchant {
    const inventory: Inventory
    const memory: NPCMemory

    constructor ()
      ensures fresh(inventory) && fresh(memory)
      ensures inventory.View() == MerchantStock()
      ensures memory.chatHistory == [] && memory.currIndex == 0 && memory.Valid()
    {
      var stock := MerchantStock();
      inventory := new Inventory(stock.items, stock.gold);
      memory := new NPCMemory();
    }

    /** `handle_sell_item`: the merchant sells its item `itemId` to the
        player. */
    method HandleSellItem(itemId: string, player: Inventory) returns (outcome: Outcome)
      requires player != inventory
      modifies inventory, player
      ensures var e := Sell(old(inventory.View()), old(player.View()), itemId);
              outcome == e.outcome && inventory.View() == e.merchant && player.View() == e.player
    {
      if itemId !in inventory.items {
        return ItemNotFound;
      }
      var item := inventory.items[itemId];
      if player.gold < item.price {
        return InsufficientGold;
      }
      player.gold := player.gold - item.price;
      player.items := player.items[itemId := item];
      inventory.items := inventory.items - {itemId};
      outcome := Completed;
    }

    /** `process_input`: route the message, sell if the reply asks for it,
        and record the player's message and the answer. */
    method ProcessInput(
      playerInput: string, player: Inventory,
      classify: (string, string) -> string,
      respond: (Route, string, string, Holdings, Holdings) -> NPCResponse,
      itemId: string, narrate: (Trade, Outcome, string, Holdings, Holdings) -> string)
      returns (reply: string)
      requires player != inventory
      modifies inventory, player, memory
      ensures var context := Render(Window(old(memory.chatHistory), 2));
              var destination := classify(playerInput, context);
              var parsed := respond(RouteFor(destination), playerInput, context, old(inventory.View()), old(player.View()));
              && (SellsItem(destination, parsed.actions) ==>
                    var e := Sell(old(inventory.View()), old(player.View()), itemId);
                    reply == narrate(Sale(itemId), e.outcome, playerInput, old(inventory.View()), old(player.View()))
                    && inventory.View() == e.merchant && player.View() == e.player)
              && (!SellsItem(destination, parsed.actions) ==>
                    reply == parsed.responseText
                    && inventory.View() == old(inventory.View()) && player.View() == old(player.View()))
      ensures memory.chatHistory == old(memory.chatHistory)
                + [ChatHistory(PlayerRole, playerInput, old(memory.currIndex)),
                   ChatHistory(NpcRole, reply, old(memory.currIndex) + 1)]
      ensures memory.currIndex == old(memory.currIndex) + 2
      ensures memory.playerName == old(memory.playerName)
      ensures old(memory.Valid()) ==> memory.Valid()
    {
      var context := memory.ToContext();
      var destination := classify(playerInput, context);
      var parsed := respond(RouteFor(destination), playerInput, context, inventory.View(), player.View());
      if SellsItem(destination, parsed.actions) {
        var merchantBefore, playerBefore := inventory.View(), player.View();
        var outcome := HandleSellItem(itemId, player);
        reply := narrate(Sale(itemId), outcome, playerInput, merchantBefore, playerBefore);
      } else {
        reply := parsed.responseText;
      }
      ghost var merchantAfter, playerAfter := inventory.View(), player.View();
      memory.AddChatHistory(PlayerRole, playerInput);
      memory.AddChatHistory(NpcRole, reply);
      assert inventory.View() == merchantAfter && player.View() == playerAfter;
    }
  }

  /** A reply asking only to buy changes no inventory here. */
  lemma BuyRequestIsAnsweredOnly(actions: seq<string>)
    requires "buy_item" in actions && "sell_item" !in actions
    ensures !SellsItem("transaction", actions)
  {
  }
}
