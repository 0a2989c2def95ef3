// The inventory transactions of the merchant classes, as functions on
// inventory values: the merchant buying an item from the player
// (`handle_buy_item` in src/game/npc/merchant/simple/merchant.py) and the
// merchant selling one to the player (`handle_sell_item`, in both that
// file and src/game/npc/merchant.py).  The merchant classes update their
// inventories in place and are proved to agree with these functions.
//
// The routing of a player message to one of four reply templates, with
// the `default` fallback, is here too, shared by both merchant classes.
module Transactions {
  import opened Items

  /** Which branch a transaction took; each branch has its own reply. */
  datatype Outcome = ItemNotFound | InsufficientGold | Completed

  /** The outcome and both parties' inventories afterwards. */
  datatype Exchange = Exchange(outcome: Outcome, merchant: Holdings, player: Holdings)

  /** The merchant buys the player's item `id`: it must be in the player's
      inventory and the merchant must afford it. */
  function Buy(merchant: Holdings, player: Holdings, id: string): (e: Exchange)
    ensures e.outcome == ItemNotFound <==> id !in player.items
    ensures e.outcome == InsufficientGold <==> id in player.items && merchant.gold < player.items[id].price
    ensures e.outcome != Completed ==> e.merchant == merchant && e.player == player
  {
    if id !in player.items then Exchange(ItemNotFound, merchant, player)
    else
      var item := player.items[id];
      if merchant.gold < item.price then Exchange(InsufficientGold, merchant, player)
      else Exchange(Completed,
                    Holdings(merchant.items[id := item], merchant.gold - item.price),
                    Holdings(player.items - {id}, player.gold + item.price))
  }

  /** The merchant sells its item `id` to the player: it must be in the
      merchant's inventory and the player must afford it.  The player pays,
      but nothing credits the merchant. */
  function Sell(merchant: Holdings, player: Holdings, id: string): (e: Exchange)
    ensures e.outcome == ItemNotFound <==> id !in merchant.items
    ensures e.outcome == InsufficientGold <==> id in merchant.items && player.gold < merchant.items[id].price
    ensures e.outcome != Completed ==> e.merchant == merchant && e.player == player
  {
    if id !in merchant.items then Exchange(ItemNotFound, merchant, player)
    else
      var item := merchant.items[id];
      if player.gold < item.price then Exchange(InsufficientGold, merchant, player)
      else Exchange(Completed,
                    Holdings(merchant.items - {id}, merchant.gold),
                    Holdings(player.items[id := item], player.gold - item.price))
  }

  /** `to` gained `from`'s item under `id`, `from` lost `id`, and no other
      key of either inventory changed. */
  ghost predicate Moved(fromBefore: Holdings, toBefore: Holdings, fromAfter: Holdings, toAfter: Holdings, id: string)
    requires id in fromBefore.items
  {
    && id !in fromAfter.items
    && id in toAfter.items && toAfter.items[id] == fromBefore.items[id]
    && (forall k :: k != id ==> (k in fromAfter.items <==> k in fromBefore.items))
    && (forall k :: k != id && k in fromAfter.items ==> fromAfter.items[k] == fromBefore.items[k])
    && (forall k :: k != id ==> (k in toAfter.items <==> k in toBefore.items))
    && (forall k :: k != id && k in toAfter.items ==> toAfter.items[k] == toBefore.items[k])
  }

  /** A completed purchase moves the item from the player to the merchant,
      and the merchant's payment is the player's income. */
  lemma BuyMovesItemAndGold(merchant: Holdings, player: Holdings, id: string)
    requires Buy(merchant, player, id).outcome == Completed
    ensures var e := Buy(merchant, player, id);
            && Moved(player, merchant, e.player, e.merchant, id)
            && e.merchant.gold == merchant.gold - player.items[id].price
            && e.player.gold == player.gold + player.items[id].price
  {
  }

  /** A completed sale moves the item from the merchant to the player; the
      player pays the price and the merchant's gold stays as it was. */
  lemma SellMovesItemAndGold(merchant: Holdings, player: Holdings, id: string)
    requires Sell(merchant, player, id).outcome == Completed
    ensures var e := Sell(merchant, player, id);
            && Moved(merchant, player, e.merchant, e.player, id)
            && e.player.gold == player.gold - merchant.items[id].price
            && e.merchant.gold == merchant.gold
  {
  }

  /** A purchase conserves the two parties' combined gold; a sale lowers it
      by the price when it completes. */
  lemma CombinedGold(merchant: Holdings, player: Holdings, id: string)
    ensures var e := Buy(merchant, player, id);
            e.merchant.gold + e.player.gold == merchant.gold + player.gold
    ensures var e := Sell(merchant, player, id);
            e.merchant.gold + e.player.gold
            == merchant.gold + player.gold - (if e.outcome == Completed then merchant.items[id].price else 0)
  {
  }

  /** Gold is non-negative and every price is non-negative. */
  ghost predicate Solvent(h: Holdings) {
    h.gold >= 0 && forall k :: k in h.items ==> h.items[k].price >= 0
  }

  /** Each debit happens only after the price check, so both transactions
      keep both parties solvent. */
  lemma TransactionsKeepSolvent(merchant: Holdings, player: Holdings, id: string)
    requires Solvent(merchant) && Solvent(player)
    ensures Solvent(Buy(merchant, player, id).merchant) && Solvent(Buy(merchant, player, id).player)
    ensures Solvent(Sell(merchant, player, id).merchant) && Solvent(Sell(merchant, player, id).player)
  {
  }

  /** The item count of both parties together is kept, except that an id
      the receiver already holds is overwritten, losing its old item. */
  lemma ItemCount(merchant: Holdings, player: Holdings, id: string)
    ensures var e := Buy(merchant, player, id);
            e.outcome == Completed ==>
              |e.merchant.items| + |e.player.items|
              == |merchant.items| + |player.items| - (if id in merchant.items then 1 else 0)
    ensures var e := Sell(merchant, player, id);
            e.outcome == Completed ==>
              |e.merchant.items| + |e.player.items|
              == |merchant.items| + |player.items| - (if id in player.items then 1 else 0)
  {
    var b := Buy(merchant, player, id);
    if b.outcome == Completed {
      assert b.player.items.Keys == player.items.Keys - {id};
      assert b.merchant.items.Keys == merchant.items.Keys + {id};
    }
    var s := Sell(merchant, player, id);
    if s.outcome == Completed {
      assert s.merchant.items.Keys == merchant.items.Keys - {id};
      assert s.player.items.Keys == player.items.Keys + {id};
    }
  }

  /** A transaction requested in a dialogue. */
  datatype Trade = Purchase(id: string) | Sale(id: string)

  function Apply(merchant: Holdings, player: Holdings, t: Trade): Exchange {
    match t
    case Purchase(id) => Buy(merchant, player, id)
    case Sale(id) => Sell(merchant, player, id)
  }

  /** Trades applied one after another, each to the inventories the
      previous one left. */
  function RunTrades(merchant: Holdings, player: Holdings, trades: seq<Trade>): (r: (Holdings, Holdings))
  {
    if trades == [] then (merchant, player)
    else
      var (m, p) := RunTrades(merchant, player, trades[..|trades| - 1]);
      var e := Apply(m, p, trades[|trades| - 1]);
      (e.merchant, e.player)
  }

  /** Over any dialogue, solvent parties stay solvent and their combined
      gold never grows. */
  lemma {:induction false} RunTradesInvariants(merchant: Holdings, player: Holdings, trades: seq<Trade>)
    requires Solvent(merchant) && Solvent(player)
    ensures var (m, p) := RunTrades(merchant, player, trades);
            Solvent(m) && Solvent(p) && m.gold + p.gold <= merchant.gold + player.gold
  {
    if trades != [] {
      var prefix := trades[..|trades| - 1];
      RunTradesInvariants(merchant, player, prefix);
      var (m, p) := RunTrades(merchant, player, prefix);
      var t := trades[|trades| - 1];
      TransactionsKeepSolvent(m, p, t.id);
      CombinedGold(m, p, t.id);
    }
  }

  /** `init_inventory`, identical in both merchant classes: a sword, a
      shield and a health potion, and 1523 gold. */
  function MerchantStock(): (r: Holdings)
    ensures |r.items| == 3 && r.gold == 1523
    ensures forall id :: id in r.items ==> 0 < r.items[id].price <= r.gold
  {
    Holdings(
      map["sword" := Weapon("Sword", 10, 10),
          "shield" := Armour("Shield", 5, 25),
          "potion" := HealthPotion("Potion", 10, 5)],
      1523)
  }

  /** The opening stock's ids, prices and gold; it is solvent. */
  lemma MerchantStockContents()
    ensures MerchantStock().items.Keys == {"sword", "shield", "potion"}
    ensures MerchantStock().items["sword"].price == 10 && MerchantStock().items["sword"].itemType == WeaponType
    ensures MerchantStock().items["shield"].price == 25 && MerchantStock().items["shield"].itemType == ArmorType
    ensures MerchantStock().items["potion"].price == 5 && MerchantStock().items["potion"].itemType == PotionType
    ensures MerchantStock().gold == 1523 && Solvent(MerchantStock())
  {
  }

  /** The reply templates a player message can be routed to. */
  datatype Route = TradeRoute | TransactionRoute | AskInformationRoute | DefaultRoute

  const Routes: map<string, Route> := map[
    "trade" := TradeRoute,
    "transaction" := TransactionRoute,
    "ask_information" := AskInformationRoute,
    "default" := DefaultRoute]

  /** `route_chain`: the template for the classified destination, falling
      back to `default` for any other name. */
  function RouteFor(destination: string): (r: Route)
    ensures destination in Routes ==> r == Routes[destination]
    ensures destination !in Routes ==> r == DefaultRoute
  {
    if destination in Routes then Routes[destination] else Routes["default"]
  }

  function RouteName(r: Route): string {
    match r
    case TradeRoute => "trade"
    case TransactionRoute => "transaction"
    case AskInformationRoute => "ask_information"
    case DefaultRoute => "default"
  }

  /** Every route is reached by its own name and only by it, except that
      every unknown name also reaches `default`. */
  lemma RouteForNames(r: Route, destination: string)
    ensures RouteFor(RouteName(r)) == r
    ensures RouteFor(destination) == r && r != DefaultRoute ==> destination == RouteName(r)
  {
  }
}
