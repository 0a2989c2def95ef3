// Items (src/game/items/items.py) and the inventory the merchants use.
//
// Both merchants import `Inventory` from the items module, which does not
// define one; the `Inventory` class here stands in for it, with the item
// map and gold that the merchant code reads and writes.
//
// The enums keep their integer codes.  As written, every item subclass
// hands its `name` to the base constructor's `rarity` parameter, so the
// rarity slot of a constructed weapon, armour or potion holds the name
// text rather than a rarity level; the model keeps that.  The merchant
// code constructs items with a `price` and reads `item.price`, so the model
// gives every item a price.
module Items {
  import opened Support

  datatype ItemType = WeaponType | ArmorType | PotionType
  datatype ItemRarity = CommonRarity | Uncommon | Rare | Epic | Legendary
  datatype PotionEffect = Heal | Defense

  function ItemTypeValue(t: ItemType): (v: int)
    ensures 1 <= v <= 3
    ensures v == 1 <==> t == WeaponType
    ensures v == 2 <==> t == ArmorType
  {
    match t
    case WeaponType => 1
    case ArmorType => 2
    case PotionType => 3
  }

  function ItemRarityValue(r: ItemRarity): (v: int)
    ensures 1 <= v <= 5
  {
    match r
    case CommonRarity => 1
    case Uncommon => 2
    case Rare => 3
    case Epic => 4
    case Legendary => 5
  }

  function PotionEffectValue(e: PotionEffect): (v: int)
    ensures 1 <= v <= 2
    ensures v == 1 <==> e == Heal
  {
    match e
    case Heal => 1
    case Defense => 2
  }

  /** Distinct enum members have distinct codes. */
  lemma EnumCodesDistinct(a: ItemRarity, b: ItemRarity, t: ItemType, u: ItemType)
    ensures ItemRarityValue(a) == ItemRarityValue(b) ==> a == b
    ensures ItemTypeValue(t) == ItemTypeValue(u) ==> t == u
  {
  }

  /** What the base class's `rarity` attribute holds: a rarity level when
      the base constructor is called directly, the item's name when a
      subclass calls it. */
  datatype RaritySlot = Level(level: ItemRarity) | NameText(name: string)

  /** The subclass-specific attributes. A plain `Potion` has no points. */
  datatype Stats =
    | WeaponStats(damage: int)
    | ArmourStats(defense: int)
    | PotionStats(effect: PotionEffect, points: Option<int>)

  datatype Item = Item(itemType: ItemType, rarity: RaritySlot, stats: Stats, price: int)

  function Weapon(name: string, damage: int, price: int): (w: Item)
    ensures w.itemType == WeaponType && w.rarity == NameText(name)
    ensures w.stats.WeaponStats? && w.stats.damage == damage && w.price == price
  {
    Item(WeaponType, NameText(name), WeaponStats(damage), price)
  }

  function Armour(name: string, defense: int, price: int): (a: Item)
    ensures a.itemType == ArmorType && a.rarity == NameText(name)
    ensures a.stats.ArmourStats? && a.stats.defense == defense && a.price == price
  {
    Item(ArmorType, NameText(name), ArmourStats(defense), price)
  }

  function Potion(name: string, effect: PotionEffect, price: int): (p: Item)
    ensures p.itemType == PotionType && p.rarity == NameText(name)
    ensures p.stats.PotionStats? && p.stats.effect == effect && p.stats.points.None?
    ensures p.price == price
  {
    Item(PotionType, NameText(name), PotionStats(effect, None), price)
  }

  function HealthPotion(name: string, points: int, price: int): (p: Item)
    ensures p.itemType == PotionType && p.rarity == NameText(name)
    ensures p.stats.PotionStats? && p.stats.effect == Heal && p.stats.points == Some(points)
    ensures p.price == price
  {
    var base := Potion(name, Heal, price);
    base.(stats := base.stats.(points := Some(points)))
  }

  function DefensePotion(name: string, points: int, price: int): (p: Item)
    ensures p.itemType == PotionType && p.rarity == NameText(name)
    ensures p.stats.PotionStats? && p.stats.effect == Defense && p.stats.points == Some(points)
    ensures p.price == price
  {
    var base := Potion(name, Defense, price);
    base.(stats := base.stats.(points := Some(points)))
  }

  /** Every item built through a subclass constructor has the type tag that
      matches its attributes, and its rarity slot holds a name. */
  ghost predicate BuiltBySubclass(i: Item) {
    && i.rarity.NameText?
    && (i.stats.WeaponStats? <==> i.itemType == WeaponType)
    && (i.stats.ArmourStats? <==> i.itemType == ArmorType)
    && (i.stats.PotionStats? <==> i.itemType == PotionType)
  }

  lemma SubclassesAreTagged(name: string, n: int, price: int, e: PotionEffect)
    ensures BuiltBySubclass(Weapon(name, n, price)) && BuiltBySubclass(Armour(name, n, price))
    ensures BuiltBySubclass(Potion(name, e, price))
    ensures BuiltBySubclass(HealthPotion(name, n, price)) && BuiltBySubclass(DefensePotion(name, n, price))
  {
  }

  /** The value view of an inventory: item id to item, and a gold count. */
  datatype Holdings = Holdings(items: map<string, Item>, gold: int)

  /** An inventory as the merchant code mutates it in place. */
  class Inventory {
    var items: map<string, Item>
    var gold: int

    constructor (items: map<string, Item>, gold: int)
      ensures this.items == items && this.gold == gold
    {
      this.items := items;
      this.gold := gold;
    }

    function View(): (h: Holdings)
      reads this
      ensures h.items == items && h.gold == gold
    {
      Holdings(items, gold)
    }
  }
}
