/** Game constants shared by the bot, the backend and the Mini App:
    cooldown, the gadgets granted at start, rarity and category names,
    the rarity order, and the type groups of the collection view. */
module Config {
  import opened Wrappers

  /** Seconds between two free draws. */
  const CooldownTime: int := 30 * 60

  /** Gadgets granted to a new player, looked up by name in the catalog. */
  const InitGadgets: seq<string> := ["Samsung Galaxy S25 Ultra", "Biostar B250MHC", "MacBook Air M4"]

  /** Russian display names of the rarities. */
  const RarityNames: map<string, string> := map[
    "Trash" := "Мусор",
    "Common" := "Обычная",
    "Uncommon" := "Необычная",
    "Rare" := "Редкая",
    "Epic" := "Эпическая",
    "Legendary" := "Легендарная",
    "Mythic" := "Мифическая"
  ]

  /** Russian display names of the categories. */
  const CategoryNames: map<string, string> := map[
    "Phone" := "Телефон",
    "Tablet" := "Планшет",
    "Laptop" := "Ноутбук",
    "Graphics Card" := "Видеокарта",
    "Processor" := "Процессор",
    "Motherboard" := "Материнская плата",
    "PC" := "ПК"
  ]

  /** The rarities from lowest to highest. */
  const RarityOrder: seq<string> := ["Trash", "Common", "Uncommon", "Rare", "Epic", "Legendary", "Mythic"]

  /** `RARITY_NAMES.get(r, r)`: the display name, or the rarity itself. */
  function RarityDisplayName(r: string): (name: string)
    ensures r in RarityNames ==> name == RarityNames[r]
    ensures r !in RarityNames ==> name == r
  {
    if r in RarityNames then RarityNames[r] else r
  }

  /** `CATEGORY_NAMES.get(c, c)`. */
  function CategoryDisplayName(c: string): (name: string)
    ensures c in CategoryNames ==> name == CategoryNames[c]
    ensures c !in CategoryNames ==> name == c
  {
    if c in CategoryNames then CategoryNames[c] else c
  }

  /** Every rarity of the order is shown translated, and no two share a
      display name, so a player can tell the rarities apart by name. */
  lemma RarityDisplayNamesDistinct()
    ensures forall i | 0 <= i < |RarityOrder| :: RarityDisplayName(RarityOrder[i]) != RarityOrder[i]
    ensures forall i, j | 0 <= i < j < |RarityOrder| ::
      RarityDisplayName(RarityOrder[i]) != RarityDisplayName(RarityOrder[j])
  {
  }

  /** Every named category is shown translated, and no two share a
      display name. */
  lemma CategoryDisplayNamesDistinct()
    ensures forall c | c in CategoryNames :: CategoryDisplayName(c) != c
    ensures forall c, d | c in CategoryNames && d in CategoryNames && c != d ::
      CategoryDisplayName(c) != CategoryDisplayName(d)
  {
  }

  /** The cooldown is half an hour. */
  lemma CooldownIsHalfAnHour()
    ensures CooldownTime == 1800
  {
  }

  /** The rarity order names seven distinct rarities, and the display-name
      table has an entry for exactly those rarities. */
  lemma RarityNamesMatchOrder()
    ensures |RarityOrder| == 7
    ensures forall i, j | 0 <= i < j < |RarityOrder| :: RarityOrder[i] != RarityOrder[j]
    ensures RarityNames.Keys == set r | r in RarityOrder
  {
  }

  // ---------------------------------------------------------------------
  // Type groups

  /** One entry of `GADGET_TYPE_GROUPS`: a key, a display name and the
      categories the group gathers. */
  datatype TypeGroup = TypeGroup(key: string, name: string, categories: seq<string>)

  /** The type groups, in dictionary order; that order is also the
      `GADGET_TYPE_ORDER` the bot lists them in. */
  const TypeGroups: seq<TypeGroup> := [
    TypeGroup("phones", "📱 Телефоны", ["Phone"]),
    TypeGroup("tablets", "📱 Планшеты", ["Tablet"]),
    TypeGroup("pcs", "🖥️ ПК", ["PC"]),
    TypeGroup("pc_parts", "🔧 Комплектующие ПК", ["Graphics Card", "Processor", "Motherboard"]),
    TypeGroup("laptops", "💻 Ноутбуки", ["Laptop"])
  ]

  /** The keys of `groups`, in order. */
  function TypeKeys(groups: seq<TypeGroup>): (keys: seq<string>)
    ensures |keys| == |groups|
    ensures forall i | 0 <= i < |groups| :: keys[i] == groups[i].key
  {
    if |groups| == 0 then [] else [groups[0].key] + TypeKeys(groups[1..])
  }

  /** The keys of the type groups, in order. */
  lemma TypeGroupKeys()
    ensures TypeKeys(TypeGroups) == ["phones", "tablets", "pcs", "pc_parts", "laptops"]
  {
    var keys := TypeKeys(TypeGroups);
    assert |keys| == 5;
    assert keys[0] == "phones" && keys[1] == "tablets" && keys[2] == "pcs";
    assert keys[3] == "pc_parts" && keys[4] == "laptops";
  }

  /** No two type groups share a key. */
  lemma TypeGroupKeyUnique(i: nat, j: nat)
    requires i < |TypeGroups| && j < |TypeGroups|
    requires TypeGroups[i].key == TypeGroups[j].key
    ensures i == j
  {
    TypeGroupKeys();
    assert TypeKeys(TypeGroups)[i] == TypeGroups[i].key && TypeKeys(TypeGroups)[j] == TypeGroups[j].key;
  }

  /** No category belongs to two type groups. */
  lemma TypeGroupOfCategoryUnique(category: string, i: nat, j: nat)
    requires i < |TypeGroups| && j < |TypeGroups|
    requires category in TypeGroups[i].categories && category in TypeGroups[j].categories
    ensures i == j
  {
  }

  /** `GADGET_TYPE_GROUPS.get(key)`: the first group with that key. */
  function GroupByKey(groups: seq<TypeGroup>, key: string): (g: Option<TypeGroup>)
    ensures g.Some? <==> key in TypeKeys(groups)
    ensures g.Some? ==> g.value in groups && g.value.key == key
  {
    if |groups| == 0 then None
    else if groups[0].key == key then Some(groups[0])
    else GroupByKey(groups[1..], key)
  }

  /** The position of the first group whose categories include `category`:
      the group a card is counted under, since the counting loops stop at
      the first match. */
  function FirstGroupOf(groups: seq<TypeGroup>, category: string): (k: Option<nat>)
    ensures k.None? <==> forall i | 0 <= i < |groups| :: category !in groups[i].categories
    ensures k.Some? ==> k.value < |groups| && category in groups[k.value].categories
    ensures k.Some? ==> forall j | 0 <= j < k.value :: category !in groups[j].categories
  {
    if |groups| == 0 then None
    else if category in groups[0].categories then Some(0)
    else
      match FirstGroupOf(groups[1..], category)
      case None => None
      case Some(i) => Some(i + 1)
  }
}
