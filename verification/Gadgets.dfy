/** The gadget catalog, the rarity lattice and the weighted draw. */
module Gadgets {
  import opened Wrappers
  import opened Config

  /** The seven rarity constants of the catalog. */
  datatype Rarity = Trash | Common | Uncommon | Rare | Epic | Legendary | Mythic

  /** The six catalog categories; "PC" is only ever given to built PCs. */
  datatype Category = Phone | Tablet | Laptop | GraphicsCard | Processor | Motherboard

  /** The string a rarity constant stands for. */
  function RarityName(r: Rarity): string {
    match r
    case Trash => "Trash"
    case Common => "Common"
    case Uncommon => "Uncommon"
    case Rare => "Rare"
    case Epic => "Epic"
    case Legendary => "Legendary"
    case Mythic => "Mythic"
  }

  /** The string a category constant stands for. */
  function CategoryName(c: Category): string {
    match c
    case Phone => "Phone"
    case Tablet => "Tablet"
    case Laptop => "Laptop"
    case GraphicsCard => "Graphics Card"
    case Processor => "Processor"
    case Motherboard => "Motherboard"
  }

  /** The category of a built PC card. */
  const PcCategory := "PC"

  /** One catalog entry. */
  datatype Gadget = Gadget(name: string, category: Category, price: int, rarity: Rarity)

  const Phones: seq<Gadget> := [
    Gadget("iPhone 6", Phone, 50, Trash),
    Gadget("Samsung Galaxy S5", Phone, 40, Trash),
    Gadget("iPhone 7", Phone, 60, Trash),
    Gadget("iPhone 11", Phone, 300, Trash),
    Gadget("Samsung Galaxy A54", Phone, 250, Common),
    Gadget("iPhone XR", Phone, 280, Trash),
    Gadget("iPhone 12", Phone, 450, Trash),
    Gadget("Google Pixel 6", Phone, 400, Uncommon),
    Gadget("Samsung Galaxy S20", Phone, 420, Uncommon),
    Gadget("iPhone 14", Phone, 650, Trash),
    Gadget("Google Pixel 7", Phone, 550, Rare),
    Gadget("Samsung Galaxy S22", Phone, 600, Rare),
    Gadget("iPhone 15", Phone, 850, Trash),
    Gadget("Samsung Galaxy S23", Phone, 800, Epic),
    Gadget("Google Pixel 8", Phone, 700, Epic),
    Gadget("iPhone 16 Pro Max", Phone, 1200, Trash),
    Gadget("Samsung Galaxy S24 Ultra", Phone, 1100, Legendary),
    Gadget("OnePlus 12", Phone, 900, Legendary),
    Gadget("iPhone 17 Pro Max", Phone, 1500, Trash),
    Gadget("Samsung Galaxy S25 Ultra", Phone, 1400, Mythic)
  ]

  const Tablets: seq<Gadget> := [
    Gadget("iPad Air 2", Tablet, 100, Trash),
    Gadget("Samsung Galaxy Tab S2", Tablet, 80, Trash),
    Gadget("iPad (9th gen)", Tablet, 300, Common),
    Gadget("Samsung Galaxy Tab A8", Tablet, 200, Common),
    Gadget("iPad Air (4th gen)", Tablet, 500, Uncommon),
    Gadget("Samsung Galaxy Tab S7", Tablet, 450, Uncommon),
    Gadget("iPad Air (5th gen)", Tablet, 600, Rare),
    Gadget("Samsung Galaxy Tab S8", Tablet, 550, Rare),
    Gadget("iPad Pro 11\" M2", Tablet, 900, Epic),
    Gadget("Microsoft Surface Pro 9", Tablet, 1000, Epic),
    Gadget("Samsung Galaxy Tab S9", Tablet, 800, Epic),
    Gadget("iPad Pro 12.9\" M2", Tablet, 1200, Legendary),
    Gadget("Samsung Galaxy Tab S9 Ultra", Tablet, 1100, Legendary),
    Gadget("iPad Pro M4", Tablet, 1400, Mythic),
    Gadget("Samsung Galaxy Tab S10 Ultra", Tablet, 1300, Mythic)
  ]

  const Laptops: seq<Gadget> := [
    Gadget("MacBook Air 2015", Laptop, 200, Trash),
    Gadget("Dell Inspiron 3000", Laptop, 250, Trash),
    Gadget("MacBook Air M1", Laptop, 800, Common),
    Gadget("Dell Inspiron 15", Laptop, 600, Common),
    Gadget("MacBook Pro M1", Laptop, 1200, Uncommon),
    Gadget("Dell XPS 13 (2020)", Laptop, 1000, Uncommon),
    Gadget("MacBook Pro M2", Laptop, 1500, Rare),
    Gadget("Dell XPS 13 (2022)", Laptop, 1300, Rare),
    Gadget("MacBook Pro M3", Laptop, 1800, Epic),
    Gadget("Lenovo ThinkPad X1 Carbon", Laptop, 1600, Epic),
    Gadget("MacBook Air M4", Laptop, 1700, Epic),
    Gadget("MacBook Pro M3 Max", Laptop, 2500, Legendary),
    Gadget("Razer Blade 18", Laptop, 2800, Legendary),
    Gadget("MacBook Pro M5", Laptop, 2400, Legendary),
    Gadget("MacBook Pro M5 Max", Laptop, 3500, Mythic)
  ]

  const GraphicsCards: seq<Gadget> := [
    Gadget("GTX 750 Ti", GraphicsCard, 50, Trash),
    Gadget("GTX 950", GraphicsCard, 60, Trash),
    Gadget("GTX 1050", GraphicsCard, 100, Common),
    Gadget("GTX 1060", GraphicsCard, 150, Common),
    Gadget("GTX 1650", GraphicsCard, 120, Common),
    Gadget("GTX 1660", GraphicsCard, 200, Uncommon),
    Gadget("GTX 1660 Super", GraphicsCard, 220, Uncommon),
    Gadget("RTX 2060", GraphicsCard, 250, Uncommon),
    Gadget("RTX 3060", GraphicsCard, 350, Rare),
    Gadget("RTX 3060 Ti", GraphicsCard, 400, Rare),
    Gadget("RTX 3070", GraphicsCard, 500, Rare),
    Gadget("RTX 4070", GraphicsCard, 600, Epic),
    Gadget("RTX 4070 Ti", GraphicsCard, 700, Epic),
    Gadget("RTX 4080", GraphicsCard, 900, Epic),
    Gadget("RTX 4090", GraphicsCard, 1500, Legendary),
    Gadget("AMD RX 7900 XTX", GraphicsCard, 1400, Legendary),
    Gadget("RTX 5090", GraphicsCard, 2000, Mythic)
  ]

  const Processors: seq<Gadget> := [
    Gadget("Intel Core i5-4460", Processor, 40, Trash),
    Gadget("AMD FX-8350", Processor, 50, Trash),
    Gadget("AMD Ryzen 5 3600", Processor, 150, Common),
    Gadget("Intel Core i5-10400", Processor, 140, Common),
    Gadget("AMD Ryzen 5 5600X", Processor, 200, Uncommon),
    Gadget("Intel Core i7-10700K", Processor, 250, Uncommon),
    Gadget("AMD Ryzen 7 7700X", Processor, 350, Rare),
    Gadget("Intel Core i7-13700K", Processor, 380, Rare),
    Gadget("AMD Ryzen 9 7900X", Processor, 500, Epic),
    Gadget("Intel Core i9-13900K", Processor, 550, Epic),
    Gadget("AMD Ryzen 9 7950X", Processor, 700, Legendary),
    Gadget("Intel Core i9-14900K", Processor, 750, Legendary),
    Gadget("AMD Ryzen 9 9950X", Processor, 900, Mythic),
    Gadget("Intel Core i9-15900K", Processor, 950, Mythic)
  ]

  const Motherboards: seq<Gadget> := [
    Gadget("ASUS H81M-K", Motherboard, 40, Trash),
    Gadget("MSI B85M-E45", Motherboard, 45, Trash),
    Gadget("ASRock A320M-HDV", Motherboard, 50, Trash),
    Gadget("ASUS B450M-A", Motherboard, 80, Common),
    Gadget("MSI B460M Pro-VDH", Motherboard, 85, Common),
    Gadget("Gigabyte H510M H", Motherboard, 75, Common),
    Gadget("Biostar B250MHC", Motherboard, 70, Common),
    Gadget("ASUS B550M-A", Motherboard, 120, Uncommon),
    Gadget("MSI B560M Pro-VDH", Motherboard, 130, Uncommon),
    Gadget("ASRock X570 Phantom Gaming 4", Motherboard, 150, Uncommon),
    Gadget("ASUS B650M-A", Motherboard, 180, Rare),
    Gadget("MSI Z690-A Pro", Motherboard, 200, Rare),
    Gadget("Gigabyte X670 Gaming X", Motherboard, 220, Rare),
    Gadget("ASUS B650E-F", Motherboard, 280, Epic),
    Gadget("MSI Z790-A Pro", Motherboard, 300, Epic),
    Gadget("ASRock X670E Steel Legend", Motherboard, 320, Epic),
    Gadget("ASUS X870E-E", Motherboard, 400, Legendary),
    Gadget("MSI Z890-A Pro", Motherboard, 420, Legendary),
    Gadget("ASUS X870E Extreme", Motherboard, 600, Mythic),
    Gadget("MSI Z890 Godlike", Motherboard, 650, Mythic)
  ]

  /** The whole catalog, in table order. */
  const Catalog: seq<Gadget> := Phones + Tablets + Laptops + GraphicsCards + Processors + Motherboards

  /** Every gadget's rarity is one of the seven in the rarity order, and
      the category display table covers its category, which is not "PC". */
  lemma GadgetNamesKnown(g: Gadget)
    ensures RarityName(g.rarity) in RarityOrder
    ensures CategoryName(g.category) != PcCategory && CategoryName(g.category) in CategoryNames
  {
    match g.rarity
    case Trash => assert RarityOrder[0] == RarityName(g.rarity);
    case Common => assert RarityOrder[1] == RarityName(g.rarity);
    case Uncommon => assert RarityOrder[2] == RarityName(g.rarity);
    case Rare => assert RarityOrder[3] == RarityName(g.rarity);
    case Epic => assert RarityOrder[4] == RarityName(g.rarity);
    case Legendary => assert RarityOrder[5] == RarityName(g.rarity);
    case Mythic => assert RarityOrder[6] == RarityName(g.rarity);
  }

  /** Every catalog rarity is one of the seven in the rarity order, no entry
      is a PC, and the category display table covers every catalog category
      as well as "PC". */
  lemma CatalogWellFormed()
    ensures forall g | g in Catalog :: RarityName(g.rarity) in RarityOrder
    ensures forall g | g in Catalog :: CategoryName(g.category) != PcCategory
    ensures forall g | g in Catalog :: CategoryName(g.category) in CategoryNames
    ensures PcCategory in CategoryNames
    ensures forall i, j | 0 <= i < j < |Catalog| :: Catalog[i].name != Catalog[j].name
  {
    CatalogNamesDistinct();
    forall g | g in Catalog
      ensures RarityName(g.rarity) in RarityOrder
      ensures CategoryName(g.category) != PcCategory && CategoryName(g.category) in CategoryNames
    {
      GadgetNamesKnown(g);
    }
  }

  // ---------------------------------------------------------------------
  // Catalog names

  /** The names of a list of entries, in order. */
  function Names(gs: seq<Gadget>): (ns: seq<string>)
    ensures |ns| == |gs| && forall i | 0 <= i < |gs| :: ns[i] == gs[i].name
  {
    seq(|gs|, i requires 0 <= i < |gs| => gs[i].name)
  }

  lemma NamesConcat(a: seq<Gadget>, b: seq<Gadget>)
    ensures Names(a + b) == Names(a) + Names(b)
  {
    assert forall i | 0 <= i < |a + b| :: Names(a + b)[i] == (Names(a) + Names(b))[i];
  }

  /** No name occurs twice. */
  predicate Distinct(ns: seq<string>) {
    forall i, j | 0 <= i < j < |ns| :: ns[i] != ns[j]
  }

  /** No name occurs in both lists. */
  predicate Apart(a: seq<string>, b: seq<string>) {
    forall i, j | 0 <= i < |a| && 0 <= j < |b| :: a[i] != b[j]
  }

  lemma DistinctConcat(a: seq<string>, b: seq<string>)
    requires Distinct(a) && Distinct(b) && Apart(a, b)
    ensures Distinct(a + b)
  {
    forall i, j | 0 <= i < j < |a + b|
      ensures (a + b)[i] != (a + b)[j]
    {
      if j < |a| {
        assert (a + b)[i] == a[i] && (a + b)[j] == a[j];
      } else if i < |a| {
        assert (a + b)[i] == a[i] && (a + b)[j] == b[j - |a|];
      } else {
        assert (a + b)[i] == b[i - |a|] && (a + b)[j] == b[j - |a|];
      }
    }
  }

  lemma ApartConcat(a: seq<string>, b: seq<string>, c: seq<string>)
    requires Apart(a, c) && Apart(b, c)
    ensures Apart(a + b, c)
  {
    forall i, j | 0 <= i < |a + b| && 0 <= j < |c|
      ensures (a + b)[i] != c[j]
    {
      if i < |a| {
        assert (a + b)[i] == a[i];
      } else {
        assert (a + b)[i] == b[i - |a|];
      }
    }
  }

  /** The names of the phones, in catalog order. */
  const PhoneNames: seq<string> := [
    "iPhone 6", "Samsung Galaxy S5", "iPhone 7", "iPhone 11", "Samsung Galaxy A54", "iPhone XR",
    "iPhone 12", "Google Pixel 6", "Samsung Galaxy S20", "iPhone 14", "Google Pixel 7",
    "Samsung Galaxy S22", "iPhone 15", "Samsung Galaxy S23", "Google Pixel 8",
    "iPhone 16 Pro Max", "Samsung Galaxy S24 Ultra", "OnePlus 12", "iPhone 17 Pro Max",
    "Samsung Galaxy S25 Ultra"
  ]

  lemma PhonesNamesListed()
    ensures Names(Phones) == PhoneNames
  {
  }

  /** The names of the tablets, in catalog order. */
  const TabletNames: seq<string> := [
    "iPad Air 2", "Samsung Galaxy Tab S2", "iPad (9th gen)", "Samsung Galaxy Tab A8",
    "iPad Air (4th gen)", "Samsung Galaxy Tab S7", "iPad Air (5th gen)", "Samsung Galaxy Tab S8",
    "iPad Pro 11\" M2", "Microsoft Surface Pro 9", "Samsung Galaxy Tab S9", "iPad Pro 12.9\" M2",
    "Samsung Galaxy Tab S9 Ultra", "iPad Pro M4", "Samsung Galaxy Tab S10 Ultra"
  ]

  lemma TabletsNamesListed()
    ensures Names(Tablets) == TabletNames
  {
  }

  /** The names of the laptops, in catalog order. */
  const LaptopNames: seq<string> := [
    "MacBook Air 2015", "Dell Inspiron 3000", "MacBook Air M1", "Dell Inspiron 15",
    "MacBook Pro M1", "Dell XPS 13 (2020)", "MacBook Pro M2", "Dell XPS 13 (2022)",
    "MacBook Pro M3", "Lenovo ThinkPad X1 Carbon", "MacBook Air M4", "MacBook Pro M3 Max",
    "Razer Blade 18", "MacBook Pro M5", "MacBook Pro M5 Max"
  ]

  lemma LaptopsNamesListed()
    ensures Names(Laptops) == LaptopNames
  {
  }

  /** The names of the graphics cards, in catalog order. */
  const GraphicsCardNames: seq<string> := [
    "GTX 750 Ti", "GTX 950", "GTX 1050", "GTX 1060", "GTX 1650", "GTX 1660", "GTX 1660 Super",
    "RTX 2060", "RTX 3060", "RTX 3060 Ti", "RTX 3070", "RTX 4070", "RTX 4070 Ti", "RTX 4080",
    "RTX 4090", "AMD RX 7900 XTX", "RTX 5090"
  ]

  lemma GraphicsCardsNamesListed()
    ensures Names(GraphicsCards) == GraphicsCardNames
  {
  }

  /** The names of the processors, in catalog order. */
  const ProcessorNames: seq<string> := [
    "Intel Core i5-4460", "AMD FX-8350", "AMD Ryzen 5 3600", "Intel Core i5-10400",
    "AMD Ryzen 5 5600X", "Intel Core i7-10700K", "AMD Ryzen 7 7700X", "Intel Core i7-13700K",
    "AMD Ryzen 9 7900X", "Intel Core i9-13900K", "AMD Ryzen 9 7950X", "Intel Core i9-14900K",
    "AMD Ryzen 9 9950X", "Intel Core i9-15900K"
  ]

  lemma ProcessorsNamesListed()
    ensures Names(Processors) == ProcessorNames
  {
  }

  /** The names of the motherboards, in catalog order. */
  const MotherboardNames: seq<string> := [
    "ASUS H81M-K", "MSI B85M-E45", "ASRock A320M-HDV", "ASUS B450M-A", "MSI B460M Pro-VDH",
    "Gigabyte H510M H", "Biostar B250MHC", "ASUS B550M-A", "MSI B560M Pro-VDH",
    "ASRock X570 Phantom Gaming 4", "ASUS B650M-A", "MSI Z690-A Pro", "Gigabyte X670 Gaming X",
    "ASUS B650E-F", "MSI Z790-A Pro", "ASRock X670E Steel Legend", "ASUS X870E-E",
    "MSI Z890-A Pro", "ASUS X870E Extreme", "MSI Z890 Godlike"
  ]

  lemma MotherboardsNamesListed()
    ensures Names(Motherboards) == MotherboardNames
  {
  }

  lemma PhoneNamesDistinct()
    ensures Distinct(PhoneNames)
  {
    var ns := PhoneNames;
    forall i | 0 <= i < |ns|
      ensures forall j | i < j < |ns| :: ns[i] != ns[j]
    {
    }
  }

  lemma TabletNamesDistinct()
    ensures Distinct(TabletNames)
  {
    var ns := TabletNames;
    forall i | 0 <= i < |ns|
      ensures forall j | i < j < |ns| :: ns[i] != ns[j]
    {
    }
  }

  lemma LaptopNamesDistinct()
    ensures Distinct(LaptopNames)
  {
    var ns := LaptopNames;
    forall i | 0 <= i < |ns|
      ensures forall j | i < j < |ns| :: ns[i] != ns[j]
    {
    }
  }

  lemma GraphicsCardNamesDistinct()
    ensures Distinct(GraphicsCardNames)
  {
    var ns := GraphicsCardNames;
    forall i | 0 <= i < |ns|
      ensures forall j | i < j < |ns| :: ns[i] != ns[j]
    {
    }
  }

  lemma ProcessorNamesDistinct()
    ensures Distinct(ProcessorNames)
  {
    var ns := ProcessorNames;
    forall i | 0 <= i < |ns|
      ensures forall j | i < j < |ns| :: ns[i] != ns[j]
    {
    }
  }

  lemma MotherboardNamesDistinct()
    ensures Distinct(MotherboardNames)
  {
    var ns := MotherboardNames;
    forall i | 0 <= i < |ns|
      ensures forall j | i < j < |ns| :: ns[i] != ns[j]
    {
    }
  }

  lemma TabletNamesApartFromPhoneNames()
    ensures Apart(PhoneNames, TabletNames)
  {
  }

  lemma LaptopNamesApartFromPhoneNames()
    ensures Apart(PhoneNames, LaptopNames)
  {
  }

  lemma GraphicsCardNamesApartFromPhoneNames()
    ensures Apart(PhoneNames, GraphicsCardNames)
  {
  }

  lemma ProcessorNamesApartFromPhoneNames()
    ensures Apart(PhoneNames, ProcessorNames)
  {
  }

  lemma MotherboardNamesApartFromPhoneNames()
    ensures Apart(PhoneNames, MotherboardNames)
  {
  }

  lemma LaptopNamesApartFromTabletNames()
    ensures Apart(TabletNames, LaptopNames)
  {
  }

  lemma GraphicsCardNamesApartFromTabletNames()
    ensures Apart(TabletNames, GraphicsCardNames)
  {
  }

  lemma ProcessorNamesApartFromTabletNames()
    ensures Apart(TabletNames, ProcessorNames)
  {
  }

  lemma MotherboardNamesApartFromTabletNames()
    ensures Apart(TabletNames, MotherboardNames)
  {
  }

  lemma GraphicsCardNamesApartFromLaptopNames()
    ensures Apart(LaptopNames, GraphicsCardNames)
  {
  }

  lemma ProcessorNamesApartFromLaptopNames()
    ensures Apart(LaptopNames, ProcessorNames)
  {
  }

  lemma MotherboardNamesApartFromLaptopNames()
    ensures Apart(LaptopNames, MotherboardNames)
  {
  }

  lemma ProcessorNamesApartFromGraphicsCardNames()
    ensures Apart(GraphicsCardNames, ProcessorNames)
  {
  }

  lemma MotherboardNamesApartFromGraphicsCardNames()
    ensures Apart(GraphicsCardNames, MotherboardNames)
  {
  }

  lemma MotherboardNamesApartFromProcessorNames()
    ensures Apart(ProcessorNames, MotherboardNames)
  {
  }

  /** No name occurs twice in the catalog, so a name picks out one entry. */
  lemma CatalogNamesDistinct()
    ensures Distinct(Names(Catalog))
    ensures forall i, j | 0 <= i < j < |Catalog| :: Catalog[i].name != Catalog[j].name
  {
    var p, t, l := PhoneNames, TabletNames, LaptopNames;
    var g, c, m := GraphicsCardNames, ProcessorNames, MotherboardNames;
    NamesConcat(Phones, Tablets);
    NamesConcat(Phones + Tablets, Laptops);
    NamesConcat(Phones + Tablets + Laptops, GraphicsCards);
    NamesConcat(Phones + Tablets + Laptops + GraphicsCards, Processors);
    NamesConcat(Phones + Tablets + Laptops + GraphicsCards + Processors, Motherboards);
    PhonesNamesListed();
    TabletsNamesListed();
    LaptopsNamesListed();
    GraphicsCardsNamesListed();
    ProcessorsNamesListed();
    MotherboardsNamesListed();
    assert Names(Catalog) == p + t + l + g + c + m;
    PhoneNamesDistinct();
    TabletNamesDistinct();
    TabletNamesApartFromPhoneNames();
    DistinctConcat(p, t);
    LaptopNamesDistinct();
    LaptopNamesApartFromPhoneNames();
    LaptopNamesApartFromTabletNames();
    ApartConcat(p, t, l);
    DistinctConcat(p + t, l);
    GraphicsCardNamesDistinct();
    GraphicsCardNamesApartFromPhoneNames();
    GraphicsCardNamesApartFromTabletNames();
    GraphicsCardNamesApartFromLaptopNames();
    ApartConcat(p, t, g);
    ApartConcat(p + t, l, g);
    DistinctConcat(p + t + l, g);
    ProcessorNamesDistinct();
    ProcessorNamesApartFromPhoneNames();
    ProcessorNamesApartFromTabletNames();
    ProcessorNamesApartFromLaptopNames();
    ProcessorNamesApartFromGraphicsCardNames();
    ApartConcat(p, t, c);
    ApartConcat(p + t, l, c);
    ApartConcat(p + t + l, g, c);
    DistinctConcat(p + t + l + g, c);
    MotherboardNamesDistinct();
    MotherboardNamesApartFromPhoneNames();
    MotherboardNamesApartFromTabletNames();
    MotherboardNamesApartFromLaptopNames();
    MotherboardNamesApartFromGraphicsCardNames();
    MotherboardNamesApartFromProcessorNames();
    ApartConcat(p, t, m);
    ApartConcat(p + t, l, m);
    ApartConcat(p + t + l, g, m);
    ApartConcat(p + t + l + g, c, m);
    DistinctConcat(p + t + l + g + c, m);
  }

  /** A catalog name picks out one entry: looking a name up by the first
      match finds the only match. */
  lemma CatalogNameIdentifiesGadget(g: Gadget, h: Gadget)
    requires g in Catalog && h in Catalog && g.name == h.name
    ensures g == h
  {
    CatalogNamesDistinct();
    var i :| 0 <= i < |Catalog| && Catalog[i] == g;
    var j :| 0 <= j < |Catalog| && Catalog[j] == h;
    assert i == j;
  }

  // ---------------------------------------------------------------------
  // Rarity values and emoji

  const RarityValues: map<string, int> := map[
    "Trash" := 0, "Common" := 1, "Uncommon" := 2, "Rare" := 3, "Epic" := 4, "Legendary" := 5, "Mythic" := 6
  ]

  /** `get_rarity_value`: a rarity's rank for comparisons, 0 when unknown. */
  function RarityValue(rarity: string): (v: int)
    ensures 0 <= v <= 6
    ensures forall i | 0 <= i < |RarityOrder| :: rarity == RarityOrder[i] ==> v == i
    ensures rarity !in RarityOrder ==> v == 0
  {
    if rarity in RarityValues then RarityValues[rarity] else 0
  }

  /** The rarity order lists the seven rarities in strictly increasing
      value, from 0 to 6. */
  lemma RarityOrderIncreasing()
    ensures forall i | 0 <= i < |RarityOrder| :: RarityValue(RarityOrder[i]) == i
    ensures forall i, j | 0 <= i < j < |RarityOrder| :: RarityValue(RarityOrder[i]) < RarityValue(RarityOrder[j])
  {
  }

  /** The emoji strings as the file stores them: UTF-8 emoji read back as
      Mac OS Roman, one code point per byte. */
  const TrashEmoji := "\U{F8FF}\U{FC}\U{F3}\U{EB}\U{D4}\U{220F}\U{E8}"
  const CommonEmoji := "\U{201A}\U{F6}\U{2122}"
  const UncommonEmoji := "\U{F8FF}\U{FC}\U{FC}\U{A2}"
  const RareEmoji := "\U{F8FF}\U{FC}\U{EE}\U{B5}"
  const EpicEmoji := "\U{F8FF}\U{FC}\U{FC}\U{A3}"
  const LegendaryEmoji := "\U{F8FF}\U{FC}\U{FC}\U{2020}"
  const MythicEmoji := "\U{F8FF}\U{FC}\U{EE}\U{A5}"

  const RarityEmojis: map<string, string> := map[
    "Trash" := TrashEmoji, "Common" := CommonEmoji, "Uncommon" := UncommonEmoji, "Rare" := RareEmoji,
    "Epic" := EpicEmoji, "Legendary" := LegendaryEmoji, "Mythic" := MythicEmoji
  ]

  /** `get_rarity_emoji`: the rarity's emoji, the Common one when unknown. */
  function RarityEmoji(rarity: string): (e: string)
    ensures rarity !in RarityOrder ==> e == CommonEmoji
    ensures rarity in RarityOrder ==> e == RarityEmojis[rarity]
  {
    if rarity in RarityEmojis then RarityEmojis[rarity] else CommonEmoji
  }

  /** The seven rarities have seven different emoji. */
  lemma RarityEmojisDistinct()
    ensures forall i, j | 0 <= i < j < |RarityOrder| :: RarityEmoji(RarityOrder[i]) != RarityEmoji(RarityOrder[j])
  {
  }

  // ---------------------------------------------------------------------
  // Lookup by name

  /** `get_gadget_by_name` over the catalog `catalog` (the source always
      searches the catalog above): a linear search returning the first
      entry with the name, or nothing. */
  method GetGadgetByName(catalog: seq<Gadget>, name: string) returns (g: Option<Gadget>)
    ensures g.None? <==> forall i | 0 <= i < |catalog| :: catalog[i].name != name
    ensures g.Some? ==> exists i | 0 <= i < |catalog| ::
      catalog[i] == g.value && g.value.name == name && forall j | 0 <= j < i :: catalog[j].name != name
  {
    var i := 0;
    while i < |catalog|
      invariant 0 <= i <= |catalog|
      invariant forall j | 0 <= j < i :: catalog[j].name != name
    {
      if catalog[i].name == name {
        return Some(catalog[i]);
      }
      i := i + 1;
    }
    return None;
  }

  /** Each name granted at start names a catalog entry, so looking any of
      them up succeeds. */
  lemma InitGadgetsListed()
    ensures forall n | n in InitGadgets :: exists i | 0 <= i < |Catalog| :: Catalog[i].name == n
  {
    assert Catalog[19] == Phones[19];
    assert Catalog[45] == Laptops[10];
    assert Catalog[87] == Motherboards[6];
  }

  // ---------------------------------------------------------------------
  // The weighted draw

  /** `RARITY_PROBABILITIES`, in dictionary order, keyed by the rarity
      constants. */
  const RarityWeights: seq<(Rarity, int)> := [
    (Trash, 30), (Common, 25), (Uncommon, 20), (Rare, 15), (Epic, 7), (Legendary, 2), (Mythic, 1)
  ]

  /** Sum of the first `n` weights: the cumulative weight before entry `n`. */
  function CumulativeWeight<K>(ws: seq<(K, int)>, n: nat): int
    requires n <= |ws|
  {
    if n == 0 then 0 else CumulativeWeight(ws, n - 1) + ws[n - 1].1
  }

  predicate PositiveWeights<K>(ws: seq<(K, int)>) {
    forall i | 0 <= i < |ws| :: ws[i].1 > 0
  }

  /** The draw weights are positive and add up to 100. */
  lemma RarityWeightsSumTo100()
    ensures PositiveWeights(RarityWeights)
    ensures CumulativeWeight(RarityWeights, |RarityWeights|) == 100
  {
  }

  /** `random.choices(keys, weights)[0]` for a point `x` of `[0, total)`:
      the first key whose cumulative weight exceeds `x`, the last key when
      none does. */
  function ChooseWeighted<K(==)>(ws: seq<(K, int)>, x: real): (key: K)
    requires |ws| > 0
    ensures exists i | 0 <= i < |ws| :: ws[i].0 == key
    decreases |ws|
  {
    if |ws| == 1 || x < ws[0].1 as real then ws[0].0
    else
      var k := ChooseWeighted(ws[1..], x - ws[0].1 as real);
      var i :| 0 <= i < |ws[1..]| && ws[1..][i].0 == k;
      assert ws[i + 1].0 == k;
      k
  }

  lemma {:induction false} CumulativeWeightShift<K>(ws: seq<(K, int)>, n: nat)
    requires 0 < n <= |ws|
    ensures CumulativeWeight(ws, n) == ws[0].1 + CumulativeWeight(ws[1..], n - 1)
    decreases n
  {
    if n > 1 {
      CumulativeWeightShift(ws, n - 1);
    }
  }

  lemma {:induction false} CumulativeWeightMonotone<K>(ws: seq<(K, int)>, m: nat, n: nat)
    requires PositiveWeights(ws) && m <= n <= |ws|
    ensures CumulativeWeight(ws, m) <= CumulativeWeight(ws, n)
    decreases n - m
  {
    if m < n {
      CumulativeWeightMonotone(ws, m, n - 1);
    }
  }

  /** A point falling in entry `i`'s band `[cum(i), cum(i + 1))` selects
      entry `i`; with the point uniform on `[0, total)`, each key is drawn
      with probability weight / total. */
  lemma {:induction false} ChooseWeightedBand<K>(ws: seq<(K, int)>, x: real, i: nat)
    requires PositiveWeights(ws) && i < |ws|
    requires CumulativeWeight(ws, i) as real <= x < CumulativeWeight(ws, i + 1) as real
    ensures ChooseWeighted(ws, x) == ws[i].0
    decreases i
  {
    if i > 0 {
      CumulativeWeightShift(ws, i);
      CumulativeWeightShift(ws, i + 1);
      CumulativeWeightMonotone(ws[1..], 0, i - 1);
      ChooseWeightedBand(ws[1..], x - ws[0].1 as real, i - 1);
    }
  }

  /** The entries of `s` of rarity `r`, in their order in `s`. */
  function OfRarity(s: seq<Gadget>, r: Rarity): (t: seq<Gadget>)
    ensures |t| <= |s|
    decreases |s|
  {
    if |s| == 0 then []
    else OfRarity(s[..|s| - 1], r) + (if s[|s| - 1].rarity == r then [s[|s| - 1]] else [])
  }

  /** A group holds only entries of `s`, all of the group's rarity. */
  lemma {:induction false} OfRaritySound(s: seq<Gadget>, r: Rarity)
    ensures forall j | 0 <= j < |OfRarity(s, r)| :: OfRarity(s, r)[j] in s && OfRarity(s, r)[j].rarity == r
    decreases |s|
  {
    if |s| > 0 {
      OfRaritySound(s[..|s| - 1], r);
      var t := OfRarity(s, r);
      var u := OfRarity(s[..|s| - 1], r);
      forall j | 0 <= j < |t|
        ensures t[j] in s && t[j].rarity == r
      {
        if j < |u| {
          assert t[j] == u[j];
          assert u[j] in s[..|s| - 1];
        }
      }
    }
  }

  /** Every entry lands in the group of its own rarity: with
      `OfRaritySound`, grouping partitions the catalog. */
  lemma {:induction false} OfRarityComplete(s: seq<Gadget>, k: nat)
    requires k < |s|
    ensures s[k] in OfRarity(s, s[k].rarity)
    decreases |s|
  {
    if k < |s| - 1 {
      OfRarityComplete(s[..|s| - 1], k);
    }
  }

  lemma OfRarityStep(s: seq<Gadget>, i: nat, r: Rarity)
    requires i < |s|
    ensures OfRarity(s[..i + 1], r) == OfRarity(s[..i], r) + (if s[i].rarity == r then [s[i]] else [])
  {
    assert s[..i + 1][..i] == s[..i];
  }

  /** The rarities occurring in `s`. */
  function RaritiesIn(s: seq<Gadget>): set<Rarity>
    decreases |s|
  {
    if |s| == 0 then {} else RaritiesIn(s[..|s| - 1]) + {s[|s| - 1].rarity}
  }

  /** `RaritiesIn` holds exactly the rarities of the entries. */
  lemma {:induction false} RaritiesInExact(s: seq<Gadget>)
    ensures forall k | 0 <= k < |s| :: s[k].rarity in RaritiesIn(s)
    ensures forall r | r in RaritiesIn(s) :: exists k | 0 <= k < |s| :: s[k].rarity == r
    decreases |s|
  {
    if |s| > 0 {
      var u := s[..|s| - 1];
      RaritiesInExact(u);
      forall r | r in RaritiesIn(s)
        ensures exists k | 0 <= k < |s| :: s[k].rarity == r
      {
        if r in RaritiesIn(u) {
          var k :| 0 <= k < |u| && u[k].rarity == r;
          assert s[k].rarity == r;
        } else {
          assert s[|s| - 1].rarity == r;
        }
      }
      forall k | 0 <= k < |s|
        ensures s[k].rarity in RaritiesIn(s)
      {
        if k < |u| {
          assert s[k] == u[k];
        }
      }
    }
  }

  lemma InRaritiesIn(s: seq<Gadget>, k: nat)
    requires k < |s|
    ensures s[k].rarity in RaritiesIn(s)
  {
    RaritiesInExact(s);
  }

  /** A prefix has no rarity the whole sequence lacks. */
  lemma {:induction false} RaritiesInPrefix(s: seq<Gadget>, n: nat)
    requires n <= |s|
    ensures RaritiesIn(s[..n]) <= RaritiesIn(s)
    decreases |s| - n
  {
    if n < |s| {
      RaritiesInPrefix(s, n + 1);
      RaritiesStep(s, n);
    } else {
      assert s[..n] == s;
    }
  }

  lemma RaritiesStep(s: seq<Gadget>, i: nat)
    requires i < |s|
    ensures RaritiesIn(s[..i + 1]) == RaritiesIn(s[..i]) + {s[i].rarity}
  {
    assert s[..i + 1][..i] == s[..i];
  }

  lemma {:induction false} OfRarityAbsent(s: seq<Gadget>, r: Rarity)
    requires r !in RaritiesIn(s)
    ensures OfRarity(s, r) == []
    decreases |s|
  {
    if |s| > 0 {
      OfRarityAbsent(s[..|s| - 1], r);
    }
  }

  /** The grouping of `get_random_gadget` as a value: entry after entry,
      each appended to its rarity's list, the list created empty when
      absent. */
  function Grouped(s: seq<Gadget>): map<Rarity, seq<Gadget>>
    decreases |s|
  {
    if |s| == 0 then map[]
    else
      var g, last := Grouped(s[..|s| - 1]), s[|s| - 1];
      g[last.rarity := (if last.rarity in g then g[last.rarity] else []) + [last]]
  }

  /** The grouping has one list per rarity that occurs, each list the
      entries of that rarity in order. */
  lemma {:induction false} GroupedExact(s: seq<Gadget>)
    ensures Grouped(s).Keys == RaritiesIn(s)
    ensures forall r | r in Grouped(s) :: Grouped(s)[r] == OfRarity(s, r)
    decreases |s|
  {
    if |s| > 0 {
      var i := |s| - 1;
      assert s[..i + 1] == s;
      GroupedExact(s[..i]);
      var g, r := Grouped(s[..i]), s[i].rarity;
      RaritiesStep(s, i);
      if r !in g {
        OfRarityAbsent(s[..i], r);
      }
      forall q | q in Grouped(s)
        ensures Grouped(s)[q] == OfRarity(s, q)
      {
        OfRarityStep(s, i, q);
      }
    }
  }

  /** The grouping loop of `get_random_gadget`: one list per rarity that
      occurs, each list in catalog order. */
  method GroupByRarity(s: seq<Gadget>) returns (groups: map<Rarity, seq<Gadget>>)
    ensures groups.Keys == RaritiesIn(s)
    ensures forall r | r in groups :: groups[r] == OfRarity(s, r)
  {
    groups := map[];
    var i := 0;
    while i < |s|
      invariant 0 <= i <= |s|
      invariant groups == Grouped(s[..i])
    {
      assert s[..i + 1][..i] == s[..i];
      var r := s[i].rarity;
      if r !in groups {
        groups := groups[r := []];
      }
      groups := groups[r := groups[r] + [s[i]]];
      i := i + 1;
    }
    assert s[..i] == s;
    GroupedExact(s);
  }

  /** `get_random_gadget` for a `random.random()` value `x`: the weights
      select a rarity; when `catalog` has entries of that rarity the result
      is one of them, otherwise any entry (the fallback draw). Both uniform
      picks are nondeterministic choices. */
  method GetRandomGadget(catalog: seq<Gadget>, x: real) returns (g: Gadget)
    requires |catalog| > 0
    requires 0.0 <= x < 1.0
    ensures g in catalog
    ensures ChooseWeighted(RarityWeights, x * 100.0) in RaritiesIn(catalog) ==>
      g.rarity == ChooseWeighted(RarityWeights, x * 100.0)
  {
    var groups := GroupByRarity(catalog);
    RarityWeightsSumTo100();
    var selected := ChooseWeighted(RarityWeights, x * CumulativeWeight(RarityWeights, |RarityWeights|) as real);
    if selected in groups && |groups[selected]| > 0 {
      OfRaritySound(catalog, selected);
      var j :| 0 <= j < |groups[selected]|;
      g := groups[selected][j];
    } else {
      if selected in RaritiesIn(catalog) {
        RaritiesInExact(catalog);
        var k :| 0 <= k < |catalog| && catalog[k].rarity == selected;
        OfRarityComplete(catalog, k);
      }
      var k :| 0 <= k < |catalog|;
      g := catalog[k];
    }
  }

  /** The phones alone already cover every rarity. */
  lemma PhonesCoverEveryRarity()
    ensures forall r: Rarity :: r in RaritiesIn(Phones)
  {
    InRaritiesIn(Phones, 0);
    InRaritiesIn(Phones, 4);
    InRaritiesIn(Phones, 7);
    InRaritiesIn(Phones, 10);
    InRaritiesIn(Phones, 13);
    InRaritiesIn(Phones, 16);
    InRaritiesIn(Phones, 19);
    assert Phones[0].rarity == Trash && Phones[4].rarity == Common && Phones[7].rarity == Uncommon;
    assert Phones[10].rarity == Rare && Phones[13].rarity == Epic;
    assert Phones[16].rarity == Legendary && Phones[19].rarity == Mythic;
    EveryRarityIn(Phones);
  }

  /** The seven rarities are all the rarities there are. */
  lemma EveryRarityIn(s: seq<Gadget>)
    requires Trash in RaritiesIn(s) && Common in RaritiesIn(s) && Uncommon in RaritiesIn(s)
    requires Rare in RaritiesIn(s) && Epic in RaritiesIn(s) && Legendary in RaritiesIn(s) && Mythic in RaritiesIn(s)
    ensures forall r: Rarity :: r in RaritiesIn(s)
  {
    forall r: Rarity
      ensures r in RaritiesIn(s)
    {
      match r
      case Trash =>
      case Common =>
      case Uncommon =>
      case Rare =>
      case Epic =>
      case Legendary =>
      case Mythic =>
    }
  }

  /** Each weighted rarity has at least one entry in the catalog, so the
      fallback draw of `get_random_gadget` is never taken there. */
  lemma EveryWeightedRarityStocked()
    ensures forall i | 0 <= i < |RarityWeights| :: RarityWeights[i].0 in RaritiesIn(Catalog)
  {
    PhonesCoverEveryRarity();
    RaritiesInPrefix(Catalog, |Phones|);
    assert Catalog[..|Phones|] == Phones;
  }

  /** Over the catalog, the draw always yields an entry of exactly the
      rarity the weights select. */
  lemma CatalogDrawHasSelectedRarity(x: real)
    requires 0.0 <= x < 1.0
    ensures ChooseWeighted(RarityWeights, x * 100.0) in RaritiesIn(Catalog)
  {
    EveryWeightedRarityStocked();
    var key := ChooseWeighted(RarityWeights, x * 100.0);
    var i :| 0 <= i < |RarityWeights| && RarityWeights[i].0 == key;
  }

  /** `get_random_gadget()` as the handlers call it, over the catalog: the
      selected rarity always has entries, so the fallback draw never runs. */
  method DrawFromCatalog(x: real) returns (g: Gadget)
    requires 0.0 <= x < 1.0
    ensures g in Catalog && g.rarity == ChooseWeighted(RarityWeights, x * 100.0)
  {
    g := GetRandomGadget(Catalog, x);
    CatalogDrawHasSelectedRarity(x);
  }
}
