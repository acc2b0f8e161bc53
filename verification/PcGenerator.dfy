/** The PC spec generator: the highest of the three component rarities
    picks one of five tiers, each tier fixes the RAM, storage, power supply
    and case strings, and a price is read back from those strings. */
module PcGenerator {
  import opened Strings
  import opened Config
  import opened Gadgets

  // ---------------------------------------------------------------------
  // Highest rarity

  /** Index of the entry the scan of `get_highest_rarity` keeps: the first
      entry of greatest value; -1 for an empty list. */
  function LeaderIndex(rs: seq<string>): (k: int)
    ensures -1 <= k < |rs|
    ensures |rs| > 0 ==> k >= 0
    decreases |rs|
  {
    if |rs| == 0 then -1
    else
      var j := LeaderIndex(rs[..|rs| - 1]);
      if j == -1 || RarityValue(rs[|rs| - 1]) > RarityValue(rs[j]) then |rs| - 1 else j
  }

  /** `get_highest_rarity`: the entry the scan keeps, "Trash" for an empty
      list. */
  function HighestRarity(rs: seq<string>): (h: string)
    ensures |rs| == 0 ==> h == "Trash"
    ensures |rs| > 0 ==> h in rs
  {
    var k := LeaderIndex(rs);
    if k == -1 then "Trash" else rs[k]
  }

  /** The kept entry has the greatest value, and every earlier entry has a
      strictly smaller one, so ties go to the earliest entry. */
  lemma {:induction false} LeaderIndexIsEarliestMaximum(rs: seq<string>)
    requires |rs| > 0
    ensures forall i | 0 <= i < |rs| :: RarityValue(rs[i]) <= RarityValue(rs[LeaderIndex(rs)])
    ensures forall i | 0 <= i < LeaderIndex(rs) :: RarityValue(rs[i]) < RarityValue(rs[LeaderIndex(rs)])
    decreases |rs|
  {
    var u := rs[..|rs| - 1];
    if |u| > 0 {
      LeaderIndexIsEarliestMaximum(u);
      assert forall i | 0 <= i < |u| :: rs[i] == u[i];
    }
  }

  /** What `get_highest_rarity` returns: "Trash" for an empty list, and
      otherwise a member of greatest value with no member of that value
      before it. */
  lemma HighestRarityCharacterized(rs: seq<string>)
    ensures |rs| == 0 ==> HighestRarity(rs) == "Trash"
    ensures |rs| > 0 ==> exists k | 0 <= k < |rs| ::
      && rs[k] == HighestRarity(rs)
      && (forall i | 0 <= i < |rs| :: RarityValue(rs[i]) <= RarityValue(rs[k]))
      && (forall i | 0 <= i < k :: RarityValue(rs[i]) < RarityValue(rs[k]))
  {
    if |rs| > 0 {
      LeaderIndexIsEarliestMaximum(rs);
      var k := LeaderIndex(rs);
      assert rs[k] == HighestRarity(rs);
    }
  }

  /** The scan loop of `get_highest_rarity`. */
  method GetHighestRarity(rs: seq<string>) returns (highest: string)
    ensures highest == HighestRarity(rs)
  {
    var highestValue := -1;
    highest := "Trash";
    var i := 0;
    while i < |rs|
      invariant 0 <= i <= |rs|
      invariant LeaderIndex(rs[..i]) == -1 ==> highestValue == -1 && highest == "Trash"
      invariant LeaderIndex(rs[..i]) != -1 ==>
        highest == rs[LeaderIndex(rs[..i])] && highestValue == RarityValue(highest)
    {
      assert rs[..i + 1][..i] == rs[..i];
      var value := RarityValue(rs[i]);
      if value > highestValue {
        highestValue := value;
        highest := rs[i];
      }
      i := i + 1;
    }
    assert rs[..i] == rs;
  }

  // ---------------------------------------------------------------------
  // Component generators

  /** The specs of each tier, from Trash and Common up to Mythic. */
  const RamByTier: seq<string> := ["8GB DDR4", "16GB DDR4", "32GB DDR5", "32GB DDR5", "64GB DDR5"]
  const StorageByTier: seq<string> := ["256GB SATA SSD", "512GB NVMe SSD", "1TB NVMe SSD", "2TB NVMe SSD", "2TB+ NVMe SSD"]
  const PsuByTier: seq<string> := ["500W 80+ Bronze", "750W 80+ Gold", "850W 80+ Gold", "1000W 80+ Platinum", "1200W 80+ Titanium"]
  const CaseByTier: seq<string> := ["Budget ATX Case", "Mid-Tower ATX Case", "Full-Tower ATX Case", "Premium Full-Tower Case", "Ultimate Premium Case"]

  /** `generate_ram`. */
  function GenerateRam(rarity: string): (spec: string)
    ensures spec == RamByTier[Tier(rarity)]
  {
    var v := RarityValue(rarity);
    if v <= RarityValue("Common") then "8GB DDR4"
    else if v <= RarityValue("Rare") then "16GB DDR4"
    else if v == RarityValue("Epic") then "32GB DDR5"
    else if v == RarityValue("Legendary") then "32GB DDR5"
    else "64GB DDR5"
  }

  /** `generate_storage`. */
  function GenerateStorage(rarity: string): (spec: string)
    ensures spec == StorageByTier[Tier(rarity)]
  {
    var v := RarityValue(rarity);
    if v <= RarityValue("Common") then "256GB SATA SSD"
    else if v <= RarityValue("Rare") then "512GB NVMe SSD"
    else if v == RarityValue("Epic") then "1TB NVMe SSD"
    else if v == RarityValue("Legendary") then "2TB NVMe SSD"
    else "2TB+ NVMe SSD"
  }

  /** `generate_psu`. */
  function GeneratePsu(rarity: string): (spec: string)
    ensures spec == PsuByTier[Tier(rarity)]
  {
    var v := RarityValue(rarity);
    if v <= RarityValue("Common") then "500W 80+ Bronze"
    else if v <= RarityValue("Rare") then "750W 80+ Gold"
    else if v == RarityValue("Epic") then "850W 80+ Gold"
    else if v == RarityValue("Legendary") then "1000W 80+ Platinum"
    else "1200W 80+ Titanium"
  }

  /** `generate_case`. */
  function GenerateCase(rarity: string): (spec: string)
    ensures spec == CaseByTier[Tier(rarity)]
  {
    var v := RarityValue(rarity);
    if v <= RarityValue("Common") then "Budget ATX Case"
    else if v <= RarityValue("Rare") then "Mid-Tower ATX Case"
    else if v == RarityValue("Epic") then "Full-Tower ATX Case"
    else if v == RarityValue("Legendary") then "Premium Full-Tower Case"
    else "Ultimate Premium Case"
  }

  /** The five spec tiers: Trash and Common, Uncommon and Rare, Epic,
      Legendary, Mythic. */
  function Tier(rarity: string): (t: nat)
    ensures t <= 4
  {
    var v := RarityValue(rarity);
    if v <= 1 then 0 else if v <= 3 then 1 else v - 2
  }

  /** Each generator depends on the rarity only through its tier, and RAM
      is the same for the Epic and Legendary tiers. */
  lemma GeneratorsFollowTier(a: string, b: string)
    requires Tier(a) == Tier(b)
    ensures GenerateRam(a) == GenerateRam(b) && GenerateStorage(a) == GenerateStorage(b)
    ensures GeneratePsu(a) == GeneratePsu(b) && GenerateCase(a) == GenerateCase(b)
    ensures Tier(a) in {2, 3} ==> GenerateRam(a) == "32GB DDR5"
  {
  }

  // ---------------------------------------------------------------------
  // Price of a spec set

  /** The RAM part of `calculate_spec_price`. */
  function RamPrice(ram: string): int {
    if Contains(ram, "8GB") then 40
    else if Contains(ram, "16GB") then 80
    else if Contains(ram, "32GB") then 150
    else if Contains(ram, "64GB") then 300
    else 0
  }

  /** The storage part; "2TB+" matches "2TB". */
  function StoragePrice(storage: string): int {
    if Contains(storage, "256GB") then 30
    else if Contains(storage, "512GB") then 60
    else if Contains(storage, "1TB") then 100
    else if Contains(storage, "2TB") then 180
    else 0
  }

  /** The power-supply part. */
  function PsuPrice(psu: string): int {
    if Contains(psu, "500W") then 50
    else if Contains(psu, "750W") then 100
    else if Contains(psu, "850W") then 130
    else if Contains(psu, "1000W") then 200
    else if Contains(psu, "1200W") then 300
    else 0
  }

  /** The case part; a "Premium" case is never priced as a full tower. */
  function CasePrice(case_: string): int {
    if Contains(case_, "Budget") then 40
    else if Contains(case_, "Mid-Tower") then 80
    else if Contains(case_, "Full-Tower") && !Contains(case_, "Premium") then 120
    else if Contains(case_, "Premium") then 200
    else 0
  }

  /** `calculate_spec_price`: one tier price per component. */
  function SpecPrice(ram: string, storage: string, psu: string, case_: string): (price: int)
    ensures 0 <= price <= 300 + 180 + 300 + 200
  {
    RamPrice(ram) + StoragePrice(storage) + PsuPrice(psu) + CasePrice(case_)
  }

  /** Each component price is one of its listed amounts, and 0 for a
      string naming none of its tiers. */
  lemma ComponentPricesListed(ram: string, storage: string, psu: string, case_: string)
    ensures RamPrice(ram) in {0, 40, 80, 150, 300}
    ensures StoragePrice(storage) in {0, 30, 60, 100, 180}
    ensures PsuPrice(psu) in {0, 50, 100, 130, 200, 300}
    ensures CasePrice(case_) in {0, 40, 80, 120, 200}
    ensures !Contains(ram, "8GB") && !Contains(ram, "16GB") && !Contains(ram, "32GB") && !Contains(ram, "64GB")
      ==> RamPrice(ram) == 0
    ensures (!Contains(case_, "Budget") && !Contains(case_, "Mid-Tower") && !Contains(case_, "Full-Tower") &&
      !Contains(case_, "Premium")) ==> CasePrice(case_) == 0
  {
  }

  /** "2TB+" storage is priced like "2TB", and the premium full tower like
      any premium case. */
  lemma PricingQuirks()
    ensures StoragePrice("2TB+ NVMe SSD") == StoragePrice("2TB NVMe SSD") == 180
    ensures CasePrice("Premium Full-Tower Case") == 200
  {
    StorageTier4();
    StorageTier3();
    CaseTier3();
  }

  // The strings of each tier, priced one by one.

  lemma RamTier0() ensures RamPrice("8GB DDR4") == 40 {
    ContainsAt("8GB DDR4", "8GB", 0);
  }

  lemma RamTier1() ensures RamPrice("16GB DDR4") == 80 {
    MissingCharNotContained("16GB DDR4", "8GB", 0);
    ContainsAt("16GB DDR4", "16GB", 0);
  }

  lemma RamTier23() ensures RamPrice("32GB DDR5") == 150 {
    MissingCharNotContained("32GB DDR5", "8GB", 0);
    MissingCharNotContained("32GB DDR5", "16GB", 0);
    ContainsAt("32GB DDR5", "32GB", 0);
  }

  lemma RamTier4() ensures RamPrice("64GB DDR5") == 300 {
    MissingCharNotContained("64GB DDR5", "8GB", 0);
    MissingCharNotContained("64GB DDR5", "16GB", 0);
    MissingCharNotContained("64GB DDR5", "32GB", 0);
    ContainsAt("64GB DDR5", "64GB", 0);
  }

  lemma StorageTier0() ensures StoragePrice("256GB SATA SSD") == 30 {
    ContainsAt("256GB SATA SSD", "256GB", 0);
  }

  lemma StorageTier1() ensures StoragePrice("512GB NVMe SSD") == 60 {
    MissingCharNotContained("512GB NVMe SSD", "256GB", 2);
    ContainsAt("512GB NVMe SSD", "512GB", 0);
  }

  lemma StorageTier2() ensures StoragePrice("1TB NVMe SSD") == 100 {
    MissingCharNotContained("1TB NVMe SSD", "256GB", 0);
    MissingCharNotContained("1TB NVMe SSD", "512GB", 0);
    ContainsAt("1TB NVMe SSD", "1TB", 0);
  }

  lemma StorageTier3() ensures StoragePrice("2TB NVMe SSD") == 180 {
    MissingCharNotContained("2TB NVMe SSD", "256GB", 1);
    MissingCharNotContained("2TB NVMe SSD", "512GB", 0);
    MissingCharNotContained("2TB NVMe SSD", "1TB", 0);
    ContainsAt("2TB NVMe SSD", "2TB", 0);
  }

  lemma StorageTier4() ensures StoragePrice("2TB+ NVMe SSD") == 180 {
    MissingCharNotContained("2TB+ NVMe SSD", "256GB", 1);
    MissingCharNotContained("2TB+ NVMe SSD", "512GB", 0);
    MissingCharNotContained("2TB+ NVMe SSD", "1TB", 0);
    ContainsAt("2TB+ NVMe SSD", "2TB", 0);
  }

  lemma PsuTier0() ensures PsuPrice("500W 80+ Bronze") == 50 {
    ContainsAt("500W 80+ Bronze", "500W", 0);
  }

  lemma PsuTier1() ensures PsuPrice("750W 80+ Gold") == 100 {
    assert "750W 80+ Gold"[0..4][0] == '7';
    AnchoredNotContained("750W 80+ Gold", "500W", 3, 3);
    ContainsAt("750W 80+ Gold", "750W", 0);
  }

  lemma PsuTier2() ensures PsuPrice("850W 80+ Gold") == 130 {
    assert "850W 80+ Gold"[0..4][0] == '8';
    AnchoredNotContained("850W 80+ Gold", "500W", 3, 3);
    MissingCharNotContained("850W 80+ Gold", "750W", 0);
    ContainsAt("850W 80+ Gold", "850W", 0);
  }

  lemma PsuTier3() ensures PsuPrice("1000W 80+ Platinum") == 200 {
    MissingCharNotContained("1000W 80+ Platinum", "500W", 0);
    MissingCharNotContained("1000W 80+ Platinum", "750W", 0);
    MissingCharNotContained("1000W 80+ Platinum", "850W", 1);
    ContainsAt("1000W 80+ Platinum", "1000W", 0);
  }

  lemma PsuTier4() ensures PsuPrice("1200W 80+ Titanium") == 300 {
    MissingCharNotContained("1200W 80+ Titanium", "500W", 0);
    MissingCharNotContained("1200W 80+ Titanium", "750W", 0);
    MissingCharNotContained("1200W 80+ Titanium", "850W", 1);
    assert "1200W 80+ Titanium"[0..5][1] == '2';
    AnchoredNotContained("1200W 80+ Titanium", "1000W", 4, 4);
    ContainsAt("1200W 80+ Titanium", "1200W", 0);
  }

  lemma CaseTier0() ensures CasePrice("Budget ATX Case") == 40 {
    ContainsAt("Budget ATX Case", "Budget", 0);
  }

  lemma CaseTier1() ensures CasePrice("Mid-Tower ATX Case") == 80 {
    MissingCharNotContained("Mid-Tower ATX Case", "Budget", 0);
    ContainsAt("Mid-Tower ATX Case", "Mid-Tower", 0);
  }

  lemma CaseTier2() ensures CasePrice("Full-Tower ATX Case") == 120 {
    MissingCharNotContained("Full-Tower ATX Case", "Budget", 0);
    MissingCharNotContained("Full-Tower ATX Case", "Mid-Tower", 0);
    MissingCharNotContained("Full-Tower ATX Case", "Premium", 0);
    ContainsAt("Full-Tower ATX Case", "Full-Tower", 0);
  }

  lemma CaseTier3() ensures CasePrice("Premium Full-Tower Case") == 200 {
    MissingCharNotContained("Premium Full-Tower Case", "Budget", 0);
    MissingCharNotContained("Premium Full-Tower Case", "Mid-Tower", 0);
    ContainsAt("Premium Full-Tower Case", "Premium", 0);
  }

  lemma CaseTier4() ensures CasePrice("Ultimate Premium Case") == 200 {
    MissingCharNotContained("Ultimate Premium Case", "Budget", 0);
    MissingCharNotContained("Ultimate Premium Case", "Mid-Tower", 0);
    ContainsAt("Ultimate Premium Case", "Premium", 9);
  }

  /** The price of the specs generated for a tier. */
  function TierPrice(t: nat): int
    requires t <= 4
  {
    [160, 320, 500, 730, 980][t]
  }

  /** Generated specs cost 160, 320, 500, 730 or 980 by tier. */
  lemma GeneratedSpecPrice(rarity: string)
    ensures SpecPrice(GenerateRam(rarity), GenerateStorage(rarity), GeneratePsu(rarity), GenerateCase(rarity))
      == TierPrice(Tier(rarity))
  {
    var v := RarityValue(rarity);
    var ram, storage, psu, case_ := GenerateRam(rarity), GenerateStorage(rarity), GeneratePsu(rarity), GenerateCase(rarity);
    if v <= 1 {
      assert ram == "8GB DDR4" && storage == "256GB SATA SSD" && psu == "500W 80+ Bronze" && case_ == "Budget ATX Case";
      RamTier0(); StorageTier0(); PsuTier0(); CaseTier0();
    } else if v <= 3 {
      assert ram == "16GB DDR4" && storage == "512GB NVMe SSD" && psu == "750W 80+ Gold" && case_ == "Mid-Tower ATX Case";
      RamTier1(); StorageTier1(); PsuTier1(); CaseTier1();
    } else if v == 4 {
      assert ram == "32GB DDR5" && storage == "1TB NVMe SSD" && psu == "850W 80+ Gold" && case_ == "Full-Tower ATX Case";
      RamTier23(); StorageTier2(); PsuTier2(); CaseTier2();
    } else if v == 5 {
      assert ram == "32GB DDR5" && storage == "2TB NVMe SSD" && psu == "1000W 80+ Platinum";
      assert case_ == "Premium Full-Tower Case";
      RamTier23(); StorageTier3(); PsuTier3(); CaseTier3();
    } else {
      assert ram == "64GB DDR5" && storage == "2TB+ NVMe SSD" && psu == "1200W 80+ Titanium";
      assert case_ == "Ultimate Premium Case";
      RamTier4(); StorageTier4(); PsuTier4(); CaseTier4();
    }
  }

  /** A higher rarity never yields cheaper specs. */
  lemma GeneratedSpecPriceMonotone(a: string, b: string)
    requires RarityValue(a) <= RarityValue(b)
    ensures SpecPrice(GenerateRam(a), GenerateStorage(a), GeneratePsu(a), GenerateCase(a))
      <= SpecPrice(GenerateRam(b), GenerateStorage(b), GeneratePsu(b), GenerateCase(b))
  {
    GeneratedSpecPrice(a);
    GeneratedSpecPrice(b);
  }

  // ---------------------------------------------------------------------
  // generate_pc_specs

  /** The specs dictionary of a built PC. */
  datatype PcSpecs = PcSpecs(ram: string, storage: string, psu: string, case_: string)

  /** The specs as the `ram`/`storage`/`psu`/`case` dictionary. */
  function SpecsMap(s: PcSpecs): (m: map<string, string>)
    ensures m.Keys == {"ram", "storage", "psu", "case"}
    ensures m["ram"] == s.ram && m["storage"] == s.storage && m["psu"] == s.psu && m["case"] == s.case_
  {
    map["ram" := s.ram, "storage" := s.storage, "psu" := s.psu, "case" := s.case_]
  }

  /** `generate_pc_specs`: the specs, the highest rarity and the price. */
  function GeneratePcSpecs(gpuRarity: string, cpuRarity: string, mbRarity: string): (r: (PcSpecs, string, int))
    ensures r.1 in [gpuRarity, cpuRarity, mbRarity]
    ensures r.0 == PcSpecs(RamByTier[Tier(r.1)], StorageByTier[Tier(r.1)], PsuByTier[Tier(r.1)], CaseByTier[Tier(r.1)])
    ensures r.2 == SpecPrice(r.0.ram, r.0.storage, r.0.psu, r.0.case_)
  {
    var highest := HighestRarity([gpuRarity, cpuRarity, mbRarity]);
    var specs := PcSpecs(GenerateRam(highest), GenerateStorage(highest), GeneratePsu(highest), GenerateCase(highest));
    (specs, highest, SpecPrice(specs.ram, specs.storage, specs.psu, specs.case_))
  }

  /** The generated PC carries the highest of the three rarities, specs of
      that rarity's tier, and the price of exactly those specs. */
  lemma GeneratePcSpecsMeetsIntent(gpuRarity: string, cpuRarity: string, mbRarity: string)
    ensures var (specs, highest, price) := GeneratePcSpecs(gpuRarity, cpuRarity, mbRarity);
      highest in [gpuRarity, cpuRarity, mbRarity] &&
      RarityValue(gpuRarity) <= RarityValue(highest) && RarityValue(cpuRarity) <= RarityValue(highest) &&
      RarityValue(mbRarity) <= RarityValue(highest) &&
      specs.ram == GenerateRam(highest) && specs.case_ == GenerateCase(highest) &&
      price == SpecPrice(specs.ram, specs.storage, specs.psu, specs.case_) &&
      price == TierPrice(Tier(highest))
  {
    var rs := [gpuRarity, cpuRarity, mbRarity];
    LeaderIndexIsEarliestMaximum(rs);
    GeneratedSpecPrice(HighestRarity(rs));
  }

  /** Among rarity names, the value determines the name. */
  lemma KnownRarityByValue(r: string)
    requires r in RarityOrder
    ensures RarityOrder[RarityValue(r)] == r
  {
  }

  /** For known rarities the highest of three is the known rarity of the
      greatest value, whatever the order. */
  lemma HighestOfThreeKnown(a: string, b: string, c: string)
    requires a in RarityOrder && b in RarityOrder && c in RarityOrder
    ensures var v := RarityValue(a);
      var w := if RarityValue(b) > v then RarityValue(b) else v;
      var m := if RarityValue(c) > w then RarityValue(c) else w;
      HighestRarity([a, b, c]) == RarityOrder[m]
  {
    var rs := [a, b, c];
    LeaderIndexIsEarliestMaximum(rs);
    var k := LeaderIndex(rs);
    assert rs[0] == a && rs[1] == b && rs[2] == c;
    var v := RarityValue(a);
    var w := if RarityValue(b) > v then RarityValue(b) else v;
    var m := if RarityValue(c) > w then RarityValue(c) else w;
    assert RarityValue(rs[k]) == m;
    KnownRarityByValue(rs[k]);
  }

  /** For known rarities, `generate_pc_specs` does not depend on which
      component carries which rarity. */
  lemma GeneratePcSpecsOrderIndependent(a: string, b: string, c: string)
    requires a in RarityOrder && b in RarityOrder && c in RarityOrder
    ensures GeneratePcSpecs(a, b, c) == GeneratePcSpecs(b, a, c)
    ensures GeneratePcSpecs(a, b, c) == GeneratePcSpecs(a, c, b)
    ensures GeneratePcSpecs(a, b, c) == GeneratePcSpecs(c, b, a)
  {
    HighestOfThreeKnown(a, b, c);
    HighestOfThreeKnown(b, a, c);
    HighestOfThreeKnown(a, c, b);
    HighestOfThreeKnown(c, b, a);
  }
}
