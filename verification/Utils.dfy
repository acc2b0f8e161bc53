/** The shared helpers of the bot: the sale price of a PC and the grant of
    the starting gadgets. */
module Utils {
  import opened Wrappers
  import opened Config
  import opened Gadgets
  import opened Database

  /** The float money rounding the program does, kept abstract: `premium`
      is `int(x * 1.15)`, `sale` is `int(x * 0.85)` and `pcSale` is
      `int(x * 1.15 * 0.85)`. */
  datatype Pricing = Pricing(premium: int -> int, sale: int -> int, pcSale: int -> int)

  /** The purchase prices of the listed components that the collection
      holds, each looked up as `get_card` does; missing ones count 0. */
  function ComponentTotal(s: seq<Card>, ids: seq<int>): int
    decreases |ids|
  {
    if |ids| == 0 then 0
    else
      var rest := ComponentTotal(s, ids[..|ids| - 1]);
      match FindCard(s, ids[|ids| - 1])
      case Some(c) => rest + c.purchasePrice
      case None => rest
  }

  /** The total is the sum over the components found; with all of them
      missing it is 0. */
  lemma {:induction false} ComponentTotalOfMissing(s: seq<Card>, ids: seq<int>)
    requires forall i | 0 <= i < |ids| :: !HasId(s, ids[i])
    ensures ComponentTotal(s, ids) == 0
    decreases |ids|
  {
    if |ids| > 0 {
      ComponentTotalOfMissing(s, ids[..|ids| - 1]);
    }
  }

  /** The total over three components all present. */
  lemma ComponentTotalOfThree(s: seq<Card>, a: Card, b: Card, c: Card)
    requires FindCard(s, a.cardId) == Some(a) && FindCard(s, b.cardId) == Some(b) && FindCard(s, c.cardId) == Some(c)
    ensures ComponentTotal(s, [a.cardId, b.cardId, c.cardId]) == a.purchasePrice + b.purchasePrice + c.purchasePrice
  {
    assert [a.cardId][..0] == [];
    assert ComponentTotal(s, [a.cardId]) == a.purchasePrice;
    assert [a.cardId, b.cardId][..1] == [a.cardId];
    assert ComponentTotal(s, [a.cardId, b.cardId]) == a.purchasePrice + b.purchasePrice;
    assert [a.cardId, b.cardId, c.cardId][..2] == [a.cardId, b.cardId];
  }

  /** The price `calculate_pc_sale_price` gives a PC whose components
      total `componentTotal`: the spec part is what the purchase price adds
      over the premium of the components, and the sale applies to the
      components plus that spec part. */
  function PcSalePrice(pricing: Pricing, componentTotal: int, pcPrice: int): int {
    var specPrice := pcPrice - pricing.premium(componentTotal);
    pricing.pcSale(componentTotal + specPrice)
  }

  /** `calculate_pc_sale_price`: sums the components found in the
      collection, then prices the PC. */
  method CalculatePcSalePrice(store: Store, pricing: Pricing, uid: int, pc: Card) returns (price: int)
    ensures price == PcSalePrice(pricing, ComponentTotal(store.UserCards(uid), pc.components), pc.purchasePrice)
  {
    var total := 0;
    var i := 0;
    while i < |pc.components|
      invariant 0 <= i <= |pc.components|
      invariant total == ComponentTotal(store.UserCards(uid), pc.components[..i])
    {
      assert pc.components[..i + 1][..i] == pc.components[..i];
      var comp := store.GetCard(uid, pc.components[i]);
      if comp.Some? {
        total := total + comp.value.purchasePrice;
      }
      i := i + 1;
    }
    assert pc.components[..i] == pc.components;
    price := PcSalePrice(pricing, total, pc.purchasePrice);
  }

  /** A PC whose price was set to the premium of its parts plus a spec
      price sells for the sale of parts plus spec price: the two
      subtractions of the computation cancel. */
  lemma PcSalePriceOfBuiltPc(pricing: Pricing, componentTotal: int, specPrice: int)
    ensures PcSalePrice(pricing, componentTotal, pricing.premium(componentTotal) + specPrice)
      == pricing.pcSale(componentTotal + specPrice)
  {
  }

  // ---------------------------------------------------------------------
  // grant_initial_gadgets

  /** Some catalog entry has the name. */
  predicate Listed(catalog: seq<Gadget>, name: string) {
    exists i | 0 <= i < |catalog| :: catalog[i].name == name
  }

  /** `card` is a fresh copy of catalog entry `g`. */
  predicate CopiedFrom(card: Card, g: Gadget) {
    && card.gadgetName == g.name
    && card.category == CategoryName(g.category)
    && card.purchasePrice == g.price
    && card.rarity == RarityName(g.rarity)
    && card.inPc.None? && card.components == [] && card.specs == map[]
  }

  lemma HasGadgetPrefix(s: seq<Card>, t: seq<Card>, name: string)
    requires |s| <= |t| && t[..|s|] == s
    ensures HasGadget(s, name) ==> HasGadget(t, name)
  {
    if HasGadget(s, name) {
      var i :| 0 <= i < |s| && s[i].gadgetName == name;
      assert t[i] == s[i];
    }
  }

  /** `cur` is `before` followed only by copies of catalog entries for
      starting gadgets that `before` lacks. */
  predicate GrantedOnto(before: seq<Card>, cur: seq<Card>, catalog: seq<Gadget>, names: seq<string>) {
    && |before| <= |cur| && cur[..|before|] == before
    && forall k | |before| <= k < |cur| ::
      && cur[k].gadgetName in names
      && !HasGadget(before, cur[k].gadgetName)
      && exists j | 0 <= j < |catalog| :: CopiedFrom(cur[k], catalog[j])
  }

  /** `cur` is `prior` with one copy of a catalog entry for `name`
      appended, a gadget `prior` lacks. */
  predicate AppendedCopy(prior: seq<Card>, cur: seq<Card>, catalog: seq<Gadget>, name: string) {
    && |cur| == |prior| + 1 && cur[..|prior|] == prior
    && cur[|prior|].gadgetName == name && !HasGadget(prior, name)
    && exists j | 0 <= j < |catalog| :: CopiedFrom(cur[|prior|], catalog[j])
  }

  lemma GrantedOntoStep(before: seq<Card>, prior: seq<Card>, cur: seq<Card>, catalog: seq<Gadget>, names: seq<string>, name: string)
    requires GrantedOnto(before, prior, catalog, names)
    requires AppendedCopy(prior, cur, catalog, name) && name in names
    ensures GrantedOnto(before, cur, catalog, names)
    ensures forall n | HasGadget(prior, n) :: HasGadget(cur, n)
  {
    assert cur[..|before|] == prior[..|before|];
    HasGadgetPrefix(before, prior, name);
    forall n | HasGadget(prior, n)
      ensures HasGadget(cur, n)
    {
      HasGadgetPrefix(prior, cur, n);
    }
    forall k | |before| <= k < |cur|
      ensures && cur[k].gadgetName in names
              && !HasGadget(before, cur[k].gadgetName)
              && exists j | 0 <= j < |catalog| :: CopiedFrom(cur[k], catalog[j])
    {
      if k < |prior| {
        assert cur[k] == prior[k];
      }
    }
  }

  /** A grant that added anything added a listed starting gadget that was
      not owned before. */
  lemma GrantedOntoAddsMissing(before: seq<Card>, cur: seq<Card>, catalog: seq<Gadget>, names: seq<string>)
    requires GrantedOnto(before, cur, catalog, names)
    ensures |cur| > |before| ==> exists n | n in names :: Listed(catalog, n) && !HasGadget(before, n)
  {
    if |cur| > |before| {
      var n := cur[|before|].gadgetName;
      var j :| 0 <= j < |catalog| && CopiedFrom(cur[|before|], catalog[j]);
      assert Listed(catalog, n);
    }
  }

  /** The card lists of users other than `uid` are the same in `before`
      and `after`. */
  predicate ChangedOnlyAt(before: map<int, seq<Card>>, after: map<int, seq<Card>>, uid: int) {
    after == before || (uid in after && after == before[uid := after[uid]])
  }

  lemma ChangedOnlyAtTrans(a: map<int, seq<Card>>, b: map<int, seq<Card>>, c: map<int, seq<Card>>, uid: int)
    requires ChangedOnlyAt(a, b, uid) && ChangedOnlyAt(b, c, uid)
    ensures ChangedOnlyAt(a, c, uid)
  {
  }

  /** One round of the loop of `grant_initial_gadgets`: when the user
      lacks the gadget and the catalog lists it, a copy of its entry is
      appended; otherwise nothing changes. */
  method GrantOne(store: Store, catalog: seq<Gadget>, uid: int, name: string, now: real)
    modifies store
    ensures store.UserCards(uid) == old(store.UserCards(uid)) ||
      AppendedCopy(old(store.UserCards(uid)), store.UserCards(uid), catalog, name)
    ensures Listed(catalog, name) ==> HasGadget(store.UserCards(uid), name)
    ensures store.cards == old(store.cards) || |store.UserCards(uid)| > |old(store.UserCards(uid))|
    ensures ChangedOnlyAt(old(store.cards), store.cards, uid)
    ensures store.users == old(store.users) && store.banned == old(store.banned)
  {
    var owned := store.UserHasGadget(uid, name);
    if !owned {
      var found := GetGadgetByName(catalog, name);
      if found.Some? {
        var g := found.value;
        ghost var prior := store.UserCards(uid);
        ghost var k :| 0 <= k < |catalog| && catalog[k] == g;
        var _ := store.AddCard(uid, g.name, CategoryName(g.category), g.price, RarityName(g.rarity), now);
        assert CopiedFrom(store.UserCards(uid)[|prior|], catalog[k]);
        assert store.UserCards(uid)[..|prior|] == prior;
      }
    }
  }

  /** The loop of `grant_initial_gadgets` over the names `names`, at
      clock reading `now`: for each name the user lacks and the catalog
      lists, a copy of its entry is appended. Existing cards are kept as
      they are, every listed name is owned afterwards, and nothing is added
      when each listed name was already owned, so a second grant adds
      nothing. */
  method GrantGadgets(store: Store, catalog: seq<Gadget>, names: seq<string>, uid: int, now: real)
    modifies store
    ensures GrantedOnto(old(store.UserCards(uid)), store.UserCards(uid), catalog, names)
    ensures forall n | n in names && Listed(catalog, n) :: HasGadget(store.UserCards(uid), n)
    ensures (forall n | n in names && Listed(catalog, n) :: HasGadget(old(store.UserCards(uid)), n))
      ==> store.cards == old(store.cards)
    ensures ChangedOnlyAt(old(store.cards), store.cards, uid)
    ensures store.users == old(store.users) && store.banned == old(store.banned)
  {
    ghost var before := store.UserCards(uid);
    var i := 0;
    while i < |names|
      invariant 0 <= i <= |names|
      invariant GrantedOnto(before, store.UserCards(uid), catalog, names)
      invariant forall j | 0 <= j < i && Listed(catalog, names[j]) :: HasGadget(store.UserCards(uid), names[j])
      invariant store.cards == old(store.cards) || |store.UserCards(uid)| > |before|
      invariant ChangedOnlyAt(old(store.cards), store.cards, uid)
      invariant store.users == old(store.users) && store.banned == old(store.banned)
    {
      ghost var prior := store.UserCards(uid);
      ghost var priorCards := store.cards;
      GrantOne(store, catalog, uid, names[i], now);
      ChangedOnlyAtTrans(old(store.cards), priorCards, store.cards, uid);
      if store.UserCards(uid) != prior {
        GrantedOntoStep(before, prior, store.UserCards(uid), catalog, names, names[i]);
      }
      i := i + 1;
    }
    forall n | n in names && Listed(catalog, n)
      ensures HasGadget(store.UserCards(uid), n)
    {
      var j :| 0 <= j < |names| && names[j] == n;
    }
    GrantedOntoAddsMissing(before, store.UserCards(uid), catalog, names);
  }

  /** `grant_initial_gadgets`: the grant of the starting gadgets. */
  method GrantInitialGadgets(store: Store, catalog: seq<Gadget>, uid: int, now: real)
    modifies store
    ensures GrantedOnto(old(store.UserCards(uid)), store.UserCards(uid), catalog, InitGadgets)
    ensures forall n | n in InitGadgets && Listed(catalog, n) :: HasGadget(store.UserCards(uid), n)
    ensures (forall n | n in InitGadgets && Listed(catalog, n) :: HasGadget(old(store.UserCards(uid)), n))
      ==> store.cards == old(store.cards)
    ensures ChangedOnlyAt(old(store.cards), store.cards, uid)
    ensures store.users == old(store.users) && store.banned == old(store.banned)
  {
    GrantGadgets(store, catalog, InitGadgets, uid, now);
  }

  /** With the program's catalog, the grant leaves the user owning all
      three starting gadgets. */
  lemma InitGadgetsAllListed()
    ensures forall n | n in InitGadgets :: Listed(Catalog, n)
  {
    InitGadgetsListed();
  }
}
