/** The menus of the Telegram bot's collection and build screens: counting
    cards by type and by rarity, the callback strings the buttons carry,
    card buttons packed two to a row, the three steps of the build menu
    and the buttons of the PC view. Message texts are left aside; a screen
    is the keyboard it shows, the alert it raises, the missing-parts
    notice, or the exception Python would raise. */
module Commands {
  import opened Wrappers
  import opened Strings
  import opened Form
  import opened Config
  import opened Gadgets
  import opened Database
  import Api
  import Utils

  /** An inline keyboard button: its label and its callback data. */
  datatype Button = Button(text: string, callback: string)

  /** Rows of buttons, top to bottom. */
  type Keyboard = seq<seq<Button>>

  datatype Screen =
    | Menu(rows: Keyboard)
    /** `query.answer(message, show_alert=True)`. */
    | Alert(message: string)
    /** The missing-parts message for these part names, with a row to draw
        a card and a row to retry the build. */
    | Missing(parts: seq<string>)
    /** An exception escapes the handler. */
    | Fails

  /** The two rows under the missing-parts message. */
  const RetryRows: Keyboard := [[Button("Получить Карточку 🎴", "get_card")], [Button("🔄 Попробовать снова", "build_pc")]]

  const BackLabel := "Назад ↩️"

  /** All buttons of a keyboard, row after row. */
  function Flatten(rows: Keyboard): seq<Button>
    decreases |rows|
  {
    if |rows| == 0 then [] else Flatten(rows[..|rows| - 1]) + rows[|rows| - 1]
  }

  lemma {:induction false} FlattenConcat(a: Keyboard, b: Keyboard)
    ensures Flatten(a + b) == Flatten(a) + Flatten(b)
    decreases |b|
  {
    if |b| == 0 {
      assert a + b == a;
    } else {
      assert (a + b)[..|a + b| - 1] == a + b[..|b| - 1];
      FlattenConcat(a, b[..|b| - 1]);
    }
  }

  // ---------------------------------------------------------------------
  // show_gadgets: the type menu

  /** Every counter of `m` is positive. */
  predicate AllPositive(m: Api.Counts) {
    forall i | 0 <= i < |m| :: m[i].1 > 0
  }

  /** With positive counters, a key has a positive count exactly when it
      is present. */
  lemma {:induction false} PositiveCountIffPresent(m: Api.Counts, key: string)
    requires AllPositive(m)
    ensures Api.CountOf(m, key) > 0 <==> key in Keys(m)
    decreases |m|
  {
    if |m| > 0 && m[0].0 != key {
      PositiveCountIffPresent(m[1..], key);
      assert Keys(m) == [m[0].0] + Keys(m[1..]);
    }
  }

  lemma {:induction false} BumpKeepsPositive(m: Api.Counts, k: string)
    requires AllPositive(m)
    ensures AllPositive(Api.Bump(m, k))
    decreases |m|
  {
    if |m| > 0 && m[0].0 != k {
      BumpKeepsPositive(m[1..], k);
    }
  }

  /** The `type_counts` loop: every card outside a PC is counted once,
      under the first group that lists its category; only types with a
      card get an entry. */
  method CountTypes(cards: seq<Card>) returns (counts: Api.Counts)
    ensures forall key :: Api.CountOf(counts, key) == Api.CountUnder(cards, key, None)
    ensures forall key :: key in Keys(counts) <==> Api.CountUnder(cards, key, None) > 0
  {
    counts := [];
    var i := 0;
    while i < |cards|
      invariant 0 <= i <= |cards|
      invariant AllPositive(counts)
      invariant forall key :: Api.CountOf(counts, key) == Api.CountUnder(cards[..i], key, None)
    {
      var card := cards[i];
      assert cards[..i + 1][..i] == cards[..i];
      if card.inPc.None? {
        var g := Api.FirstGroupContaining(card.category);
        if g.Some? {
          Api.BumpCounts(counts, TypeGroups[g.value].key);
          BumpKeepsPositive(counts, TypeGroups[g.value].key);
          counts := Api.Bump(counts, TypeGroups[g.value].key);
        }
      }
      i := i + 1;
    }
    assert cards[..i] == cards;
    forall key
      ensures key in Keys(counts) <==> Api.CountUnder(cards, key, None) > 0
    {
      PositiveCountIffPresent(counts, key);
    }
  }

  /** The button of a type: its name with the count, opening the type. */
  function TypeButton(g: TypeGroup, count: int): Button {
    Button(g.name + " (" + IntToDecimal(count) + ")", "gadget_type_" + g.key)
  }

  /** One row per group of `groups`, in order, for each group some card is
      counted under. */
  function TypeRows(groups: seq<TypeGroup>, cards: seq<Card>): Keyboard
    decreases |groups|
  {
    if |groups| == 0 then []
    else
      var g := groups[|groups| - 1];
      var n := Api.CountUnder(cards, g.key, None);
      TypeRows(groups[..|groups| - 1], cards) + (if n > 0 then [[TypeButton(g, n)]] else [])
  }

  /** The type menu has a row for a group exactly when some card counts
      under it, and that row shows the group's count. */
  lemma {:induction false} TypeRowsExact(groups: seq<TypeGroup>, cards: seq<Card>)
    ensures forall g | g in groups && Api.CountUnder(cards, g.key, None) > 0 ::
      [TypeButton(g, Api.CountUnder(cards, g.key, None))] in TypeRows(groups, cards)
    ensures forall row | row in TypeRows(groups, cards) :: exists g | g in groups ::
      Api.CountUnder(cards, g.key, None) > 0 && row == [TypeButton(g, Api.CountUnder(cards, g.key, None))]
    decreases |groups|
  {
    if |groups| > 0 {
      var init := groups[..|groups| - 1];
      var g := groups[|groups| - 1];
      TypeRowsExact(init, cards);
      assert groups == init + [g];
      forall h | h in groups && Api.CountUnder(cards, h.key, None) > 0
        ensures [TypeButton(h, Api.CountUnder(cards, h.key, None))] in TypeRows(groups, cards)
      {
        if h != g {
          assert h in init;
        }
      }
      forall row | row in TypeRows(groups, cards)
        ensures exists h | h in groups ::
          Api.CountUnder(cards, h.key, None) > 0 && row == [TypeButton(h, Api.CountUnder(cards, h.key, None))]
      {
        if row in TypeRows(init, cards) {
          var h :| h in init && Api.CountUnder(cards, h.key, None) > 0 && row == [TypeButton(h, Api.CountUnder(cards, h.key, None))];
          assert h in groups;
        } else {
          assert row == [TypeButton(g, Api.CountUnder(cards, g.key, None))];
        }
      }
    }
  }

  /** The keyboard of `show_gadgets`: a single draw button for an empty
      collection, otherwise the type rows. */
  function GadgetsMenu(cards: seq<Card>): Keyboard {
    if |cards| == 0 then [[Button("Получить Карточку 🎴", "get_card")]] else TypeRows(TypeGroups, cards)
  }

  /** `show_gadgets`: count the types, then list the counted ones in the
      order of the groups. */
  method ShowGadgets(store: Store, uid: int) returns (rows: Keyboard)
    ensures rows == GadgetsMenu(store.UserCards(uid))
  {
    var cards := store.UserCards(uid);
    if |cards| == 0 {
      return [[Button("Получить Карточку 🎴", "get_card")]];
    }
    var counts := CountTypes(cards);
    rows := [];
    var k := 0;
    while k < |TypeGroups|
      invariant 0 <= k <= |TypeGroups|
      invariant rows == TypeRows(TypeGroups[..k], cards)
    {
      var g := TypeGroups[k];
      assert TypeGroups[..k + 1][..k] == TypeGroups[..k];
      if g.key in Keys(counts) {
        rows := rows + [[TypeButton(g, Api.CountOf(counts, g.key))]];
      }
      k := k + 1;
    }
    assert TypeGroups[..k] == TypeGroups;
  }

  // ---------------------------------------------------------------------
  // show_gadget_type_rarities: the rarity menu of a type

  /** The cards of a type that are not inside a PC, in order. */
  function TypeCards(cards: seq<Card>, g: TypeGroup): (t: seq<Card>)
    ensures |t| <= |cards|
    decreases |cards|
  {
    if |cards| == 0 then []
    else
      var c := cards[|cards| - 1];
      TypeCards(cards[..|cards| - 1], g) + (if c.category in g.categories && c.inPc.None? then [c] else [])
  }

  /** The cards of rarity `r`, in order. */
  function CardsOfRarity(cards: seq<Card>, r: string): (t: seq<Card>)
    ensures |t| <= |cards|
    decreases |cards|
  {
    if |cards| == 0 then []
    else
      var c := cards[|cards| - 1];
      CardsOfRarity(cards[..|cards| - 1], r) + (if c.rarity == r then [c] else [])
  }

  /** The cards of rarity `r` are the cards of the collection with that
      rarity. */
  lemma {:induction false} CardsOfRarityExact(cards: seq<Card>, r: string)
    ensures forall c :: c in CardsOfRarity(cards, r) <==> c in cards && c.rarity == r
    decreases |cards|
  {
    if |cards| > 0 {
      CardsOfRarityExact(cards[..|cards| - 1], r);
      assert cards == cards[..|cards| - 1] + [cards[|cards| - 1]];
    }
  }

  /** The group of rarity `r`: its cards, absent when there are none. */
  function RarityGroup(cards: seq<Card>, r: string): Option<seq<Card>> {
    if |CardsOfRarity(cards, r)| > 0 then Some(CardsOfRarity(cards, r)) else None
  }

  /** Appending a card to its rarity's group keeps the groups those of the
      cards seen so far. */
  lemma GroupStep(groups: Assoc<string, seq<Card>>, seen: seq<Card>, card: Card)
    requires DistinctKeys(groups)
    requires forall r :: Get(groups, r) == RarityGroup(seen, r)
    ensures var next := Put(groups, card.rarity, Get(groups, card.rarity).GetOr([]) + [card]);
      DistinctKeys(next) && forall r :: Get(next, r) == RarityGroup(seen + [card], r)
  {
    var v := Get(groups, card.rarity).GetOr([]) + [card];
    PutKeys(groups, card.rarity, v);
    var cur := Get(groups, card.rarity);
    assert cur == RarityGroup(seen, card.rarity);
    forall r
      ensures Get(Put(groups, card.rarity, v), r) == RarityGroup(seen + [card], r)
    {
      GroupStepOne(groups, seen, card, r);
    }
  }

  /** The step of `GroupStep` for one rarity. */
  lemma GroupStepOne(groups: Assoc<string, seq<Card>>, seen: seq<Card>, card: Card, r: string)
    requires Get(groups, r) == RarityGroup(seen, r)
    requires Get(groups, card.rarity) == RarityGroup(seen, card.rarity)
    ensures Get(Put(groups, card.rarity, Get(groups, card.rarity).GetOr([]) + [card]), r) == RarityGroup(seen + [card], r)
  {
    var v := Get(groups, card.rarity).GetOr([]) + [card];
    PutGet(groups, card.rarity, v);
    GroupStepAt(seen, card, r);
    if r == card.rarity {
      assert v == CardsOfRarity(seen, r) + [card];
    } else {
      assert Get(Put(groups, card.rarity, v), r) == Get(groups, r);
      assert CardsOfRarity(seen + [card], r) == CardsOfRarity(seen, r);
    }
  }

  lemma GroupStepAt(seen: seq<Card>, card: Card, r: string)
    ensures CardsOfRarity(seen + [card], r) == CardsOfRarity(seen, r) + (if card.rarity == r then [card] else [])
  {
    assert (seen + [card])[..|seen|] == seen;
  }

  /** The `cards_by_rarity` loop: one group per rarity present, each
      holding that rarity's cards in order. */
  method GroupByRarity(cards: seq<Card>) returns (groups: Assoc<string, seq<Card>>)
    ensures DistinctKeys(groups)
    ensures forall r :: Get(groups, r) == RarityGroup(cards, r)
  {
    groups := [];
    var i := 0;
    while i < |cards|
      invariant 0 <= i <= |cards|
      invariant DistinctKeys(groups)
      invariant forall r :: Get(groups, r) == RarityGroup(cards[..i], r)
    {
      var card := cards[i];
      assert cards[..i + 1] == cards[..i] + [card];
      GroupStep(groups, cards[..i], card);
      groups := Put(groups, card.rarity, Get(groups, card.rarity).GetOr([]) + [card]);
      i := i + 1;
    }
    assert cards[..i] == cards;
  }

  /** The button of a rarity within a type: emoji, display name and count,
      opening the cards of that type and rarity. */
  function RarityButton(typeKey: string, r: string, count: int): Button {
    Button(RarityEmoji(r) + " " + RarityDisplayName(r) + " (" + IntToDecimal(count) + ")",
      "gadget_type_rarity_" + typeKey + "_" + r)
  }

  /** One row per rarity of `rarities`, in order, for each rarity some card
      has. */
  function RarityRows(rarities: seq<string>, typeKey: string, cards: seq<Card>): Keyboard
    decreases |rarities|
  {
    if |rarities| == 0 then []
    else
      var r := rarities[|rarities| - 1];
      var n := |CardsOfRarity(cards, r)|;
      RarityRows(rarities[..|rarities| - 1], typeKey, cards) + (if n > 0 then [[RarityButton(typeKey, r, n)]] else [])
  }

  /** One more rarity adds its row, when some card has it, at the end. */
  lemma RarityRowsSnoc(rarities: seq<string>, r: string, typeKey: string, cards: seq<Card>)
    ensures RarityRows(rarities + [r], typeKey, cards) == RarityRows(rarities, typeKey, cards)
      + (if |CardsOfRarity(cards, r)| > 0 then [[RarityButton(typeKey, r, |CardsOfRarity(cards, r)|)]] else [])
  {
    assert (rarities + [r])[..|rarities|] == rarities;
  }

  /** The rarity menu has a row for a listed rarity exactly when a card has
      it, with the number of such cards; no other rows. */
  lemma {:induction false} RarityRowsExact(rarities: seq<string>, typeKey: string, cards: seq<Card>)
    ensures forall r | r in rarities && |CardsOfRarity(cards, r)| > 0 ::
      [RarityButton(typeKey, r, |CardsOfRarity(cards, r)|)] in RarityRows(rarities, typeKey, cards)
    ensures forall row | row in RarityRows(rarities, typeKey, cards) :: exists r | r in rarities ::
      |CardsOfRarity(cards, r)| > 0 && row == [RarityButton(typeKey, r, |CardsOfRarity(cards, r)|)]
    decreases |rarities|
  {
    if |rarities| > 0 {
      var init := rarities[..|rarities| - 1];
      var r := rarities[|rarities| - 1];
      RarityRowsExact(init, typeKey, cards);
      assert rarities == init + [r];
      forall q | q in rarities && |CardsOfRarity(cards, q)| > 0
        ensures [RarityButton(typeKey, q, |CardsOfRarity(cards, q)|)] in RarityRows(rarities, typeKey, cards)
      {
        if q != r {
          assert q in init;
        }
      }
      forall row | row in RarityRows(rarities, typeKey, cards)
        ensures exists q | q in rarities ::
          |CardsOfRarity(cards, q)| > 0 && row == [RarityButton(typeKey, q, |CardsOfRarity(cards, q)|)]
      {
        if row in RarityRows(init, typeKey, cards) {
          var q :| q in init && |CardsOfRarity(cards, q)| > 0 && row == [RarityButton(typeKey, q, |CardsOfRarity(cards, q)|)];
          assert q in rarities;
        } else {
          assert row == [RarityButton(typeKey, r, |CardsOfRarity(cards, r)|)];
        }
      }
    }
  }

  /** `show_gadget_type_rarities`: an alert for an unknown type or a type
      without free cards; otherwise a row per rarity present, in rarity
      order, then a row back to the type menu. */
  function RaritiesScreen(cards: seq<Card>, typeKey: string): Screen {
    match GroupByKey(TypeGroups, typeKey)
    case None => Alert("Неизвестный тип гаджета! 😢")
    case Some(g) =>
      var typeCards := TypeCards(cards, g);
      if |typeCards| == 0 then Alert("Нет гаджетов типа " + g.name + "! 😢")
      else Menu(RarityRows(RarityOrder, typeKey, typeCards) + [[Button(BackLabel, "view_gadgets")]])
  }

  method ShowGadgetTypeRarities(store: Store, uid: int, typeKey: string) returns (screen: Screen)
    ensures screen == RaritiesScreen(store.UserCards(uid), typeKey)
  {
    var cards := store.UserCards(uid);
    var g := GroupByKey(TypeGroups, typeKey);
    if g.None? {
      return Alert("Неизвестный тип гаджета! 😢");
    }
    var typeCards := TypeCards(cards, g.value);
    if |typeCards| == 0 {
      return Alert("Нет гаджетов типа " + g.value.name + "! 😢");
    }
    var rows := BuildRarityRows(typeKey, typeCards);
    screen := Menu(rows + [[Button(BackLabel, "view_gadgets")]]);
  }

  /** The loop over the rarity order that adds a row for each rarity the
      grouped cards have. */
  method BuildRarityRows(typeKey: string, typeCards: seq<Card>) returns (rows: Keyboard)
    ensures rows == RarityRows(RarityOrder, typeKey, typeCards)
  {
    var byRarity := GroupByRarity(typeCards);
    rows := [];
    var k := 0;
    while k < |RarityOrder|
      invariant 0 <= k <= |RarityOrder|
      invariant rows == RarityRows(RarityOrder[..k], typeKey, typeCards)
    {
      var r := RarityOrder[k];
      assert RarityOrder[..k + 1] == RarityOrder[..k] + [r];
      RarityRowsSnoc(RarityOrder[..k], r, typeKey, typeCards);
      var group := Get(byRarity, r);
      if group.Some? {
        rows := rows + [[RarityButton(typeKey, r, |group.value|)]];
      }
      k := k + 1;
    }
    assert RarityOrder[..k] == RarityOrder;
  }

  /** The type groups gather disjoint categories, so a free card is among
      a group's cards exactly when it is counted under that group. */
  lemma CountedUnderIffInGroup(c: Card, k: nat)
    requires k < |TypeGroups|
    ensures Api.CountedUnder(c, TypeGroups[k].key) <==> c.category in TypeGroups[k].categories && c.inPc.None?
  {
    var f := FirstGroupOf(TypeGroups, c.category);
    if f.Some? {
      if TypeGroups[f.value].key == TypeGroups[k].key {
        TypeGroupKeyUnique(f.value, k);
      }
      if c.category in TypeGroups[k].categories {
        TypeGroupOfCategoryUnique(c.category, f.value, k);
      }
    }
  }

  /** The count on a type's button is the number of cards its rarity menu
      is built from. */
  lemma {:induction false} TypeCountMatchesRarityMenu(cards: seq<Card>, k: nat)
    requires k < |TypeGroups|
    ensures |TypeCards(cards, TypeGroups[k])| == Api.CountUnder(cards, TypeGroups[k].key, None)
    decreases |cards|
  {
    if |cards| > 0 {
      TypeCountMatchesRarityMenu(cards[..|cards| - 1], k);
      CountedUnderIffInGroup(cards[|cards| - 1], k);
    }
  }

  /** Cards whose rarity is outside the rarity order are counted under
      their type but appear under no rarity button. */
  lemma UnknownRarityHasNoButton(cards: seq<Card>, typeKey: string, r: string)
    requires r !in RarityOrder
    ensures forall row: seq<Button> | row in RarityRows(RarityOrder, typeKey, cards) ::
      |row| == 1 && row[0].callback != "gadget_type_rarity_" + typeKey + "_" + r
  {
    RarityRowsExact(RarityOrder, typeKey, cards);
    forall row: seq<Button> | row in RarityRows(RarityOrder, typeKey, cards)
      ensures |row| == 1 && row[0].callback != "gadget_type_rarity_" + typeKey + "_" + r
    {
      var q :| q in RarityOrder && |CardsOfRarity(cards, q)| > 0 && row == [RarityButton(typeKey, q, |CardsOfRarity(cards, q)|)];
      var p := "gadget_type_rarity_" + typeKey + "_";
      assert (p + q)[|p|..] == q && (p + r)[|p|..] == r;
      assert q != r;
    }
  }

  // ---------------------------------------------------------------------
  // show_gadget_type_rarity_cards: the cards of a type and rarity

  /** The short code of a type key: the fixed table, else its first two
      characters. */
  function TypeShort(typeKey: string): (ts: string)
    ensures typeKey !in {"phones", "tablets", "pcs", "pc_parts", "laptops"} ==> ts == Take(typeKey, 2)
  {
    if typeKey == "phones" then "ph"
    else if typeKey == "tablets" then "tab"
    else if typeKey == "pcs" then "pc"
    else if typeKey == "pc_parts" then "pt"
    else if typeKey == "laptops" then "lap"
    else Take(typeKey, 2)
  }

  /** The short code of a rarity: its first letter, "C" for the empty
      string. */
  function RarityShort(r: string): (rs: string)
    ensures |rs| == 1
    ensures |r| > 0 ==> rs == [r[0]]
  {
    if |r| > 0 then [r[0]] else "C"
  }

  /** The callback of a card button: `vc_{id}_{type}_{rarity}`, or just
      `vc_{id}` when the long form would exceed Telegram's 64 bytes. */
  function CardCallback(id: int, ts: string, rs: string): (cb: string)
    ensures StartsWith(cb, "vc_" + IntToDecimal(id))
    ensures cb == "vc_" + IntToDecimal(id) || cb == "vc_" + IntToDecimal(id) + "_" + ts + "_" + rs
    ensures Utf8Length(cb) <= 64 || cb == "vc_" + IntToDecimal(id)
  {
    var full := "vc_" + IntToDecimal(id) + "_" + ts + "_" + rs;
    assert full[..|"vc_" + IntToDecimal(id)|] == "vc_" + IntToDecimal(id);
    if Utf8Length(full) > 64 then "vc_" + IntToDecimal(id) else full
  }

  /** `10^k`. */
  function Pow10(k: nat): nat {
    if k == 0 then 1 else 10 * Pow10(k - 1)
  }

  lemma {:induction false} DecimalLength(n: nat, k: nat)
    requires n < Pow10(k)
    ensures |NatToDecimal(n)| <= if k == 0 then 1 else k
    decreases n
  {
    if n >= 10 {
      DecimalLength(n / 10, k - 1);
    }
  }

  lemma {:induction false} DecimalIsAscii(n: nat)
    ensures forall i | 0 <= i < |NatToDecimal(n)| :: NatToDecimal(n)[i] as int < 0x80
    decreases n
  {
    NatToDecimalDigits(n);
  }

  /** For the known types and rarities the long form is kept whenever the
      id has at most 50 digits, so the fallback never fires for ids made
      from a millisecond clock. */
  lemma CardCallbackKeepsLongForm(id: nat, typeKey: string, r: string)
    requires id < Pow10(50)
    requires typeKey in TypeKeys(TypeGroups) && r in RarityOrder
    ensures CardCallback(id, TypeShort(typeKey), RarityShort(r))
      == "vc_" + IntToDecimal(id) + "_" + TypeShort(typeKey) + "_" + RarityShort(r)
  {
    var d := IntToDecimal(id);
    var ts := TypeShort(typeKey);
    var rs := RarityShort(r);
    DecimalLength(id, 50);
    DecimalIsAscii(id);
    Utf8LengthAscii(d);
    ShortCodesBytes(typeKey, r);
    Utf8LengthConcat("vc_", d);
    Utf8LengthConcat("vc_" + d, "_");
    Utf8LengthConcat("vc_" + d + "_", ts);
    Utf8LengthConcat("vc_" + d + "_" + ts, "_");
    Utf8LengthConcat("vc_" + d + "_" + ts + "_", rs);
  }

  /** The short code of a known type is ASCII of at most three characters. */
  lemma TypeShortBytes(typeKey: string)
    requires typeKey in TypeKeys(TypeGroups)
    ensures Utf8Length(TypeShort(typeKey)) <= 3
  {
    TypeGroupKeys();
    assert TypeShort(typeKey) in ["ph", "tab", "pc", "pt", "lap"];
    ShortCodeBytes(TypeShort(typeKey));
  }

  /** The five type short codes are ASCII. */
  lemma ShortCodeBytes(ts: string)
    requires ts in ["ph", "tab", "pc", "pt", "lap"]
    ensures Utf8Length(ts) <= 3
  {
    if ts == "ph" {
      Utf8LengthAscii("ph");
    } else if ts == "tab" {
      Utf8LengthAscii("tab");
    } else if ts == "pc" {
      Utf8LengthAscii("pc");
    } else if ts == "pt" {
      Utf8LengthAscii("pt");
    } else {
      Utf8LengthAscii("lap");
    }
  }

  /** The short codes of the known types and rarities take at most three
      bytes and exactly one byte. */
  lemma ShortCodesBytes(typeKey: string, r: string)
    requires typeKey in TypeKeys(TypeGroups) && r in RarityOrder
    ensures Utf8Length(TypeShort(typeKey)) <= 3 && Utf8Length(RarityShort(r)) == 1
    ensures Utf8Length("vc_") == 3 && Utf8Length("_") == 1
  {
    TypeShortBytes(typeKey);
    RarityShortBytes(r);
    SeparatorBytes();
  }

  /** The prefix and separator of a short card callback are ASCII. */
  lemma SeparatorBytes()
    ensures Utf8Length("vc_") == 3 && Utf8Length("_") == 1
  {
    Utf8LengthAscii("vc_");
    Utf8LengthAscii("_");
  }

  /** The short code of a known rarity is one ASCII letter. */
  lemma RarityShortBytes(r: string)
    requires r in RarityOrder
    ensures Utf8Length(RarityShort(r)) == 1
  {
    var rs := RarityShort(r);
    assert rs == [r[0]];
    assert r[0] in "TCURELM" by {
      var i :| 0 <= i < |RarityOrder| && RarityOrder[i] == r;
      assert i < 7;
      if i == 0 {} else if i == 1 {} else if i == 2 {} else if i == 3 {}
      else if i == 4 {} else if i == 5 {} else {}
    }
    Utf8LengthAscii(rs);
  }

  /** Buttons two to a row, an odd last button alone on the last row. */
  function Pairs(bs: seq<Button>): Keyboard
    decreases |bs|
  {
    if |bs| <= 2 then (if |bs| == 0 then [] else [bs])
    else [bs[..2]] + Pairs(bs[2..])
  }

  /** Packing loses and reorders nothing, fills every row but possibly the
      last with two buttons, and leaves one button on the last row only
      for an odd count. */
  lemma {:induction false} PairsShape(bs: seq<Button>)
    ensures Flatten(Pairs(bs)) == bs
    ensures |Pairs(bs)| == (|bs| + 1) / 2
    ensures forall i | 0 <= i < |Pairs(bs)| :: |Pairs(bs)[i]| == 2 || (i == |Pairs(bs)| - 1 && |bs| % 2 == 1 && |Pairs(bs)[i]| == 1)
    decreases |bs|
  {
    if |bs| > 2 {
      PairsShape(bs[2..]);
      FlattenConcat([bs[..2]], Pairs(bs[2..]));
      assert Flatten([bs[..2]]) == bs[..2] by {
        assert [bs[..2]][..0] == [];
      }
      assert bs[..2] + bs[2..] == bs;
    } else if |bs| > 0 {
      assert [bs][..0] == [];
    }
  }

  /** The row-filling loop of the card list. */
  method PackRows(bs: seq<Button>) returns (rows: Keyboard)
    ensures rows == Pairs(bs)
  {
    rows := [];
    var row: seq<Button> := [];
    var i := 0;
    while i < |bs|
      invariant 0 <= i <= |bs| && |row| <= 1 && |row| <= i
      invariant row == bs[i - |row|..i]
      invariant rows + Pairs(bs[i - |row|..]) == Pairs(bs)
    {
      var j := i - |row|;
      row := row + [bs[i]];
      if |row| == 2 {
        assert bs[j..][..2] == row;
        assert bs[j..][2..] == bs[i + 1..];
        if |bs[j..]| > 2 {
          assert Pairs(bs[j..]) == [row] + Pairs(bs[i + 1..]);
        } else {
          assert bs[j..] == row && bs[i + 1..] == [];
        }
        rows := rows + [row];
        row := [];
      }
      i := i + 1;
    }
    var j := i - |row|;
    if |row| > 0 {
      assert bs[j..] == row;
      rows := rows + [row];
    } else {
      assert bs[j..] == [];
    }
  }

  /** One button per card, named after the gadget. */
  function CardButtons(cards: seq<Card>, typeKey: string, r: string): (bs: seq<Button>)
    ensures |bs| == |cards|
  {
    seq(|cards|, i requires 0 <= i < |cards| =>
      Button(cards[i].gadgetName, CardCallback(cards[i].cardId, TypeShort(typeKey), RarityShort(r))))
  }

  /** `show_gadget_type_rarity_cards`: an alert for an unknown type or when
      no free card of the type has the rarity; otherwise the card buttons
      two to a row, then a row back to the type's rarity menu. */
  function CardsScreen(cards: seq<Card>, typeKey: string, r: string): Screen {
    match GroupByKey(TypeGroups, typeKey)
    case None => Alert("Неизвестный тип гаджета! 😢")
    case Some(g) =>
      var chosen := Select(cards, Api.Wanted(g, r));
      if |chosen| == 0 then Alert("Нет гаджетов этой редкости! 😢")
      else Menu(Pairs(CardButtons(chosen, typeKey, r)) + [[Button(BackLabel, "gadget_type_" + typeKey)]])
  }

  method ShowGadgetTypeRarityCards(store: Store, uid: int, typeKey: string, r: string) returns (screen: Screen)
    ensures screen == CardsScreen(store.UserCards(uid), typeKey, r)
  {
    var g := GroupByKey(TypeGroups, typeKey);
    if g.None? {
      return Alert("Неизвестный тип гаджета! 😢");
    }
    var chosen := Select(store.UserCards(uid), Api.Wanted(g.value, r));
    if |chosen| == 0 {
      return Alert("Нет гаджетов этой редкости! 😢");
    }
    var rows := PackRows(CardButtons(chosen, typeKey, r));
    screen := Menu(rows + [[Button(BackLabel, "gadget_type_" + typeKey)]]);
  }

  /** The card list shows each chosen card exactly once, in order, and
      ends with the row back to the type. */
  lemma CardsScreenLists(cards: seq<Card>, typeKey: string, r: string)
    requires CardsScreen(cards, typeKey, r).Menu?
    ensures var rows := CardsScreen(cards, typeKey, r).rows;
      var chosen := Api.CardsByTypeRarity(cards, typeKey, r).value;
      && Flatten(rows[..|rows| - 1]) == CardButtons(chosen, typeKey, r)
      && rows[|rows| - 1] == [Button(BackLabel, "gadget_type_" + typeKey)]
      && forall i | 0 <= i < |rows| - 1 :: |rows[i]| == 2 || (i == |rows| - 2 && |rows[i]| == 1)
  {
    var g := GroupByKey(TypeGroups, typeKey).value;
    var bs := CardButtons(Select(cards, Api.Wanted(g, r)), typeKey, r);
    PairsShape(bs);
    var rows := CardsScreen(cards, typeKey, r).rows;
    assert rows[..|rows| - 1] == Pairs(bs);
  }

  // ---------------------------------------------------------------------
  // show_build_menu

  /** Python truthiness of an optional id: present and not zero. */
  predicate Given(x: Option<int>) {
    x.Some? && x.value != 0
  }

  /** One row per part, labelled with its emoji and name, calling back
      with `prefix` followed by the part's id. */
  function PartRows(parts: seq<Card>, prefix: string): (rows: Keyboard)
    ensures |rows| == |parts|
  {
    seq(|parts|, i requires 0 <= i < |parts| =>
      [Button(RarityEmoji(parts[i].rarity) + " " + parts[i].gadgetName, prefix + IntToDecimal(parts[i].cardId))])
  }

  /** The part names the first step reports missing, in GPU, CPU,
      motherboard order. */
  function MissingParts(s: seq<Card>): seq<string> {
    (if |FreeOfCategory(s, "Graphics Card")| == 0 then ["видеокарт"] else [])
    + (if |FreeOfCategory(s, "Processor")| == 0 then ["процессоров"] else [])
    + (if |FreeOfCategory(s, "Motherboard")| == 0 then ["материнских плат"] else [])
  }

  /** `show_build_menu` with the GPU and CPU chosen so far. */
  function BuildMenu(s: seq<Card>, gpu: Option<int>, cpu: Option<int>): Screen {
    if !Given(gpu) then
      if |MissingParts(s)| > 0 then Missing(MissingParts(s))
      else Menu(PartRows(FreeOfCategory(s, "Graphics Card"), "build_gpu_") + [[Button("Отмена ❌", "view_gadgets")]])
    else if !Given(cpu) then
      if |FreeOfCategory(s, "Processor")| == 0 then Missing(["процессоров"])
      else if !HasId(s, gpu.value) then Fails
      else Menu(PartRows(FreeOfCategory(s, "Processor"), "build_cpu_" + IntToDecimal(gpu.value) + "_")
        + [[Button(BackLabel, "build_pc")]])
    else if |FreeOfCategory(s, "Motherboard")| == 0 then Missing(["материнских плат"])
    else if !HasId(s, gpu.value) || !HasId(s, cpu.value) then Fails
    else Menu(PartRows(FreeOfCategory(s, "Motherboard"), "build_mb_" + IntToDecimal(gpu.value) + "_" + IntToDecimal(cpu.value) + "_")
      + [[Button(BackLabel, "build_cpu_" + IntToDecimal(gpu.value))]])
  }

  method ShowBuildMenu(store: Store, uid: int, gpu: Option<int>, cpu: Option<int>) returns (screen: Screen)
    ensures screen == BuildMenu(store.UserCards(uid), gpu, cpu)
  {
    var parts := store.GetAvailablePcParts(uid);
    if !Given(gpu) {
      var missing: seq<string> := [];
      if |parts["Graphics Card"]| == 0 {
        missing := missing + ["видеокарт"];
      }
      if |parts["Processor"]| == 0 {
        missing := missing + ["процессоров"];
      }
      if |parts["Motherboard"]| == 0 {
        missing := missing + ["материнских плат"];
      }
      if |missing| > 0 {
        return Missing(missing);
      }
      return Menu(PartRows(parts["Graphics Card"], "build_gpu_") + [[Button("Отмена ❌", "view_gadgets")]]);
    }
    if !Given(cpu) {
      if |parts["Processor"]| == 0 {
        return Missing(["процессоров"]);
      }
      var gpuCard := store.GetCard(uid, gpu.value);
      if gpuCard.None? {
        return Fails;
      }
      return Menu(PartRows(parts["Processor"], "build_cpu_" + IntToDecimal(gpu.value) + "_") + [[Button(BackLabel, "build_pc")]]);
    }
    if |parts["Motherboard"]| == 0 {
      return Missing(["материнских плат"]);
    }
    var gpuCard := store.GetCard(uid, gpu.value);
    var cpuCard := store.GetCard(uid, cpu.value);
    if gpuCard.None? || cpuCard.None? {
      return Fails;
    }
    screen := Menu(PartRows(parts["Motherboard"], "build_mb_" + IntToDecimal(gpu.value) + "_" + IntToDecimal(cpu.value) + "_")
      + [[Button(BackLabel, "build_cpu_" + IntToDecimal(gpu.value))]]);
  }

  /** The first step lists exactly the missing part kinds, and offers the
      free graphics cards only when none is missing; each later step
      extends the callback by the chosen id. */
  lemma BuildMenuSteps(s: seq<Card>, gpu: int, cpu: int)
    requires gpu != 0 && cpu != 0 && HasId(s, gpu) && HasId(s, cpu)
    ensures var m := BuildMenu(s, None, None);
      && ("видеокарт" in MissingParts(s) <==> |FreeOfCategory(s, "Graphics Card")| == 0)
      && ("процессоров" in MissingParts(s) <==> |FreeOfCategory(s, "Processor")| == 0)
      && ("материнских плат" in MissingParts(s) <==> |FreeOfCategory(s, "Motherboard")| == 0)
      && (m.Menu? <==> MissingParts(s) == [])
      && (m.Menu? ==> forall i | 0 <= i < |FreeOfCategory(s, "Graphics Card")| ::
        m.rows[i][0].callback == "build_gpu_" + IntToDecimal(FreeOfCategory(s, "Graphics Card")[i].cardId))
    ensures var m := BuildMenu(s, Some(gpu), None);
      m.Menu? ==> forall i | 0 <= i < |FreeOfCategory(s, "Processor")| ::
        m.rows[i][0].callback == "build_cpu_" + IntToDecimal(gpu) + "_" + IntToDecimal(FreeOfCategory(s, "Processor")[i].cardId)
    ensures var m := BuildMenu(s, Some(gpu), Some(cpu));
      m.Menu? ==> forall i | 0 <= i < |FreeOfCategory(s, "Motherboard")| ::
        m.rows[i][0].callback == "build_mb_" + IntToDecimal(gpu) + "_" + IntToDecimal(cpu) + "_"
          + IntToDecimal(FreeOfCategory(s, "Motherboard")[i].cardId)
    ensures BuildMenu(s, Some(gpu), None).Menu? <==> |FreeOfCategory(s, "Processor")| > 0
    ensures BuildMenu(s, Some(gpu), Some(cpu)).Menu? <==> |FreeOfCategory(s, "Motherboard")| > 0
  {
    BuildMenuFirstStep(s);
    BuildMenuCpuStep(s, gpu);
    BuildMenuMbStep(s, gpu, cpu);
  }

  lemma BuildMenuFirstStep(s: seq<Card>)
    ensures var m := BuildMenu(s, None, None);
      && ("видеокарт" in MissingParts(s) <==> |FreeOfCategory(s, "Graphics Card")| == 0)
      && ("процессоров" in MissingParts(s) <==> |FreeOfCategory(s, "Processor")| == 0)
      && ("материнских плат" in MissingParts(s) <==> |FreeOfCategory(s, "Motherboard")| == 0)
      && (m.Menu? <==> MissingParts(s) == [])
      && (m.Menu? ==> forall i | 0 <= i < |FreeOfCategory(s, "Graphics Card")| ::
        m.rows[i][0].callback == "build_gpu_" + IntToDecimal(FreeOfCategory(s, "Graphics Card")[i].cardId))
  {
    MissingPartsExact(s);
  }

  /** The missing list names a part kind exactly when no free card of it
      is left. */
  lemma MissingPartsExact(s: seq<Card>)
    ensures "видеокарт" in MissingParts(s) <==> |FreeOfCategory(s, "Graphics Card")| == 0
    ensures "процессоров" in MissingParts(s) <==> |FreeOfCategory(s, "Processor")| == 0
    ensures "материнских плат" in MissingParts(s) <==> |FreeOfCategory(s, "Motherboard")| == 0
    ensures MissingParts(s) == [] <==>
      |FreeOfCategory(s, "Graphics Card")| > 0 && |FreeOfCategory(s, "Processor")| > 0 && |FreeOfCategory(s, "Motherboard")| > 0
  {
    var a, b, c := "видеокарт", "процессоров", "материнских плат";
    assert a != b && a != c && b != c by {
      assert a[0] != b[0] && a[0] != c[0] && b[0] != c[0];
    }
  }

  lemma BuildMenuCpuStep(s: seq<Card>, gpu: int)
    requires gpu != 0 && HasId(s, gpu)
    ensures var m := BuildMenu(s, Some(gpu), None);
      && (m.Menu? <==> |FreeOfCategory(s, "Processor")| > 0)
      && (m.Menu? ==> forall i | 0 <= i < |FreeOfCategory(s, "Processor")| ::
        m.rows[i][0].callback == "build_cpu_" + IntToDecimal(gpu) + "_" + IntToDecimal(FreeOfCategory(s, "Processor")[i].cardId))
  {
  }

  lemma BuildMenuMbStep(s: seq<Card>, gpu: int, cpu: int)
    requires gpu != 0 && cpu != 0 && HasId(s, gpu) && HasId(s, cpu)
    ensures var m := BuildMenu(s, Some(gpu), Some(cpu));
      && (m.Menu? <==> |FreeOfCategory(s, "Motherboard")| > 0)
      && (m.Menu? ==> forall i | 0 <= i < |FreeOfCategory(s, "Motherboard")| ::
        m.rows[i][0].callback == "build_mb_" + IntToDecimal(gpu) + "_" + IntToDecimal(cpu) + "_"
          + IntToDecimal(FreeOfCategory(s, "Motherboard")[i].cardId))
  {
  }

  // ---------------------------------------------------------------------
  // show_pc_details

  /** The position names of a PC's parts. */
  const CompTypes: seq<string> := ["Видеокарта", "Процессор", "Материнка"]

  /** One eject row per part found, labelled by its position. */
  function EjectRows(pc: Card, found: seq<Card>): (rows: Keyboard)
    requires |found| <= 3
    ensures |rows| == |found|
  {
    seq(|found|, i requires 0 <= i < |found| =>
      [Button("🔧 Вытащить " + CompTypes[i] + ": " + Take(found[i].gadgetName, 12),
        "eject_" + IntToDecimal(pc.cardId) + "_" + IntToDecimal(found[i].cardId))])
  }

  /** `show_pc_details`: an eject row per part the collection holds, a sell
      row only when all three are there, and a back row when asked for;
      a fourth part found makes the position lookup fail. */
  function PcDetails(s: seq<Card>, pricing: Utils.Pricing, pc: Card, back: string, showBack: bool): Screen {
    var found := Api.FoundCards(s, pc.components);
    if |found| > 3 then Fails
    else Menu(PcRows(pc, found, Utils.PcSalePrice(pricing, Utils.ComponentTotal(s, pc.components), pc.purchasePrice), back, showBack))
  }

  /** The keyboard of the PC view once its parts are found and its sale
      price known. */
  function PcRows(pc: Card, found: seq<Card>, price: int, back: string, showBack: bool): Keyboard
    requires |found| <= 3
  {
    EjectRows(pc, found)
    + (if |found| == 3 then [[Button("💰 Продать ПК (" + IntToDecimal(price) + " монет)", "confirm_sell_pc_" + IntToDecimal(pc.cardId))]] else [])
    + (if showBack then [[Button(BackLabel, back)]] else [])
  }

  method ShowPcDetails(store: Store, pricing: Utils.Pricing, uid: int, pc: Card, back: string, showBack: bool)
    returns (screen: Screen)
    ensures screen == PcDetails(store.UserCards(uid), pricing, pc, back, showBack)
  {
    var found := Api.ComponentDetails(store, uid, pc.components);
    if |found| > 3 {
      return Fails;
    }
    var price := Utils.CalculatePcSalePrice(store, pricing, uid, pc);
    screen := Menu(PcRows(pc, found, price, back, showBack));
  }

  /** The PC view ejects each found part by position and id, offers the
      sale exactly when three parts are found, and the back row is last
      exactly when asked for. */
  lemma PcRowsButtons(pc: Card, found: seq<Card>, price: int, back: string, showBack: bool)
    requires |found| <= 3
    ensures var rows := PcRows(pc, found, price, back, showBack);
      && |rows| == |found| + (if |found| == 3 then 1 else 0) + (if showBack then 1 else 0)
      && (forall i | 0 <= i < |found| ::
        rows[i][0].callback == "eject_" + IntToDecimal(pc.cardId) + "_" + IntToDecimal(found[i].cardId)
        && StartsWith(rows[i][0].text, "🔧 Вытащить " + CompTypes[i]))
      && (|found| == 3 ==> rows[3] == [Button("💰 Продать ПК (" + IntToDecimal(price) + " монет)", "confirm_sell_pc_" + IntToDecimal(pc.cardId))])
      && (showBack ==> rows[|rows| - 1] == [Button(BackLabel, back)])
  {
    var rows: Keyboard := PcRows(pc, found, price, back, showBack);
    forall i | 0 <= i < |found|
      ensures StartsWith(rows[i][0].text, "🔧 Вытащить " + CompTypes[i])
    {
      var p := "🔧 Вытащить " + CompTypes[i];
      assert rows[i][0].text == p + (": " + Take(found[i].gadgetName, 12));
      assert (p + (": " + Take(found[i].gadgetName, 12)))[..|p|] == p;
    }
  }
}
