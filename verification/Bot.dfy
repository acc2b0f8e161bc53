/** The English Telegram bot: the card list with its category grouping and
    its keyboard of view buttons, the profile totals, the three-step build
    menu, and `button_callback` with its dispatch order and the changes each
    branch makes to the store. */
module Bot {
  import opened Wrappers
  import opened Strings
  import opened Form
  import opened Database
  import opened Commands
  import Gadgets
  import Api
  import Utils
  import Assembly
  import Callbacks

  // ---------------------------------------------------------------------
  // Dispatch

  /** The branch of `button_callback` that handles a callback. */
  datatype Branch =
    | OnGetCard | OnViewCards | OnProfile | OnBuildPc | OnViewPcs | OnHelp | OnBackToStart
    | OnViewCard | OnConfirmSell | OnSell | OnBuildGpu | OnBuildCpu | OnBuildMb | OnPc | OnEject
    | OnConfirmSellPc | OnSellPc
    /** No branch matches; the button is only acknowledged. */
    | Unhandled

  /** The `if`/`elif` chain of `button_callback`, in source order. */
  function Dispatch(data: string): Branch {
    if data == "get_card" then OnGetCard
    else if data == "view_cards" then OnViewCards
    else if data == "profile" then OnProfile
    else if data == "build_pc" then OnBuildPc
    else if data == "view_pcs" then OnViewPcs
    else if data == "help" then OnHelp
    else if data == "back_to_start" then OnBackToStart
    else if StartsWith(data, "view_card_") then OnViewCard
    else if StartsWith(data, "confirm_sell_") then OnConfirmSell
    else if StartsWith(data, "sell_") && !StartsWith(data, "sell_pc_") then OnSell
    else if StartsWith(data, "build_gpu_") then OnBuildGpu
    else if StartsWith(data, "build_cpu_") then OnBuildCpu
    else if StartsWith(data, "build_mb_") then OnBuildMb
    else if StartsWith(data, "pc_") then OnPc
    else if StartsWith(data, "eject_") then OnEject
    else if StartsWith(data, "confirm_sell_pc_") then OnConfirmSellPc
    else if StartsWith(data, "sell_pc_") then OnSellPc
    else Unhandled
  }

  /** The chain with the PC confirmation tested before the card
      confirmation whose prefix it extends. */
  function DispatchFixed(data: string): Branch {
    if StartsWith(data, "confirm_sell_pc_") then OnConfirmSellPc else Dispatch(data)
  }

  /** As in the Russian handler, the card confirmation catches every PC
      confirmation, so the PC confirmation branch is never reached. */
  lemma ConfirmSellPcUnreachable(data: string)
    ensures Dispatch(data) != OnConfirmSellPc
    ensures StartsWith(data, "confirm_sell_pc_") ==> Dispatch(data) == OnConfirmSell
  {
    if StartsWith(data, "confirm_sell_pc_") {
      Callbacks.StartsWithLonger(data, "confirm_sell_", "pc_");
      assert data[0] == 'c';
    }
  }

  /** Moving the PC confirmation first changes the branch of those strings
      and of no other. */
  lemma DispatchFixedChangesOnlyPcConfirmations(data: string)
    ensures DispatchFixed(data) != Dispatch(data) <==> StartsWith(data, "confirm_sell_pc_")
  {
    ConfirmSellPcUnreachable(data);
  }

  /** The first character rules out the tests whose literal starts with
      another one. */
  lemma FirstLetter(s: string)
    requires |s| > 0
    ensures s[0] != 'g' ==> s != "get_card"
    ensures s[0] != 'v' ==> s != "view_cards" && s != "view_pcs" && !StartsWith(s, "view_card_")
    ensures s[0] != 'p' ==> s != "profile" && !StartsWith(s, "pc_")
    ensures s[0] != 'b' ==>
      s != "build_pc" && s != "back_to_start" && !StartsWith(s, "build_gpu_") && !StartsWith(s, "build_cpu_")
      && !StartsWith(s, "build_mb_")
    ensures s[0] != 'h' ==> s != "help"
    ensures s[0] != 'c' ==> !StartsWith(s, "confirm_sell_") && !StartsWith(s, "confirm_sell_pc_")
    ensures s[0] != 's' ==> !StartsWith(s, "sell_") && !StartsWith(s, "sell_pc_")
    ensures s[0] != 'e' ==> !StartsWith(s, "eject_")
  {
    Callbacks.FirstLetter(s);
    if s[0] != 'v' {
      Callbacks.Mismatch(s, "view_cards", 0);
    }
  }

  /** The buttons with fixed data reach their own branches. */
  lemma FixedRoutes()
    ensures Dispatch("get_card") == OnGetCard
    ensures Dispatch("view_cards") == OnViewCards
    ensures Dispatch("profile") == OnProfile
    ensures Dispatch("build_pc") == OnBuildPc
    ensures Dispatch("view_pcs") == OnViewPcs
    ensures Dispatch("help") == OnHelp
    ensures Dispatch("back_to_start") == OnBackToStart
  {
    FirstLetter("profile");
    FirstLetter("build_pc");
    FirstLetter("view_pcs");
    Callbacks.Mismatch("view_pcs", "view_cards", 5);
    FirstLetter("help");
    FirstLetter("back_to_start");
    Callbacks.Mismatch("back_to_start", "build_pc", 1);
  }

  lemma ViewCardRoute(rest: string)
    ensures Dispatch("view_card_" + rest) == OnViewCard
  {
    var s := "view_card_" + rest;
    Callbacks.PrefixOf("view_card_", rest);
    FirstLetter(s);
    Callbacks.Mismatch(s, "view_cards", 9);
    Callbacks.Mismatch(s, "view_pcs", 5);
  }

  lemma ConfirmSellRoute(rest: string)
    ensures Dispatch("confirm_sell_" + rest) == OnConfirmSell
  {
    var s := "confirm_sell_" + rest;
    Callbacks.PrefixOf("confirm_sell_", rest);
    FirstLetter(s);
  }

  lemma SellRoute(rest: string)
    requires |rest| > 0 && rest[0] != 'p'
    ensures Dispatch("sell_" + rest) == OnSell
  {
    var s := "sell_" + rest;
    Callbacks.PrefixOf("sell_", rest);
    FirstLetter(s);
    Callbacks.Mismatch(s, "sell_pc_", 5);
  }

  lemma SellPcRoute(rest: string)
    ensures Dispatch("sell_pc_" + rest) == OnSellPc
  {
    var s := "sell_pc_" + rest;
    Callbacks.PrefixOf("sell_pc_", rest);
    assert s == "sell_" + ("pc_" + rest);
    Callbacks.PrefixOf("sell_", "pc_" + rest);
    FirstLetter(s);
  }

  lemma BuildRoutes(rest: string)
    ensures Dispatch("build_gpu_" + rest) == OnBuildGpu
    ensures Dispatch("build_cpu_" + rest) == OnBuildCpu
    ensures Dispatch("build_mb_" + rest) == OnBuildMb
  {
    var g, c, m := "build_gpu_" + rest, "build_cpu_" + rest, "build_mb_" + rest;
    Callbacks.PrefixOf("build_gpu_", rest);
    Callbacks.PrefixOf("build_cpu_", rest);
    Callbacks.PrefixOf("build_mb_", rest);
    FirstLetter(g);
    FirstLetter(c);
    FirstLetter(m);
    Callbacks.Mismatch(g, "build_pc", 6);
    Callbacks.Mismatch(c, "build_pc", 6);
    Callbacks.Mismatch(m, "build_pc", 6);
    Callbacks.Mismatch(g, "back_to_start", 1);
    Callbacks.Mismatch(c, "back_to_start", 1);
    Callbacks.Mismatch(m, "back_to_start", 1);
    Callbacks.Mismatch(c, "build_gpu_", 6);
    Callbacks.Mismatch(m, "build_gpu_", 6);
    Callbacks.Mismatch(m, "build_cpu_", 6);
  }

  lemma PcRoutes(rest: string)
    ensures Dispatch("pc_" + rest) == OnPc
    ensures Dispatch("eject_" + rest) == OnEject
  {
    var s, t := "pc_" + rest, "eject_" + rest;
    Callbacks.PrefixOf("pc_", rest);
    Callbacks.PrefixOf("eject_", rest);
    FirstLetter(s);
    FirstLetter(t);
    Callbacks.Mismatch(s, "profile", 1);
  }

  /** The view button carries the card id in its third field. */
  lemma ViewCardFields(a: int)
    ensures Callbacks.IntField("view_card_" + IntToDecimal(a), 2) == Some(a)
  {
    var d := IntToDecimal(a);
    Callbacks.DecimalShape(a);
    ParseIntOfDecimal(a);
    assert "view_card_" + d == "view" + "_" + ("card" + "_" + d);
    Callbacks.Cut("view", "card" + "_" + d);
    Callbacks.Cut("card", d);
    SplitWithoutSeparator(d, '_', 0);
  }

  // ---------------------------------------------------------------------
  // show_cards: grouping

  /** The cards of category `k` that are not PCs, in order. */
  function CategoryCards(cards: seq<Card>, k: string): (t: seq<Card>)
    ensures |t| <= |cards|
    decreases |cards|
  {
    if |cards| == 0 then []
    else
      var last := cards[|cards| - 1];
      CategoryCards(cards[..|cards| - 1], k) + (if last.category == k && k != "PC" then [last] else [])
  }

  /** The group of category `k` in `cards_by_category`: absent when empty. */
  function CategoryGroup(cards: seq<Card>, k: string): Option<seq<Card>> {
    if |CategoryCards(cards, k)| > 0 then Some(CategoryCards(cards, k)) else None
  }

  /** The categories other than "PC", in order of first appearance. */
  function FirstCategories(cards: seq<Card>): seq<string>
    decreases |cards|
  {
    if |cards| == 0 then []
    else
      var init := FirstCategories(cards[..|cards| - 1]);
      var k := cards[|cards| - 1].category;
      if k == "PC" || k in init then init else init + [k]
  }

  /** `cards_by_category` as a reference: each category in order of first
      appearance with its cards. */
  function CategoryListing(cards: seq<Card>): (d: Assoc<string, seq<Card>>)
    ensures Keys(d) == FirstCategories(cards)
  {
    var ks := FirstCategories(cards);
    seq(|ks|, i requires 0 <= i < |ks| => (ks[i], CategoryCards(cards, ks[i])))
  }

  /** A category is listed exactly when some card other than a PC has it,
      and none is listed twice. */
  lemma {:induction false} FirstCategoriesExact(cards: seq<Card>)
    ensures forall k :: k in FirstCategories(cards) <==> |CategoryCards(cards, k)| > 0
    ensures forall i, j | 0 <= i < j < |FirstCategories(cards)| :: FirstCategories(cards)[i] != FirstCategories(cards)[j]
    decreases |cards|
  {
    if |cards| > 0 {
      FirstCategoriesExact(cards[..|cards| - 1]);
    }
  }

  lemma CategoryCardsAppend(seen: seq<Card>, card: Card, k: string)
    ensures CategoryCards(seen + [card], k) == CategoryCards(seen, k) + (if card.category == k && k != "PC" then [card] else [])
  {
    assert (seen + [card])[..|seen|] == seen;
  }

  /** `groups` is `cards_by_category` after the cards `seen`: one entry
      per category in order of first appearance, holding its cards. */
  ghost predicate Grouped(groups: Assoc<string, seq<Card>>, seen: seq<Card>) {
    && DistinctKeys(groups) && Keys(groups) == FirstCategories(seen)
    && forall k :: Get(groups, k) == CategoryGroup(seen, k)
  }

  /** One step of the grouping loop for a card that is not a PC. */
  lemma GroupStep(groups: Assoc<string, seq<Card>>, seen: seq<Card>, card: Card)
    requires card.category != "PC" && Grouped(groups, seen)
    ensures Grouped(Put(groups, card.category, Get(groups, card.category).GetOr([]) + [card]), seen + [card])
  {
    var k0 := card.category;
    var v := Get(groups, k0).GetOr([]) + [card];
    PutKeys(groups, k0, v);
    PutKeysOrder(groups, k0, v);
    assert (seen + [card])[..|seen|] == seen;
    forall k
      ensures Get(Put(groups, k0, v), k) == CategoryGroup(seen + [card], k)
    {
      GroupStepAt(groups, seen, card, k);
    }
  }

  /** The step of `GroupStep` for one category. */
  lemma GroupStepAt(groups: Assoc<string, seq<Card>>, seen: seq<Card>, card: Card, k: string)
    requires card.category != "PC"
    requires Get(groups, k) == CategoryGroup(seen, k)
    requires Get(groups, card.category) == CategoryGroup(seen, card.category)
    ensures Get(Put(groups, card.category, Get(groups, card.category).GetOr([]) + [card]), k) == CategoryGroup(seen + [card], k)
  {
    var v := Get(groups, card.category).GetOr([]) + [card];
    PutGet(groups, card.category, v);
    CategoryCardsAppend(seen, card, k);
    if k == card.category {
      assert v == CategoryCards(seen, k) + [card];
    } else {
      assert CategoryCards(seen + [card], k) == CategoryCards(seen, k) + [];
      assert CategoryCards(seen, k) + [] == CategoryCards(seen, k);
    }
  }

  /** A PC card leaves the groups as they are. */
  lemma PcStep(groups: Assoc<string, seq<Card>>, seen: seq<Card>, card: Card)
    requires card.category == "PC" && Grouped(groups, seen)
    ensures Grouped(groups, seen + [card])
  {
    assert (seen + [card])[..|seen|] == seen;
    forall k
      ensures Get(groups, k) == CategoryGroup(seen + [card], k)
    {
      CategoryCardsAppend(seen, card, k);
      assert CategoryCards(seen + [card], k) == CategoryCards(seen, k) + [];
      assert CategoryCards(seen, k) + [] == CategoryCards(seen, k);
    }
  }

  /** Distinct keys, the keys of the reference and its values determine
      the dictionary. */
  lemma ListingExact(d: Assoc<string, seq<Card>>, cards: seq<Card>)
    requires Grouped(d, cards)
    ensures d == CategoryListing(cards)
  {
    var e := CategoryListing(cards);
    FirstCategoriesExact(cards);
    forall i | 0 <= i < |d|
      ensures d[i] == e[i]
    {
      GetAt(d, i);
      assert d[i].0 == Keys(d)[i];
      assert d[i].0 in FirstCategories(cards);
    }
  }

  lemma OfCategoryAppend(s: seq<Card>, c: Card, cat: string)
    ensures OfCategory(s + [c], cat) == OfCategory(s, cat) + (if c.category == cat then [c] else [])
  {
    OfCategoryConcat(s, [c], cat);
    assert OfCategory([c], cat) == (if c.category == cat then [c] else []) + OfCategory([], cat);
  }

  lemma {:induction false} OfCategoryConcat(a: seq<Card>, b: seq<Card>, cat: string)
    ensures OfCategory(a + b, cat) == OfCategory(a, cat) + OfCategory(b, cat)
    decreases |a|
  {
    if |a| == 0 {
      assert a + b == b;
    } else {
      var head := if a[0].category == cat then [a[0]] else [];
      assert (a + b)[0] == a[0] && (a + b)[1..] == a[1..] + b;
      assert OfCategory(a + b, cat) == head + OfCategory(a[1..] + b, cat);
      OfCategoryConcat(a[1..], b, cat);
      assert OfCategory(a, cat) == head + OfCategory(a[1..], cat);
    }
  }

  /** The grouping loop of `show_cards`: PCs apart, in order, and the other
      cards grouped by category in order of first appearance. */
  method GroupCards(cards: seq<Card>) returns (pcs: seq<Card>, groups: Assoc<string, seq<Card>>)
    ensures pcs == OfCategory(cards, "PC")
    ensures groups == CategoryListing(cards)
  {
    pcs := [];
    groups := [];
    var i := 0;
    while i < |cards|
      invariant 0 <= i <= |cards|
      invariant pcs == OfCategory(cards[..i], "PC")
      invariant Grouped(groups, cards[..i])
    {
      var card := cards[i];
      assert cards[..i + 1] == cards[..i] + [card];
      OfCategoryAppend(cards[..i], card, "PC");
      if card.category == "PC" {
        PcStep(groups, cards[..i], card);
        pcs := pcs + [card];
      } else {
        GroupStep(groups, cards[..i], card);
        groups := Put(groups, card.category, Get(groups, card.category).GetOr([]) + [card]);
      }
      i := i + 1;
    }
    assert cards[..i] == cards;
    ListingExact(groups, cards);
  }

  // ---------------------------------------------------------------------
  // show_cards: keyboard

  const BackText := "Back ↩️"

  const GetCardKeys: Keyboard := [[Button("Get Card 🎴", "get_card")]]

  /** The three rows under the view buttons. */
  const CardsFooter: Keyboard := [
    [Button("View Built PCs 🖥️", "view_pcs")],
    [Button("Build PC 🛠️", "build_pc")],
    [Button(BackText, "back_to_start")]]

  /** The 20-character cut of a label. */
  function Truncated(t: string): string {
    if |t| > 20 then Take(t, 17) + "..." else t
  }

  /** The view button of a card. */
  function ViewButton(c: Card): Button {
    Button(Truncated("View " + Take(c.gadgetName, 12)), "view_card_" + IntToDecimal(c.cardId))
  }

  /** One view button per card outside every PC, in order. */
  function ViewButtons(cards: seq<Card>): (bs: seq<Button>)
    ensures |bs| <= |cards|
    decreases |cards|
  {
    if |cards| == 0 then []
    else
      var last := cards[|cards| - 1];
      ViewButtons(cards[..|cards| - 1]) + (if last.inPc.None? then [ViewButton(last)] else [])
  }

  /** The cut never applies: the label is at most 17 characters. */
  lemma LabelNeverCut(c: Card)
    ensures |"View " + Take(c.gadgetName, 12)| <= 17
    ensures ViewButton(c).text == "View " + Take(c.gadgetName, 12)
  {
  }

  /** Each view button belongs to a card outside every PC and opens it:
      its data reaches the card view with the card's id. */
  lemma {:induction false} ViewButtonsOpenFreeCards(cards: seq<Card>)
    ensures forall b | b in ViewButtons(cards) :: exists c | c in cards :: c.inPc.None? && b == ViewButton(c)
    ensures forall c | c in cards && c.inPc.None? :: ViewButton(c) in ViewButtons(cards)
    decreases |cards|
  {
    if |cards| > 0 {
      var init := cards[..|cards| - 1];
      ViewButtonsOpenFreeCards(init);
      assert cards == init + [cards[|cards| - 1]];
      forall b | b in ViewButtons(init)
        ensures exists c | c in cards :: c.inPc.None? && b == ViewButton(c)
      {
        var c :| c in init && c.inPc.None? && b == ViewButton(c);
        assert c in cards;
      }
    }
  }

  lemma ViewButtonOpens(s: seq<Card>, c: Card)
    ensures Dispatch(ViewButton(c).callback) == OnViewCard
    ensures Callbacks.IntField(ViewButton(c).callback, 2) == Some(c.cardId)
  {
    ViewCardRoute(IntToDecimal(c.cardId));
    ViewCardFields(c.cardId);
  }

  /** Appending one button to a packed list: an even count opens a new row,
      an odd count completes the last one. */
  lemma {:induction false} PairsSnoc(bs: seq<Button>, b: Button)
    ensures |bs| % 2 == 0 ==> Pairs(bs + [b]) == Pairs(bs) + [[b]]
    ensures |bs| % 2 == 1 ==>
      && |Pairs(bs)| > 0
      && Pairs(bs + [b]) == Pairs(bs)[..|Pairs(bs)| - 1] + [Pairs(bs)[|Pairs(bs)| - 1] + [b]]
    decreases |bs|
  {
    var t := bs + [b];
    if |bs| == 0 {
      assert t == [b];
    } else if |bs| == 1 {
      assert Pairs(t) == [t];
    } else if |bs| == 2 {
      assert t[..2] == bs && t[2..] == [b];
    } else {
      assert t[..2] == bs[..2] && t[2..] == bs[2..] + [b];
      PairsSnoc(bs[2..], b);
      assert Pairs(bs) == [bs[..2]] + Pairs(bs[2..]);
      if |bs| % 2 == 1 {
        var p := Pairs(bs[2..]);
        assert |p| > 0;
        assert Pairs(bs)[..|Pairs(bs)| - 1] == [bs[..2]] + p[..|p| - 1];
      }
    }
  }

  /** `show_cards`: a get-card button for an empty collection; otherwise
      the view buttons two to a row, then the three fixed rows. */
  function CollectionScreen(cards: seq<Card>): Screen {
    if |cards| == 0 then Menu(GetCardKeys) else Menu(Pairs(ViewButtons(cards)) + CardsFooter)
  }

  lemma ViewButtonsStep(cards: seq<Card>, i: nat)
    requires i < |cards|
    ensures ViewButtons(cards[..i + 1]) == ViewButtons(cards[..i]) + (if cards[i].inPc.None? then [ViewButton(cards[i])] else [])
  {
    assert cards[..i + 1][..i] == cards[..i];
  }

  /** Adding a button to the open row: the rows so far followed by that
      row are the packed buttons. */
  lemma RowStep(before: seq<Button>, rows: Keyboard, row: seq<Button>, b: Button)
    requires |row| <= 1 && |before| % 2 == |row|
    requires Pairs(before) == rows + (if |row| == 0 then [] else [row])
    ensures Pairs(before + [b]) == rows + [row + [b]]
  {
    PairsSnoc(before, b);
    if |row| == 1 {
      assert (rows + [row])[..|rows|] == rows && (rows + [row])[|rows|] == row;
    } else {
      assert rows + [] == rows && row + [b] == [b];
    }
  }

  /** The keyboard loop of `show_cards`. */
  method ViewKeyboard(cards: seq<Card>) returns (rows: Keyboard)
    ensures rows == Pairs(ViewButtons(cards)) + CardsFooter
  {
    rows := [];
    var row: seq<Button> := [];
    var i := 0;
    while i < |cards|
      invariant 0 <= i <= |cards|
      invariant |row| <= 1 && |ViewButtons(cards[..i])| % 2 == |row|
      invariant Pairs(ViewButtons(cards[..i])) == rows + (if |row| == 0 then [] else [row])
    {
      var card := cards[i];
      ViewButtonsStep(cards, i);
      if card.inPc.None? {
        RowStep(ViewButtons(cards[..i]), rows, row, ViewButton(card));
        row := row + [ViewButton(card)];
        if |row| == 2 {
          rows := rows + [row];
          row := [];
          assert rows + [] == rows;
        }
      } else {
        assert ViewButtons(cards[..i]) + [] == ViewButtons(cards[..i]);
      }
      i := i + 1;
    }
    assert cards[..i] == cards;
    if |row| > 0 {
      rows := rows + [row];
    }
    rows := rows + CardsFooter;
  }

  /** What `show_cards` computes: the PCs, the category groups and the
      screen. */
  method ShowCards(store: Store, uid: int) returns (pcs: seq<Card>, groups: Assoc<string, seq<Card>>, screen: Screen)
    ensures var s := store.UserCards(uid);
      && screen == CollectionScreen(s)
      && (|s| > 0 ==> pcs == OfCategory(s, "PC") && groups == CategoryListing(s))
      && (|s| == 0 ==> pcs == [] && groups == [])
  {
    var cards := store.UserCards(uid);
    if |cards| == 0 {
      return [], [], Menu(GetCardKeys);
    }
    pcs, groups := GroupCards(cards);
    var rows := ViewKeyboard(cards);
    screen := Menu(rows);
  }

  // ---------------------------------------------------------------------
  // Profile

  /** The profile totals: card count, PC count and the summed purchase
      prices, as the loop and the list comprehension compute them. */
  method ProfileStats(cards: seq<Card>) returns (stats: Api.UserStats)
    ensures stats == Api.Stats(cards)
  {
    var total := 0;
    var i := 0;
    while i < |cards|
      invariant 0 <= i <= |cards|
      invariant total == Api.Stats(cards[..i]).totalPrice
    {
      assert cards[..i + 1] == cards[..i] + [cards[i]];
      Api.StatsAppend(cards[..i], cards[i]);
      total := total + cards[i].purchasePrice;
      i := i + 1;
    }
    assert cards[..i] == cards;
    var pcs := OfCategory(cards, "PC");
    stats := Api.UserStats(|cards|, |pcs|, total);
  }

  // ---------------------------------------------------------------------
  // show_build_menu

  /** The bot's `show_build_menu`: each step needs free cards of its own
      kind only, and offers a get-card button when there are none; the
      chosen cards must exist for the later steps' messages. */
  function PartMenu(s: seq<Card>, gpu: Option<int>, cpu: Option<int>): Screen {
    if !Given(gpu) then
      if |FreeOfCategory(s, "Graphics Card")| == 0 then Menu(GetCardKeys)
      else Menu(PartRows(FreeOfCategory(s, "Graphics Card"), "build_gpu_") + [[Button("Cancel ❌", "view_cards")]])
    else if !Given(cpu) then
      if |FreeOfCategory(s, "Processor")| == 0 then Menu(GetCardKeys)
      else if !HasId(s, gpu.value) then Fails
      else Menu(PartRows(FreeOfCategory(s, "Processor"), "build_cpu_" + IntToDecimal(gpu.value) + "_")
        + [[Button(BackText, "build_pc")]])
    else if |FreeOfCategory(s, "Motherboard")| == 0 then Menu(GetCardKeys)
    else if !HasId(s, gpu.value) || !HasId(s, cpu.value) then Fails
    else Menu(PartRows(FreeOfCategory(s, "Motherboard"), "build_mb_" + IntToDecimal(gpu.value) + "_" + IntToDecimal(cpu.value) + "_")
      + [[Button(BackText, "build_cpu_" + IntToDecimal(gpu.value))]])
  }

  method ShowPartMenu(store: Store, uid: int, gpu: Option<int>, cpu: Option<int>) returns (screen: Screen)
    ensures screen == PartMenu(store.UserCards(uid), gpu, cpu)
  {
    var parts := store.GetAvailablePcParts(uid);
    if !Given(gpu) {
      if |parts["Graphics Card"]| == 0 {
        return Menu(GetCardKeys);
      }
      return Menu(PartRows(parts["Graphics Card"], "build_gpu_") + [[Button("Cancel ❌", "view_cards")]]);
    }
    if !Given(cpu) {
      if |parts["Processor"]| == 0 {
        return Menu(GetCardKeys);
      }
      var gpuCard := store.GetCard(uid, gpu.value);
      if gpuCard.None? {
        return Fails;
      }
      return Menu(PartRows(parts["Processor"], "build_cpu_" + IntToDecimal(gpu.value) + "_") + [[Button(BackText, "build_pc")]]);
    }
    if |parts["Motherboard"]| == 0 {
      return Menu(GetCardKeys);
    }
    var gpuCard := store.GetCard(uid, gpu.value);
    var cpuCard := store.GetCard(uid, cpu.value);
    if gpuCard.None? || cpuCard.None? {
      return Fails;
    }
    screen := Menu(PartRows(parts["Motherboard"], "build_mb_" + IntToDecimal(gpu.value) + "_" + IntToDecimal(cpu.value) + "_")
      + [[Button(BackText, "build_cpu_" + IntToDecimal(gpu.value))]]);
  }

  /** Each step lists exactly its free parts when it has any, and each
      part's button carries the ids chosen so far followed by its own;
      the next step's button reaches the branch that reads those ids. */
  lemma PartMenuSteps(s: seq<Card>, gpu: int, cpu: int)
    requires gpu != 0 && cpu != 0 && HasId(s, gpu) && HasId(s, cpu)
    ensures PartMenu(s, None, None).Menu? && (PartMenu(s, None, None).rows == GetCardKeys <==> |FreeOfCategory(s, "Graphics Card")| == 0)
    ensures var m := PartMenu(s, None, None);
      |FreeOfCategory(s, "Graphics Card")| > 0 ==> forall i | 0 <= i < |FreeOfCategory(s, "Graphics Card")| ::
        m.rows[i][0].callback == "build_gpu_" + IntToDecimal(FreeOfCategory(s, "Graphics Card")[i].cardId)
    ensures var m := PartMenu(s, Some(gpu), None);
      |FreeOfCategory(s, "Processor")| > 0 ==> forall i | 0 <= i < |FreeOfCategory(s, "Processor")| ::
        m.rows[i][0].callback == "build_cpu_" + IntToDecimal(gpu) + "_" + IntToDecimal(FreeOfCategory(s, "Processor")[i].cardId)
    ensures var m := PartMenu(s, Some(gpu), Some(cpu));
      |FreeOfCategory(s, "Motherboard")| > 0 ==> forall i | 0 <= i < |FreeOfCategory(s, "Motherboard")| ::
        m.rows[i][0].callback == "build_mb_" + IntToDecimal(gpu) + "_" + IntToDecimal(cpu) + "_"
          + IntToDecimal(FreeOfCategory(s, "Motherboard")[i].cardId)
  {
    var m := PartMenu(s, None, None);
    if |FreeOfCategory(s, "Graphics Card")| > 0 {
      assert |m.rows| == |FreeOfCategory(s, "Graphics Card")| + 1;
    }
  }

  // ---------------------------------------------------------------------
  // The screens of the branches that only read the store

  const CardNotFoundAlert := "Card not found!"
  const InPcAlert := "Cannot sell a part that's in a PC! Eject it first."
  const PartsMissingAlert := "Error: One or more parts not found!"
  const PcNotFoundAlert := "PC not found!"
  const EjectNotFoundAlert := "Error: Card not found!"

  const ProfileKeys: Keyboard := [[Button("View Cards 📚", "view_cards")], [Button(BackText, "back_to_start")]]

  const HelpKeys: Keyboard := [[Button(BackText, "back_to_start")]]

  /** The keyboard of `back_to_start`, which has no profile button. */
  const StartKeys: Keyboard := [
    [Button("Get Card 🎴", "get_card")],
    [Button("My Cards 📚", "view_cards")],
    [Button("Build PC 🖥️", "build_pc")],
    [Button("Help ❓", "help")]]

  /** The sale row of the card view. */
  function SellRow(pricing: Utils.Pricing, c: Card, id: int): seq<Button> {
    [Button("💰 Sell (" + IntToDecimal(pricing.sale(c.purchasePrice)) + " coins)", "confirm_sell_" + IntToDecimal(id))]
  }

  /** The card view: a sale row only for a card outside every PC (a PC
      card included), then the row back to the list. */
  function ViewCardScreen(s: seq<Card>, pricing: Utils.Pricing, data: string): Screen {
    match Callbacks.IntField(data, 2)
    case None => Fails
    case Some(id) =>
      match FindCard(s, id)
      case None => Alert(CardNotFoundAlert)
      case Some(c) =>
        Menu((if c.inPc.None? then [SellRow(pricing, c, id)] else []) + [[Button(BackText, "view_cards")]])
  }

  /** A confirmation keyboard. */
  function YesNo(yes: string, no: string, id: int): Keyboard {
    [[Button("✅ Yes, Sell", yes + IntToDecimal(id))], [Button("❌ Cancel", no + IntToDecimal(id))]]
  }

  function ConfirmSellScreen(s: seq<Card>, data: string): Screen {
    match Callbacks.IntField(data, 2)
    case None => Fails
    case Some(id) =>
      match FindCard(s, id)
      case None => Alert(CardNotFoundAlert)
      case Some(c) => if Assembly.InPcTruthy(c) then Alert(InPcAlert) else Menu(YesNo("sell_", "view_card_", id))
  }

  function BuildGpuScreen(s: seq<Card>, data: string): Screen {
    match Callbacks.IntField(data, 2)
    case None => Fails
    case Some(gpu) => PartMenu(s, Some(gpu), None)
  }

  /** Three fields go back to the processor step, more choose the CPU. */
  function BuildCpuScreen(s: seq<Card>, data: string): Screen {
    if |Split(data, '_')| == 3 then
      match Callbacks.IntField(data, 2)
      case None => Fails
      case Some(gpu) => PartMenu(s, Some(gpu), None)
    else
      var gpu, cpu := Callbacks.IntField(data, 2), Callbacks.IntField(data, 3);
      if gpu.None? || cpu.None? then Fails
      else PartMenu(s, gpu, cpu)
  }

  /** The position names of a PC's parts. */
  const PartNames: seq<string> := ["GPU", "CPU", "Motherboard"]

  /** One eject row per part found. */
  function EjectKeys(pcId: int, found: seq<Card>): (rows: Keyboard)
    requires |found| <= 3
    ensures |rows| == |found|
  {
    seq(|found|, i requires 0 <= i < |found| =>
      [Button("Eject " + PartNames[i] + ": " + Take(found[i].gadgetName, 15),
        "eject_" + IntToDecimal(pcId) + "_" + IntToDecimal(found[i].cardId))])
  }

  /** The keyboard of the PC view: the eject rows, a sale row whatever the
      number of parts, and the row back to the PC list. */
  function PcKeys(pcId: int, found: seq<Card>, price: int): Keyboard
    requires |found| <= 3
  {
    EjectKeys(pcId, found)
    + [[Button("💰 Sell PC (" + IntToDecimal(price) + " coins)", "confirm_sell_pc_" + IntToDecimal(pcId))]]
    + [[Button(BackText, "view_pcs")]]
  }

  /** The `pc_` branch; a fourth part found makes the position lookup
      fail. */
  function PcScreen(s: seq<Card>, pricing: Utils.Pricing, data: string): Screen {
    match Callbacks.IntField(data, 1)
    case None => Fails
    case Some(id) =>
      match FindCard(s, id)
      case None => Alert(PcNotFoundAlert)
      case Some(pc) =>
        if pc.category != "PC" then Alert(PcNotFoundAlert)
        else
          var found := Api.FoundCards(s, pc.components);
          if |found| > 3 then Fails
          else Menu(PcKeys(id, found, Utils.PcSalePrice(pricing, Utils.ComponentTotal(s, pc.components), pc.purchasePrice)))
  }

  /** The `confirm_sell_pc_` branch: no check of the number of parts. */
  function ConfirmSellPcScreen(s: seq<Card>, data: string): Screen {
    match Callbacks.IntField(data, 3)
    case None => Fails
    case Some(id) =>
      match FindCard(s, id)
      case None => Alert(PcNotFoundAlert)
      case Some(pc) => if pc.category != "PC" then Alert(PcNotFoundAlert) else Menu(YesNo("sell_pc_", "pc_", id))
  }

  // ---------------------------------------------------------------------
  // The outcome of every branch

  datatype Answer =
    | Shown(screen: Screen)
    /** The gadget `get_card` drew and the id of the card it added. */
    | Drew(gadget: Gadgets.Gadget, cardId: int)
    /** The sale message: price and new balance. */
    | Sold(salePrice: int, newBalance: int)
    /** The eject message, saying whether the PC was taken apart. */
    | Ejected(pcRemoved: bool)
    /** The profile message: coins and totals. */
    | Profile(coins: int, stats: Api.UserStats)
    /** The card list: its PCs, its category groups and its keyboard. */
    | Listed(pcs: seq<Card>, groups: Assoc<string, seq<Card>>, screen: Screen)
    /** `show_pcs`, which is not part of this model. */
    | PcsListed
    /** Only the acknowledgement. */
    | Ignored

  type Effect = Callbacks.Effect<Answer>

  function Shows(screen: Screen, s: seq<Card>): Effect {
    Callbacks.Effect(Shown(screen), false, s, None)
  }

  /** The card list as the `view_cards` branch shows it. */
  function Listing(s: seq<Card>): Answer {
    if |s| == 0 then Listed([], [], CollectionScreen(s))
    else Listed(OfCategory(s, "PC"), CategoryListing(s), CollectionScreen(s))
  }

  /** The `sell_` branch: the id is the second field; a card outside every
      PC, a PC card included, is removed and its price credited. */
  function SellOutcome(s: seq<Card>, coins: int, pricing: Utils.Pricing, data: string): Effect {
    match Callbacks.IntField(data, 1)
    case None => Shows(Fails, s)
    case Some(id) =>
      match FindCard(s, id)
      case None => Shows(Alert(CardNotFoundAlert), s)
      case Some(c) =>
        if Assembly.InPcTruthy(c) then Shows(Alert(InPcAlert), s)
        else
          var price := pricing.sale(c.purchasePrice);
          Callbacks.Effect(Sold(price, coins + price), true, RemoveAll(s, id), Some(coins + price))
  }

  /** The answer to a build: buttons to the new PC and to the card list. */
  function BuiltKeys(pcId: int): Keyboard {
    [[Button("View PC 🖥️", "pc_" + IntToDecimal(pcId))], [Button("View Cards 📚", "view_cards")]]
  }

  /** The `build_mb_` branch: with the three parts found the PC is
      assembled, without checking that the parts are free. */
  function BuildMbOutcome(s: seq<Card>, pricing: Utils.Pricing, data: string, now: real): Effect {
    var g, c, m := Callbacks.IntField(data, 2), Callbacks.IntField(data, 3), Callbacks.IntField(data, 4);
    if g.None? || c.None? || m.None? then Shows(Fails, s)
    else
      var gpu, cpu, mb := FindCard(s, g.value), FindCard(s, c.value), FindCard(s, m.value);
      if gpu.None? || cpu.None? || mb.None? then Shows(Alert(PartsMissingAlert), s)
      else
        Callbacks.Effect(Shown(Menu(BuiltKeys(Api.NewPcId(s, now)))), true,
          Api.BuildOutcome(s, pricing, gpu.value, cpu.value, mb.value, now), None)
  }

  /** The `eject_` branch: the part leaves the PC's list; when none is left
      the PC is removed and the part keeps naming it. */
  function EjectOutcome(s: seq<Card>, data: string): Effect {
    var pcId, compId := Callbacks.IntField(data, 1), Callbacks.IntField(data, 2);
    if pcId.None? || compId.None? then Shows(Fails, s)
    else
      var pc, comp := FindCard(s, pcId.value), FindCard(s, compId.value);
      if pc.None? || comp.None? then Shows(Alert(EjectNotFoundAlert), s)
      else
        Callbacks.Effect(Ejected(|Assembly.RemoveFirst(pc.value.components, compId.value)| == 0), true,
          Assembly.EjectLeavingPart(s, pc.value, compId.value), None)
  }

  /** A PC and a part both found under the ids of `eject_` give the
      eject that leaves the part naming a removed PC. */
  lemma EjectOutcomeFound(s: seq<Card>, data: string, pc: Card, compId: int)
    requires Callbacks.IntField(data, 1) == Some(pc.cardId) && Callbacks.IntField(data, 2) == Some(compId)
    requires FindCard(s, pc.cardId) == Some(pc) && FindCard(s, compId).Some?
    ensures EjectOutcome(s, data)
      == Callbacks.Effect(Ejected(|Assembly.RemoveFirst(pc.components, compId)| == 0), true,
        Assembly.EjectLeavingPart(s, pc, compId), None)
  {
  }

  /** The `sell_pc_` branch: every listed part is moved out of the PC, the
      price credited, and the PC alone removed, whatever its number of
      parts. */
  function SellPcOutcome(s: seq<Card>, coins: int, pricing: Utils.Pricing, data: string): Effect {
    match Callbacks.IntField(data, 2)
    case None => Shows(Fails, s)
    case Some(id) =>
      match FindCard(s, id)
      case None => Shows(Alert(PcNotFoundAlert), s)
      case Some(pc) =>
        if pc.category != "PC" then Shows(Alert(PcNotFoundAlert), s)
        else
          var price := Utils.PcSalePrice(pricing, Utils.ComponentTotal(s, pc.components), pc.purchasePrice);
          Callbacks.Effect(Sold(price, coins + price), true, Assembly.SoldPcKeepingParts(s, pc), Some(coins + price))
  }

  /** The branches that may rewrite the collection: the sales, the
      assembly and the eject. */
  predicate Writes(b: Branch) {
    b.OnSell? || b.OnBuildMb? || b.OnEject? || b.OnSellPc?
  }

  /** The branches that read ids from the callback data and only show a
      screen. */
  predicate ShowsData(b: Branch) {
    b.OnViewCard? || b.OnConfirmSell? || b.OnBuildGpu? || b.OnBuildCpu? || b.OnPc? || b.OnConfirmSellPc?
  }

  /** Every branch but `get_card`, whose draw is random. */
  function Outcome(b: Branch, s: seq<Card>, coins: int, pricing: Utils.Pricing, data: string, now: real): Effect
    requires b != OnGetCard
  {
    if Writes(b) then WriteOutcome(b, s, coins, pricing, data, now)
    else if ShowsData(b) then Shows(DataScreen(b, s, pricing, data), s)
    else MenuOutcome(b, s, coins)
  }

  /** The outcome of a branch that may rewrite the collection. */
  function WriteOutcome(b: Branch, s: seq<Card>, coins: int, pricing: Utils.Pricing, data: string, now: real): Effect
    requires Writes(b)
  {
    match b
    case OnSell => SellOutcome(s, coins, pricing, data)
    case OnBuildMb => BuildMbOutcome(s, pricing, data, now)
    case OnEject => EjectOutcome(s, data)
    case OnSellPc => SellPcOutcome(s, coins, pricing, data)
  }

  /** The screen of a branch that reads ids from the data. */
  function DataScreen(b: Branch, s: seq<Card>, pricing: Utils.Pricing, data: string): Screen
    requires ShowsData(b)
  {
    match b
    case OnViewCard => ViewCardScreen(s, pricing, data)
    case OnConfirmSell => ConfirmSellScreen(s, data)
    case OnBuildGpu => BuildGpuScreen(s, data)
    case OnBuildCpu => BuildCpuScreen(s, data)
    case OnPc => PcScreen(s, pricing, data)
    case OnConfirmSellPc => ConfirmSellPcScreen(s, data)
  }

  /** The branches whose data is a fixed word, apart from `get_card`. */
  function MenuOutcome(b: Branch, s: seq<Card>, coins: int): Effect
    requires b != OnGetCard && !Writes(b) && !ShowsData(b)
  {
    match b
    case OnViewCards => Callbacks.Effect(Listing(s), false, s, None)
    case OnProfile => Callbacks.Effect(Profile(coins, Api.Stats(s)), false, s, Some(coins))
    case OnBuildPc => Shows(PartMenu(s, None, None), s)
    case OnViewPcs => Callbacks.Effect(PcsListed, false, s, None)
    case OnHelp => Shows(Menu(HelpKeys), s)
    case OnBackToStart => Callbacks.Effect(Shown(Menu(StartKeys)), false, s, Some(coins))
    case Unhandled => Callbacks.Effect(Ignored, false, s, None)
  }

  // ---------------------------------------------------------------------
  // The flows through the buttons

  /** The card view, the sale confirmation and the sale of a card outside
      every PC, once the id is read. */
  lemma CardOutcomes(s: seq<Card>, coins: int, pricing: Utils.Pricing, view: string, confirm: string, sell: string, c: Card, now: real)
    requires FindCard(s, c.cardId) == Some(c) && c.inPc.None?
    requires Callbacks.IntField(view, 2) == Some(c.cardId) && Callbacks.IntField(confirm, 2) == Some(c.cardId)
    requires Callbacks.IntField(sell, 1) == Some(c.cardId)
    ensures Outcome(OnViewCard, s, coins, pricing, view, now)
      == Shows(Menu([SellRow(pricing, c, c.cardId), [Button(BackText, "view_cards")]]), s)
    ensures Outcome(OnConfirmSell, s, coins, pricing, confirm, now) == Shows(Menu(YesNo("sell_", "view_card_", c.cardId)), s)
    ensures var price := pricing.sale(c.purchasePrice);
      Outcome(OnSell, s, coins, pricing, sell, now)
        == Callbacks.Effect(Sold(price, coins + price), true, RemoveAll(s, c.cardId), Some(coins + price))
  {
    assert [SellRow(pricing, c, c.cardId)] + [[Button(BackText, "view_cards")]]
      == [SellRow(pricing, c, c.cardId), [Button(BackText, "view_cards")]];
  }

  /** A card outside every PC, a PC card included: its view button opens
      it, the view offers the sale, the sale button asks for confirmation,
      and the yes button removes the card and credits its sale price while
      the no button opens the card again. */
  lemma CardSaleFlow(s: seq<Card>, coins: int, pricing: Utils.Pricing, c: Card, now: real)
    requires FindCard(s, c.cardId) == Some(c) && c.inPc.None?
    ensures var d := IntToDecimal(c.cardId);
      && ViewButton(c).callback == "view_card_" + d
      && Dispatch("view_card_" + d) == OnViewCard
      && Outcome(OnViewCard, s, coins, pricing, "view_card_" + d, now)
        == Shows(Menu([SellRow(pricing, c, c.cardId), [Button(BackText, "view_cards")]]), s)
      && SellRow(pricing, c, c.cardId)[0].callback == "confirm_sell_" + d
      && Dispatch("confirm_sell_" + d) == OnConfirmSell
      && Outcome(OnConfirmSell, s, coins, pricing, "confirm_sell_" + d, now)
        == Shows(Menu(YesNo("sell_", "view_card_", c.cardId)), s)
      && Dispatch("sell_" + d) == OnSell
    ensures var price := pricing.sale(c.purchasePrice);
      Outcome(OnSell, s, coins, pricing, "sell_" + IntToDecimal(c.cardId), now)
        == Callbacks.Effect(Sold(price, coins + price), true, RemoveAll(s, c.cardId), Some(coins + price))
  {
    var d := IntToDecimal(c.cardId);
    Callbacks.DecimalShape(c.cardId);
    ViewCardRoute(d);
    ViewCardFields(c.cardId);
    ConfirmSellRoute(d);
    Callbacks.ConfirmSellFields(c.cardId);
    SellRoute(d);
    Callbacks.SellFields(c.cardId);
    CardOutcomes(s, coins, pricing, "view_card_" + d, "confirm_sell_" + d, "sell_" + d, c, now);
  }

  /** A part inside a PC has no sale row, and the confirmation and the
      sale refuse it, leaving the collection as it was. */
  lemma PartInPcNotSold(s: seq<Card>, coins: int, pricing: Utils.Pricing, c: Card, now: real)
    requires FindCard(s, c.cardId) == Some(c) && Assembly.InPcTruthy(c)
    ensures var d := IntToDecimal(c.cardId);
      && Outcome(OnViewCard, s, coins, pricing, "view_card_" + d, now) == Shows(Menu([[Button(BackText, "view_cards")]]), s)
      && Dispatch("sell_" + d) == OnSell
      && Outcome(OnSell, s, coins, pricing, "sell_" + d, now) == Shows(Alert(InPcAlert), s)
      && Outcome(OnConfirmSell, s, coins, pricing, "confirm_sell_" + d, now) == Shows(Alert(InPcAlert), s)
  {
    var d := IntToDecimal(c.cardId);
    Callbacks.DecimalShape(c.cardId);
    ViewCardFields(c.cardId);
    SellRoute(d);
    Callbacks.SellFields(c.cardId);
    Callbacks.ConfirmSellFields(c.cardId);
    var back: Keyboard := [[Button(BackText, "view_cards")]];
    assert [] + back == back;
  }

  /** The card view offers the sale of a PC card, whose parts name it, and
      the sale removes the PC alone: its part is left naming a PC that is
      gone. */
  lemma PcSoldAsCardStrandsParts(pricing: Utils.Pricing, now: real)
    ensures var pc := Card(1, "Custom Gaming PC (X)", "PC", 0, "Common", 0.0, None, [2], map[]);
      var part := Card(2, "X", "Graphics Card", 0, "Common", 0.0, Some(1), [], map[]);
      var s := [pc, part];
      var d := IntToDecimal(1);
      && Linked(s)
      && Outcome(OnViewCard, s, 0, pricing, "view_card_" + d, now)
        == Shows(Menu([SellRow(pricing, pc, 1), [Button(BackText, "view_cards")]]), s)
      && Dispatch("sell_" + d) == OnSell
      && Outcome(OnSell, s, 0, pricing, "sell_" + d, now).cards == [part]
      && !Linked([part])
  {
    var pc := Card(1, "Custom Gaming PC (X)", "PC", 0, "Common", 0.0, None, [2], map[]);
    var part := Card(2, "X", "Graphics Card", 0, "Common", 0.0, Some(1), [], map[]);
    Api.SellCardOfPcStrandsParts();
    assert FindCard([pc, part], 1) == Some(pc);
    CardSaleFlow([pc, part], 0, pricing, pc, now);
  }

  /** The sale button of the PC view, as the chain is written: its data
      reaches the card confirmation, which reads the word "pc" as the card
      id and fails, leaving the collection as it was. */
  lemma PcSaleButtonFails(s: seq<Card>, coins: int, pricing: Utils.Pricing, id: int, now: real)
    ensures var cb := "confirm_sell_pc_" + IntToDecimal(id);
      && Dispatch(cb) == OnConfirmSell
      && Outcome(Dispatch(cb), s, coins, pricing, cb, now) == Shows(Fails, s)
  {
    var d := IntToDecimal(id);
    assert "confirm_sell_pc_" + d == "confirm_sell_" + ("pc_" + d);
    ConfirmSellRoute("pc_" + d);
    Callbacks.ConfirmSellPcFields(id);
  }

  /** With the PC confirmation tested first, its data reaches its own
      branch, and the data of the PC view and of the PC sale keep theirs. */
  lemma PcRoutesFixed(d: string)
    ensures DispatchFixed("confirm_sell_pc_" + d) == OnConfirmSellPc
    ensures DispatchFixed("pc_" + d) == OnPc
    ensures DispatchFixed("sell_pc_" + d) == OnSellPc
  {
    Callbacks.PrefixOf("confirm_sell_pc_", d);
    PcRoutes(d);
    SellPcRoute(d);
    Callbacks.Mismatch("pc_" + d, "confirm_sell_pc_", 0);
    Callbacks.Mismatch("sell_pc_" + d, "confirm_sell_pc_", 0);
  }

  /** The PC view, its confirmation and its sale once the id is read. */
  lemma PcViewOutcome(s: seq<Card>, coins: int, pricing: Utils.Pricing, view: string, pc: Card, now: real)
    requires FindCard(s, pc.cardId) == Some(pc) && pc.category == "PC"
    requires |Api.FoundCards(s, pc.components)| <= 3 && Callbacks.IntField(view, 1) == Some(pc.cardId)
    ensures var price := Utils.PcSalePrice(pricing, Utils.ComponentTotal(s, pc.components), pc.purchasePrice);
      Outcome(OnPc, s, coins, pricing, view, now) == Shows(Menu(PcKeys(pc.cardId, Api.FoundCards(s, pc.components), price)), s)
  {
  }

  lemma PcConfirmOutcome(s: seq<Card>, coins: int, pricing: Utils.Pricing, confirm: string, pc: Card, now: real)
    requires FindCard(s, pc.cardId) == Some(pc) && pc.category == "PC" && Callbacks.IntField(confirm, 3) == Some(pc.cardId)
    ensures Outcome(OnConfirmSellPc, s, coins, pricing, confirm, now) == Shows(Menu(YesNo("sell_pc_", "pc_", pc.cardId)), s)
  {
  }

  lemma PcSellOutcome(s: seq<Card>, coins: int, pricing: Utils.Pricing, sell: string, pc: Card, now: real)
    requires FindCard(s, pc.cardId) == Some(pc) && pc.category == "PC" && Callbacks.IntField(sell, 2) == Some(pc.cardId)
    ensures var price := Utils.PcSalePrice(pricing, Utils.ComponentTotal(s, pc.components), pc.purchasePrice);
      Outcome(OnSellPc, s, coins, pricing, sell, now)
        == Callbacks.Effect(Sold(price, coins + price), true, Assembly.SoldPcKeepingParts(s, pc), Some(coins + price))
  {
  }

  /** With the PC confirmation tested first, the PC view offers the sale
      whatever the number of its parts, the sale button asks to confirm,
      and the yes button moves the parts out of the PC, credits the PC
      price and removes the PC: a linked collection stays linked and keeps
      every other card. */
  lemma PcSaleButtonFixed(s: seq<Card>, coins: int, pricing: Utils.Pricing, pc: Card, now: real)
    requires FindCard(s, pc.cardId) == Some(pc) && pc.category == "PC" && |Api.FoundCards(s, pc.components)| <= 3
    ensures var d := IntToDecimal(pc.cardId);
      var found := Api.FoundCards(s, pc.components);
      var price := Utils.PcSalePrice(pricing, Utils.ComponentTotal(s, pc.components), pc.purchasePrice);
      && DispatchFixed("pc_" + d) == OnPc
      && Outcome(OnPc, s, coins, pricing, "pc_" + d, now) == Shows(Menu(PcKeys(pc.cardId, found, price)), s)
      && PcKeys(pc.cardId, found, price)[|found|][0].callback == "confirm_sell_pc_" + d
      && DispatchFixed("confirm_sell_pc_" + d) == OnConfirmSellPc
      && Outcome(OnConfirmSellPc, s, coins, pricing, "confirm_sell_pc_" + d, now)
        == Shows(Menu(YesNo("sell_pc_", "pc_", pc.cardId)), s)
      && DispatchFixed("sell_pc_" + d) == OnSellPc
    ensures var price := Utils.PcSalePrice(pricing, Utils.ComponentTotal(s, pc.components), pc.purchasePrice);
      var e := Outcome(OnSellPc, s, coins, pricing, "sell_pc_" + IntToDecimal(pc.cardId), now);
      && e == Callbacks.Effect(Sold(price, coins + price), true, Assembly.SoldPcKeepingParts(s, pc), Some(coins + price))
      && (Linked(s) && UniqueIds(s) ==>
        && Linked(e.cards) && UniqueIds(e.cards)
        && forall c | c in s && c.cardId != pc.cardId :: HasId(e.cards, c.cardId))
  {
    var d := IntToDecimal(pc.cardId);
    PcRoutesFixed(d);
    Callbacks.PcFields(pc.cardId);
    Callbacks.ConfirmSellPcFields(pc.cardId);
    PcViewOutcome(s, coins, pricing, "pc_" + d, pc, now);
    PcConfirmOutcome(s, coins, pricing, "confirm_sell_pc_" + d, pc, now);
    PcSellOutcome(s, coins, pricing, "sell_pc_" + d, pc, now);
    if Linked(s) && UniqueIds(s) {
      Assembly.SoldPcKeepingPartsKeepsLinked(s, pc);
    }
  }

  /** The first two steps of the assembly: each button opens the next
      step with the ids chosen so far, and the back button of the third
      step returns to the second. */
  lemma BuildStepsFlow(s: seq<Card>, coins: int, pricing: Utils.Pricing, g: int, c: int, now: real)
    ensures var dg, dc := IntToDecimal(g), IntToDecimal(c);
      && Dispatch("build_gpu_" + dg) == OnBuildGpu
      && Outcome(OnBuildGpu, s, coins, pricing, "build_gpu_" + dg, now) == Shows(PartMenu(s, Some(g), None), s)
      && Dispatch("build_cpu_" + dg) == OnBuildCpu
      && Outcome(OnBuildCpu, s, coins, pricing, "build_cpu_" + dg, now) == Shows(PartMenu(s, Some(g), None), s)
      && Dispatch("build_cpu_" + dg + "_" + dc) == OnBuildCpu
      && Outcome(OnBuildCpu, s, coins, pricing, "build_cpu_" + dg + "_" + dc, now)
        == Shows(PartMenu(s, Some(g), Some(c)), s)
  {
    var dg, dc := IntToDecimal(g), IntToDecimal(c);
    BuildRoutes(dg);
    BuildCpuChoice(dg, dc);
    Callbacks.BuildGpuFields(g);
    Callbacks.BuildCpuFields(g, c);
    BuildStepOutcomes(s, coins, pricing, "build_gpu_" + dg, "build_cpu_" + dg, "build_cpu_" + dg + "_" + dc, g, c, now);
  }

  lemma BuildCpuChoice(dg: string, dc: string)
    ensures Dispatch("build_cpu_" + dg + "_" + dc) == OnBuildCpu
  {
    assert "build_cpu_" + dg + "_" + dc == "build_cpu_" + (dg + "_" + dc);
    BuildRoutes(dg + "_" + dc);
  }

  lemma BuildStepOutcomes(s: seq<Card>, coins: int, pricing: Utils.Pricing, gpuData: string, backData: string, cpuData: string,
                          g: int, c: int, now: real)
    requires Callbacks.IntField(gpuData, 2) == Some(g)
    requires |Split(backData, '_')| == 3 && Callbacks.IntField(backData, 2) == Some(g)
    requires |Split(cpuData, '_')| == 4 && Callbacks.IntField(cpuData, 2) == Some(g) && Callbacks.IntField(cpuData, 3) == Some(c)
    ensures Outcome(OnBuildGpu, s, coins, pricing, gpuData, now) == Shows(PartMenu(s, Some(g), None), s)
    ensures Outcome(OnBuildCpu, s, coins, pricing, backData, now) == Shows(PartMenu(s, Some(g), None), s)
    ensures Outcome(OnBuildCpu, s, coins, pricing, cpuData, now) == Shows(PartMenu(s, Some(g), Some(c)), s)
  {
  }

  lemma BuildMbOutcomeOf(s: seq<Card>, coins: int, pricing: Utils.Pricing, data: string, gpu: Card, cpu: Card, mb: Card, now: real)
    requires Callbacks.IntField(data, 2) == Some(gpu.cardId) && Callbacks.IntField(data, 3) == Some(cpu.cardId)
    requires Callbacks.IntField(data, 4) == Some(mb.cardId)
    requires FindCard(s, gpu.cardId) == Some(gpu) && FindCard(s, cpu.cardId) == Some(cpu) && FindCard(s, mb.cardId) == Some(mb)
    ensures Outcome(OnBuildMb, s, coins, pricing, data, now)
      == Callbacks.Effect(Shown(Menu(BuiltKeys(Api.NewPcId(s, now)))), true, Api.BuildOutcome(s, pricing, gpu, cpu, mb, now), None)
  {
    assert Outcome(OnBuildMb, s, coins, pricing, data, now) == WriteOutcome(OnBuildMb, s, coins, pricing, data, now);
    assert WriteOutcome(OnBuildMb, s, coins, pricing, data, now) == BuildMbOutcome(s, pricing, data, now);
    BuildMbOutcomeFound(s, pricing, data, gpu, cpu, mb, now);
  }

  /** With its three parts found, `build_mb_` assembles them and answers
      with the new PC's buttons. */
  lemma BuildMbOutcomeFound(s: seq<Card>, pricing: Utils.Pricing, data: string, gpu: Card, cpu: Card, mb: Card, now: real)
    requires Callbacks.IntField(data, 2) == Some(gpu.cardId) && Callbacks.IntField(data, 3) == Some(cpu.cardId)
    requires Callbacks.IntField(data, 4) == Some(mb.cardId)
    requires FindCard(s, gpu.cardId) == Some(gpu) && FindCard(s, cpu.cardId) == Some(cpu) && FindCard(s, mb.cardId) == Some(mb)
    ensures BuildMbOutcome(s, pricing, data, now)
      == Callbacks.Effect(Shown(Menu(BuiltKeys(Api.NewPcId(s, now)))), true, Api.BuildOutcome(s, pricing, gpu, cpu, mb, now), None)
  {
  }

  /** The button of the third step assembles the PC from the three parts
      when all are found, and the answer's first button opens the new PC. */
  lemma BuildMbFlow(s: seq<Card>, coins: int, pricing: Utils.Pricing, gpu: Card, cpu: Card, mb: Card, now: real)
    requires FindCard(s, gpu.cardId) == Some(gpu) && FindCard(s, cpu.cardId) == Some(cpu) && FindCard(s, mb.cardId) == Some(mb)
    ensures var cb := "build_mb_" + IntToDecimal(gpu.cardId) + "_" + IntToDecimal(cpu.cardId) + "_" + IntToDecimal(mb.cardId);
      var pcId := Api.NewPcId(s, now);
      && Dispatch(cb) == OnBuildMb
      && Outcome(OnBuildMb, s, coins, pricing, cb, now)
        == Callbacks.Effect(Shown(Menu(BuiltKeys(pcId))), true, Api.BuildOutcome(s, pricing, gpu, cpu, mb, now), None)
      && Dispatch(BuiltKeys(pcId)[0][0].callback) == OnPc
      && Callbacks.IntField(BuiltKeys(pcId)[0][0].callback, 1) == Some(pcId)
  {
    var dg, dc, dm := IntToDecimal(gpu.cardId), IntToDecimal(cpu.cardId), IntToDecimal(mb.cardId);
    BuildMbButton(dg, dc, dm);
    Callbacks.BuildMbFields(gpu.cardId, cpu.cardId, mb.cardId);
    BuildMbOutcomeOf(s, coins, pricing, "build_mb_" + dg + "_" + dc + "_" + dm, gpu, cpu, mb, now);
    BuiltKeysOpenPc(Api.NewPcId(s, now));
  }

  lemma BuildMbButton(dg: string, dc: string, dm: string)
    ensures Dispatch("build_mb_" + dg + "_" + dc + "_" + dm) == OnBuildMb
  {
    assert "build_mb_" + dg + "_" + dc + "_" + dm == "build_mb_" + (dg + "_" + dc + "_" + dm);
    BuildRoutes(dg + "_" + dc + "_" + dm);
  }

  /** The first button after an assembly opens the new PC. */
  lemma BuiltKeysOpenPc(pcId: int)
    ensures Dispatch(BuiltKeys(pcId)[0][0].callback) == OnPc
    ensures Callbacks.IntField(BuiltKeys(pcId)[0][0].callback, 1) == Some(pcId)
  {
    PcRoutes(IntToDecimal(pcId));
    Callbacks.PcFields(pcId);
  }

  lemma EjectOutcomeOf(s: seq<Card>, coins: int, pricing: Utils.Pricing, data: string, pc: Card, part: int, now: real)
    requires Callbacks.IntField(data, 1) == Some(pc.cardId) && Callbacks.IntField(data, 2) == Some(part)
    requires FindCard(s, pc.cardId) == Some(pc) && FindCard(s, part).Some?
    ensures Outcome(OnEject, s, coins, pricing, data, now)
      == Callbacks.Effect(Ejected(|Assembly.RemoveFirst(pc.components, part)| == 0), true, Assembly.EjectLeavingPart(s, pc, part), None)
  {
    assert Outcome(OnEject, s, coins, pricing, data, now) == WriteOutcome(OnEject, s, coins, pricing, data, now);
    assert WriteOutcome(OnEject, s, coins, pricing, data, now) == EjectOutcome(s, data);
  }

  /** The eject button of the PC view takes the part out as written: the
      collection stays linked while parts remain, and the answer says
      whether the PC was taken apart. */
  lemma EjectFlow(s: seq<Card>, coins: int, pricing: Utils.Pricing, pc: Card, part: int, now: real)
    requires FindCard(s, pc.cardId) == Some(pc) && FindCard(s, part).Some?
    ensures var cb := "eject_" + IntToDecimal(pc.cardId) + "_" + IntToDecimal(part);
      var e := Outcome(OnEject, s, coins, pricing, cb, now);
      && Dispatch(cb) == OnEject
      && e == Callbacks.Effect(Ejected(|Assembly.RemoveFirst(pc.components, part)| == 0), true,
        Assembly.EjectLeavingPart(s, pc, part), None)
      && (Linked(s) && UniqueIds(s) && |Assembly.RemoveFirst(pc.components, part)| > 0 ==>
        Linked(e.cards))
  {
    var dp, dc := IntToDecimal(pc.cardId), IntToDecimal(part);
    assert "eject_" + dp + "_" + dc == "eject_" + (dp + "_" + dc);
    PcRoutes(dp + "_" + dc);
    Callbacks.EjectFields(pc.cardId, part);
    EjectOutcomeOf(s, coins, pricing, "eject_" + dp + "_" + dc, pc, part, now);
    if Linked(s) && UniqueIds(s) && |Assembly.RemoveFirst(pc.components, part)| > 0 {
      Assembly.EjectsAgreeWhilePartsRemain(s, pc, part);
      Assembly.EjectClearingKeepsLinked(s, pc, part);
    }
  }

  // ---------------------------------------------------------------------
  // The handlers

  /** `profile`: the record is fetched, created when absent, and the
      totals computed. */
  method HandleProfile(store: Store, uid: int) returns (a: Answer)
    modifies store
    ensures a == Profile(old(store.UserOf(uid)).coins, Api.Stats(old(store.UserCards(uid))))
    ensures store.users == old(store.users)[uid := old(store.UserOf(uid))]
    ensures store.cards == old(store.cards) && store.banned == old(store.banned)
  {
    var user := store.GetUser(uid);
    var cards := store.UserCards(uid);
    var stats := ProfileStats(cards);
    a := Profile(user.coins, stats);
  }

  method HandleViewCard(store: Store, pricing: Utils.Pricing, uid: int, data: string) returns (screen: Screen)
    ensures screen == ViewCardScreen(store.UserCards(uid), pricing, data)
  {
    var id := Callbacks.IntField(data, 2);
    if id.None? {
      return Fails;
    }
    var card := store.GetCard(uid, id.value);
    if card.None? {
      return Alert(CardNotFoundAlert);
    }
    var rows: Keyboard := [];
    if card.value.inPc.None? {
      rows := rows + [SellRow(pricing, card.value, id.value)];
    }
    rows := rows + [[Button(BackText, "view_cards")]];
    screen := Menu(rows);
  }

  method HandleConfirmSell(store: Store, uid: int, data: string) returns (screen: Screen)
    ensures screen == ConfirmSellScreen(store.UserCards(uid), data)
  {
    var id := Callbacks.IntField(data, 2);
    if id.None? {
      return Fails;
    }
    var card := store.GetCard(uid, id.value);
    if card.None? {
      return Alert(CardNotFoundAlert);
    }
    if Assembly.InPcTruthy(card.value) {
      return Alert(InPcAlert);
    }
    screen := Menu(YesNo("sell_", "view_card_", id.value));
  }

  method HandleSell(store: Store, pricing: Utils.Pricing, uid: int, data: string) returns (a: Answer)
    modifies store
    ensures var e := SellOutcome(old(store.UserCards(uid)), old(store.UserOf(uid)).coins, pricing, data);
      && a == e.answer && store.cards == Callbacks.CardsAfter(old(store.cards), uid, e)
      && store.users == Callbacks.UsersAfter(old(store.users), uid, old(store.UserOf(uid)), e)
    ensures store.banned == old(store.banned)
  {
    var id := Callbacks.IntField(data, 1);
    if id.None? {
      return Shown(Fails);
    }
    var card := store.GetCard(uid, id.value);
    if card.None? {
      return Shown(Alert(CardNotFoundAlert));
    }
    if Assembly.InPcTruthy(card.value) {
      return Shown(Alert(InPcAlert));
    }
    var salePrice := pricing.sale(card.value.purchasePrice);
    var newBalance := store.AddCoins(uid, salePrice);
    var _ := store.RemoveCard(uid, id.value);
    a := Sold(salePrice, newBalance);
  }

  method HandleBuildGpu(store: Store, uid: int, data: string) returns (screen: Screen)
    ensures screen == BuildGpuScreen(store.UserCards(uid), data)
  {
    var gpu := Callbacks.IntField(data, 2);
    if gpu.None? {
      return Fails;
    }
    screen := ShowPartMenu(store, uid, gpu, None);
  }

  method HandleBuildCpu(store: Store, uid: int, data: string) returns (screen: Screen)
    ensures screen == BuildCpuScreen(store.UserCards(uid), data)
  {
    var parts := Split(data, '_');
    if |parts| == 3 {
      var gpu := Callbacks.IntField(data, 2);
      if gpu.None? {
        return Fails;
      }
      screen := ShowPartMenu(store, uid, gpu, None);
    } else {
      var gpu := Callbacks.IntField(data, 2);
      var cpu := Callbacks.IntField(data, 3);
      if gpu.None? || cpu.None? {
        return Fails;
      }
      screen := ShowPartMenu(store, uid, gpu, cpu);
    }
  }

  method HandleBuildMb(store: Store, pricing: Utils.Pricing, uid: int, data: string, now: real) returns (a: Answer)
    modifies store
    ensures var e := BuildMbOutcome(old(store.UserCards(uid)), pricing, data, now);
      && a == e.answer && store.cards == Callbacks.CardsAfter(old(store.cards), uid, e)
      && store.users == Callbacks.UsersAfter(old(store.users), uid, old(store.UserOf(uid)), e)
    ensures store.banned == old(store.banned)
  {
    var g, c, m := Callbacks.IntField(data, 2), Callbacks.IntField(data, 3), Callbacks.IntField(data, 4);
    if g.None? || c.None? || m.None? {
      return Shown(Fails);
    }
    var gpu := store.GetCard(uid, g.value);
    var cpu := store.GetCard(uid, c.value);
    var mb := store.GetCard(uid, m.value);
    if gpu.None? || cpu.None? || mb.None? {
      return Shown(Alert(PartsMissingAlert));
    }
    var pcId := Assemble(store, pricing, uid, gpu.value, cpu.value, mb.value, now);
    a := Shown(Menu(BuiltKeys(pcId)));
  }

  /** The assembly of `build_mb_` once its three parts are found. */
  method Assemble(store: Store, pricing: Utils.Pricing, uid: int, gpu: Card, cpu: Card, mb: Card, now: real)
    returns (pcId: int)
    modifies store
    ensures pcId == Api.NewPcId(old(store.UserCards(uid)), now)
    ensures store.cards == old(store.cards)[uid := Api.BuildOutcome(old(store.UserCards(uid)), pricing, gpu, cpu, mb, now)]
    ensures store.users == old(store.users) && store.banned == old(store.banned)
  {
    pcId := Assembly.AssemblePc(store, pricing, uid, gpu, cpu, mb, now);
  }

  method HandlePc(store: Store, pricing: Utils.Pricing, uid: int, data: string) returns (screen: Screen)
    ensures screen == PcScreen(store.UserCards(uid), pricing, data)
  {
    var id := Callbacks.IntField(data, 1);
    if id.None? {
      return Fails;
    }
    var pc := store.GetCard(uid, id.value);
    if pc.None? || pc.value.category != "PC" {
      return Alert(PcNotFoundAlert);
    }
    var found := Api.ComponentDetails(store, uid, pc.value.components);
    if |found| > 3 {
      return Fails;
    }
    var price := Utils.CalculatePcSalePrice(store, pricing, uid, pc.value);
    screen := Menu(PcKeys(id.value, found, price));
  }

  method HandleEject(store: Store, uid: int, data: string) returns (a: Answer)
    modifies store
    ensures var e := EjectOutcome(old(store.UserCards(uid)), data);
      && a == e.answer && store.cards == Callbacks.CardsAfter(old(store.cards), uid, e)
      && store.users == Callbacks.UsersAfter(old(store.users), uid, old(store.UserOf(uid)), e)
    ensures store.banned == old(store.banned)
  {
    var pcId, compId := Callbacks.IntField(data, 1), Callbacks.IntField(data, 2);
    if pcId.None? || compId.None? {
      return Shown(Fails);
    }
    var pc := store.GetCard(uid, pcId.value);
    var comp := store.GetCard(uid, compId.value);
    if pc.None? || comp.None? {
      return Shown(Alert(EjectNotFoundAlert));
    }
    EjectOutcomeFound(store.UserCards(uid), data, pc.value, compId.value);
    var emptied := Assembly.EjectLeaving(store, uid, pc.value, compId.value);
    a := Ejected(emptied);
  }

  method HandleConfirmSellPc(store: Store, uid: int, data: string) returns (screen: Screen)
    ensures screen == ConfirmSellPcScreen(store.UserCards(uid), data)
  {
    var id := Callbacks.IntField(data, 3);
    if id.None? {
      return Fails;
    }
    var pc := store.GetCard(uid, id.value);
    if pc.None? || pc.value.category != "PC" {
      return Alert(PcNotFoundAlert);
    }
    screen := Menu(YesNo("sell_pc_", "pc_", id.value));
  }

  /** The `sell_pc_` branch on a PC it finds: the sale. */
  lemma SellPcSold(s: seq<Card>, coins: int, pricing: Utils.Pricing, data: string, pc: Card)
    requires Callbacks.IntField(data, 2) == Some(pc.cardId) && FindCard(s, pc.cardId) == Some(pc) && pc.category == "PC"
    ensures var price := Utils.PcSalePrice(pricing, Utils.ComponentTotal(s, pc.components), pc.purchasePrice);
      SellPcOutcome(s, coins, pricing, data)
        == Callbacks.Effect(Sold(price, coins + price), true, Assembly.SoldPcKeepingParts(s, pc), Some(coins + price))
  {
  }

  /** `sell_pc_`: every listed part is taken out of the PC one at a time,
      the price credited, then the PC removed. */
  method HandleSellPc(store: Store, pricing: Utils.Pricing, uid: int, data: string) returns (a: Answer)
    modifies store
    ensures var e := SellPcOutcome(old(store.UserCards(uid)), old(store.UserOf(uid)).coins, pricing, data);
      && a == e.answer && store.cards == Callbacks.CardsAfter(old(store.cards), uid, e)
      && store.users == Callbacks.UsersAfter(old(store.users), uid, old(store.UserOf(uid)), e)
    ensures store.banned == old(store.banned)
  {
    ghost var s, u := store.UserCards(uid), store.UserOf(uid);
    ghost var e := SellPcOutcome(s, u.coins, pricing, data);
    var id := Callbacks.IntField(data, 2);
    if id.None? {
      return Shown(Fails);
    }
    var pc := store.GetCard(uid, id.value);
    if pc.None? || pc.value.category != "PC" {
      return Shown(Alert(PcNotFoundAlert));
    }
    SellPcSold(s, u.coins, pricing, data, pc.value);
    var r := Assembly.SellPcKeepingParts(store, pricing, uid, pc.value);
    a := Sold(r.0, r.1);
  }

  /** `button_callback` after its branch is chosen: `get_card` draws with
      the random number `x`; every other branch has the outcome `Outcome`
      gives for the user's cards and coins before the call. */
  method Handle(store: Store, pricing: Utils.Pricing, uid: int, b: Branch, data: string, x: real, now: real)
    returns (a: Answer)
    requires 0.0 <= x < 1.0
    modifies store
    ensures b == OnGetCard ==>
      && a.Drew? && a.gadget in Gadgets.Catalog
      && a.gadget.rarity == Gadgets.ChooseWeighted(Gadgets.RarityWeights, x * 100.0)
      && a.cardId == (now * 1000.0).Floor + |old(store.UserCards(uid))|
      && store.cards == old(store.cards)[uid := old(store.UserCards(uid)) + [Api.DrawnCard(a.gadget, a.cardId, now)]]
      && store.users == old(store.users)[uid := UserRecord(old(store.UserOf(uid)).coins, now)]
    ensures b != OnGetCard ==>
      var e := Outcome(b, old(store.UserCards(uid)), old(store.UserOf(uid)).coins, pricing, data, now);
      && a == e.answer && store.cards == Callbacks.CardsAfter(old(store.cards), uid, e)
      && store.users == Callbacks.UsersAfter(old(store.users), uid, old(store.UserOf(uid)), e)
    ensures store.banned == old(store.banned)
  {
    ghost var s, coins := store.UserCards(uid), store.UserOf(uid).coins;
    if b == OnGetCard {
      var drawn := Callbacks.HandleGetCard(store, uid, x, now);
      a := Drew(drawn.gadget, drawn.cardId);
    } else if Writes(b) {
      assert Outcome(b, s, coins, pricing, data, now) == WriteOutcome(b, s, coins, pricing, data, now);
      a := HandleWrite(store, pricing, uid, b, data, now);
    } else if ShowsData(b) {
      assert Outcome(b, s, coins, pricing, data, now) == Shows(DataScreen(b, s, pricing, data), s);
      var screen := HandleDataScreen(store, pricing, uid, b, data);
      a := Shown(screen);
    } else {
      assert Outcome(b, s, coins, pricing, data, now) == MenuOutcome(b, s, coins);
      a := HandleMenu(store, uid, b);
    }
  }

  /** The branches that may rewrite the collection. */
  method HandleWrite(store: Store, pricing: Utils.Pricing, uid: int, b: Branch, data: string, now: real) returns (a: Answer)
    requires Writes(b)
    modifies store
    ensures var e := WriteOutcome(b, old(store.UserCards(uid)), old(store.UserOf(uid)).coins, pricing, data, now);
      && a == e.answer && store.cards == Callbacks.CardsAfter(old(store.cards), uid, e)
      && store.users == Callbacks.UsersAfter(old(store.users), uid, old(store.UserOf(uid)), e)
    ensures store.banned == old(store.banned)
  {
    match b
    case OnSell =>
      a := HandleSell(store, pricing, uid, data);
    case OnBuildMb =>
      a := HandleBuildMb(store, pricing, uid, data, now);
    case OnEject =>
      a := HandleEject(store, uid, data);
    case OnSellPc =>
      a := HandleSellPc(store, pricing, uid, data);
  }

  /** The branches that read ids from the data; none changes the store. */
  method HandleDataScreen(store: Store, pricing: Utils.Pricing, uid: int, b: Branch, data: string) returns (screen: Screen)
    requires ShowsData(b)
    ensures screen == DataScreen(b, store.UserCards(uid), pricing, data)
  {
    match b
    case OnViewCard =>
      screen := HandleViewCard(store, pricing, uid, data);
    case OnConfirmSell =>
      screen := HandleConfirmSell(store, uid, data);
    case OnBuildGpu =>
      screen := HandleBuildGpu(store, uid, data);
    case OnBuildCpu =>
      screen := HandleBuildCpu(store, uid, data);
    case OnPc =>
      screen := HandlePc(store, pricing, uid, data);
    case OnConfirmSellPc =>
      screen := HandleConfirmSellPc(store, uid, data);
  }

  /** The branches whose data is a fixed word, apart from `get_card`. */
  method HandleMenu(store: Store, uid: int, b: Branch) returns (a: Answer)
    requires b != OnGetCard && !Writes(b) && !ShowsData(b)
    modifies store
    ensures var e := MenuOutcome(b, old(store.UserCards(uid)), old(store.UserOf(uid)).coins);
      && a == e.answer && store.cards == Callbacks.CardsAfter(old(store.cards), uid, e)
      && store.users == Callbacks.UsersAfter(old(store.users), uid, old(store.UserOf(uid)), e)
    ensures store.banned == old(store.banned)
  {
    match b
    case OnViewCards =>
      var pcs, groups, screen := ShowCards(store, uid);
      a := Listed(pcs, groups, screen);
    case OnProfile =>
      a := HandleProfile(store, uid);
    case OnBuildPc =>
      var screen := ShowPartMenu(store, uid, None, None);
      a := Shown(screen);
    case OnViewPcs =>
      a := PcsListed;
    case OnHelp =>
      a := Shown(Menu(HelpKeys));
    case OnBackToStart =>
      var _ := store.GetUser(uid);
      a := Shown(Menu(StartKeys));
    case Unhandled =>
      a := Ignored;
  }

  /** The bot's `button_callback` as written. */
  method ButtonCallback(store: Store, pricing: Utils.Pricing, uid: int, data: string, x: real, now: real)
    returns (a: Answer)
    requires 0.0 <= x < 1.0
    modifies store
    ensures Dispatch(data) != OnGetCard ==>
      var e := Outcome(Dispatch(data), old(store.UserCards(uid)), old(store.UserOf(uid)).coins, pricing, data, now);
      && a == e.answer && store.cards == Callbacks.CardsAfter(old(store.cards), uid, e)
      && store.users == Callbacks.UsersAfter(old(store.users), uid, old(store.UserOf(uid)), e)
    ensures data == "get_card" ==>
      && a.Drew? && a.gadget in Gadgets.Catalog
      && a.gadget.rarity == Gadgets.ChooseWeighted(Gadgets.RarityWeights, x * 100.0)
      && store.cards == old(store.cards)[uid := old(store.UserCards(uid)) + [Api.DrawnCard(a.gadget, a.cardId, now)]]
    ensures store.banned == old(store.banned)
  {
    a := Handle(store, pricing, uid, Dispatch(data), data, x, now);
  }

  /** The handler with the PC confirmation tested first. */
  method ButtonCallbackFixed(store: Store, pricing: Utils.Pricing, uid: int, data: string, x: real, now: real)
    returns (a: Answer)
    requires 0.0 <= x < 1.0
    modifies store
    ensures DispatchFixed(data) != OnGetCard ==>
      var e := Outcome(DispatchFixed(data), old(store.UserCards(uid)), old(store.UserOf(uid)).coins, pricing, data, now);
      && a == e.answer && store.cards == Callbacks.CardsAfter(old(store.cards), uid, e)
      && store.users == Callbacks.UsersAfter(old(store.users), uid, old(store.UserOf(uid)), e)
    ensures store.banned == old(store.banned)
  {
    a := Handle(store, pricing, uid, DispatchFixed(data), data, x, now);
  }
}
