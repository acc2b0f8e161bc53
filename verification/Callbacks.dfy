/** The Telegram bot's button handler: the order in which callback data is
    matched against its prefixes, the parsing of each kind of callback
    data, and what each branch shows and does to the store. */
module Callbacks {
  import opened Wrappers
  import opened Strings
  import opened Config
  import opened Database
  import opened Commands
  import Gadgets
  import Api
  import Utils
  import Assembly

  // ---------------------------------------------------------------------
  // Dispatch

  /** The branch of `button_callback` that handles a callback. */
  datatype Branch =
    | OnGetCard | OnViewGadgets | OnGadgetType | OnProfile | OnBuildPc | OnViewPcs | OnHelp | OnBackToStart
    | OnViewCard | OnConfirmSell | OnSell | OnBuildGpu | OnBuildCpu | OnBuildMb | OnPc | OnEject
    | OnConfirmSellPc | OnSellPc
    /** No branch matches; the button is only acknowledged. */
    | Unhandled

  /** The `if`/`elif` chain of `button_callback`, in source order: the
      first test that holds picks the branch. */
  function Dispatch(data: string): Branch {
    if data == "get_card" then OnGetCard
    else if data == "view_gadgets" then OnViewGadgets
    else if StartsWith(data, "gadget_type_") then OnGadgetType
    else if data == "profile" then OnProfile
    else if data == "build_pc" then OnBuildPc
    else if data == "view_pcs" then OnViewPcs
    else if data == "help" then OnHelp
    else if data == "back_to_start" then OnBackToStart
    else if StartsWith(data, "view_card_") || StartsWith(data, "vc_") then OnViewCard
    else if StartsWith(data, "confirm_sell_") then OnConfirmSell
    else if StartsWith(data, "sell_") && !StartsWith(data, "sell_pc_") then OnSell
    else if StartsWith(data, "build_gpu_") then OnBuildGpu
    else if StartsWith(data, "build_cpu_") then OnBuildCpu
    else if StartsWith(data, "build_mb_") then OnBuildMb
    else if StartsWith(data, "pc_") then OnPc
    else if StartsWith(data, "eject_") then OnEject
    else if StartsWith(data, "confirm_sell_pc_") then OnConfirmSellPc
    else if StartsWith(data, "sell_pc_") then OnSellPc
    else Unhandled
  }

  /** The chain with the PC confirmation tested before the card
      confirmation whose prefix it extends. */
  function DispatchFixed(data: string): Branch {
    if StartsWith(data, "confirm_sell_pc_") then OnConfirmSellPc else Dispatch(data)
  }

  /** A longer prefix implies the shorter prefix it starts with. */
  lemma StartsWithLonger(s: string, p: string, q: string)
    requires StartsWith(s, p + q)
    ensures StartsWith(s, p)
  {
    assert s[..|p|] == s[..|p + q|][..|p|] == (p + q)[..|p|] == p;
  }

  /** No callback data reaches the PC confirmation branch: every string
      with its prefix already has the card confirmation's prefix. */
  lemma ConfirmSellPcUnreachable(data: string)
    ensures Dispatch(data) != OnConfirmSellPc
    ensures StartsWith(data, "confirm_sell_pc_") ==> Dispatch(data) == OnConfirmSell
  {
    if StartsWith(data, "confirm_sell_pc_") {
      StartsWithLonger(data, "confirm_sell_", "pc_");
      assert data[0] == 'c';
    }
  }

  /** Moving the PC confirmation first changes the branch of those strings
      and of no other. */
  lemma DispatchFixedChangesOnlyPcConfirmations(data: string)
    ensures DispatchFixed(data) != Dispatch(data) <==> StartsWith(data, "confirm_sell_pc_")
  {
    ConfirmSellPcUnreachable(data);
  }

  // ---------------------------------------------------------------------
  // Integer fields

  /** `int(data.split("_")[k])`: None where Python raises, for a missing
      field (IndexError) or a field `int` rejects (ValueError). */
  function IntField(data: string, k: nat): Option<int> {
    var parts := Split(data, '_');
    if k < |parts| then ParseInt(parts[k]) else None
  }

  /** The decimal digits of an integer: not empty, and starting with a digit
      or a minus sign. */
  lemma DecimalShape(i: int)
    ensures |IntToDecimal(i)| > 0 && '_' !in IntToDecimal(i)
    ensures IsDigit(IntToDecimal(i)[0]) || IntToDecimal(i)[0] == '-'
  {
    DecimalHasNoUnderscore(i);
    if i < 0 {
      NatToDecimalDigits(-i);
    } else {
      NatToDecimalDigits(i);
    }
  }

  /** A word without underscores, an underscore and the rest split into
      that word followed by the fields of the rest. */
  lemma Cut(w: string, rest: string)
    requires '_' !in w
    ensures Split(w + "_" + rest, '_') == [w] + Split(rest, '_')
  {
    SplitFirst(w, '_', rest);
  }

  /** The card confirmation carries the card id in its third field. */
  lemma ConfirmSellFields(a: int)
    ensures IntField("confirm_sell_" + IntToDecimal(a), 2) == Some(a)
  {
    var d := IntToDecimal(a);
    DecimalShape(a);
    ParseIntOfDecimal(a);
    assert "confirm_sell_" + d == "confirm" + "_" + ("sell" + "_" + d);
    Cut("confirm", "sell" + "_" + d);
    assert "sell_" + d == "sell" + "_" + d;
    Cut("sell", d);
    SplitWithoutSeparator(d, '_', 0);
  }

  /** The card sale carries the card id in its second field. */
  lemma SellFields(a: int)
    ensures IntField("sell_" + IntToDecimal(a), 1) == Some(a)
  {
    var d := IntToDecimal(a);
    DecimalShape(a);
    ParseIntOfDecimal(a);
    assert "sell_" + d == "sell" + "_" + d;
    Cut("sell", d);
    SplitWithoutSeparator(d, '_', 0);
  }

  /** The graphics card choice carries its id in the third field, and so
      does the three-field form of the processor step. */
  lemma BuildGpuFields(a: int)
    ensures IntField("build_gpu_" + IntToDecimal(a), 2) == Some(a)
    ensures |Split("build_cpu_" + IntToDecimal(a), '_')| == 3
    ensures IntField("build_cpu_" + IntToDecimal(a), 2) == Some(a)
  {
    var d := IntToDecimal(a);
    DecimalShape(a);
    ParseIntOfDecimal(a);
    SplitWithoutSeparator(d, '_', 0);
    assert "build_gpu_" + d == "build" + "_" + ("gpu" + "_" + d);
    Cut("build", "gpu" + "_" + d);
    Cut("gpu", d);
    assert "build_cpu_" + d == "build" + "_" + ("cpu" + "_" + d);
    Cut("build", "cpu" + "_" + d);
    Cut("cpu", d);
  }

  /** The processor choice carries both ids in four fields. */
  lemma BuildCpuFields(a: int, b: int)
    ensures var cb := "build_cpu_" + IntToDecimal(a) + "_" + IntToDecimal(b);
      |Split(cb, '_')| == 4 && IntField(cb, 2) == Some(a) && IntField(cb, 3) == Some(b)
  {
    var da, db := IntToDecimal(a), IntToDecimal(b);
    DecimalShape(a);
    DecimalShape(b);
    ParseIntOfDecimal(a);
    ParseIntOfDecimal(b);
    SplitWithoutSeparator(db, '_', 0);
    assert "build_cpu_" + da + "_" + db == "build" + "_" + ("cpu" + "_" + (da + "_" + db));
    Cut("build", "cpu" + "_" + (da + "_" + db));
    Cut("cpu", da + "_" + db);
    Cut(da, db);
  }

  /** The motherboard choice carries all three ids. */
  lemma BuildMbFields(a: int, b: int, c: int)
    ensures var cb := "build_mb_" + IntToDecimal(a) + "_" + IntToDecimal(b) + "_" + IntToDecimal(c);
      IntField(cb, 2) == Some(a) && IntField(cb, 3) == Some(b) && IntField(cb, 4) == Some(c)
  {
    var da, db, dc := IntToDecimal(a), IntToDecimal(b), IntToDecimal(c);
    DecimalShape(a);
    DecimalShape(b);
    DecimalShape(c);
    ParseIntOfDecimal(a);
    ParseIntOfDecimal(b);
    ParseIntOfDecimal(c);
    SplitWithoutSeparator(dc, '_', 0);
    assert "build_mb_" + da + "_" + db + "_" + dc == "build" + "_" + ("mb" + "_" + (da + "_" + (db + "_" + dc)));
    Cut("build", "mb" + "_" + (da + "_" + (db + "_" + dc)));
    Cut("mb", da + "_" + (db + "_" + dc));
    Cut(da, db + "_" + dc);
    Cut(db, dc);
  }

  /** The PC view and the PC sale carry the PC id where their handlers
      read it. */
  lemma PcFields(a: int)
    ensures IntField("pc_" + IntToDecimal(a), 1) == Some(a)
    ensures IntField("sell_pc_" + IntToDecimal(a), 2) == Some(a)
  {
    var d := IntToDecimal(a);
    DecimalShape(a);
    ParseIntOfDecimal(a);
    SplitWithoutSeparator(d, '_', 0);
    assert "pc_" + d == "pc" + "_" + d;
    Cut("pc", d);
    assert "sell_pc_" + d == "sell" + "_" + ("pc" + "_" + d);
    Cut("sell", "pc" + "_" + d);
  }

  /** The eject button carries the PC id and then the part id. */
  lemma EjectFields(a: int, b: int)
    ensures var cb := "eject_" + IntToDecimal(a) + "_" + IntToDecimal(b);
      IntField(cb, 1) == Some(a) && IntField(cb, 2) == Some(b)
  {
    var da, db := IntToDecimal(a), IntToDecimal(b);
    DecimalShape(a);
    DecimalShape(b);
    ParseIntOfDecimal(a);
    ParseIntOfDecimal(b);
    SplitWithoutSeparator(db, '_', 0);
    assert "eject_" + da + "_" + db == "eject" + "_" + (da + "_" + db);
    Cut("eject", da + "_" + db);
    Cut(da, db);
  }

  /** In the PC confirmation the field the card confirmation reads is the
      word "pc"; the PC id is the field after it. */
  lemma ConfirmSellPcFields(a: int)
    ensures IntField("confirm_sell_pc_" + IntToDecimal(a), 2) == None
    ensures IntField("confirm_sell_pc_" + IntToDecimal(a), 3) == Some(a)
  {
    var d := IntToDecimal(a);
    DecimalShape(a);
    ParseIntOfDecimal(a);
    SplitWithoutSeparator(d, '_', 0);
    assert "confirm_sell_pc_" + d == "confirm" + "_" + ("sell" + "_" + ("pc" + "_" + d));
    Cut("confirm", "sell" + "_" + ("pc" + "_" + d));
    Cut("sell", "pc" + "_" + d);
    Cut("pc", d);
    assert Split("confirm_sell_pc_" + d, '_') == ["confirm", "sell", "pc", d];
    assert ParseInt("pc") == None;
  }

  // ---------------------------------------------------------------------
  // Routing of the callbacks the keyboards carry

  /** A string starts with what was put in front of it. */
  lemma PrefixOf(p: string, rest: string)
    ensures StartsWith(p + rest, p)
  {
    assert (p + rest)[..|p|] == p;
  }

  /** A string that differs from `p` at a position `p` covers neither
      starts with `p` nor equals it. */
  lemma Mismatch(s: string, p: string, k: nat)
    requires k < |p| && k < |s| && s[k] != p[k]
    ensures !StartsWith(s, p) && s != p
  {
    if |p| <= |s| {
      assert s[..|p|][k] == s[k];
    }
  }

  /** The first character of the callback data rules out every test whose
      literal starts with another character. */
  lemma FirstLetter(s: string)
    requires |s| > 0
    ensures s[0] != 'g' ==> s != "get_card" && !StartsWith(s, "gadget_type_")
    ensures s[0] != 'v' ==>
      s != "view_gadgets" && s != "view_pcs" && !StartsWith(s, "view_card_") && !StartsWith(s, "vc_")
    ensures s[0] != 'p' ==> s != "profile" && !StartsWith(s, "pc_")
    ensures s[0] != 'b' ==>
      s != "build_pc" && s != "back_to_start" && !StartsWith(s, "build_gpu_") && !StartsWith(s, "build_cpu_")
      && !StartsWith(s, "build_mb_")
    ensures s[0] != 'h' ==> s != "help"
    ensures s[0] != 'c' ==> !StartsWith(s, "confirm_sell_") && !StartsWith(s, "confirm_sell_pc_")
    ensures s[0] != 's' ==> !StartsWith(s, "sell_") && !StartsWith(s, "sell_pc_")
    ensures s[0] != 'e' ==> !StartsWith(s, "eject_")
  {
    if s[0] != 'g' {
      Mismatch(s, "get_card", 0);
      Mismatch(s, "gadget_type_", 0);
    }
    if s[0] != 'v' {
      Mismatch(s, "view_gadgets", 0);
      Mismatch(s, "view_pcs", 0);
      Mismatch(s, "view_card_", 0);
      Mismatch(s, "vc_", 0);
    }
    if s[0] != 'p' {
      Mismatch(s, "profile", 0);
      Mismatch(s, "pc_", 0);
    }
    if s[0] != 'b' {
      Mismatch(s, "build_pc", 0);
      Mismatch(s, "back_to_start", 0);
      Mismatch(s, "build_gpu_", 0);
      Mismatch(s, "build_cpu_", 0);
      Mismatch(s, "build_mb_", 0);
    }
    if s[0] != 'h' {
      Mismatch(s, "help", 0);
    }
    if s[0] != 'c' {
      Mismatch(s, "confirm_sell_", 0);
      Mismatch(s, "confirm_sell_pc_", 0);
    }
    if s[0] != 's' {
      Mismatch(s, "sell_", 0);
      Mismatch(s, "sell_pc_", 0);
    }
    if s[0] != 'e' {
      Mismatch(s, "eject_", 0);
    }
  }

  /** The fixed callbacks reach their own branches. */
  lemma FixedRoutes()
    ensures Dispatch("get_card") == OnGetCard
    ensures Dispatch("view_gadgets") == OnViewGadgets
    ensures Dispatch("profile") == OnProfile
    ensures Dispatch("build_pc") == OnBuildPc
    ensures Dispatch("view_pcs") == OnViewPcs
    ensures Dispatch("help") == OnHelp
    ensures Dispatch("back_to_start") == OnBackToStart
  {
    FirstLetter("profile");
    FirstLetter("build_pc");
    Mismatch("build_pc", "view_gadgets", 0);
    FirstLetter("view_pcs");
    Mismatch("view_pcs", "view_gadgets", 5);
    FirstLetter("help");
    FirstLetter("back_to_start");
    Mismatch("back_to_start", "build_pc", 1);
  }

  /** Whatever follows the type prefix, the data reaches the type branch. */
  lemma GadgetTypeRoute(rest: string)
    ensures Dispatch("gadget_type_" + rest) == OnGadgetType
  {
    var s := "gadget_type_" + rest;
    PrefixOf("gadget_type_", rest);
    Mismatch(s, "get_card", 1);
    FirstLetter(s);
  }

  /** Both spellings of the card view reach the card view branch. */
  lemma ViewCardRoute(rest: string)
    ensures Dispatch("view_card_" + rest) == OnViewCard
    ensures Dispatch("vc_" + rest) == OnViewCard
  {
    var s, t := "view_card_" + rest, "vc_" + rest;
    PrefixOf("view_card_", rest);
    PrefixOf("vc_", rest);
    FirstLetter(s);
    FirstLetter(t);
    Mismatch(s, "view_gadgets", 5);
    Mismatch(s, "view_pcs", 5);
    Mismatch(t, "view_gadgets", 1);
    Mismatch(t, "view_pcs", 1);
  }

  /** Whatever follows, the card confirmation prefix reaches the card
      confirmation branch. */
  lemma ConfirmSellRoute(rest: string)
    ensures Dispatch("confirm_sell_" + rest) == OnConfirmSell
  {
    var s := "confirm_sell_" + rest;
    PrefixOf("confirm_sell_", rest);
    FirstLetter(s);
  }

  /** The sale prefix reaches the card sale unless the PC word follows it. */
  lemma SellRoute(rest: string)
    requires |rest| > 0 && rest[0] != 'p'
    ensures Dispatch("sell_" + rest) == OnSell
  {
    var s := "sell_" + rest;
    PrefixOf("sell_", rest);
    FirstLetter(s);
    Mismatch(s, "sell_pc_", 5);
  }

  /** The PC sale prefix passes the card sale test and reaches its branch. */
  lemma SellPcRoute(rest: string)
    ensures Dispatch("sell_pc_" + rest) == OnSellPc
  {
    var s := "sell_pc_" + rest;
    PrefixOf("sell_pc_", rest);
    assert s == "sell_" + ("pc_" + rest);
    PrefixOf("sell_", "pc_" + rest);
    FirstLetter(s);
  }

  /** The three assembly steps reach their branches. */
  lemma BuildRoutes(rest: string)
    ensures Dispatch("build_gpu_" + rest) == OnBuildGpu
    ensures Dispatch("build_cpu_" + rest) == OnBuildCpu
    ensures Dispatch("build_mb_" + rest) == OnBuildMb
  {
    BuildGpuRoute(rest);
    BuildCpuRoute(rest);
    BuildMbRoute(rest);
  }

  lemma BuildGpuRoute(rest: string)
    ensures Dispatch("build_gpu_" + rest) == OnBuildGpu
  {
    var s := "build_gpu_" + rest;
    PrefixOf("build_gpu_", rest);
    FirstLetter(s);
    Mismatch(s, "build_pc", 6);
    Mismatch(s, "back_to_start", 1);
  }

  lemma BuildCpuRoute(rest: string)
    ensures Dispatch("build_cpu_" + rest) == OnBuildCpu
  {
    var s := "build_cpu_" + rest;
    PrefixOf("build_cpu_", rest);
    FirstLetter(s);
    Mismatch(s, "build_pc", 6);
    Mismatch(s, "back_to_start", 1);
    Mismatch(s, "build_gpu_", 6);
  }

  lemma BuildMbRoute(rest: string)
    ensures Dispatch("build_mb_" + rest) == OnBuildMb
  {
    var s := "build_mb_" + rest;
    PrefixOf("build_mb_", rest);
    FirstLetter(s);
    Mismatch(s, "build_pc", 6);
    Mismatch(s, "back_to_start", 1);
    Mismatch(s, "build_gpu_", 6);
    Mismatch(s, "build_cpu_", 6);
  }

  /** The PC view and the eject button reach their branches. */
  lemma PcRoutes(rest: string)
    ensures Dispatch("pc_" + rest) == OnPc
    ensures Dispatch("eject_" + rest) == OnEject
  {
    var s, t := "pc_" + rest, "eject_" + rest;
    PrefixOf("pc_", rest);
    PrefixOf("eject_", rest);
    FirstLetter(s);
    FirstLetter(t);
    Mismatch(s, "profile", 1);
  }

  /** The PC confirmation, the PC sale and the PC view of a PC with three
      parts, once its id is read. */
  lemma PcOutcomes(s: seq<Card>, coins: int, pricing: Utils.Pricing, confirm: string, sell: string, view: string, pc: Card, now: real)
    requires FindCard(s, pc.cardId) == Some(pc) && pc.category == "PC" && |pc.components| == 3
    requires IntField(confirm, 3) == Some(pc.cardId) && IntField(sell, 2) == Some(pc.cardId)
    requires IntField(view, 1) == Some(pc.cardId)
    ensures Outcome(OnConfirmSellPc, s, coins, pricing, confirm, now) == Shows(Menu(ConfirmRows("sell_pc_", "pc_", pc.cardId)), s)
    ensures Outcome(OnPc, s, coins, pricing, view, now) == Shows(PcDetails(s, pricing, pc, "view_pcs", true), s)
    ensures var price := Utils.PcSalePrice(pricing, Utils.ComponentTotal(s, pc.components), pc.purchasePrice);
      Outcome(OnSellPc, s, coins, pricing, sell, now)
        == Effect(Sold(price, coins + price), true, Assembly.SoldPc(s, pc), Some(coins + price))
  {
    PcConfirmOutcome(s, coins, pricing, confirm, pc, now);
    PcViewOutcome(s, coins, pricing, view, pc, now);
    PcSellOutcome(s, coins, pricing, sell, pc, now);
  }

  lemma PcConfirmOutcome(s: seq<Card>, coins: int, pricing: Utils.Pricing, confirm: string, pc: Card, now: real)
    requires FindCard(s, pc.cardId) == Some(pc) && pc.category == "PC" && |pc.components| == 3
    requires IntField(confirm, 3) == Some(pc.cardId)
    ensures Outcome(OnConfirmSellPc, s, coins, pricing, confirm, now) == Shows(Menu(ConfirmRows("sell_pc_", "pc_", pc.cardId)), s)
  {
  }

  lemma PcViewOutcome(s: seq<Card>, coins: int, pricing: Utils.Pricing, view: string, pc: Card, now: real)
    requires FindCard(s, pc.cardId) == Some(pc) && pc.category == "PC"
    requires IntField(view, 1) == Some(pc.cardId)
    ensures Outcome(OnPc, s, coins, pricing, view, now) == Shows(PcDetails(s, pricing, pc, "view_pcs", true), s)
  {
  }

  lemma PcSellOutcome(s: seq<Card>, coins: int, pricing: Utils.Pricing, sell: string, pc: Card, now: real)
    requires FindCard(s, pc.cardId) == Some(pc) && pc.category == "PC" && |pc.components| == 3
    requires IntField(sell, 2) == Some(pc.cardId)
    ensures var price := Utils.PcSalePrice(pricing, Utils.ComponentTotal(s, pc.components), pc.purchasePrice);
      Outcome(OnSellPc, s, coins, pricing, sell, now)
        == Effect(Sold(price, coins + price), true, Assembly.SoldPc(s, pc), Some(coins + price))
  {
  }

  /** With the PC confirmation tested first, its data reaches its own
      branch. */
  lemma ConfirmSellPcRouteFixed(rest: string)
    ensures DispatchFixed("confirm_sell_pc_" + rest) == OnConfirmSellPc
  {
    PrefixOf("confirm_sell_pc_", rest);
  }

  // ---------------------------------------------------------------------
  // gadget_type_: the rarity menu and the card list of a type

  const FormatAlert := "Ошибка: Неверный формат callback! 😢"
  const ParseErrorAlert := "Ошибка при обработке запроса! 😢"

  /** The loop over the known rarities: the first one `rest` ends with,
      after an underscore, and what precedes that underscore. */
  function MatchRarity(rest: string, rarities: seq<string>): (m: Option<(string, string)>)
    ensures m.Some? ==> m.value.1 in rarities && rest == m.value.0 + "_" + m.value.1
    decreases |rarities|
  {
    if |rarities| == 0 then None
    else
      var suffix := "_" + rarities[0];
      if EndsWith(rest, suffix) then
        assert rest == rest[..|rest| - |suffix|] + suffix;
        Some((rest[..|rest| - |suffix|], rarities[0]))
      else MatchRarity(rest, rarities[1..])
  }

  /** The type and rarity of `gadget_type_rarity_{type}_{rarity}`, read
      from the text after the prefix; None when no known rarity ends it or
      the type before it is empty. */
  function ParseRarityCallback(rest: string): (m: Option<(string, string)>)
    ensures m.Some? ==> m.value.0 != "" && m.value.1 in RarityOrder && rest == m.value.0 + "_" + m.value.1
  {
    match MatchRarity(rest, RarityOrder)
    case Some((t, r)) => if t != "" then Some((t, r)) else None
    case None => None
  }

  /** A string ending in an underscore and a word ends in another
      underscore-prefixed word only if the two words are equal or one of
      them holds an underscore. */
  lemma SuffixCases(t: string, r: string, q: string)
    ensures EndsWith(t + "_" + r, "_" + q) ==> q == r || '_' in q || '_' in r
  {
    var s := t + "_" + r;
    if EndsWith(s, "_" + q) {
      var m := |s| - |q| - 1;
      assert s[m..] == "_" + q;
      assert s[|t|] == '_';
      if |q| > |r| {
        assert s[m..][|q| - |r|] == s[|t|];
        assert q[|q| - |r| - 1] == '_';
      } else if |q| < |r| {
        assert s[m] == '_';
        assert s[m] == r[|r| - |q| - 1];
      } else {
        assert s[m..] == "_" + r;
        assert q == ("_" + q)[1..] == ("_" + r)[1..] == r;
      }
    }
  }

  /** No rarity holds an underscore. */
  lemma RaritiesHaveNoUnderscore(r: string)
    requires r in RarityOrder
    ensures '_' !in r
  {
  }

  /** The rarity loop stops at the rarity the text was built with. */
  lemma {:induction false} MatchRarityFinds(t: string, r: string, rarities: seq<string>)
    requires r in rarities && forall q | q in rarities :: '_' !in q
    ensures MatchRarity(t + "_" + r, rarities) == Some((t, r))
    decreases |rarities|
  {
    var rest := t + "_" + r;
    var q := rarities[0];
    SuffixCases(t, r, q);
    if q == r {
      assert rest[|rest| - |"_" + r|..] == "_" + r;
      assert rest[..|rest| - |"_" + r|] == t;
    } else {
      assert r in rarities[1..];
      MatchRarityFinds(t, r, rarities[1..]);
    }
  }

  /** The callback of a rarity button gives back its type and rarity. */
  lemma RarityCallbackRoundTrip(t: string, r: string)
    requires t != "" && r in RarityOrder
    ensures ParseRarityCallback(t + "_" + r) == Some((t, r))
  {
    forall q | q in RarityOrder
      ensures '_' !in q
    {
      RaritiesHaveNoUnderscore(q);
    }
    MatchRarityFinds(t, r, RarityOrder);
  }

  /** `data.split("_", 2)[2]` of the plain type callback is the type key. */
  lemma TypeField(k: string)
    ensures SplitAtMost("gadget_type_" + k, '_', 2) == ["gadget", "type", k]
  {
    assert "gadget_type_" + k == "gadget" + "_" + ("type" + "_" + k);
    SplitAtMostFirst("gadget", '_', "type" + "_" + k, 2);
    SplitAtMostFirst("type", '_', k, 1);
    assert SplitAtMost(k, '_', 0) == [k];
  }

  /** The `gadget_type_` branch: the card list of a type and rarity, or the
      rarity menu of a type. */
  function GadgetTypeScreen(cards: seq<Card>, data: string): Screen {
    if StartsWith(data, "gadget_type_rarity_") then
      match ParseRarityCallback(Drop(data, 19))
      case Some((t, r)) => CardsScreen(cards, t, r)
      case None => Alert(FormatAlert)
    else
      var parts := SplitAtMost(data, '_', 2);
      if |parts| < 3 then Fails else RaritiesScreen(cards, parts[2])
  }

  /** A rarity button opens the card list of its type and rarity. */
  lemma RarityButtonOpensCards(cards: seq<Card>, t: string, r: string, n: int)
    requires t != "" && r in RarityOrder
    ensures var cb := RarityButton(t, r, n).callback;
      Dispatch(cb) == OnGadgetType && GadgetTypeScreen(cards, cb) == CardsScreen(cards, t, r)
  {
    var x := t + "_" + r;
    var cb := "gadget_type_rarity_" + x;
    assert RarityButton(t, r, n).callback == cb;
    assert cb == "gadget_type_" + ("rarity_" + x);
    GadgetTypeRoute("rarity_" + x);
    PrefixOf("gadget_type_rarity_", x);
    assert Drop(cb, 19) == x;
    RarityCallbackRoundTrip(t, r);
  }

  /** A type button, and the back row of a card list, open the rarity menu
      of the type. */
  lemma TypeCallbackOpensRarities(cards: seq<Card>, k: string)
    requires k in TypeKeys(TypeGroups)
    ensures Dispatch("gadget_type_" + k) == OnGadgetType
    ensures GadgetTypeScreen(cards, "gadget_type_" + k) == RaritiesScreen(cards, k)
  {
    GadgetTypeRoute(k);
    TypeField(k);
    TypeGroupKeys();
    assert k[0] != 'r';
    var s := "gadget_type_" + k;
    var p := "gadget_type_rarity_";
    assert s[12] == k[0] && p[12] == 'r';
    Mismatch(s, p, 12);
  }

  // ---------------------------------------------------------------------
  // view_card_ / vc_: the card view

  /** The length of the run of characters at the start of `s` that
      `isdigit` accepts: digits of any script, superscripts included. */
  function DigitRun(s: string): (n: nat)
    ensures n <= |s| && (forall i | 0 <= i < n :: IsUnicodeDigit(s[i])) && (n == |s| || !IsUnicodeDigit(s[n]))
    decreases |s|
  {
    if |s| > 0 && IsUnicodeDigit(s[0]) then
      var m := DigitRun(s[1..]);
      assert forall i | 0 < i <= m :: s[i] == s[1..][i - 1];
      1 + m
    else 0
  }

  /** The loop that copies the leading digits of `rest`. */
  method LeadingDigits(rest: string) returns (digits: string, i: nat)
    ensures i == DigitRun(rest) && digits == rest[..i]
  {
    digits := "";
    i := 0;
    while i < |rest| && IsUnicodeDigit(rest[i])
      invariant i <= |rest| && digits == rest[..i]
      invariant i + DigitRun(rest[i..]) == DigitRun(rest)
    {
      assert rest[i..][1..] == rest[i + 1..];
      digits := digits + [rest[i]];
      i := i + 1;
    }
  }

  /** The long type names behind the short codes of card buttons. */
  const TypeCodes: map<string, string> := map["ph" := "phones", "tab" := "tablets", "pc" := "pcs", "pt" := "pc_parts", "lap" := "laptops"]

  /** The rarities behind their first letters. */
  const RarityCodes: map<string, string> := map[
    "T" := "Trash", "C" := "Common", "U" := "Uncommon", "R" := "Rare", "E" := "Epic", "L" := "Legendary", "M" := "Mythic"]

  /** `type_map.get(ts, ts)`. */
  function TypeLong(ts: string): (k: string)
    ensures ts !in TypeCodes ==> k == ts
  {
    if ts in TypeCodes then TypeCodes[ts] else ts
  }

  /** `rarity_map.get(rs, rs)`. */
  function RarityLong(rs: string): (r: string)
    ensures rs !in RarityCodes ==> r == rs
  {
    if rs in RarityCodes then RarityCodes[rs] else rs
  }

  /** The short codes of the known types and rarities map back to them,
      and the type code holds no underscore. */
  lemma ShortCodesInvert(k: string, r: string)
    requires k in TypeKeys(TypeGroups) && r in RarityOrder
    ensures TypeLong(TypeShort(k)) == k && RarityLong(RarityShort(r)) == r && '_' !in TypeShort(k)
  {
    TypeGroupKeys();
    TypeCodeInverts(k);
    RarityCodeInverts(r);
  }

  lemma TypeCodeInverts(k: string)
    requires k in ["phones", "tablets", "pcs", "pc_parts", "laptops"]
    ensures TypeLong(TypeShort(k)) == k && '_' !in TypeShort(k)
  {
    if k == "phones" {
      assert TypeShort(k) == "ph";
    } else if k == "tablets" {
      assert TypeShort(k) == "tab";
    } else if k == "pcs" {
      assert TypeShort(k) == "pc";
    } else if k == "pc_parts" {
      assert TypeShort(k) == "pt";
    } else {
      assert TypeShort(k) == "lap";
    }
  }

  lemma RarityCodeInverts(r: string)
    requires r in RarityOrder
    ensures RarityLong(RarityShort(r)) == r
  {
    var i :| 0 <= i < |RarityOrder| && RarityOrder[i] == r;
    assert i < 7;
    if i == 0 {
      assert RarityShort(r) == "T";
    } else if i == 1 {
      assert RarityShort(r) == "C";
    } else if i == 2 {
      assert RarityShort(r) == "U";
    } else if i == 3 {
      assert RarityShort(r) == "R";
    } else if i == 4 {
      assert RarityShort(r) == "E";
    } else if i == 5 {
      assert RarityShort(r) == "L";
    } else {
      assert RarityShort(r) == "M";
    }
  }

  /** What the card view was asked for: the card and, when the callback
      carries one, the callback of its back button. */
  datatype ViewRequest = ViewRequest(cardId: int, back: Option<string>)

  /** The text after the card id: the long names of a type and rarity code
      pair, the whole text when it holds no further underscore, None when
      nothing follows the id. */
  function BackOf(rest: string, n: nat): Option<string>
    requires n <= |rest|
  {
    if n < |rest| && rest[n] == '_' then
      var parts := SplitAtMost(rest[n + 1..], '_', 1);
      if |parts| >= 2 then Some("gadget_type_rarity_" + TypeLong(parts[0]) + "_" + RarityLong(parts[1]))
      else Some(rest[n + 1..])
    else None
  }

  /** How the card view's parse of a callback ends: no digit after the
      prefix, a digit run that `int` refuses, or the request. */
  datatype ViewParse = NoId | BadId | Parsed(req: ViewRequest)

  /** The card view's parse of the text after its prefix: the leading run
      of `isdigit` characters is the id, read by `int`. */
  function ParseViewCard(rest: string): (p: ViewParse)
    ensures p.NoId? <==> |rest| == 0 || !IsUnicodeDigit(rest[0])
    ensures p.BadId? <==> DigitRun(rest) > 0 && ParseDigitRun(rest[..DigitRun(rest)]).None?
    ensures p.Parsed? ==> ParseDigitRun(rest[..DigitRun(rest)]) == Some(p.req.cardId)
  {
    var n := DigitRun(rest);
    if n == 0 then NoId
    else
      match ParseDigitRun(rest[..n])
      case None => BadId
      case Some(id) => Parsed(ViewRequest(id, BackOf(rest, n)))
  }

  /** The text after either prefix of the card view. */
  function ViewRest(data: string): string {
    if StartsWith(data, "view_card_") then Drop(data, 10) else Drop(data, 3)
  }

  /** The digits of an id followed by anything but a digit run exactly
      over the id. */
  lemma DigitRunOfDecimal(id: nat, tail: string)
    requires |tail| == 0 || !IsUnicodeDigit(tail[0])
    ensures DigitRun(NatToDecimal(id) + tail) == |NatToDecimal(id)|
    ensures (NatToDecimal(id) + tail)[..|NatToDecimal(id)|] == NatToDecimal(id)
  {
    var d := NatToDecimal(id);
    NatToDecimalDigits(id);
    forall i | 0 <= i < |d|
      ensures IsUnicodeDigit((d + tail)[i])
    {
      assert IsDigit(d[i]);
    }
    DigitRunExact(d + tail, |d|);
  }

  /** A run of digits ended by the end of the text or a non-digit is the
      leading digit run. */
  lemma {:induction false} DigitRunExact(s: string, n: nat)
    requires n <= |s| && (forall i | 0 <= i < n :: IsUnicodeDigit(s[i])) && (n == |s| || !IsUnicodeDigit(s[n]))
    ensures DigitRun(s) == n
    decreases n
  {
    if n > 0 {
      assert IsUnicodeDigit(s[0]);
      assert forall i | 0 <= i < n - 1 :: s[1..][i] == s[i + 1];
      DigitRunExact(s[1..], n - 1);
    }
  }

  /** The long form of a card callback, after its prefix, parses to the
      id and the long names of its codes. */
  lemma ParseLongForm(id: nat, ts: string, rs: string)
    requires '_' !in ts
    ensures ParseViewCard(NatToDecimal(id) + ("_" + (ts + "_" + rs)))
      == Parsed(ViewRequest(id, Some("gadget_type_rarity_" + TypeLong(ts) + "_" + RarityLong(rs))))
  {
    var d := NatToDecimal(id);
    var codes := ts + "_" + rs;
    var rest := d + ("_" + codes);
    AsciiIsDigit('_');
    DigitRunOfDecimal(id, "_" + codes);
    NatToDecimalDigits(id);
    BackOfLongForm(d, ts, rs);
  }

  /** After the id, an underscore and a pair of codes give the long names
      of the codes. */
  lemma BackOfLongForm(d: string, ts: string, rs: string)
    requires '_' !in ts
    ensures BackOf(d + ("_" + (ts + "_" + rs)), |d|)
      == Some("gadget_type_rarity_" + TypeLong(ts) + "_" + RarityLong(rs))
  {
    var codes := ts + "_" + rs;
    var rest := d + ("_" + codes);
    assert rest[|d|] == '_';
    assert rest[|d| + 1..] == codes;
    SplitAtMostFirst(ts, '_', rs, 1);
    assert SplitAtMost(rs, '_', 0) == [rs];
  }

  /** The long form of a card callback reaches the card view, which reads
      the id and the long names of the codes from it. */
  lemma LongCallbackOpens(id: nat, ts: string, rs: string)
    requires '_' !in ts
    ensures var cb := "vc_" + NatToDecimal(id) + "_" + ts + "_" + rs;
      Dispatch(cb) == OnViewCard
      && ParseViewCard(ViewRest(cb)) == Parsed(ViewRequest(id, Some("gadget_type_rarity_" + TypeLong(ts) + "_" + RarityLong(rs))))
  {
    var d := NatToDecimal(id);
    var tail := d + ("_" + (ts + "_" + rs));
    var cb := "vc_" + tail;
    assert "vc_" + d + "_" + ts + "_" + rs == cb;
    ViewCardRoute(tail);
    Mismatch(cb, "view_card_", 1);
    PrefixOf("vc_", tail);
    assert Drop(cb, 3) == tail;
    ParseLongForm(id, ts, rs);
  }

  /** A card button's callback names the card and leads back to the card
      list it was shown in. */
  lemma CardButtonOpensCard(id: nat, k: string, r: string)
    requires id < Pow10(50) && k in TypeKeys(TypeGroups) && r in RarityOrder
    ensures var cb := CardCallback(id, TypeShort(k), RarityShort(r));
      Dispatch(cb) == OnViewCard
      && ParseViewCard(ViewRest(cb)) == Parsed(ViewRequest(id, Some("gadget_type_rarity_" + k + "_" + r)))
  {
    CardCallbackKeepsLongForm(id, k, r);
    ShortCodesInvert(k, r);
    LongCallbackOpens(id, TypeShort(k), RarityShort(r));
  }

  /** The short callbacks name the card and carry no back button. */
  lemma PlainViewOpensCard(id: nat)
    ensures Dispatch("vc_" + IntToDecimal(id)) == OnViewCard
    ensures Dispatch("view_card_" + IntToDecimal(id)) == OnViewCard
    ensures ParseViewCard(ViewRest("vc_" + IntToDecimal(id))) == Parsed(ViewRequest(id, None))
    ensures ParseViewCard(ViewRest("view_card_" + IntToDecimal(id))) == Parsed(ViewRequest(id, None))
  {
    var d := IntToDecimal(id);
    ViewCardRoute(d);
    PrefixOf("vc_", d);
    PrefixOf("view_card_", d);
    Mismatch("vc_" + d, "view_card_", 1);
    assert Drop("vc_" + d, 3) == d;
    assert Drop("view_card_" + d, 10) == d;
    DigitRunOfDecimal(id, "");
    assert d + "" == d;
    NatToDecimalDigits(id);
  }

  /** A superscript passes the `isdigit` scan but not `int`, so the card
      view answers the parse error and shows no card. */
  lemma SuperscriptIdRefused(s: seq<Card>, pricing: Utils.Pricing)
    ensures ParseViewCard(ViewRest("vc_5\U{00B2}")) == BadId
    ensures ViewCardScreen(s, pricing, "vc_5\U{00B2}") == Alert(ParseErrorAlert)
  {
    var data := "vc_5\U{00B2}";
    var rest := "5\U{00B2}";
    Mismatch(data, "view_card_", 1);
    assert Drop(data, 3) == rest;
    assert IsUnicodeDigit(rest[1]);
    DigitRunExact(rest, 2);
    assert rest[..2] == rest;
    assert DecimalValue(rest[1]).None?;
  }

  /** A digit of another script is read by its value: `vc_5` followed by
      ARABIC-INDIC DIGIT THREE opens card 53. */
  lemma OtherScriptIdRead()
    ensures ParseViewCard(ViewRest("vc_5\U{0663}")) == Parsed(ViewRequest(53, None))
  {
    var data := "vc_5\U{0663}";
    var rest := "5\U{0663}";
    Mismatch(data, "view_card_", 1);
    assert Drop(data, 3) == rest;
    assert DecimalValue(rest[1]) == Some(3);
    DigitRunExact(rest, 2);
    assert rest[..2] == rest;
    assert rest[..1] == "5";
    assert DecimalsValue("5") == Some(5);
  }

  // ---------------------------------------------------------------------
  // The screens of the branches that only read the store

  const NotFoundAlert := "Карточка не найдена! 😢"
  const InPcAlert := "Нельзя продать деталь, которая в ПК! Сначала вытащи её."
  const PartsMissingAlert := "Ошибка: Одна или несколько деталей не найдены! 😢"
  const PcNotFoundAlert := "ПК не найден! 😢"
  const IncompletePcAlert := "Неполный ПК! Продать можно только полный ПК со всеми компонентами. 😢"
  const EjectNotFoundAlert := "Ошибка: Карточка не найдена! 😢"

  const ProfileRows: Keyboard := [[Button("Мои Гаджеты 📚", "view_gadgets")], [Button(BackLabel, "back_to_start")]]

  const HelpRows: Keyboard := [[Button(BackLabel, "back_to_start")]]

  const StartRows: Keyboard := [
    [Button("Получить Карточку 🎴", "get_card")],
    [Button("Мои Гаджеты 📚", "view_gadgets")],
    [Button("Профиль 👤", "profile")],
    [Button("Собрать ПК 🖥️", "build_pc")],
    [Button("Помощь ❓", "help")]]

  /** Python truthiness of an optional string. */
  predicate Truthy(x: Option<string>) {
    x.Some? && x.value != ""
  }

  /** The sale row of the card view. */
  function SaleRow(pricing: Utils.Pricing, c: Card, id: int): seq<Button> {
    [Button("💰 Продать (" + IntToDecimal(pricing.sale(c.purchasePrice)) + " монет)", "confirm_sell_" + IntToDecimal(id))]
  }

  /** The card view of a parsed request: the PC view for a PC, otherwise a
      sale row for a card outside every PC and a back row when a truthy
      back callback came with the request. */
  function CardView(s: seq<Card>, pricing: Utils.Pricing, req: ViewRequest): Screen {
    match FindCard(s, req.cardId)
    case None => Alert(NotFoundAlert)
    case Some(c) =>
      if c.category == "PC" then
        PcDetails(s, pricing, c, if Truthy(req.back) then req.back.value else "view_gadgets", true)
      else
        Menu((if c.inPc.None? then [SaleRow(pricing, c, req.cardId)] else [])
          + (if Truthy(req.back) then [[Button(BackLabel, req.back.value)]] else []))
  }

  /** The `view_card_` / `vc_` branch. */
  function ViewCardScreen(s: seq<Card>, pricing: Utils.Pricing, data: string): Screen {
    match ParseViewCard(ViewRest(data))
    case NoId => Alert(FormatAlert)
    case BadId => Alert(ParseErrorAlert)
    case Parsed(req) => CardView(s, pricing, req)
  }

  /** A confirmation keyboard: yes calls `yes` and no calls `no`, each
      followed by the id. */
  function ConfirmRows(yes: string, no: string, id: int): Keyboard {
    [[Button("✅ Да, продать", yes + IntToDecimal(id))], [Button("❌ Отмена", no + IntToDecimal(id))]]
  }

  /** The `confirm_sell_` branch: the id is the third field. */
  function ConfirmSellScreen(s: seq<Card>, data: string): Screen {
    match IntField(data, 2)
    case None => Fails
    case Some(id) =>
      match FindCard(s, id)
      case None => Alert(NotFoundAlert)
      case Some(c) => if Assembly.InPcTruthy(c) then Alert(InPcAlert) else Menu(ConfirmRows("sell_", "view_card_", id))
  }

  /** The `build_gpu_` branch: the second step with the chosen GPU. */
  function BuildGpuScreen(s: seq<Card>, data: string): Screen {
    match IntField(data, 2)
    case None => Fails
    case Some(gpu) => BuildMenu(s, Some(gpu), None)
  }

  /** The `build_cpu_` branch: three fields go back to the second step,
      more fields choose the CPU. */
  function BuildCpuScreen(s: seq<Card>, data: string): Screen {
    if |Split(data, '_')| == 3 then
      match IntField(data, 2)
      case None => Fails
      case Some(gpu) => BuildMenu(s, Some(gpu), None)
    else
      var gpu, cpu := IntField(data, 2), IntField(data, 3);
      if gpu.None? || cpu.None? then Fails
      else BuildMenu(s, gpu, cpu)
  }

  /** The `pc_` branch: the PC view with a row back to the PC list. */
  function PcScreen(s: seq<Card>, pricing: Utils.Pricing, data: string): Screen {
    match IntField(data, 1)
    case None => Fails
    case Some(id) =>
      match FindCard(s, id)
      case None => Alert(PcNotFoundAlert)
      case Some(pc) => if pc.category != "PC" then Alert(PcNotFoundAlert) else PcDetails(s, pricing, pc, "view_pcs", true)
  }

  /** The `confirm_sell_pc_` branch: the id is the fourth field, and only a
      PC with three parts may be sold. */
  function ConfirmSellPcScreen(s: seq<Card>, data: string): Screen {
    match IntField(data, 3)
    case None => Fails
    case Some(id) =>
      match FindCard(s, id)
      case None => Alert(PcNotFoundAlert)
      case Some(pc) =>
        if pc.category != "PC" then Alert(PcNotFoundAlert)
        else if |pc.components| != 3 then Alert(IncompletePcAlert)
        else Menu(ConfirmRows("sell_pc_", "pc_", id))
  }

  // ---------------------------------------------------------------------
  // The outcome of every branch

  /** What the handler answers. */
  datatype Answer =
    | Shown(screen: Screen)
    /** The gadget `get_card` drew and the id of the card it added. */
    | Drew(gadget: Gadgets.Gadget, cardId: int)
    /** The sale message: price and new balance. */
    | Sold(salePrice: int, newBalance: int)
    /** The eject message, saying whether the PC was taken apart. */
    | Ejected(pcRemoved: bool)
    /** `show_pcs`, which is not part of this model. */
    | PcsListed
    /** Only the acknowledgement. */
    | Ignored

  /** What a branch leaves behind: its answer, whether it rewrote the
      user's card list and the list it wrote, and the coins of the user's
      record when it wrote that record. */
  datatype Effect<A> = Effect(answer: A, changed: bool, cards: seq<Card>, record: Option<int>)

  /** A branch that only reads. */
  function Shows(screen: Screen, s: seq<Card>): Effect<Answer> {
    Effect(Shown(screen), false, s, None)
  }

  /** The card map after an effect on user `uid`. */
  function CardsAfter<A>(m: map<int, seq<Card>>, uid: int, e: Effect<A>): map<int, seq<Card>> {
    if e.changed then m[uid := e.cards] else m
  }

  /** The user map after an effect on user `uid` whose record was `u`. */
  function UsersAfter<A>(m: map<int, UserRecord>, uid: int, u: UserRecord, e: Effect<A>): map<int, UserRecord> {
    match e.record
    case None => m
    case Some(coins) => m[uid := UserRecord(coins, u.lastCardTime)]
  }

  /** The `sell_` branch: a card outside every PC is removed and its sale
      price credited. */
  function SellOutcome(s: seq<Card>, coins: int, pricing: Utils.Pricing, data: string): Effect<Answer> {
    match IntField(data, 1)
    case None => Shows(Fails, s)
    case Some(id) =>
      match FindCard(s, id)
      case None => Shows(Alert(NotFoundAlert), s)
      case Some(c) =>
        if Assembly.InPcTruthy(c) then Shows(Alert(InPcAlert), s)
        else
          var price := pricing.sale(c.purchasePrice);
          Effect(Sold(price, coins + price), true, RemoveAll(s, id), Some(coins + price))
  }

  /** The `build_mb_` branch: with all three parts found the PC is
      assembled, without checking that the parts are free, and shown
      without a back row. */
  function BuildMbOutcome(s: seq<Card>, pricing: Utils.Pricing, data: string, now: real): Effect<Answer> {
    var g, c, m := IntField(data, 2), IntField(data, 3), IntField(data, 4);
    if g.None? || c.None? || m.None? then Shows(Fails, s)
    else
      var gpu, cpu, mb := FindCard(s, g.value), FindCard(s, c.value), FindCard(s, m.value);
      if gpu.None? || cpu.None? || mb.None? then Shows(Alert(PartsMissingAlert), s)
      else Assembled(s, pricing, gpu.value, cpu.value, mb.value, now)
  }

  /** The assembly of `build_mb_` once its three parts are found: the new
      PC's view without a back row. */
  function Assembled(s: seq<Card>, pricing: Utils.Pricing, gpu: Card, cpu: Card, mb: Card, now: real): Effect<Answer> {
    var built := Api.BuildOutcome(s, pricing, gpu, cpu, mb, now);
    match FindCard(built, Api.NewPcId(s, now))
    case Some(pc) => Effect(Shown(PcDetails(built, pricing, pc, "view_gadgets", false)), true, built, None)
    case None => Effect(Shown(Fails), true, built, None)
  }

  /** The `eject_` branch: the part leaves the PC's list; when none is
      left the PC is removed and the part keeps naming it. */
  function EjectOutcome(s: seq<Card>, data: string): Effect<Answer> {
    var pcId, compId := IntField(data, 1), IntField(data, 2);
    if pcId.None? || compId.None? then Shows(Fails, s)
    else
      var pc, comp := FindCard(s, pcId.value), FindCard(s, compId.value);
      if pc.None? || comp.None? then Shows(Alert(EjectNotFoundAlert), s)
      else
        Effect(Ejected(|Assembly.RemoveFirst(pc.value.components, compId.value)| == 0), true,
          Assembly.EjectLeavingPart(s, pc.value, compId.value), None)
  }

  /** A PC and a part both found under the ids of `eject_` give the
      eject that leaves the part naming a removed PC. */
  lemma EjectOutcomeFound(s: seq<Card>, data: string, pc: Card, compId: int)
    requires IntField(data, 1) == Some(pc.cardId) && IntField(data, 2) == Some(compId)
    requires FindCard(s, pc.cardId) == Some(pc) && FindCard(s, compId).Some?
    ensures EjectOutcome(s, data)
      == Effect(Ejected(|Assembly.RemoveFirst(pc.components, compId)| == 0), true,
        Assembly.EjectLeavingPart(s, pc, compId), None)
  {
  }

  /** The `sell_pc_` branch: a PC with three parts is sold with them. */
  function SellPcOutcome(s: seq<Card>, coins: int, pricing: Utils.Pricing, data: string): Effect<Answer> {
    match IntField(data, 2)
    case None => Shows(Fails, s)
    case Some(id) =>
      match FindCard(s, id)
      case None => Shows(Alert(PcNotFoundAlert), s)
      case Some(pc) =>
        if pc.category != "PC" then Shows(Alert(PcNotFoundAlert), s)
        else if |pc.components| != 3 then Shows(Alert(IncompletePcAlert), s)
        else
          var price := Utils.PcSalePrice(pricing, Utils.ComponentTotal(s, pc.components), pc.purchasePrice);
          Effect(Sold(price, coins + price), true, Assembly.SoldPc(s, pc), Some(coins + price))
  }

  /** A whole PC found under the id of `sell_pc_` is sold with its parts
      for the sale price of the three. */
  lemma SellPcOutcomeSold(s: seq<Card>, coins: int, pricing: Utils.Pricing, data: string, id: int, pc: Card)
    requires IntField(data, 2) == Some(id) && FindCard(s, id) == Some(pc)
    requires pc.category == "PC" && |pc.components| == 3
    ensures var price := Utils.PcSalePrice(pricing, Utils.ComponentTotal(s, pc.components), pc.purchasePrice);
      SellPcOutcome(s, coins, pricing, data)
        == Effect(Sold(price, coins + price), true, Assembly.SoldPc(s, pc), Some(coins + price))
  {
  }

  /** The branches that may rewrite the collection: the sales, the
      assembly and the eject. */
  predicate Writes(b: Branch) {
    b.OnSell? || b.OnBuildMb? || b.OnEject? || b.OnSellPc?
  }

  /** The branches that read ids from the callback data and only show a
      screen. */
  predicate ShowsData(b: Branch) {
    b.OnGadgetType? || b.OnViewCard? || b.OnConfirmSell? || b.OnBuildGpu? || b.OnBuildCpu? || b.OnPc? || b.OnConfirmSellPc?
  }

  /** Every branch but `get_card`, whose draw is random. */
  function Outcome(b: Branch, s: seq<Card>, coins: int, pricing: Utils.Pricing, data: string, now: real): Effect<Answer>
    requires b != OnGetCard
  {
    if Writes(b) then WriteOutcome(b, s, coins, pricing, data, now)
    else if ShowsData(b) then Shows(DataScreen(b, s, pricing, data), s)
    else MenuOutcome(b, s, coins)
  }

  /** The outcome of a branch that may rewrite the collection. */
  function WriteOutcome(b: Branch, s: seq<Card>, coins: int, pricing: Utils.Pricing, data: string, now: real): Effect<Answer>
    requires Writes(b)
  {
    match b
    case OnSell => SellOutcome(s, coins, pricing, data)
    case OnBuildMb => BuildMbOutcome(s, pricing, data, now)
    case OnEject => EjectOutcome(s, data)
    case OnSellPc => SellPcOutcome(s, coins, pricing, data)
  }

  /** The screen of a branch that reads ids from the data. */
  function DataScreen(b: Branch, s: seq<Card>, pricing: Utils.Pricing, data: string): Screen
    requires ShowsData(b)
  {
    match b
    case OnGadgetType => GadgetTypeScreen(s, data)
    case OnViewCard => ViewCardScreen(s, pricing, data)
    case OnConfirmSell => ConfirmSellScreen(s, data)
    case OnBuildGpu => BuildGpuScreen(s, data)
    case OnBuildCpu => BuildCpuScreen(s, data)
    case OnPc => PcScreen(s, pricing, data)
    case OnConfirmSellPc => ConfirmSellPcScreen(s, data)
  }

  /** The branches whose data is a fixed word, apart from `get_card`. */
  function MenuOutcome(b: Branch, s: seq<Card>, coins: int): Effect<Answer>
    requires b != OnGetCard && !Writes(b) && !ShowsData(b)
  {
    match b
    case OnViewGadgets => Shows(Menu(GadgetsMenu(s)), s)
    case OnProfile => Shows(Menu(ProfileRows), s)
    case OnBuildPc => Shows(BuildMenu(s, None, None), s)
    case OnViewPcs => Effect(PcsListed, false, s, None)
    case OnHelp => Shows(Menu(HelpRows), s)
    case OnBackToStart => Effect(Shown(Menu(StartRows)), false, s, Some(coins))
    case Unhandled => Effect(Ignored, false, s, None)
  }

  // ---------------------------------------------------------------------
  // Flows through the buttons

  /** The sale button of the PC view, as the chain is written: its data
      reaches the card confirmation, which reads the word "pc" as the card
      id and fails, leaving the collection as it was. */
  lemma PcSaleButtonFails(s: seq<Card>, coins: int, pricing: Utils.Pricing, id: int, now: real)
    ensures var cb := "confirm_sell_pc_" + IntToDecimal(id);
      && Dispatch(cb) == OnConfirmSell
      && Outcome(Dispatch(cb), s, coins, pricing, cb, now) == Shows(Fails, s)
  {
    var d := IntToDecimal(id);
    assert "confirm_sell_pc_" + d == "confirm_sell_" + ("pc_" + d);
    ConfirmSellRoute("pc_" + d);
    ConfirmSellPcFields(id);
  }

  /** With the PC confirmation tested first, the same button asks to
      confirm the sale of a PC with three parts; the yes button then sells
      the PC with its parts at the PC price and the no button goes back to
      the PC view. */
  lemma PcSaleButtonFixed(s: seq<Card>, coins: int, pricing: Utils.Pricing, pc: Card, now: real)
    requires FindCard(s, pc.cardId) == Some(pc) && pc.category == "PC" && |pc.components| == 3
    ensures var d := IntToDecimal(pc.cardId);
      && DispatchFixed("confirm_sell_pc_" + d) == OnConfirmSellPc
      && Outcome(OnConfirmSellPc, s, coins, pricing, "confirm_sell_pc_" + d, now)
        == Shows(Menu(ConfirmRows("sell_pc_", "pc_", pc.cardId)), s)
      && DispatchFixed("sell_pc_" + d) == OnSellPc
      && DispatchFixed("pc_" + d) == OnPc
      && Outcome(OnPc, s, coins, pricing, "pc_" + d, now) == Shows(PcDetails(s, pricing, pc, "view_pcs", true), s)
    ensures var d := IntToDecimal(pc.cardId);
      var price := Utils.PcSalePrice(pricing, Utils.ComponentTotal(s, pc.components), pc.purchasePrice);
      Outcome(OnSellPc, s, coins, pricing, "sell_pc_" + d, now)
        == Effect(Sold(price, coins + price), true, Assembly.SoldPc(s, pc), Some(coins + price))
  {
    var d := IntToDecimal(pc.cardId);
    ConfirmSellPcRouteFixed(d);
    ConfirmSellPcFields(pc.cardId);
    PcFields(pc.cardId);
    PcOutcomes(s, coins, pricing, "confirm_sell_pc_" + d, "sell_pc_" + d, "pc_" + d, pc, now);
    SellPcRoute(d);
    PcRoutes(d);
    Mismatch("sell_pc_" + d, "confirm_sell_pc_", 0);
    Mismatch("pc_" + d, "confirm_sell_pc_", 0);
  }

  /** A card outside every PC: its view offers the sale, the sale button
      asks for confirmation, and the yes button removes the card and
      credits its sale price, while the no button opens the card again. */
  lemma CardSaleFlow(s: seq<Card>, coins: int, pricing: Utils.Pricing, c: Card, now: real)
    requires FindCard(s, c.cardId) == Some(c) && c.category != "PC" && c.inPc.None?
    ensures var d := IntToDecimal(c.cardId);
      && CardView(s, pricing, ViewRequest(c.cardId, None)) == Menu([SaleRow(pricing, c, c.cardId)])
      && SaleRow(pricing, c, c.cardId)[0].callback == "confirm_sell_" + d
      && Dispatch("confirm_sell_" + d) == OnConfirmSell
      && Outcome(OnConfirmSell, s, coins, pricing, "confirm_sell_" + d, now)
        == Shows(Menu(ConfirmRows("sell_", "view_card_", c.cardId)), s)
      && Dispatch("sell_" + d) == OnSell
      && Dispatch("view_card_" + d) == OnViewCard
    ensures var price := pricing.sale(c.purchasePrice);
      Outcome(OnSell, s, coins, pricing, "sell_" + IntToDecimal(c.cardId), now)
        == Effect(Sold(price, coins + price), true, RemoveAll(s, c.cardId), Some(coins + price))
  {
    CardSaleOffered(s, pricing, c);
    CardSaleConfirmed(s, coins, pricing, c, now);
    CardSaleDone(s, coins, pricing, c, now);
  }

  /** The view of a free card offers its sale. */
  lemma CardSaleOffered(s: seq<Card>, pricing: Utils.Pricing, c: Card)
    requires FindCard(s, c.cardId) == Some(c) && c.category != "PC" && c.inPc.None?
    ensures CardView(s, pricing, ViewRequest(c.cardId, None)) == Menu([SaleRow(pricing, c, c.cardId)])
    ensures SaleRow(pricing, c, c.cardId)[0].callback == "confirm_sell_" + IntToDecimal(c.cardId)
  {
  }

  /** The sale button asks for confirmation, whose buttons reach the sale
      and the card view. */
  lemma CardSaleConfirmed(s: seq<Card>, coins: int, pricing: Utils.Pricing, c: Card, now: real)
    requires FindCard(s, c.cardId) == Some(c) && c.category != "PC" && c.inPc.None?
    ensures var d := IntToDecimal(c.cardId);
      && Dispatch("confirm_sell_" + d) == OnConfirmSell
      && Outcome(OnConfirmSell, s, coins, pricing, "confirm_sell_" + d, now)
        == Shows(Menu(ConfirmRows("sell_", "view_card_", c.cardId)), s)
      && Dispatch("sell_" + d) == OnSell
      && Dispatch("view_card_" + d) == OnViewCard
  {
    var d := IntToDecimal(c.cardId);
    DecimalShape(c.cardId);
    ConfirmSellRoute(d);
    ConfirmSellFields(c.cardId);
    SellRoute(d);
    ViewCardRoute(d);
  }

  /** The yes button removes the card and credits its sale price. */
  lemma CardSaleDone(s: seq<Card>, coins: int, pricing: Utils.Pricing, c: Card, now: real)
    requires FindCard(s, c.cardId) == Some(c) && c.category != "PC" && c.inPc.None?
    ensures var price := pricing.sale(c.purchasePrice);
      Outcome(OnSell, s, coins, pricing, "sell_" + IntToDecimal(c.cardId), now)
        == Effect(Sold(price, coins + price), true, RemoveAll(s, c.cardId), Some(coins + price))
  {
    DecimalShape(c.cardId);
    SellFields(c.cardId);
  }

  /** A part inside a PC is refused by the sale branch and stays. */
  lemma PartInPcNotSold(s: seq<Card>, coins: int, pricing: Utils.Pricing, c: Card, now: real)
    requires FindCard(s, c.cardId) == Some(c) && Assembly.InPcTruthy(c)
    ensures var d := IntToDecimal(c.cardId);
      && Dispatch("sell_" + d) == OnSell
      && Outcome(OnSell, s, coins, pricing, "sell_" + d, now) == Shows(Alert(InPcAlert), s)
      && Outcome(OnConfirmSell, s, coins, pricing, "confirm_sell_" + d, now) == Shows(Alert(InPcAlert), s)
  {
    var d := IntToDecimal(c.cardId);
    DecimalShape(c.cardId);
    SellRoute(d);
    SellFields(c.cardId);
    ConfirmSellFields(c.cardId);
  }

  /** The second step, from the graphics card choice or the back button
      of the third step, once the id is read. */
  lemma BuildStepOutcomes(s: seq<Card>, coins: int, pricing: Utils.Pricing, gpuData: string, backData: string, g: int, now: real)
    requires IntField(gpuData, 2) == Some(g)
    requires |Split(backData, '_')| == 3 && IntField(backData, 2) == Some(g)
    ensures Outcome(OnBuildGpu, s, coins, pricing, gpuData, now) == Shows(BuildMenu(s, Some(g), None), s)
    ensures Outcome(OnBuildCpu, s, coins, pricing, backData, now) == Shows(BuildMenu(s, Some(g), None), s)
  {
  }

  /** The third step once both ids are read. */
  lemma BuildCpuOutcome(s: seq<Card>, coins: int, pricing: Utils.Pricing, data: string, g: int, c: int, now: real)
    requires |Split(data, '_')| == 4 && IntField(data, 2) == Some(g) && IntField(data, 3) == Some(c)
    ensures Outcome(OnBuildCpu, s, coins, pricing, data, now) == Shows(BuildMenu(s, Some(g), Some(c)), s)
  {
  }

  /** The assembly once the three ids are read and the three parts found. */
  lemma BuildMbOutcomeOf(s: seq<Card>, coins: int, pricing: Utils.Pricing, data: string, gpu: Card, cpu: Card, mb: Card, now: real)
    requires IntField(data, 2) == Some(gpu.cardId) && IntField(data, 3) == Some(cpu.cardId)
    requires IntField(data, 4) == Some(mb.cardId)
    requires FindCard(s, gpu.cardId) == Some(gpu) && FindCard(s, cpu.cardId) == Some(cpu)
    requires FindCard(s, mb.cardId) == Some(mb)
    ensures Outcome(OnBuildMb, s, coins, pricing, data, now) == Assembled(s, pricing, gpu, cpu, mb, now)
  {
    OutcomeOfBuildMb(s, coins, pricing, data, now);
    assert BuildMbOutcome(s, pricing, data, now) == Assembled(s, pricing, gpu, cpu, mb, now);
  }

  lemma OutcomeOfBuildMb(s: seq<Card>, coins: int, pricing: Utils.Pricing, data: string, now: real)
    ensures Outcome(OnBuildMb, s, coins, pricing, data, now) == BuildMbOutcome(s, pricing, data, now)
  {
  }

  /** The assembly rewrites the collection to the built one and leaves
      the user's record alone. */
  lemma AssembledWrites(s: seq<Card>, pricing: Utils.Pricing, gpu: Card, cpu: Card, mb: Card, now: real)
    ensures var e := Assembled(s, pricing, gpu, cpu, mb, now);
      && e.changed && e.record.None?
      && e.cards == Api.BuildOutcome(s, pricing, gpu, cpu, mb, now)
  {
  }

  /** The first two steps of the assembly: each button opens the next
      step with the ids chosen so far, and the back button of the third
      step returns to the second. */
  lemma BuildStepsFlow(s: seq<Card>, coins: int, pricing: Utils.Pricing, g: int, c: int, now: real)
    ensures var dg, dc := IntToDecimal(g), IntToDecimal(c);
      && Dispatch("build_gpu_" + dg) == OnBuildGpu
      && Outcome(OnBuildGpu, s, coins, pricing, "build_gpu_" + dg, now) == Shows(BuildMenu(s, Some(g), None), s)
      && Dispatch("build_cpu_" + dg) == OnBuildCpu
      && Outcome(OnBuildCpu, s, coins, pricing, "build_cpu_" + dg, now) == Shows(BuildMenu(s, Some(g), None), s)
      && Dispatch("build_cpu_" + dg + "_" + dc) == OnBuildCpu
      && Outcome(OnBuildCpu, s, coins, pricing, "build_cpu_" + dg + "_" + dc, now)
        == Shows(BuildMenu(s, Some(g), Some(c)), s)
  {
    var dg, dc := IntToDecimal(g), IntToDecimal(c);
    BuildGpuRoute(dg);
    BuildCpuRoute(dg);
    BuildGpuFields(g);
    BuildStepOutcomes(s, coins, pricing, "build_gpu_" + dg, "build_cpu_" + dg, g, now);
    assert "build_cpu_" + dg + "_" + dc == "build_cpu_" + (dg + "_" + dc);
    BuildCpuRoute(dg + "_" + dc);
    BuildCpuFields(g, c);
    BuildCpuOutcome(s, coins, pricing, "build_cpu_" + dg + "_" + dc, g, c, now);
  }

  /** The button of the third step assembles the PC from the three parts
      when all are found. */
  lemma BuildMbFlow(s: seq<Card>, coins: int, pricing: Utils.Pricing, gpu: Card, cpu: Card, mb: Card, now: real)
    requires FindCard(s, gpu.cardId) == Some(gpu) && FindCard(s, cpu.cardId) == Some(cpu)
    requires FindCard(s, mb.cardId) == Some(mb)
    ensures var cb := "build_mb_" + IntToDecimal(gpu.cardId) + "_" + IntToDecimal(cpu.cardId) + "_" + IntToDecimal(mb.cardId);
      && Dispatch(cb) == OnBuildMb
      && Outcome(OnBuildMb, s, coins, pricing, cb, now) == Assembled(s, pricing, gpu, cpu, mb, now)
  {
    var dg, dc, dm := IntToDecimal(gpu.cardId), IntToDecimal(cpu.cardId), IntToDecimal(mb.cardId);
    assert "build_mb_" + dg + "_" + dc + "_" + dm == "build_mb_" + (dg + "_" + dc + "_" + dm);
    BuildMbRoute(dg + "_" + dc + "_" + dm);
    BuildMbFields(gpu.cardId, cpu.cardId, mb.cardId);
    BuildMbOutcomeOf(s, coins, pricing, "build_mb_" + dg + "_" + dc + "_" + dm, gpu, cpu, mb, now);
  }

  /** The eject branch once both ids are read and both cards found. */
  lemma EjectOutcomeOf(s: seq<Card>, coins: int, pricing: Utils.Pricing, data: string, pc: Card, part: int, now: real)
    requires IntField(data, 1) == Some(pc.cardId) && IntField(data, 2) == Some(part)
    requires FindCard(s, pc.cardId) == Some(pc) && FindCard(s, part).Some?
    ensures Outcome(OnEject, s, coins, pricing, data, now)
      == Effect(Ejected(|Assembly.RemoveFirst(pc.components, part)| == 0), true, Assembly.EjectLeavingPart(s, pc, part), None)
  {
    assert Outcome(OnEject, s, coins, pricing, data, now) == WriteOutcome(OnEject, s, coins, pricing, data, now);
    assert WriteOutcome(OnEject, s, coins, pricing, data, now) == EjectOutcome(s, data);
  }

  /** The eject button takes the part out of the PC as written: the
      collection stays linked while parts remain, and the answer says
      whether the PC was taken apart. */
  lemma EjectFlow(s: seq<Card>, coins: int, pricing: Utils.Pricing, pc: Card, part: int, now: real)
    requires FindCard(s, pc.cardId) == Some(pc) && FindCard(s, part).Some?
    ensures var cb := "eject_" + IntToDecimal(pc.cardId) + "_" + IntToDecimal(part);
      var e := Outcome(OnEject, s, coins, pricing, cb, now);
      && Dispatch(cb) == OnEject
      && e == Effect(Ejected(|Assembly.RemoveFirst(pc.components, part)| == 0), true,
        Assembly.EjectLeavingPart(s, pc, part), None)
      && (Linked(s) && UniqueIds(s) && |Assembly.RemoveFirst(pc.components, part)| > 0 ==>
        Linked(e.cards))
  {
    var dp, dc := IntToDecimal(pc.cardId), IntToDecimal(part);
    assert "eject_" + dp + "_" + dc == "eject_" + (dp + "_" + dc);
    PcRoutes(dp + "_" + dc);
    EjectFields(pc.cardId, part);
    EjectOutcomeOf(s, coins, pricing, "eject_" + dp + "_" + dc, pc, part, now);
    if Linked(s) && UniqueIds(s) && |Assembly.RemoveFirst(pc.components, part)| > 0 {
      Assembly.EjectsAgreeWhilePartsRemain(s, pc, part);
      Assembly.EjectClearingKeepsLinked(s, pc, part);
    }
  }

  // ---------------------------------------------------------------------
  // The handlers

  /** `get_card`: the user's record is fetched, created when absent, then
      a catalog gadget is drawn with the random number `x`, added as a new
      card, and the draw time recorded. There is no cooldown check. */
  method HandleGetCard(store: Store, uid: int, x: real, now: real) returns (a: Answer)
    requires 0.0 <= x < 1.0
    modifies store
    ensures a.Drew? && a.gadget in Gadgets.Catalog
    ensures a.gadget.rarity == Gadgets.ChooseWeighted(Gadgets.RarityWeights, x * 100.0)
    ensures a.cardId == (now * 1000.0).Floor + |old(store.UserCards(uid))|
    ensures store.cards == old(store.cards)[uid := old(store.UserCards(uid)) + [Api.DrawnCard(a.gadget, a.cardId, now)]]
    ensures store.users == old(store.users)[uid := UserRecord(old(store.UserOf(uid)).coins, now)]
    ensures store.banned == old(store.banned)
  {
    ghost var users0, cards0 := store.users, store.cards;
    ghost var s0, u0 := store.UserCards(uid), store.UserOf(uid);
    var _ := store.GetUser(uid);
    ghost var users1 := store.users;
    assert store.cards == cards0 && store.UserCards(uid) == s0 && store.UserOf(uid) == u0;
    var g := Gadgets.DrawFromCatalog(x);
    var id := store.AddCard(uid, g.name, Gadgets.CategoryName(g.category), g.price, Gadgets.RarityName(g.rarity), now);
    assert store.cards == cards0[uid := s0 + [Api.DrawnCard(g, id, now)]] && store.users == users1;
    store.UpdateUser(uid, None, Some(now));
    assert store.users == users1[uid := UserRecord(u0.coins, now)];
    assert store.users == users0[uid := UserRecord(u0.coins, now)];
    a := Drew(g, id);
  }

  /** The loop over the known rarities with its early exit. */
  method FindRarity(rest: string) returns (m: Option<(string, string)>)
    ensures m == MatchRarity(rest, RarityOrder)
  {
    var k := 0;
    while k < |RarityOrder|
      invariant 0 <= k <= |RarityOrder|
      invariant MatchRarity(rest, RarityOrder[k..]) == MatchRarity(rest, RarityOrder)
    {
      var known := RarityOrder[k];
      assert RarityOrder[k..][0] == known && RarityOrder[k..][1..] == RarityOrder[k + 1..];
      if EndsWith(rest, "_" + known) {
        return Some((rest[..|rest| - |"_" + known|], known));
      }
      k := k + 1;
    }
    return None;
  }

  method HandleGadgetType(store: Store, uid: int, data: string) returns (screen: Screen)
    ensures screen == GadgetTypeScreen(store.UserCards(uid), data)
  {
    if StartsWith(data, "gadget_type_rarity_") {
      var rest := Drop(data, 19);
      var m := FindRarity(rest);
      if m.Some? && m.value.0 != "" {
        screen := ShowGadgetTypeRarityCards(store, uid, m.value.0, m.value.1);
      } else {
        screen := Alert(FormatAlert);
      }
    } else {
      var parts := SplitAtMost(data, '_', 2);
      if |parts| < 3 {
        return Fails;
      }
      screen := ShowGadgetTypeRarities(store, uid, parts[2]);
    }
  }

  method HandleViewCard(store: Store, pricing: Utils.Pricing, uid: int, data: string) returns (screen: Screen)
    ensures screen == ViewCardScreen(store.UserCards(uid), pricing, data)
  {
    var req := ReadViewRequest(data);
    if req.NoId? {
      return Alert(FormatAlert);
    } else if req.BadId? {
      return Alert(ParseErrorAlert);
    }
    screen := ShowCardView(store, pricing, uid, req.req);
  }

  /** The parse at the head of the card view: the id's digits, then what
      follows them. */
  method ReadViewRequest(data: string) returns (req: ViewParse)
    ensures req == ParseViewCard(ViewRest(data))
  {
    var rest := if StartsWith(data, "view_card_") then Drop(data, 10) else Drop(data, 3);
    var digits, i := LeadingDigits(rest);
    if |digits| == 0 {
      return NoId;
    }
    var cardId := ParseDigitRun(digits);
    if cardId.None? {
      return BadId;
    }
    var back: Option<string> := None;
    if i < |rest| && rest[i] == '_' {
      var parts := SplitAtMost(rest[i + 1..], '_', 1);
      if |parts| >= 2 {
        back := Some("gadget_type_rarity_" + TypeLong(parts[0]) + "_" + RarityLong(parts[1]));
      } else {
        back := Some(rest[i + 1..]);
      }
    }
    assert back == BackOf(rest, i);
    req := Parsed(ViewRequest(cardId.value, back));
  }

  /** The card view once the request is read. */
  method ShowCardView(store: Store, pricing: Utils.Pricing, uid: int, req: ViewRequest) returns (screen: Screen)
    ensures screen == CardView(store.UserCards(uid), pricing, req)
  {
    var card := store.GetCard(uid, req.cardId);
    if card.None? {
      return Alert(NotFoundAlert);
    }
    var c := card.value;
    var back := req.back;
    if c.category == "PC" {
      screen := ShowPcDetails(store, pricing, uid, c, if Truthy(back) then back.value else "view_gadgets", true);
      return;
    }
    var rows: Keyboard := [];
    if c.inPc.None? {
      rows := rows + [SaleRow(pricing, c, req.cardId)];
    }
    if Truthy(back) {
      rows := rows + [[Button(BackLabel, back.value)]];
    }
    screen := Menu(rows);
  }

  method HandleConfirmSell(store: Store, uid: int, data: string) returns (screen: Screen)
    ensures screen == ConfirmSellScreen(store.UserCards(uid), data)
  {
    var id := IntField(data, 2);
    if id.None? {
      return Fails;
    }
    var card := store.GetCard(uid, id.value);
    if card.None? {
      return Alert(NotFoundAlert);
    }
    if Assembly.InPcTruthy(card.value) {
      return Alert(InPcAlert);
    }
    screen := Menu(ConfirmRows("sell_", "view_card_", id.value));
  }

  method HandleSell(store: Store, pricing: Utils.Pricing, uid: int, data: string) returns (a: Answer)
    modifies store
    ensures var e := SellOutcome(old(store.UserCards(uid)), old(store.UserOf(uid)).coins, pricing, data);
      && a == e.answer && store.cards == CardsAfter(old(store.cards), uid, e)
      && store.users == UsersAfter(old(store.users), uid, old(store.UserOf(uid)), e)
    ensures store.banned == old(store.banned)
  {
    var id := IntField(data, 1);
    if id.None? {
      return Shown(Fails);
    }
    var card := store.GetCard(uid, id.value);
    if card.None? {
      return Shown(Alert(NotFoundAlert));
    }
    if Assembly.InPcTruthy(card.value) {
      return Shown(Alert(InPcAlert));
    }
    var salePrice := pricing.sale(card.value.purchasePrice);
    var newBalance := store.AddCoins(uid, salePrice);
    var _ := store.RemoveCard(uid, id.value);
    a := Sold(salePrice, newBalance);
  }

  method HandleBuildGpu(store: Store, uid: int, data: string) returns (screen: Screen)
    ensures screen == BuildGpuScreen(store.UserCards(uid), data)
  {
    var gpu := IntField(data, 2);
    if gpu.None? {
      return Fails;
    }
    screen := ShowBuildMenu(store, uid, gpu, None);
  }

  method HandleBuildCpu(store: Store, uid: int, data: string) returns (screen: Screen)
    ensures screen == BuildCpuScreen(store.UserCards(uid), data)
  {
    var parts := Split(data, '_');
    if |parts| == 3 {
      var gpu := IntField(data, 2);
      if gpu.None? {
        return Fails;
      }
      screen := ShowBuildMenu(store, uid, gpu, None);
    } else {
      var gpu := IntField(data, 2);
      var cpu := IntField(data, 3);
      if gpu.None? || cpu.None? {
        return Fails;
      }
      screen := ShowBuildMenu(store, uid, gpu, cpu);
    }
  }

  method HandleBuildMb(store: Store, pricing: Utils.Pricing, uid: int, data: string, now: real) returns (a: Answer)
    modifies store
    ensures var e := BuildMbOutcome(old(store.UserCards(uid)), pricing, data, now);
      && a == e.answer && store.cards == CardsAfter(old(store.cards), uid, e)
      && store.users == UsersAfter(old(store.users), uid, old(store.UserOf(uid)), e)
    ensures store.banned == old(store.banned)
  {
    var g, c, m := IntField(data, 2), IntField(data, 3), IntField(data, 4);
    if g.None? || c.None? || m.None? {
      return Shown(Fails);
    }
    var gpu := store.GetCard(uid, g.value);
    var cpu := store.GetCard(uid, c.value);
    var mb := store.GetCard(uid, m.value);
    if gpu.None? || cpu.None? || mb.None? {
      return Shown(Alert(PartsMissingAlert));
    }
    BuildMbOutcomeFound(store.UserCards(uid), pricing, data, now, gpu.value, cpu.value, mb.value);
    a := AssembleAndShow(store, pricing, uid, gpu.value, cpu.value, mb.value, now);
  }

  /** With its three parts found, `build_mb_` assembles them; the
      collection changes and no balance does. */
  lemma BuildMbOutcomeFound(s: seq<Card>, pricing: Utils.Pricing, data: string, now: real, gpu: Card, cpu: Card, mb: Card)
    requires IntField(data, 2) == Some(gpu.cardId) && IntField(data, 3) == Some(cpu.cardId) && IntField(data, 4) == Some(mb.cardId)
    requires FindCard(s, gpu.cardId) == Some(gpu) && FindCard(s, cpu.cardId) == Some(cpu) && FindCard(s, mb.cardId) == Some(mb)
    ensures BuildMbOutcome(s, pricing, data, now) == Assembled(s, pricing, gpu, cpu, mb, now)
    ensures Assembled(s, pricing, gpu, cpu, mb, now).changed && Assembled(s, pricing, gpu, cpu, mb, now).record.None?
  {
  }

  /** The assembly of `build_mb_` once its three parts are found. */
  method AssembleAndShow(store: Store, pricing: Utils.Pricing, uid: int, gpu: Card, cpu: Card, mb: Card, now: real)
    returns (a: Answer)
    modifies store
    ensures var e := Assembled(old(store.UserCards(uid)), pricing, gpu, cpu, mb, now);
      store.cards == old(store.cards)[uid := e.cards] && a == e.answer
    ensures store.users == old(store.users) && store.banned == old(store.banned)
  {
    ghost var s := store.UserCards(uid);
    ghost var built := Api.BuildOutcome(s, pricing, gpu, cpu, mb, now);
    ghost var e := Assembled(s, pricing, gpu, cpu, mb, now);
    var pcId := Assembly.AssemblePc(store, pricing, uid, gpu, cpu, mb, now);
    assert pcId == Api.NewPcId(s, now);
    assert store.cards == old(store.cards)[uid := built];
    assert store.UserCards(uid) == built && e.cards == built;
    var pc := store.GetCard(uid, pcId);
    if pc.None? {
      return Shown(Fails);
    }
    var screen := ShowPcDetails(store, pricing, uid, pc.value, "view_gadgets", false);
    a := Shown(screen);
  }

  method HandlePc(store: Store, pricing: Utils.Pricing, uid: int, data: string) returns (screen: Screen)
    ensures screen == PcScreen(store.UserCards(uid), pricing, data)
  {
    var id := IntField(data, 1);
    if id.None? {
      return Fails;
    }
    var pc := store.GetCard(uid, id.value);
    if pc.None? || pc.value.category != "PC" {
      return Alert(PcNotFoundAlert);
    }
    screen := ShowPcDetails(store, pricing, uid, pc.value, "view_pcs", true);
  }

  method HandleEject(store: Store, uid: int, data: string) returns (a: Answer)
    modifies store
    ensures var e := EjectOutcome(old(store.UserCards(uid)), data);
      && a == e.answer && store.cards == CardsAfter(old(store.cards), uid, e)
      && store.users == UsersAfter(old(store.users), uid, old(store.UserOf(uid)), e)
    ensures store.banned == old(store.banned)
  {
    var pcId, compId := IntField(data, 1), IntField(data, 2);
    if pcId.None? || compId.None? {
      return Shown(Fails);
    }
    var pc := store.GetCard(uid, pcId.value);
    var comp := store.GetCard(uid, compId.value);
    if pc.None? || comp.None? {
      return Shown(Alert(EjectNotFoundAlert));
    }
    EjectOutcomeFound(store.UserCards(uid), data, pc.value, compId.value);
    var emptied := Assembly.EjectLeaving(store, uid, pc.value, compId.value);
    a := Ejected(emptied);
  }

  method HandleConfirmSellPc(store: Store, uid: int, data: string) returns (screen: Screen)
    ensures screen == ConfirmSellPcScreen(store.UserCards(uid), data)
  {
    var id := IntField(data, 3);
    if id.None? {
      return Fails;
    }
    var pc := store.GetCard(uid, id.value);
    if pc.None? || pc.value.category != "PC" {
      return Alert(PcNotFoundAlert);
    }
    if |pc.value.components| != 3 {
      return Alert(IncompletePcAlert);
    }
    screen := Menu(ConfirmRows("sell_pc_", "pc_", id.value));
  }

  method HandleSellPc(store: Store, pricing: Utils.Pricing, uid: int, data: string) returns (a: Answer)
    modifies store
    ensures var e := SellPcOutcome(old(store.UserCards(uid)), old(store.UserOf(uid)).coins, pricing, data);
      && a == e.answer && store.cards == CardsAfter(old(store.cards), uid, e)
      && store.users == UsersAfter(old(store.users), uid, old(store.UserOf(uid)), e)
    ensures store.banned == old(store.banned)
  {
    ghost var s, coins := store.UserCards(uid), store.UserOf(uid).coins;
    var id := IntField(data, 2);
    if id.None? {
      return Shown(Fails);
    }
    var pc := store.GetCard(uid, id.value);
    if pc.None? || pc.value.category != "PC" {
      return Shown(Alert(PcNotFoundAlert));
    }
    if |pc.value.components| != 3 {
      return Shown(Alert(IncompletePcAlert));
    }
    a := SellFoundPc(store, pricing, uid, data, id.value, pc.value);
  }

  /** The sale of `sell_pc_` once the PC is found whole. */
  method SellFoundPc(store: Store, pricing: Utils.Pricing, uid: int, data: string, id: int, pc: Card) returns (a: Answer)
    requires IntField(data, 2) == Some(id) && FindCard(store.UserCards(uid), id) == Some(pc)
    requires pc.category == "PC" && |pc.components| == 3
    modifies store
    ensures var e := SellPcOutcome(old(store.UserCards(uid)), old(store.UserOf(uid)).coins, pricing, data);
      && a == e.answer && store.cards == CardsAfter(old(store.cards), uid, e)
      && store.users == UsersAfter(old(store.users), uid, old(store.UserOf(uid)), e)
    ensures store.banned == old(store.banned)
  {
    ghost var s, coins := store.UserCards(uid), store.UserOf(uid).coins;
    assert uid in store.cards;
    ghost var price := Utils.PcSalePrice(pricing, Utils.ComponentTotal(s, pc.components), pc.purchasePrice);
    SellPcOutcomeSold(s, coins, pricing, data, id, pc);
    ghost var users, last := store.users, store.UserOf(uid).lastCardTime;
    var r := Api.SellChecked(store, pricing, uid, pc);
    assert r.value.salePrice == price && r.value.newBalance == coins + price;
    assert store.users == users[uid := UserRecord(coins + price, last)];
    a := Sold(r.value.salePrice, r.value.newBalance);
  }

  /** `button_callback` after its branch is chosen: `get_card` draws with
      the random number `x`; every other branch has the outcome `Outcome`
      gives for the user's cards and coins before the call. */
  method Handle(store: Store, pricing: Utils.Pricing, uid: int, b: Branch, data: string, x: real, now: real)
    returns (a: Answer)
    requires 0.0 <= x < 1.0
    modifies store
    ensures b == OnGetCard ==>
      && a.Drew? && a.gadget in Gadgets.Catalog
      && a.gadget.rarity == Gadgets.ChooseWeighted(Gadgets.RarityWeights, x * 100.0)
      && a.cardId == (now * 1000.0).Floor + |old(store.UserCards(uid))|
      && store.cards == old(store.cards)[uid := old(store.UserCards(uid)) + [Api.DrawnCard(a.gadget, a.cardId, now)]]
      && store.users == old(store.users)[uid := UserRecord(old(store.UserOf(uid)).coins, now)]
    ensures b != OnGetCard ==>
      var e := Outcome(b, old(store.UserCards(uid)), old(store.UserOf(uid)).coins, pricing, data, now);
      && a == e.answer && store.cards == CardsAfter(old(store.cards), uid, e)
      && store.users == UsersAfter(old(store.users), uid, old(store.UserOf(uid)), e)
    ensures store.banned == old(store.banned)
  {
    ghost var s, coins := store.UserCards(uid), store.UserOf(uid).coins;
    if b == OnGetCard {
      a := HandleGetCard(store, uid, x, now);
    } else if Writes(b) {
      assert Outcome(b, s, coins, pricing, data, now) == WriteOutcome(b, s, coins, pricing, data, now);
      a := HandleWrite(store, pricing, uid, b, data, now);
    } else if ShowsData(b) {
      assert Outcome(b, s, coins, pricing, data, now) == Shows(DataScreen(b, s, pricing, data), s);
      var screen := HandleDataScreen(store, pricing, uid, b, data);
      a := Shown(screen);
    } else {
      assert Outcome(b, s, coins, pricing, data, now) == MenuOutcome(b, s, coins);
      a := HandleMenu(store, uid, b);
    }
  }

  /** The branches that may rewrite the collection. */
  method HandleWrite(store: Store, pricing: Utils.Pricing, uid: int, b: Branch, data: string, now: real) returns (a: Answer)
    requires Writes(b)
    modifies store
    ensures var e := WriteOutcome(b, old(store.UserCards(uid)), old(store.UserOf(uid)).coins, pricing, data, now);
      && a == e.answer && store.cards == CardsAfter(old(store.cards), uid, e)
      && store.users == UsersAfter(old(store.users), uid, old(store.UserOf(uid)), e)
    ensures store.banned == old(store.banned)
  {
    match b
    case OnSell =>
      a := HandleSell(store, pricing, uid, data);
    case OnBuildMb =>
      a := HandleBuildMb(store, pricing, uid, data, now);
    case OnEject =>
      a := HandleEject(store, uid, data);
    case OnSellPc =>
      a := HandleSellPc(store, pricing, uid, data);
  }

  /** The branches that read ids from the data; none changes the store. */
  method HandleDataScreen(store: Store, pricing: Utils.Pricing, uid: int, b: Branch, data: string) returns (screen: Screen)
    requires ShowsData(b)
    ensures screen == DataScreen(b, store.UserCards(uid), pricing, data)
  {
    match b
    case OnGadgetType =>
      screen := HandleGadgetType(store, uid, data);
    case OnViewCard =>
      screen := HandleViewCard(store, pricing, uid, data);
    case OnConfirmSell =>
      screen := HandleConfirmSell(store, uid, data);
    case OnBuildGpu =>
      screen := HandleBuildGpu(store, uid, data);
    case OnBuildCpu =>
      screen := HandleBuildCpu(store, uid, data);
    case OnPc =>
      screen := HandlePc(store, pricing, uid, data);
    case OnConfirmSellPc =>
      screen := HandleConfirmSellPc(store, uid, data);
  }

  /** The branches whose data is a fixed word, apart from `get_card`. */
  method HandleMenu(store: Store, uid: int, b: Branch) returns (a: Answer)
    requires b != OnGetCard && !Writes(b) && !ShowsData(b)
    modifies store
    ensures var e := MenuOutcome(b, old(store.UserCards(uid)), old(store.UserOf(uid)).coins);
      && a == e.answer && store.cards == CardsAfter(old(store.cards), uid, e)
      && store.users == UsersAfter(old(store.users), uid, old(store.UserOf(uid)), e)
    ensures store.banned == old(store.banned)
  {
    match b
    case OnViewGadgets =>
      var rows := ShowGadgets(store, uid);
      a := Shown(Menu(rows));
    case OnProfile =>
      a := Shown(Menu(ProfileRows));
    case OnBuildPc =>
      var screen := ShowBuildMenu(store, uid, None, None);
      a := Shown(screen);
    case OnViewPcs =>
      a := PcsListed;
    case OnHelp =>
      a := Shown(Menu(HelpRows));
    case OnBackToStart =>
      var _ := store.GetUser(uid);
      a := Shown(Menu(StartRows));
    case Unhandled =>
      a := Ignored;
  }

  /** `button_callback` as written: the branch is the first test of the
      chain that `data` passes. */
  method ButtonCallback(store: Store, pricing: Utils.Pricing, uid: int, data: string, x: real, now: real)
    returns (a: Answer)
    requires 0.0 <= x < 1.0
    modifies store
    ensures Dispatch(data) != OnGetCard ==>
      var e := Outcome(Dispatch(data), old(store.UserCards(uid)), old(store.UserOf(uid)).coins, pricing, data, now);
      && a == e.answer && store.cards == CardsAfter(old(store.cards), uid, e)
      && store.users == UsersAfter(old(store.users), uid, old(store.UserOf(uid)), e)
    ensures data == "get_card" ==>
      && a.Drew? && a.gadget in Gadgets.Catalog
      && a.gadget.rarity == Gadgets.ChooseWeighted(Gadgets.RarityWeights, x * 100.0)
      && store.cards == old(store.cards)[uid := old(store.UserCards(uid)) + [Api.DrawnCard(a.gadget, a.cardId, now)]]
    ensures store.banned == old(store.banned)
  {
    a := Handle(store, pricing, uid, Dispatch(data), data, x, now);
  }

  /** The handler with the PC confirmation tested first. */
  method ButtonCallbackFixed(store: Store, pricing: Utils.Pricing, uid: int, data: string, x: real, now: real)
    returns (a: Answer)
    requires 0.0 <= x < 1.0
    modifies store
    ensures DispatchFixed(data) != OnGetCard ==>
      var e := Outcome(DispatchFixed(data), old(store.UserCards(uid)), old(store.UserOf(uid)).coins, pricing, data, now);
      && a == e.answer && store.cards == CardsAfter(old(store.cards), uid, e)
      && store.users == UsersAfter(old(store.users), uid, old(store.UserOf(uid)), e)
    ensures store.banned == old(store.banned)
  {
    a := Handle(store, pricing, uid, DispatchFixed(data), data, x, now);
  }
}
