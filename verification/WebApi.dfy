/** The bot's own Mini App server (`bot/api.py`): init-data verification,
    the build, sell and eject variants it implements, and the trade-offer
    book with its accept and reject transitions. */
module WebApi {
  import opened Wrappers
  import opened Strings
  import opened Form
  import opened Database
  import opened Utils
  import opened Assembly
  import Api

  // ---------------------------------------------------------------------
  // Init data

  /** The library steps verification relies on: `parseQsl` is
      `urllib.parse.parse_qsl` (pairs with blank values dropped, `None`
      when it raises); `sign` is the hexadecimal HMAC-SHA-256 (RFC 2104
      over FIPS 180-4) of a data-check string under the key derived from
      the bot token; `loads` is JSON decoding, `None` when it raises. */
  datatype Codec = Codec(
    parseQsl: string -> Option<seq<(string, string)>>,
    sign: string -> string,
    loads: string -> Option<Api.UserJson>)

  /** The parsed dictionary without its `hash` entry. */
  function Signed(pairs: seq<(string, string)>): Dict {
    Remove(DictOf(pairs), "hash")
  }

  /** `verify_telegram_webapp_data`: the decoded `user` value when the last
      `hash` value is the signature of the remaining pairs, sorted by key;
      `None` otherwise. A missing hash is compared as the empty string. */
  function VerifyWebAppData(codec: Codec, initData: string): (u: Option<Api.UserJson>)
    ensures u.Some? ==> codec.parseQsl(initData).Some?
    ensures u.Some? ==> var pairs := codec.parseQsl(initData).value;
      codec.sign(DataCheckString(Signed(pairs))) == Get(DictOf(pairs), "hash").GetOr("")
  {
    match codec.parseQsl(initData)
    case None => None
    case Some(pairs) =>
      var received := Get(DictOf(pairs), "hash").GetOr("");
      var rest := Signed(pairs);
      if codec.sign(DataCheckString(rest)) != received then None
      else
        match Get(rest, "user")
        case None => None
        case Some(user) => codec.loads(user)
  }

  /** The signed string covers every key but `hash`, each once with its
      last value. */
  lemma SignedPairs(pairs: seq<(string, string)>)
    ensures DistinctKeys(Signed(pairs)) && "hash" !in Keys(Signed(pairs))
    ensures forall k | k != "hash" :: Get(Signed(pairs), k) == LastValue(pairs, k)
  {
    DictOfLastWins(pairs);
    RemoveGet(DictOf(pairs), "hash");
  }

  /** Data is accepted exactly when the signature of the other pairs is
      the last `hash` value and the last `user` value decodes. */
  lemma VerifyWebAppDataExact(codec: Codec, initData: string, pairs: seq<(string, string)>)
    requires codec.parseQsl(initData) == Some(pairs)
    ensures VerifyWebAppData(codec, initData).Some? <==>
      && codec.sign(DataCheckString(Signed(pairs))) == LastValue(pairs, "hash").GetOr("")
      && LastValue(pairs, "user").Some?
      && codec.loads(LastValue(pairs, "user").value).Some?
  {
    DictOfLastWins(pairs);
    assert Get(DictOf(pairs), "hash") == LastValue(pairs, "hash");
    RemoveGet(DictOf(pairs), "hash");
    assert Get(Signed(pairs), "user") == Get(DictOf(pairs), "user") == LastValue(pairs, "user");
  }

  /** Since a digest is never empty, data without a hash is refused. */
  lemma VerifyWebAppDataNeedsHash(codec: Codec, initData: string, pairs: seq<(string, string)>)
    requires codec.parseQsl(initData) == Some(pairs)
    requires forall m :: codec.sign(m) != ""
    requires forall i | 0 <= i < |pairs| :: pairs[i].0 != "hash"
    ensures VerifyWebAppData(codec, initData).None?
  {
    DictOfLastWins(pairs);
    assert LastValue(pairs, "hash").None? by {
      LastValueAbsent(pairs, "hash");
    }
  }

  lemma {:induction false} LastValueAbsent<V>(pairs: seq<(string, V)>, k: string)
    requires forall i | 0 <= i < |pairs| :: pairs[i].0 != k
    ensures LastValue(pairs, k).None?
    decreases |pairs|
  {
    if |pairs| > 0 {
      LastValueAbsent(pairs[..|pairs| - 1], k);
    }
  }

  /** `get_user_from_header`: 401 for a missing header, for data that does
      not verify or decodes to a falsy value, and for a falsy `id`; 500
      when the decoded value is truthy but not an object. */
  function GetUserFromHeader(codec: Codec, header: Option<string>): (r: Reply<int>)
    ensures header.None? || header.value == "" ==> r == HttpError(401, "Missing init data")
    ensures r.Ok? ==> r.value != 0 && VerifyWebAppData(codec, header.value).Some?
  {
    if header.None? || header.value == "" then HttpError(401, "Missing init data")
    else IdOf(VerifyWebAppData(codec, header.value))
  }

  /** The trade handlers' inline check: a missing header counts as data
      that does not verify. */
  function TradeUser(codec: Codec, header: Option<string>): Reply<int> {
    IdOf(if header.None? || header.value == "" then None else VerifyWebAppData(codec, header.value))
  }

  /** `if not user_data: 401`, then `user_data.get('id')`. */
  function IdOf(user: Option<Api.UserJson>): (r: Reply<int>)
    ensures r.Ok? ==> r.value != 0 && user.Some? && user.value.UserObject? && user.value.id == Some(r.value)
    ensures r.HttpError? ==> r.status == 401 || r.status == 500
  {
    match user
    case None => HttpError(401, "Invalid init data")
    case Some(u) =>
      if !Api.UserTruthy(u) then HttpError(401, "Invalid init data")
      else
        match u
        case NotAnObject(_) => HttpError(500, "Internal Server Error")
        case UserObject(id, _) =>
          if id.None? || id.value == 0 then HttpError(401, "Invalid user data") else Ok(id.value)
  }

  /** The two checks accept the same users and differ only in the detail
      given for a missing header. */
  lemma TradeUserMatchesHeaderCheck(codec: Codec, header: Option<string>)
    ensures header.Some? && header.value != "" ==> TradeUser(codec, header) == GetUserFromHeader(codec, header)
    ensures header.None? || header.value == "" ==>
      GetUserFromHeader(codec, header) == HttpError(401, "Missing init data") &&
      TradeUser(codec, header) == HttpError(401, "Invalid init data")
    ensures forall uid :: GetUserFromHeader(codec, header) == Ok(uid) <==> TradeUser(codec, header) == Ok(uid)
  {
  }

  /** A user is accepted exactly when the data verifies to an object with
      a non-zero `id`. */
  lemma IdOfAccepts(user: Option<Api.UserJson>, uid: int)
    ensures IdOf(user) == Ok(uid) <==> uid != 0 && exists other :: user == Some(Api.UserObject(Some(uid), other))
  {
    if IdOf(user) == Ok(uid) {
      assert user == Some(Api.UserObject(Some(uid), user.value.otherKeys));
    }
  }

  // ---------------------------------------------------------------------
  // Cards and PCs

  /** `build_pc`: 404 unless all three cards exist, 400 if one is already
      in a PC, then 400 for a wrong GPU, CPU or motherboard category, in
      that order; otherwise the PC is assembled and returned. */
  method BuildPc(store: Store, pricing: Pricing, uid: int, gpuId: int, cpuId: int, mbId: int, now: real)
    returns (r: Reply<Card>)
    modifies store
    ensures var s := old(store.UserCards(uid));
      if !HasId(s, gpuId) || !HasId(s, cpuId) || !HasId(s, mbId) then
        r == HttpError(404, "One or more components not found") && store.cards == old(store.cards)
      else
        var gpu := FindCard(s, gpuId).value;
        var cpu := FindCard(s, cpuId).value;
        var mb := FindCard(s, mbId).value;
        if gpu.inPc.Some? || cpu.inPc.Some? || mb.inPc.Some? then
          r == HttpError(400, "One or more components are already in a PC") && store.cards == old(store.cards)
        else if gpu.category != "Graphics Card" then r == HttpError(400, "Invalid GPU") && store.cards == old(store.cards)
        else if cpu.category != "Processor" then r == HttpError(400, "Invalid CPU") && store.cards == old(store.cards)
        else if mb.category != "Motherboard" then r == HttpError(400, "Invalid Motherboard") && store.cards == old(store.cards)
        else
          var built := Api.BuildOutcome(s, pricing, gpu, cpu, mb, now);
          && store.cards == old(store.cards)[uid := built]
          && r.Ok? && HasId(built, Api.NewPcId(s, now)) && r.value == FindCard(built, Api.NewPcId(s, now)).value
    ensures store.users == old(store.users) && store.banned == old(store.banned)
  {
    var gpu := store.GetCard(uid, gpuId);
    var cpu := store.GetCard(uid, cpuId);
    var mb := store.GetCard(uid, mbId);
    if gpu.None? || cpu.None? || mb.None? {
      return HttpError(404, "One or more components not found");
    }
    if gpu.value.inPc.Some? || cpu.value.inPc.Some? || mb.value.inPc.Some? {
      return HttpError(400, "One or more components are already in a PC");
    }
    if gpu.value.category != "Graphics Card" {
      return HttpError(400, "Invalid GPU");
    }
    if cpu.value.category != "Processor" {
      return HttpError(400, "Invalid CPU");
    }
    if mb.value.category != "Motherboard" {
      return HttpError(400, "Invalid Motherboard");
    }
    r := AssembleChecked(store, pricing, uid, gpu.value, cpu.value, mb.value, now);
  }

  /** The building part of `build_pc`, answering only the PC card. */
  method AssembleChecked(store: Store, pricing: Pricing, uid: int, gpu: Card, cpu: Card, mb: Card, now: real)
    returns (r: Reply<Card>)
    modifies store
    ensures var built := Api.BuildOutcome(old(store.UserCards(uid)), pricing, gpu, cpu, mb, now);
      && store.cards == old(store.cards)[uid := built]
      && r.Ok? && HasId(built, Api.NewPcId(old(store.UserCards(uid)), now))
      && r.value == FindCard(built, Api.NewPcId(old(store.UserCards(uid)), now)).value
    ensures store.users == old(store.users) && store.banned == old(store.banned)
  {
    ghost var s := store.UserCards(uid);
    var pcId := AssemblePc(store, pricing, uid, gpu, cpu, mb, now);
    assert pcId == Api.NewPcId(s, now);
    ghost var built := Api.BuildOutcome(s, pricing, gpu, cpu, mb, now);
    assert store.cards == old(store.cards)[uid := built];
    BuiltHasPc(s, NewPcCard(pricing, gpu, cpu, mb, pcId, now), [gpu.cardId, cpu.cardId, mb.cardId], PartsSpecs(gpu, cpu, mb));
    assert store.UserCards(uid) == built;
    var pc := store.GetCard(uid, pcId);
    r := Ok(pc.value);
  }

  /** `sell_card`: 404 for a missing card, 400 for a card whose `in_pc` is
      set; otherwise the sale price is credited and the card removed. */
  method SellCard(store: Store, pricing: Pricing, uid: int, cardId: int) returns (r: Reply<Api.Sale>)
    modifies store
    ensures var s := old(store.UserCards(uid));
      match FindCard(s, cardId)
      case None => r == HttpError(404, "Card not found") && store.cards == old(store.cards) && store.users == old(store.users)
      case Some(c) =>
        if c.inPc.Some? then
          r == HttpError(400, "Cannot sell card that is in a PC") && store.cards == old(store.cards) && store.users == old(store.users)
        else
          && r == Ok(Api.Sale(pricing.sale(c.purchasePrice), old(store.UserOf(uid)).coins + pricing.sale(c.purchasePrice), c))
          && store.users == old(store.users)[uid := UserRecord(r.value.newBalance, old(store.UserOf(uid)).lastCardTime)]
          && store.cards == old(store.cards)[uid := RemoveAll(s, cardId)]
    ensures store.banned == old(store.banned)
  {
    var card := store.GetCard(uid, cardId);
    if card.None? {
      return HttpError(404, "Card not found");
    }
    var c := card.value;
    if c.inPc.Some? {
      return HttpError(400, "Cannot sell card that is in a PC");
    }
    var salePrice := pricing.sale(c.purchasePrice);
    var newBalance := store.AddCoins(uid, salePrice);
    var _ := store.RemoveCard(uid, cardId);
    r := Ok(Api.Sale(salePrice, newBalance, c));
  }

  /** This guard refuses strictly more than `api.py`'s truthiness test: a
      card inside the PC with id 0 is refused here and sold there. */
  lemma SellGuardsDiffer(c: Card)
    ensures InPcTruthy(c) ==> c.inPc.Some?
    ensures c.inPc == Some(0) ==> !InPcTruthy(c)
  {
  }

  /** `sell_pc`: 404 unless the card exists and is a PC, 400 unless it has
      exactly three components; otherwise the parts and the PC are removed
      and the PC's sale price credited. */
  method SellPc(store: Store, pricing: Pricing, uid: int, pcId: int) returns (r: Reply<Api.Sale>)
    modifies store
    ensures var s := old(store.UserCards(uid));
      if FindCard(s, pcId).None? || FindCard(s, pcId).value.category != "PC" then
        r == HttpError(404, "PC not found") && store.cards == old(store.cards) && store.users == old(store.users)
      else
        var pc := FindCard(s, pcId).value;
        if |pc.components| != 3 then
          r == HttpError(400, "Can only sell complete PCs") && store.cards == old(store.cards) && store.users == old(store.users)
        else
          var price := PcSalePrice(pricing, ComponentTotal(s, pc.components), pc.purchasePrice);
          && r == Ok(Api.Sale(price, old(store.UserOf(uid)).coins + price, pc))
          && store.cards == old(store.cards)[uid := SoldPc(s, pc)]
          && store.users == old(store.users)[uid := UserRecord(old(store.UserOf(uid)).coins + price, old(store.UserOf(uid)).lastCardTime)]
    ensures store.banned == old(store.banned)
  {
    var pc := store.GetCard(uid, pcId);
    if pc.None? || pc.value.category != "PC" {
      return HttpError(404, "PC not found");
    }
    if |pc.value.components| != 3 {
      return HttpError(400, "Can only sell complete PCs");
    }
    r := Api.SellChecked(store, pricing, uid, pc.value);
  }

  /** The answer of `eject_component`. */
  datatype Ejected = Ejected(message: string, pcRemoved: bool)

  /** `eject_component`: 404 unless both cards exist, 400 unless the part
      is listed in the PC; otherwise the part leaves the list and the PC
      is removed when none is left, in which case the part keeps naming
      the removed PC. */
  method EjectComponent(store: Store, uid: int, pcId: int, compId: int) returns (r: Reply<Ejected>)
    modifies store
    ensures var s := old(store.UserCards(uid));
      if !HasId(s, pcId) || !HasId(s, compId) then
        r == HttpError(404, "PC or component not found") && store.cards == old(store.cards)
      else
        var pc := FindCard(s, pcId).value;
        if compId !in pc.components then
          r == HttpError(400, "Component not in this PC") && store.cards == old(store.cards)
        else
          var emptied := |RemoveFirst(pc.components, compId)| == 0;
          && store.cards == old(store.cards)[uid := EjectLeavingPart(s, pc, compId)]
          && r == Ok(if emptied then Ejected("PC disassembled", true) else Ejected("Component ejected", false))
    ensures store.users == old(store.users) && store.banned == old(store.banned)
  {
    var pc := store.GetCard(uid, pcId);
    var comp := store.GetCard(uid, compId);
    if pc.None? || comp.None? {
      return HttpError(404, "PC or component not found");
    }
    var components := pc.value.components;
    if compId !in components {
      return HttpError(400, "Component not in this PC");
    }
    components := RemoveFirst(components, compId);
    if |components| == 0 {
      var _ := store.RemoveCard(uid, pcId);
      return Ok(Ejected("PC disassembled", true));
    }
    components := EjectPart(store, uid, pc.value, compId);
    r := Ok(Ejected("Component ejected", false));
  }

  // ---------------------------------------------------------------------
  // Trade offers

  datatype Status = Pending | Accepted | Rejected

  datatype Offer = Offer(
    offerId: int,
    fromUser: int,
    toUser: int,
    offeredCards: seq<int>,
    requestedCards: seq<int>,
    coins: int,
    status: Status,
    createdAt: real)

  /** The body of a create request. */
  datatype OfferRequest = OfferRequest(toUser: int, offeredCards: seq<int>, requestedCards: seq<int>, coins: int)

  /** `trades.json`: offers by id, in insertion order. */
  class TradeBook {
    var trades: Assoc<int, Offer>

    /** An empty book, as when the file does not exist. */
    constructor()
      ensures trades == []
    {
      trades := [];
    }
  }

  /** The first card of `ids` that is missing from `s` (404) or inside a
      PC (400), with the detail the handlers raise. */
  function CardProblem(s: seq<Card>, ids: seq<int>): (p: Option<(int, string)>)
    ensures p.Some? ==> p.value.0 == 404 || p.value.0 == 400
    decreases |ids|
  {
    if |ids| == 0 then None
    else
      match FindCard(s, ids[0])
      case None => Some((404, "Card " + IntToDecimal(ids[0]) + " not found"))
      case Some(c) =>
        if c.inPc.Some? then Some((400, "Card " + IntToDecimal(ids[0]) + " is in a PC"))
        else CardProblem(s, ids[1..])
  }

  /** No problem is reported exactly when every card is present and
      outside any PC. */
  lemma {:induction false} CardProblemNone(s: seq<Card>, ids: seq<int>)
    ensures CardProblem(s, ids).None? <==>
      forall k | 0 <= k < |ids| :: FindCard(s, ids[k]).Some? && FindCard(s, ids[k]).value.inPc.None?
    decreases |ids|
  {
    if |ids| > 0 {
      CardProblemNone(s, ids[1..]);
      assert forall k | 1 <= k < |ids| :: ids[k] == ids[1..][k - 1];
    }
  }

  /** The validation loop over a list of card ids. */
  method CheckCards(store: Store, uid: int, ids: seq<int>) returns (p: Option<(int, string)>)
    ensures p == CardProblem(store.UserCards(uid), ids)
  {
    var i := 0;
    while i < |ids|
      invariant 0 <= i <= |ids|
      invariant CardProblem(store.UserCards(uid), ids) == CardProblem(store.UserCards(uid), ids[i..])
    {
      assert ids[i..][1..] == ids[i + 1..] && ids[i..][0] == ids[i];
      var card := store.GetCard(uid, ids[i]);
      if card.None? {
        return Some((404, "Card " + IntToDecimal(ids[i]) + " not found"));
      }
      if card.value.inPc.Some? {
        return Some((400, "Card " + IntToDecimal(ids[i]) + " is in a PC"));
      }
      i := i + 1;
    }
    p := None;
  }

  /** What `create_trade_offer` answers an authenticated user with cards
      `s` and balance `balance`. */
  function CreateReply(s: seq<Card>, balance: int, uid: int, req: OfferRequest, now: real): Reply<Offer> {
    match CardProblem(s, req.offeredCards)
    case Some((status, detail)) => HttpError(status, detail)
    case None =>
      if req.coins > 0 && balance < req.coins then HttpError(400, "Insufficient coins")
      else Ok(Offer((now * 1000.0).Floor, uid, req.toUser, req.offeredCards, req.requestedCards, req.coins, Pending, now))
  }

  /** A created offer comes from the caller, is pending, only offers the
      caller's cards that are outside any PC, and only offers coins the
      caller has. */
  lemma CreateReplySound(s: seq<Card>, balance: int, uid: int, req: OfferRequest, now: real)
    ensures var r := CreateReply(s, balance, uid, req, now);
      r.Ok? <==>
        && (forall k | 0 <= k < |req.offeredCards| ::
              FindCard(s, req.offeredCards[k]).Some? && FindCard(s, req.offeredCards[k]).value.inPc.None?)
        && (req.coins > 0 ==> req.coins <= balance)
    ensures var r := CreateReply(s, balance, uid, req, now);
      r.Ok? ==> r.value.status == Pending && r.value.fromUser == uid && r.value.offeredCards == req.offeredCards
  {
    CardProblemNone(s, req.offeredCards);
  }

  /** `create_trade_offer` at clock reading `now`: the offer is stored
      under its millisecond id, replacing any offer with the same id. */
  method CreateTradeOffer(store: Store, book: TradeBook, codec: Codec, header: Option<string>, req: OfferRequest, now: real)
    returns (r: Reply<Offer>)
    modifies store, book
    ensures store.cards == old(store.cards) && store.banned == old(store.banned)
    ensures match TradeUser(codec, header)
      case HttpError(status, detail) =>
        r == HttpError(status, detail) && book.trades == old(book.trades) && store.users == old(store.users)
      case Ok(uid) =>
        && r == CreateReply(old(store.UserCards(uid)), old(store.UserOf(uid)).coins, uid, req, now)
        && book.trades == (if r.Ok? then Put(old(book.trades), r.value.offerId, r.value) else old(book.trades))
        && (store.users == old(store.users) || store.users == old(store.users)[uid := old(store.UserOf(uid))])
  {
    var auth := TradeUser(codec, header);
    if auth.HttpError? {
      return HttpError(auth.status, auth.detail);
    }
    var uid := auth.value;
    var problem := CheckCards(store, uid, req.offeredCards);
    if problem.Some? {
      return HttpError(problem.value.0, problem.value.1);
    }
    if req.coins > 0 {
      var user := store.GetUser(uid);
      if user.coins < req.coins {
        return HttpError(400, "Insufficient coins");
      }
    }
    var offerId := (now * 1000.0).Floor;
    var offer := Offer(offerId, uid, req.toUser, req.offeredCards, req.requestedCards, req.coins, Pending, now);
    book.trades := Put(book.trades, offerId, offer);
    r := Ok(offer);
  }

  /** The checks shared by accept and reject: 404 for an unknown offer,
      403 unless the caller is its recipient, 400 unless it is pending. */
  function RecipientCheck(trades: Assoc<int, Offer>, uid: int, offerId: int, verb: string): Reply<Offer> {
    match Get(trades, offerId)
    case None => HttpError(404, "Trade offer not found")
    case Some(offer) =>
      if offer.toUser != uid then HttpError(403, "Not authorized to " + verb + " this trade")
      else if offer.status != Pending then HttpError(400, "Trade offer already processed")
      else Ok(offer)
  }

  /** Only the recipient of a known pending offer gets past the checks. */
  lemma RecipientCheckExact(trades: Assoc<int, Offer>, uid: int, offerId: int, verb: string)
    ensures RecipientCheck(trades, uid, offerId, verb).Ok? <==>
      Get(trades, offerId).Some? && Get(trades, offerId).value.toUser == uid && Get(trades, offerId).value.status == Pending
    ensures RecipientCheck(trades, uid, offerId, verb).Ok? ==> Some(RecipientCheck(trades, uid, offerId, verb).value) == Get(trades, offerId)
    ensures Get(trades, offerId).None? ==> RecipientCheck(trades, uid, offerId, verb) == HttpError(404, "Trade offer not found")
    ensures Get(trades, offerId).Some? && Get(trades, offerId).value.toUser != uid ==>
      RecipientCheck(trades, uid, offerId, verb).HttpError? && RecipientCheck(trades, uid, offerId, verb).status == 403
  {
  }

  /** The copy `add_card` makes of a traded card: a new id, the time of the
      trade, outside any PC. */
  function Copy(c: Card, cardId: int, now: real): Card {
    Card(cardId, c.gadgetName, c.category, c.purchasePrice, c.rarity, now, None, [], map[])
  }

  function CardsOf(m: map<int, seq<Card>>, uid: int): seq<Card> {
    if uid in m then m[uid] else []
  }

  /** One turn of a transfer loop: the card is looked up at `src`, removed
      there and added to `dst` as a copy; `Some(id)` reports it missing. */
  function MoveOne(m: map<int, seq<Card>>, src: int, dst: int, id: int, now: real): (map<int, seq<Card>>, Option<int>) {
    match FindCard(CardsOf(m, src), id)
    case None => (m, Some(id))
    case Some(c) =>
      var removed := m[src := RemoveAll(CardsOf(m, src), id)];
      var list := CardsOf(removed, dst);
      (removed[dst := list + [Copy(c, (now * 1000.0).Floor + |list|, now)]], None)
  }

  /** A transfer loop over `ids`, stopping at the first missing card. */
  function MoveCards(m: map<int, seq<Card>>, src: int, dst: int, ids: seq<int>, now: real): (r: (map<int, seq<Card>>, Option<int>))
    ensures r.1.Some? ==> r.1.value in ids
    decreases |ids|
  {
    if |ids| == 0 then (m, None)
    else
      var prior := MoveCards(m, src, dst, ids[..|ids| - 1], now);
      if prior.1.Some? then prior else MoveOne(prior.0, src, dst, ids[|ids| - 1], now)
  }

  /** A transfer loop as `accept_trade` runs it. */
  method TransferCards(store: Store, src: int, dst: int, ids: seq<int>, now: real) returns (missing: Option<int>)
    modifies store
    ensures (store.cards, missing) == MoveCards(old(store.cards), src, dst, ids, now)
    ensures store.users == old(store.users) && store.banned == old(store.banned)
  {
    var i := 0;
    while i < |ids|
      invariant 0 <= i <= |ids|
      invariant MoveCards(old(store.cards), src, dst, ids[..i], now) == (store.cards, None)
      invariant store.users == old(store.users) && store.banned == old(store.banned)
    {
      assert ids[..i + 1][..i] == ids[..i];
      var card := store.GetCard(src, ids[i]);
      if card.None? {
        assert MoveCards(old(store.cards), src, dst, ids[..i + 1], now) == (store.cards, Some(ids[i]));
        MoveCardsStops(old(store.cards), src, dst, ids, i + 1, now);
        return Some(ids[i]);
      }
      MoveFound(store, src, dst, card.value, now);
      i := i + 1;
    }
    assert ids[..i] == ids;
    missing := None;
  }

  /** One turn of the loop once the card is found. */
  method MoveFound(store: Store, src: int, dst: int, c: Card, now: real)
    requires FindCard(store.UserCards(src), c.cardId) == Some(c)
    modifies store
    ensures (store.cards, None) == MoveOne(old(store.cards), src, dst, c.cardId, now)
    ensures store.users == old(store.users) && store.banned == old(store.banned)
  {
    ghost var m := store.cards;
    var _ := store.RemoveCard(src, c.cardId);
    ghost var removed := m[src := RemoveAll(CardsOf(m, src), c.cardId)];
    assert store.cards == removed;
    var _ := store.AddCard(dst, c.gadgetName, c.category, c.purchasePrice, c.rarity, now);
  }

  /** Once a transfer loop has stopped, later ids change nothing. */
  lemma {:induction false} MoveCardsStops(m: map<int, seq<Card>>, src: int, dst: int, ids: seq<int>, n: nat, now: real)
    requires n <= |ids|
    requires MoveCards(m, src, dst, ids[..n], now).1.Some?
    ensures MoveCards(m, src, dst, ids, now) == MoveCards(m, src, dst, ids[..n], now)
    decreases |ids| - n
  {
    if n < |ids| {
      assert ids[..n + 1][..n] == ids[..n];
      MoveCardsStops(m, src, dst, ids, n + 1, now);
    } else {
      assert ids[..n] == ids;
    }
  }

  /** The traded attributes of a card. */
  datatype Kind = Kind(name: string, category: string, price: int, rarity: string)

  function KindOf(c: Card): Kind {
    Kind(c.gadgetName, c.category, c.purchasePrice, c.rarity)
  }

  function Kinds(s: seq<Card>): multiset<Kind>
    decreases |s|
  {
    if |s| == 0 then multiset{} else multiset{KindOf(s[0])} + Kinds(s[1..])
  }

  lemma {:induction false} KindsAppend(s: seq<Card>, c: Card)
    ensures Kinds(s + [c]) == Kinds(s) + multiset{KindOf(c)}
    decreases |s|
  {
    if |s| == 0 {
      assert [c][1..] == [];
    } else {
      assert (s + [c])[1..] == s[1..] + [c];
      KindsAppend(s[1..], c);
    }
  }

  lemma {:induction false} RemoveAllAbsent(s: seq<Card>, id: int)
    requires forall i | 0 <= i < |s| :: s[i].cardId != id
    ensures RemoveAll(s, id) == s
    decreases |s|
  {
    if |s| > 0 {
      RemoveAllAbsent(s[1..], id);
    }
  }

  /** With distinct ids, removing a card removes exactly its kind once. */
  lemma {:induction false} RemoveOneKind(s: seq<Card>, c: Card)
    requires UniqueIds(s) && c in s
    ensures Kinds(RemoveAll(s, c.cardId)) + multiset{KindOf(c)} == Kinds(s)
    decreases |s|
  {
    assert Kinds(s) == multiset{KindOf(s[0])} + Kinds(s[1..]);
    if s[0].cardId == c.cardId {
      var j :| 0 <= j < |s| && s[j] == c;
      assert j == 0;
      assert forall i | 0 <= i < |s[1..]| :: s[1..][i] == s[i + 1];
      RemoveAllAbsent(s[1..], c.cardId);
      assert RemoveAll(s, c.cardId) == RemoveAll(s[1..], c.cardId);
    } else {
      assert c in s[1..];
      assert UniqueIds(s[1..]) by {
        assert forall i | 0 <= i < |s[1..]| :: s[1..][i] == s[i + 1];
      }
      RemoveOneKind(s[1..], c);
      assert RemoveAll(s, c.cardId) == [s[0]] + RemoveAll(s[1..], c.cardId);
      assert Kinds([s[0]] + RemoveAll(s[1..], c.cardId)) == multiset{KindOf(s[0])} + Kinds(RemoveAll(s[1..], c.cardId)) by {
        assert ([s[0]] + RemoveAll(s[1..], c.cardId))[1..] == RemoveAll(s[1..], c.cardId);
      }
    }
  }

  /** Every turn of a transfer keeps the kinds the two users hold together,
      and keeps the sender's ids distinct. */
  lemma MoveOneConserves(m: map<int, seq<Card>>, src: int, dst: int, id: int, now: real)
    requires src != dst && UniqueIds(CardsOf(m, src))
    ensures var after := MoveOne(m, src, dst, id, now).0;
      && Kinds(CardsOf(after, src)) + Kinds(CardsOf(after, dst)) == Kinds(CardsOf(m, src)) + Kinds(CardsOf(m, dst))
      && UniqueIds(CardsOf(after, src))
      && forall u | u != src && u != dst :: CardsOf(after, u) == CardsOf(m, u)
  {
    var s := CardsOf(m, src);
    if FindCard(s, id).Some? {
      var c := FindCard(s, id).value;
      var removed := m[src := RemoveAll(s, id)];
      var list := CardsOf(removed, dst);
      var copy := Copy(c, (now * 1000.0).Floor + |list|, now);
      var after := removed[dst := list + [copy]];
      assert MoveOne(m, src, dst, id, now).0 == after;
      assert CardsOf(after, src) == RemoveAll(s, id);
      assert list == CardsOf(m, dst);
      assert CardsOf(after, dst) == list + [copy];
      RemoveOneKind(s, c);
      RemoveAllUnique(s, id);
      KindsAppend(list, copy);
      assert KindOf(copy) == KindOf(c);
    }
  }

  /** The cards a trade moves are neither created nor destroyed: the
      kinds both users hold together are the same after the loop as
      before, even when the loop stops at a missing card. */
  lemma {:induction false} MoveCardsConserves(m: map<int, seq<Card>>, src: int, dst: int, ids: seq<int>, now: real)
    requires src != dst && UniqueIds(CardsOf(m, src))
    ensures var after := MoveCards(m, src, dst, ids, now).0;
      && Kinds(CardsOf(after, src)) + Kinds(CardsOf(after, dst)) == Kinds(CardsOf(m, src)) + Kinds(CardsOf(m, dst))
      && UniqueIds(CardsOf(after, src))
      && forall u | u != src && u != dst :: CardsOf(after, u) == CardsOf(m, u)
    decreases |ids|
  {
    if |ids| > 0 {
      MoveCardsConserves(m, src, dst, ids[..|ids| - 1], now);
      var prior := MoveCards(m, src, dst, ids[..|ids| - 1], now);
      if prior.1.None? {
        MoveOneConserves(prior.0, src, dst, ids[|ids| - 1], now);
      }
    }
  }

  /** `database.transfer_coins(from, to, amount)` is not part of this
      model; it is a parameter acting on the users map. */
  type CoinTransfer = (map<int, UserRecord>, int, int, int) -> map<int, UserRecord>

  /** What `accept_trade` does once the checks have passed, with the
      offered cards moved first and the requested cards second. */
  function Executed(m: map<int, seq<Card>>, offer: Offer, uid: int, now: real): (map<int, seq<Card>>, Reply<()>) {
    var first := MoveCards(m, offer.fromUser, uid, offer.offeredCards, now);
    if first.1.Some? then (first.0, HttpError(404, "Offered card " + IntToDecimal(first.1.value) + " not found"))
    else
      var second := MoveCards(first.0, uid, offer.fromUser, offer.requestedCards, now);
      if second.1.Some? then (second.0, HttpError(500, "Internal Server Error"))
      else (second.0, Ok(()))
  }

  /** `accept_trade`: after the recipient checks and the check of the
      requested cards, the offered cards move to the caller, the requested
      cards to the sender, coins move, and the offer becomes accepted. A
      card missing midway stops the request with the moves made so far
      kept and the offer still pending. */
  method AcceptTrade(store: Store, book: TradeBook, codec: Codec, header: Option<string>, offerId: int, now: real, transfer: CoinTransfer)
    returns (r: Reply<Offer>)
    modifies store, book
    ensures store.banned == old(store.banned)
    ensures match TradeUser(codec, header)
      case HttpError(status, detail) =>
        r == HttpError(status, detail) && book.trades == old(book.trades)
        && store.cards == old(store.cards) && store.users == old(store.users)
      case Ok(uid) =>
        match RecipientCheck(old(book.trades), uid, offerId, "accept")
        case HttpError(status, detail) =>
          r == HttpError(status, detail) && book.trades == old(book.trades)
          && store.cards == old(store.cards) && store.users == old(store.users)
        case Ok(offer) =>
          match CardProblem(old(store.UserCards(uid)), offer.requestedCards)
          case Some((status, detail)) =>
            r == HttpError(status, detail) && book.trades == old(book.trades)
            && store.cards == old(store.cards) && store.users == old(store.users)
          case None =>
            var done := Executed(old(store.cards), offer, uid, now);
            && store.cards == done.0
            && (done.1.HttpError? ==>
                  r == HttpError(done.1.status, done.1.detail) && book.trades == old(book.trades) && store.users == old(store.users))
            && (done.1.Ok? ==>
                  && r == Ok(offer.(status := Accepted))
                  && book.trades == Put(old(book.trades), offerId, offer.(status := Accepted))
                  && store.users == (if offer.coins > 0 then transfer(old(store.users), offer.fromUser, uid, offer.coins) else old(store.users)))
  {
    var auth := TradeUser(codec, header);
    if auth.HttpError? {
      return HttpError(auth.status, auth.detail);
    }
    var uid := auth.value;
    var check := RecipientCheck(book.trades, uid, offerId, "accept");
    if check.HttpError? {
      return HttpError(check.status, check.detail);
    }
    var offer := check.value;
    var problem := CheckCards(store, uid, offer.requestedCards);
    if problem.Some? {
      return HttpError(problem.value.0, problem.value.1);
    }
    var missing := TransferCards(store, offer.fromUser, uid, offer.offeredCards, now);
    if missing.Some? {
      return HttpError(404, "Offered card " + IntToDecimal(missing.value) + " not found");
    }
    missing := TransferCards(store, uid, offer.fromUser, offer.requestedCards, now);
    if missing.Some? {
      return HttpError(500, "Internal Server Error");
    }
    if offer.coins > 0 {
      store.users := transfer(store.users, offer.fromUser, uid, offer.coins);
    }
    var accepted := offer.(status := Accepted);
    book.trades := Put(book.trades, offerId, accepted);
    r := Ok(accepted);
  }

  /** `reject_trade`: after the recipient checks, the offer becomes
      rejected; nothing else changes. */
  method RejectTrade(book: TradeBook, codec: Codec, header: Option<string>, offerId: int) returns (r: Reply<Offer>)
    modifies book
    ensures match TradeUser(codec, header)
      case HttpError(status, detail) => r == HttpError(status, detail) && book.trades == old(book.trades)
      case Ok(uid) =>
        match RecipientCheck(old(book.trades), uid, offerId, "reject")
        case HttpError(status, detail) => r == HttpError(status, detail) && book.trades == old(book.trades)
        case Ok(offer) =>
          && r == Ok(offer.(status := Status.Rejected))
          && book.trades == Put(old(book.trades), offerId, offer.(status := Status.Rejected))
  {
    var auth := TradeUser(codec, header);
    if auth.HttpError? {
      return HttpError(auth.status, auth.detail);
    }
    var check := RecipientCheck(book.trades, auth.value, offerId, "reject");
    if check.HttpError? {
      return HttpError(check.status, check.detail);
    }
    var rejected := check.value.(status := Status.Rejected);
    book.trades := Put(book.trades, offerId, rejected);
    r := Ok(rejected);
  }

  /** Every offer of `after` is the same as in `before`, or was pending
      there and is now accepted or rejected, with nothing else changed. */
  ghost predicate OnlyDecides(before: Assoc<int, Offer>, after: Assoc<int, Offer>) {
    forall k ::
      || Get(after, k) == Get(before, k)
      || (&& Get(before, k).Some? && Get(before, k).value.status == Pending
          && (|| Get(after, k) == Some(Get(before, k).value.(status := Accepted))
              || Get(after, k) == Some(Get(before, k).value.(status := Status.Rejected))))
  }

  /** Accepting or rejecting moves only the decided offer, and only from
      pending to accepted or rejected; a decided offer is never decided
      again, since the check refuses it. */
  lemma DecisionsOnlyLeavePending(trades: Assoc<int, Offer>, uid: int, offerId: int, verb: string, decision: Status)
    requires RecipientCheck(trades, uid, offerId, verb).Ok?
    requires decision != Pending
    ensures OnlyDecides(trades, Put(trades, offerId, RecipientCheck(trades, uid, offerId, verb).value.(status := decision)))
    ensures forall u, v ::
      RecipientCheck(Put(trades, offerId, RecipientCheck(trades, uid, offerId, verb).value.(status := decision)), u, offerId, v) ==
      (if Get(trades, offerId).value.toUser != u then HttpError(403, "Not authorized to " + v + " this trade")
       else HttpError(400, "Trade offer already processed"))
  {
    var offer := RecipientCheck(trades, uid, offerId, verb).value;
    PutGet(trades, offerId, offer.(status := decision));
  }

  /** A newly created offer under a fresh id is pending and leaves every
      other offer as it was. */
  lemma CreateAddsPending(trades: Assoc<int, Offer>, offer: Offer)
    requires Get(trades, offer.offerId).None? && offer.status == Pending
    ensures Get(Put(trades, offer.offerId, offer), offer.offerId) == Some(offer)
    ensures forall k | k != offer.offerId :: Get(Put(trades, offer.offerId, offer), k) == Get(trades, k)
  {
    PutGet(trades, offer.offerId, offer);
  }

  /** Two offers created in the same millisecond share a key, so the
      second replaces the first, whatever state it had reached. */
  lemma SameMillisecondOfferReplaces(trades: Assoc<int, Offer>, first: Offer, second: Offer)
    requires first.offerId == second.offerId && first.status == Accepted && second.status == Pending
    ensures Get(Put(Put(trades, first.offerId, first), second.offerId, second), first.offerId) == Some(second)
    ensures Get(Put(trades, first.offerId, first), first.offerId) == Some(first)
  {
    PutGet(trades, first.offerId, first);
    PutGet(Put(trades, first.offerId, first), second.offerId, second);
  }

  // ---------------------------------------------------------------------
  // Listings

  /** `trades.values()`. */
  function Values(trades: Assoc<int, Offer>): (vs: seq<Offer>)
    ensures |vs| == |trades| && forall i | 0 <= i < |trades| :: vs[i] == trades[i].1
    decreases |trades|
  {
    if |trades| == 0 then [] else [trades[0].1] + Values(trades[1..])
  }

  predicate IsIncoming(o: Offer, uid: int) {
    o.toUser == uid && o.status == Pending
  }

  predicate IsOutgoing(o: Offer, uid: int) {
    !IsIncoming(o, uid) && o.fromUser == uid
  }

  predicate InHistory(o: Offer, uid: int) {
    (o.fromUser == uid || o.toUser == uid) && (o.status == Accepted || o.status == Status.Rejected)
  }

  /** The offers of `vs` that `keep` selects, in order. */
  function Where(vs: seq<Offer>, keep: Offer -> bool): (t: seq<Offer>)
    ensures |t| <= |vs|
    decreases |vs|
  {
    if |vs| == 0 then []
    else Where(vs[..|vs| - 1], keep) + (if keep(vs[|vs| - 1]) then [vs[|vs| - 1]] else [])
  }

  lemma {:induction false} WhereMembers(vs: seq<Offer>, keep: Offer -> bool)
    ensures forall o :: o in Where(vs, keep) <==> o in vs && keep(o)
    decreases |vs|
  {
    if |vs| > 0 {
      WhereMembers(vs[..|vs| - 1], keep);
      assert vs == vs[..|vs| - 1] + [vs[|vs| - 1]];
    }
  }

  function Incoming(vs: seq<Offer>, uid: int): seq<Offer> {
    Where(vs, o => IsIncoming(o, uid))
  }

  function Outgoing(vs: seq<Offer>, uid: int): seq<Offer> {
    Where(vs, o => IsOutgoing(o, uid))
  }

  function History(vs: seq<Offer>, uid: int): seq<Offer> {
    Where(vs, o => InHistory(o, uid))
  }

  /** `get_trade_offers`: incoming holds exactly the pending offers to the
      caller, outgoing exactly the caller's other offers in any state, so
      no offer is in both and a pending offer to oneself is only incoming. */
  lemma OffersPartition(vs: seq<Offer>, uid: int)
    ensures forall o :: o in Incoming(vs, uid) <==> o in vs && o.toUser == uid && o.status == Pending
    ensures forall o :: o in Outgoing(vs, uid) <==> o in vs && o.fromUser == uid && !(o.toUser == uid && o.status == Pending)
    ensures forall o :: !(o in Incoming(vs, uid) && o in Outgoing(vs, uid))
  {
    WhereMembers(vs, o => IsIncoming(o, uid));
    WhereMembers(vs, o => IsOutgoing(o, uid));
  }

  /** `get_trade_history` holds exactly the decided offers the caller sent
      or received. */
  lemma HistoryExact(vs: seq<Offer>, uid: int)
    ensures forall o :: o in History(vs, uid) <==>
      o in vs && (o.fromUser == uid || o.toUser == uid) && o.status != Pending
  {
    WhereMembers(vs, o => InHistory(o, uid));
  }

  /** The loop of `get_trade_offers`. */
  method GetTradeOffers(book: TradeBook, codec: Codec, header: Option<string>)
    returns (r: Reply<(seq<Offer>, seq<Offer>)>)
    ensures match TradeUser(codec, header)
      case HttpError(status, detail) => r == HttpError(status, detail)
      case Ok(uid) => r == Ok((Incoming(Values(book.trades), uid), Outgoing(Values(book.trades), uid)))
  {
    var auth := TradeUser(codec, header);
    if auth.HttpError? {
      return HttpError(auth.status, auth.detail);
    }
    var uid := auth.value;
    var vs := Values(book.trades);
    var incoming := [];
    var outgoing := [];
    var i := 0;
    while i < |vs|
      invariant 0 <= i <= |vs|
      invariant incoming == Incoming(vs[..i], uid) && outgoing == Outgoing(vs[..i], uid)
    {
      assert vs[..i + 1][..i] == vs[..i];
      var trade := vs[i];
      if trade.toUser == uid && trade.status == Pending {
        incoming := incoming + [trade];
      } else if trade.fromUser == uid {
        outgoing := outgoing + [trade];
      }
      i := i + 1;
    }
    assert vs[..i] == vs;
    r := Ok((incoming, outgoing));
  }

  /** The loop of `get_trade_history`. */
  method GetTradeHistory(book: TradeBook, codec: Codec, header: Option<string>) returns (r: Reply<seq<Offer>>)
    ensures match TradeUser(codec, header)
      case HttpError(status, detail) => r == HttpError(status, detail)
      case Ok(uid) => r == Ok(History(Values(book.trades), uid))
  {
    var auth := TradeUser(codec, header);
    if auth.HttpError? {
      return HttpError(auth.status, auth.detail);
    }
    var uid := auth.value;
    var vs := Values(book.trades);
    var history := [];
    var i := 0;
    while i < |vs|
      invariant 0 <= i <= |vs|
      invariant history == History(vs[..i], uid)
    {
      assert vs[..i + 1][..i] == vs[..i];
      var trade := vs[i];
      assert History(vs[..i + 1], uid) == History(vs[..i], uid) + if InHistory(trade, uid) then [trade] else [];
      if trade.fromUser == uid || trade.toUser == uid {
        if trade.status == Accepted || trade.status == Status.Rejected {
          history := history + [trade];
        }
      }
      i := i + 1;
    }
    assert vs[..i] == vs;
    r := Ok(history);
  }
}
