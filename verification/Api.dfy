/** The Mini App backend (`api.py`): authentication of requests by their
    Telegram init data, the collection statistics and views, and the card
    and PC operations over the store. Each handler answers an `Ok` value or
    the HTTP error it raises. */
module Api {
  import opened Wrappers
  import opened Strings
  import opened Config
  import opened Database
  import opened Gadgets
  import opened Utils
  import opened Assembly

  // ---------------------------------------------------------------------
  // Init data

  /** A parsed query string as `parse_qs` returns it: each key with its
      list of values, in order of first appearance. */
  type Query = seq<(string, seq<string>)>

  /** The decoded `user` field: a JSON object, with or without an integer
      `id` and with or without other keys, or some other JSON value of the
      given truthiness. */
  datatype UserJson = UserObject(id: Option<int>, otherKeys: bool) | NotAnObject(truthy: bool)

  /** Python truthiness of the decoded value: an object is truthy when it
      has a key. */
  predicate UserTruthy(u: UserJson) {
    match u
    case UserObject(id, otherKeys) => id.Some? || otherKeys
    case NotAnObject(truthy) => truthy
  }

  /** The library steps validation relies on: `parseQs` is
      `urllib.parse.parse_qs`; `sign` is the hexadecimal HMAC-SHA-256
      (RFC 2104 over FIPS 180-4) of a data-check string under the secret
      key derived from the bot token; `unquote` is percent-decoding;
      `loads` is JSON decoding, `None` when it raises. */
  datatype Codec = Codec(
    parseQs: string -> Query,
    sign: string -> string,
    unquote: string -> string,
    loads: string -> Option<UserJson>)

  /** The values of `key` in `q`, as `parsed[key]` finds them. */
  function Lookup(q: Query, key: string): (v: Option<seq<string>>)
    ensures v.None? <==> forall i | 0 <= i < |q| :: q[i].0 != key
    ensures v.Some? ==> exists i | 0 <= i < |q| :: q[i] == (key, v.value)
    decreases |q|
  {
    if |q| == 0 then None
    else if q[0].0 == key then Some(q[0].1)
    else
      var v := Lookup(q[1..], key);
      assert v.Some? ==> exists i | 0 <= i < |q| :: q[i] == (key, v.value) by {
        if v.Some? {
          var i :| 0 <= i < |q[1..]| && q[1..][i] == (key, v.value);
          assert q[i + 1] == (key, v.value);
        }
      }
      v
  }

  /** The entry `q[i]` contributes a line to the data-check string. */
  predicate Signed(q: Query, i: int)
    requires 0 <= i < |q|
  {
    q[i].0 != "hash" && |q[i].1| > 0
  }

  /** The `key=first value` lines of every key but `hash` that has a value,
      in query order. */
  function CheckPairs(q: Query): (lines: seq<string>)
    ensures |lines| <= |q|
    decreases |q|
  {
    if |q| == 0 then []
    else (if Signed(q, 0) then [q[0].0 + "=" + q[0].1[0]] else []) + CheckPairs(q[1..])
  }

  /** `line` is the line of some signed entry of `q`. */
  predicate LineOf(q: Query, line: string) {
    exists i | 0 <= i < |q| && Signed(q, i) :: line == q[i].0 + "=" + q[i].1[0]
  }

  /** Exactly the signed entries give lines. */
  lemma {:induction false} CheckPairsMembers(q: Query)
    ensures forall i | 0 <= i < |q| && Signed(q, i) :: q[i].0 + "=" + q[i].1[0] in CheckPairs(q)
    ensures forall j | 0 <= j < |CheckPairs(q)| :: LineOf(q, CheckPairs(q)[j])
    decreases |q|
  {
    if |q| > 0 {
      CheckPairsMembers(q[1..]);
      var head := if Signed(q, 0) then [q[0].0 + "=" + q[0].1[0]] else [];
      var rest := CheckPairs(q[1..]);
      assert CheckPairs(q) == head + rest;
      forall i | 0 <= i < |q| && Signed(q, i)
        ensures q[i].0 + "=" + q[i].1[0] in CheckPairs(q)
      {
        if i > 0 {
          assert q[1..][i - 1] == q[i];
          assert Signed(q[1..], i - 1);
        }
      }
      forall j | 0 <= j < |CheckPairs(q)|
        ensures LineOf(q, CheckPairs(q)[j])
      {
        if j < |head| {
          assert Signed(q, 0) && CheckPairs(q)[j] == q[0].0 + "=" + q[0].1[0];
        } else {
          assert LineOf(q[1..], rest[j - |head|]);
          var i :| 0 <= i < |q[1..]| && Signed(q[1..], i) && rest[j - |head|] == q[1..][i].0 + "=" + q[1..][i].1[0];
          assert q[i + 1] == q[1..][i] && Signed(q, i + 1);
          assert CheckPairs(q)[j] == q[i + 1].0 + "=" + q[i + 1].1[0];
        }
      }
    }
  }

  /** The lines sorted and joined with newlines. */
  function DataCheckString(q: Query): string {
    Join(SortStrings(CheckPairs(q)), "\n")
  }

  /** The data-check string joins a sorted arrangement of exactly the
      lines, so it does not depend on the order they were collected in. */
  lemma DataCheckStringCanonical(q: Query, lines: seq<string>)
    requires multiset(lines) == multiset(CheckPairs(q))
    ensures DataCheckString(q) == Join(SortStrings(lines), "\n")
    ensures Sorted(SortStrings(lines)) && multiset(SortStrings(lines)) == multiset(CheckPairs(q))
  {
    SortStringsPermutation(lines, CheckPairs(q));
    SortStringsCorrect(lines);
  }

  /** `validate_init_data`: the decoded user when the query has a hash and
      a user, and the hash is the signature of the data-check string;
      `None` otherwise, including when decoding raises. */
  function ValidateInitData(codec: Codec, initData: string): (u: Option<UserJson>)
    ensures var q := codec.parseQs(initData);
      u.Some? ==>
        && Lookup(q, "hash").Some? && |Lookup(q, "hash").value| > 0
        && Lookup(q, "hash").value[0] == codec.sign(DataCheckString(q))
        && Lookup(q, "user").Some? && |Lookup(q, "user").value| > 0
        && u == codec.loads(codec.unquote(Lookup(q, "user").value[0]))
  {
    var q := codec.parseQs(initData);
    var hash := Lookup(q, "hash");
    var user := Lookup(q, "user");
    if hash.None? || |hash.value| == 0 then None
    else if user.None? || |user.value| == 0 then None
    else if codec.sign(DataCheckString(q)) != hash.value[0] then None
    else codec.loads(codec.unquote(user.value[0]))
  }

  /** Init data is accepted exactly when it carries a hash and a user, the
      first hash value is the signature of the data-check string, and the
      first user value decodes; the result is that decoded user. */
  lemma ValidateAcceptsExactlySigned(codec: Codec, initData: string)
    ensures var q := codec.parseQs(initData);
      ValidateInitData(codec, initData).Some? <==>
        && (exists i | 0 <= i < |q| :: q[i].0 == "hash") && |Lookup(q, "hash").value| > 0
        && (exists i | 0 <= i < |q| :: q[i].0 == "user") && |Lookup(q, "user").value| > 0
        && Lookup(q, "hash").value[0] == codec.sign(DataCheckString(q))
        && codec.loads(codec.unquote(Lookup(q, "user").value[0])).Some?
    ensures var q := codec.parseQs(initData);
      ValidateInitData(codec, initData).Some? ==>
        ValidateInitData(codec, initData) == codec.loads(codec.unquote(Lookup(q, "user").value[0]))
  {
  }

  /** A query without a `hash` or without a `user` key is refused whatever
      it is signed with. */
  lemma ValidateRejectsMissingHashOrUser(codec: Codec, initData: string)
    requires var q := codec.parseQs(initData);
      (forall i | 0 <= i < |q| :: q[i].0 != "hash") || (forall i | 0 <= i < |q| :: q[i].0 != "user")
    ensures ValidateInitData(codec, initData).None?
  {
  }

  /** The request headers authentication reads. */
  datatype Headers = Headers(telegramInitData: Option<string>, authorization: Option<string>)

  /** `X-Telegram-Init-Data` when non-empty, otherwise `Authorization` with
      every `"Bearer "` removed. */
  function InitDataOf(h: Headers): string {
    if h.telegramInitData.Some? && h.telegramInitData.value != "" then h.telegramInitData.value
    else ReplaceAll(h.authorization.GetOr(""), "Bearer ", "")
  }

  /** The custom header wins; a bearer token is read without its prefix. */
  lemma InitDataHeaderPrecedence(h: Headers, token: string)
    requires !Contains(token, "Bearer ")
    ensures h.telegramInitData.Some? && h.telegramInitData.value != "" ==> InitDataOf(h) == h.telegramInitData.value
    ensures InitDataOf(Headers(None, Some("Bearer " + token))) == token
    ensures InitDataOf(Headers(Some(""), Some("Bearer " + token))) == token
    ensures InitDataOf(Headers(None, None)) == ""
  {
    StripLeading("Bearer ", token);
  }

  /** `get_user_from_request`, with `banned` the ids of the banned list:
      no user (`None`) for missing or invalid init data, 403 for a banned
      id, 500 when the user value is truthy but not an object (its `get`
      raises). */
  function GetUserFromRequest(codec: Codec, banned: set<int>, h: Headers): (r: Reply<Option<int>>)
    ensures r.Ok? && r.value.Some? && r.value.value != 0 ==> r.value.value !in banned
    ensures r.Ok? && r.value.Some? ==> InitDataOf(h) != "" && ValidateInitData(codec, InitDataOf(h)).Some?
    ensures r.HttpError? ==> r.status == 403 || r.status == 500
    ensures InitDataOf(h) == "" ==> r == Ok(None)
  {
    var initData := InitDataOf(h);
    if initData == "" then Ok(None)
    else
      match ValidateInitData(codec, initData)
      case None => Ok(None)
      case Some(u) =>
        if !UserTruthy(u) then Ok(None)
        else
          match u
          case NotAnObject(_) => HttpError(500, "Internal Server Error")
          case UserObject(id, _) =>
            if id.Some? && id.value != 0 && id.value in banned then HttpError(403, "User is banned")
            else Ok(id)
  }

  /** The handlers' `if not user_id: 401`. */
  function RequireUser(r: Reply<Option<int>>): Reply<int> {
    match r
    case HttpError(status, detail) => HttpError(status, detail)
    case Ok(id) => if id.None? || id.value == 0 then HttpError(401, "Unauthorized") else Ok(id.value)
  }

  /** A handler runs for user `uid` exactly when the init data validates
      to an object whose `id` is `uid`, `uid` is not 0 and not banned;
      a banned id gets 403 and missing init data 401. */
  lemma AuthenticationOutcome(codec: Codec, banned: set<int>, h: Headers, uid: int)
    ensures RequireUser(GetUserFromRequest(codec, banned, h)) == Ok(uid) <==>
      && InitDataOf(h) != ""
      && (exists other :: ValidateInitData(codec, InitDataOf(h)) == Some(UserObject(Some(uid), other)))
      && uid != 0 && uid !in banned
    ensures InitDataOf(h) == "" ==> RequireUser(GetUserFromRequest(codec, banned, h)) == HttpError(401, "Unauthorized")
    ensures
      (&& InitDataOf(h) != "" && uid != 0 && uid in banned
       && (exists other :: ValidateInitData(codec, InitDataOf(h)) == Some(UserObject(Some(uid), other))))
      ==> RequireUser(GetUserFromRequest(codec, banned, h)) == HttpError(403, "User is banned")
  {
    var r := RequireUser(GetUserFromRequest(codec, banned, h));
    if r == Ok(uid) {
      var u := ValidateInitData(codec, InitDataOf(h)).value;
      assert ValidateInitData(codec, InitDataOf(h)) == Some(UserObject(Some(uid), u.otherKeys));
    }
  }

  // ---------------------------------------------------------------------
  // Profile statistics

  /** The `stats` of `get_user`. */
  datatype UserStats = UserStats(totalCards: int, pcCount: int, totalPrice: int)

  /** `sum(card["purchase_price"] for card in cards)`. */
  function TotalPrice(s: seq<Card>): int
    decreases |s|
  {
    if |s| == 0 then 0 else s[0].purchasePrice + TotalPrice(s[1..])
  }

  function Stats(s: seq<Card>): (st: UserStats)
    ensures st.totalCards == |s| && 0 <= st.pcCount <= st.totalCards
  {
    UserStats(|s|, |OfCategory(s, "PC")|, TotalPrice(s))
  }

  /** The statistics add up over a split of the collection, so a new card
      adds one card, its price, and one PC exactly when it is a PC. */
  lemma {:induction false} StatsConcat(a: seq<Card>, b: seq<Card>)
    ensures Stats(a + b) == UserStats(|a| + |b|, Stats(a).pcCount + Stats(b).pcCount, Stats(a).totalPrice + Stats(b).totalPrice)
    decreases |a|
  {
    if |a| == 0 {
      assert a + b == b;
    } else {
      assert (a + b)[1..] == a[1..] + b;
      assert (a + b)[0] == a[0];
      StatsConcat(a[1..], b);
    }
  }

  lemma StatsAppend(s: seq<Card>, c: Card)
    ensures Stats(s + [c]) == UserStats(|s| + 1, Stats(s).pcCount + (if c.category == "PC" then 1 else 0),
      Stats(s).totalPrice + c.purchasePrice)
  {
    StatsConcat(s, [c]);
    assert [c][1..] == [];
    assert OfCategory([c], "PC") == (if c.category == "PC" then [c] else []) + OfCategory([], "PC");
    assert TotalPrice([c]) == c.purchasePrice + TotalPrice([]);
  }

  /** The PC count never exceeds the card count. */
  lemma StatsBounded(s: seq<Card>)
    ensures 0 <= Stats(s).pcCount <= Stats(s).totalCards
  {
  }

  /** `get_user`: the user's record (created if absent) and statistics. */
  method GetUserInfo(store: Store, uid: int) returns (user: UserRecord, stats: UserStats)
    modifies store
    ensures user == old(store.UserOf(uid)) && stats == Stats(store.UserCards(uid))
    ensures store.users == old(store.users)[uid := user] && store.cards == old(store.cards)
    ensures store.banned == old(store.banned)
  {
    user := store.GetUser(uid);
    var cards := store.UserCards(uid);
    stats := Stats(cards);
  }

  // ---------------------------------------------------------------------
  // Drawing

  /** The answer of `draw_card`. */
  datatype Draw = Draw(card: Option<Card>, gadget: Gadget, user: UserRecord)

  /** The card a draw of gadget `g` at `now` appends. */
  function DrawnCard(g: Gadget, id: int, now: real): Card {
    Card(id, g.name, CategoryName(g.category), g.price, RarityName(g.rarity), now, None, [], map[])
  }

  /** `draw_card` at clock reading `now`, with `x` the random number
      behind the draw: adds a copy of the drawn gadget to the collection
      and records the draw time. There is no cooldown check here. */
  method DrawCard(store: Store, uid: int, x: real, now: real) returns (d: Draw)
    requires 0.0 <= x < 1.0
    modifies store
    ensures d.gadget in Catalog && d.gadget.rarity == ChooseWeighted(RarityWeights, x * 100.0)
    ensures d.card.Some? && d.card.value.cardId == (now * 1000.0).Floor + |old(store.UserCards(uid))|
    ensures store.cards == old(store.cards)[uid := old(store.UserCards(uid)) + [DrawnCard(d.gadget, d.card.value.cardId, now)]]
    ensures d.user == UserRecord(old(store.UserOf(uid)).coins, now) && store.users == old(store.users)[uid := d.user]
    ensures store.banned == old(store.banned)
  {
    ghost var s0, u0 := store.UserCards(uid), store.UserOf(uid);
    var gadget := DrawFromCatalog(x);
    var cardId := store.AddCard(uid, gadget.name, CategoryName(gadget.category), gadget.price, RarityName(gadget.rarity), now);
    ghost var users1 := store.users;
    store.UpdateUser(uid, None, Some(now));
    assert store.users == users1[uid := UserRecord(u0.coins, now)];
    var user := store.GetUser(uid);
    var card := store.GetCard(uid, cardId);
    FirstIndexAppend(s0, DrawnCard(gadget, cardId, now), cardId);
    assert store.UserCards(uid) == s0 + [DrawnCard(gadget, cardId, now)];
    d := Draw(card, gadget, user);
  }

  // ---------------------------------------------------------------------
  // Counting by type

  /** A per-rarity counter in insertion order, as the `rarities` dict. */
  type Counts = seq<(string, int)>

  function CountOf(m: Counts, k: string): int
    decreases |m|
  {
    if |m| == 0 then 0 else if m[0].0 == k then m[0].1 else CountOf(m[1..], k)
  }

  function SumCounts(m: Counts): int
    decreases |m|
  {
    if |m| == 0 then 0 else m[0].1 + SumCounts(m[1..])
  }

  /** `if k not in d: d[k] = 0; d[k] += 1`. */
  function Bump(m: Counts, k: string): Counts
    decreases |m|
  {
    if |m| == 0 then [(k, 1)]
    else if m[0].0 == k then [(k, m[0].1 + 1)] + m[1..]
    else [m[0]] + Bump(m[1..], k)
  }

  /** Bumping adds one to the key's count and to the sum, and nothing to
      any other count. */
  lemma {:induction false} BumpCounts(m: Counts, k: string)
    ensures forall j :: CountOf(Bump(m, k), j) == CountOf(m, j) + (if j == k then 1 else 0)
    ensures SumCounts(Bump(m, k)) == SumCounts(m) + 1
    decreases |m|
  {
    if |m| > 0 && m[0].0 != k {
      BumpCounts(m[1..], k);
    }
  }

  /** One entry of the `types` answer of `get_card_types`. */
  datatype TypeCount = TypeCount(key: string, name: string, total: int, rarities: Counts)

  /** The counters entries for group `g` receive a card of `rarity`: the
      entry is created at the end when missing. */
  function AddToType(ts: seq<TypeCount>, g: TypeGroup, rarity: string): seq<TypeCount>
    decreases |ts|
  {
    if |ts| == 0 then [TypeCount(g.key, g.name, 1, [(rarity, 1)])]
    else if ts[0].key == g.key then [ts[0].(total := ts[0].total + 1, rarities := Bump(ts[0].rarities, rarity))] + ts[1..]
    else [ts[0]] + AddToType(ts[1..], g, rarity)
  }

  /** The body of the counting loop for one card. */
  function TallyCard(ts: seq<TypeCount>, c: Card): seq<TypeCount> {
    if c.inPc.Some? then ts
    else
      match FirstGroupOf(TypeGroups, c.category)
      case None => ts
      case Some(g) => AddToType(ts, TypeGroups[g], c.rarity)
  }

  /** The counters after the loop has seen all of `s`. */
  function TallyAll(s: seq<Card>): seq<TypeCount>
    decreases |s|
  {
    if |s| == 0 then [] else TallyCard(TallyAll(s[..|s| - 1]), s[|s| - 1])
  }

  /** A card counts under `key` when it is not in a PC and the first group
      listing its category has that key. */
  predicate CountedUnder(c: Card, key: string) {
    && c.inPc.None?
    && FirstGroupOf(TypeGroups, c.category).Some?
    && TypeGroups[FirstGroupOf(TypeGroups, c.category).value].key == key
  }

  /** The number of cards of `s` counted under `key`, of rarity `r` when
      `r` is given. */
  function CountUnder(s: seq<Card>, key: string, r: Option<string>): nat
    decreases |s|
  {
    if |s| == 0 then 0
    else
      var c := s[|s| - 1];
      CountUnder(s[..|s| - 1], key, r) + (if CountedUnder(c, key) && (r.None? || c.rarity == r.value) then 1 else 0)
  }

  /** The total of the entry with `key`, 0 when there is none. */
  function TotalOf(ts: seq<TypeCount>, key: string): int
    decreases |ts|
  {
    if |ts| == 0 then 0 else if ts[0].key == key then ts[0].total else TotalOf(ts[1..], key)
  }

  /** The count of rarity `r` in the entry with `key`, 0 when there is none. */
  function RarityOf(ts: seq<TypeCount>, key: string, r: string): int
    decreases |ts|
  {
    if |ts| == 0 then 0 else if ts[0].key == key then CountOf(ts[0].rarities, r) else RarityOf(ts[1..], key, r)
  }

  /** No key appears twice. */
  predicate DistinctKeys(ts: seq<TypeCount>) {
    forall i, j | 0 <= i < j < |ts| :: ts[i].key != ts[j].key
  }

  /** Every entry has a positive total equal to the sum of its rarity
      counts, and no key appears twice. */
  predicate Balanced(ts: seq<TypeCount>) {
    && (forall i | 0 <= i < |ts| :: ts[i].total > 0 && ts[i].total == SumCounts(ts[i].rarities))
    && DistinctKeys(ts)
  }

  /** The entries without the first keep their keys apart. */
  lemma DistinctKeysTail(ts: seq<TypeCount>)
    requires |ts| > 0 && DistinctKeys(ts)
    ensures DistinctKeys(ts[1..])
  {
    forall i, j | 0 <= i < j < |ts[1..]|
      ensures ts[1..][i].key != ts[1..][j].key
    {
      assert ts[1..][i] == ts[i + 1] && ts[1..][j] == ts[j + 1];
    }
  }

  /** Adding a card to group `g` adds no key but `g.key`, and adds that
      one at most once. */
  lemma {:induction false} AddToTypeKeys(ts: seq<TypeCount>, g: TypeGroup, rarity: string)
    requires DistinctKeys(ts)
    ensures DistinctKeys(AddToType(ts, g, rarity))
    ensures forall i | 0 <= i < |AddToType(ts, g, rarity)| ::
      AddToType(ts, g, rarity)[i].key == g.key || exists j | 0 <= j < |ts| :: ts[j].key == AddToType(ts, g, rarity)[i].key
    decreases |ts|
  {
    var t := AddToType(ts, g, rarity);
    if |ts| > 0 && ts[0].key == g.key {
      assert t[1..] == ts[1..];
      forall i, j | 0 <= i < j < |t|
        ensures t[i].key != t[j].key
      {
        assert t[i].key == ts[i].key && t[j].key == ts[j].key;
      }
    } else if |ts| > 0 {
      DistinctKeysTail(ts);
      AddToTypeKeys(ts[1..], g, rarity);
      var rest := AddToType(ts[1..], g, rarity);
      assert t == [ts[0]] + rest;
      forall i | 0 <= i < |t|
        ensures t[i].key == g.key || exists j | 0 <= j < |ts| :: ts[j].key == t[i].key
      {
        if i > 0 && rest[i - 1].key != g.key {
          var j :| 0 <= j < |ts[1..]| && ts[1..][j].key == rest[i - 1].key;
          assert ts[j + 1].key == t[i].key;
        }
      }
      forall i, j | 0 <= i < j < |t|
        ensures t[i].key != t[j].key
      {
        if i == 0 {
          assert t[j] == rest[j - 1];
          if rest[j - 1].key != g.key {
            var m :| 0 <= m < |ts[1..]| && ts[1..][m].key == rest[j - 1].key;
            assert ts[m + 1].key == t[j].key;
          }
        } else {
          assert t[i] == rest[i - 1] && t[j] == rest[j - 1];
        }
      }
    }
  }

  /** Adding a card to group `g` counts it once under `g.key`, in its
      rarity, and keeps the counters balanced. */
  lemma {:induction false} AddToTypeCounts(ts: seq<TypeCount>, g: TypeGroup, rarity: string)
    requires Balanced(ts)
    ensures Balanced(AddToType(ts, g, rarity))
    ensures forall key :: TotalOf(AddToType(ts, g, rarity), key) == TotalOf(ts, key) + (if key == g.key then 1 else 0)
    ensures forall key, r ::
      RarityOf(AddToType(ts, g, rarity), key, r) == RarityOf(ts, key, r) + (if key == g.key && r == rarity then 1 else 0)
    decreases |ts|
  {
    var t := AddToType(ts, g, rarity);
    AddToTypeKeys(ts, g, rarity);
    if |ts| == 0 {
      assert SumCounts([(rarity, 1)]) == 1 + SumCounts([]);
      forall key, r
        ensures RarityOf(t, key, r) == RarityOf(ts, key, r) + (if key == g.key && r == rarity then 1 else 0)
      {
        assert CountOf([(rarity, 1)], r) == if r == rarity then 1 else CountOf([], r);
        assert t[1..] == [];
      }
    } else if ts[0].key == g.key {
      BumpCounts(ts[0].rarities, rarity);
      assert t[1..] == ts[1..];
      forall i | 0 <= i < |t|
        ensures t[i].total > 0 && t[i].total == SumCounts(t[i].rarities)
      {
        if i > 0 {
          assert t[i] == ts[i];
        }
      }
    } else {
      DistinctKeysTail(ts);
      assert Balanced(ts[1..]) by {
        forall i | 0 <= i < |ts[1..]|
          ensures ts[1..][i].total > 0 && ts[1..][i].total == SumCounts(ts[1..][i].rarities)
        {
          assert ts[1..][i] == ts[i + 1];
        }
      }
      AddToTypeCounts(ts[1..], g, rarity);
      var rest := AddToType(ts[1..], g, rarity);
      assert t == [ts[0]] + rest;
      forall i | 0 <= i < |t|
        ensures t[i].total > 0 && t[i].total == SumCounts(t[i].rarities)
      {
        if i > 0 {
          assert t[i] == rest[i - 1];
        }
      }
    }
  }

  /** `get_card_types` counts each card not in a PC once, under the first
      group listing its category, and in its rarity; each entry's total is
      the sum of its rarity counts. */
  lemma {:induction false} TallyAllCounts(s: seq<Card>)
    ensures Balanced(TallyAll(s))
    ensures forall key :: TotalOf(TallyAll(s), key) == CountUnder(s, key, None)
    ensures forall key, r :: RarityOf(TallyAll(s), key, r) == CountUnder(s, key, Some(r))
    decreases |s|
  {
    if |s| > 0 {
      var init := s[..|s| - 1];
      var c := s[|s| - 1];
      TallyAllCounts(init);
      if c.inPc.None? && FirstGroupOf(TypeGroups, c.category).Some? {
        AddToTypeCounts(TallyAll(init), TypeGroups[FirstGroupOf(TypeGroups, c.category).value], c.rarity);
      }
    }
  }

  /** An entry for `key` exists exactly when some card counts under it. */
  lemma {:induction false} TotalPositiveIffPresent(ts: seq<TypeCount>, key: string)
    requires Balanced(ts)
    ensures TotalOf(ts, key) > 0 <==> exists i | 0 <= i < |ts| :: ts[i].key == key
    ensures TotalOf(ts, key) >= 0
    decreases |ts|
  {
    if |ts| > 0 && ts[0].key != key {
      assert Balanced(ts[1..]) by {
        forall i, j | 0 <= i < j < |ts[1..]|
          ensures ts[1..][i].key != ts[1..][j].key
        {
          assert ts[1..][i] == ts[i + 1] && ts[1..][j] == ts[j + 1];
        }
      }
      TotalPositiveIffPresent(ts[1..], key);
      if exists i | 0 <= i < |ts| :: ts[i].key == key {
        var i :| 0 <= i < |ts| && ts[i].key == key;
        assert ts[1..][i - 1].key == key;
      }
    }
  }

  /** The inner loop of `get_card_types`: the first group listing the
      category. */
  method FirstGroupContaining(category: string) returns (g: Option<nat>)
    ensures g == FirstGroupOf(TypeGroups, category)
  {
    var i := 0;
    while i < |TypeGroups|
      invariant 0 <= i <= |TypeGroups|
      invariant forall j | 0 <= j < i :: category !in TypeGroups[j].categories
    {
      if category in TypeGroups[i].categories {
        FirstGroupIsFirst(TypeGroups, category, i);
        return Some(i);
      }
      i := i + 1;
    }
    FirstGroupIsFirst(TypeGroups, category, -1);
    return None;
  }

  /** `FirstGroupOf` is pinned down by its characterization. */
  lemma FirstGroupIsFirst(groups: seq<TypeGroup>, category: string, i: int)
    requires -1 <= i < |groups|
    requires i >= 0 ==> category in groups[i].categories
    requires forall j | 0 <= j < (if i == -1 then |groups| else i) :: category !in groups[j].categories
    ensures FirstGroupOf(groups, category) == if i == -1 then None else Some(i)
  {
  }

  /** `get_card_types`. */
  method GetCardTypes(store: Store, uid: int) returns (types: seq<TypeCount>)
    ensures types == TallyAll(store.UserCards(uid))
  {
    var cards := store.UserCards(uid);
    types := [];
    var i := 0;
    while i < |cards|
      invariant 0 <= i <= |cards|
      invariant types == TallyAll(cards[..i])
    {
      var card := cards[i];
      assert cards[..i + 1][..i] == cards[..i];
      if card.inPc.None? {
        var g := FirstGroupContaining(card.category);
        if g.Some? {
          types := AddToType(types, TypeGroups[g.value], card.rarity);
        }
      }
      i := i + 1;
    }
    assert cards[..i] == cards;
  }

  // ---------------------------------------------------------------------
  // Filtering by type and rarity

  /** `get_cards_by_type_rarity`: 400 for an unknown type; otherwise the
      cards of the type's categories with the rarity and no PC. */
  function CardsByTypeRarity(s: seq<Card>, typeKey: string, rarity: string): (r: Reply<seq<Card>>)
    ensures r.HttpError? <==> typeKey !in TypeKeys(TypeGroups)
    ensures r.HttpError? ==> r == HttpError(400, "Invalid type")
  {
    match GroupByKey(TypeGroups, typeKey)
    case None => HttpError(400, "Invalid type")
    case Some(g) => Ok(Select(s, Wanted(g, rarity)))
  }

  /** The filter of `get_cards_by_type_rarity`. */
  function Wanted(g: TypeGroup, rarity: string): Card -> bool {
    (c: Card) => c.category in g.categories && c.rarity == rarity && c.inPc.None?
  }

  /** The answer holds exactly the matching cards, in collection order. */
  lemma CardsByTypeRarityExact(s: seq<Card>, typeKey: string, rarity: string, c: Card)
    requires typeKey in TypeKeys(TypeGroups)
    ensures c in CardsByTypeRarity(s, typeKey, rarity).value <==>
      c in s && c.category in GroupByKey(TypeGroups, typeKey).value.categories && c.rarity == rarity && c.inPc.None?
  {
    var g := GroupByKey(TypeGroups, typeKey).value;
    SelectMembers(s, Wanted(g, rarity));
  }

  lemma CardsByTypeRarityOrdered(a: seq<Card>, b: seq<Card>, typeKey: string, rarity: string)
    requires typeKey in TypeKeys(TypeGroups)
    ensures CardsByTypeRarity(a + b, typeKey, rarity).value ==
      CardsByTypeRarity(a, typeKey, rarity).value + CardsByTypeRarity(b, typeKey, rarity).value
  {
    var g := GroupByKey(TypeGroups, typeKey).value;
    SelectConcat(a, b, Wanted(g, rarity));
  }

  // ---------------------------------------------------------------------
  // Selling a card

  /** The answer of the sale handlers. */
  datatype Sale = Sale(salePrice: int, newBalance: int, card: Card)

  /** `sell_card`: 404 for a missing card, 400 for a card with a truthy
      `in_pc`; otherwise the sale price is credited and the card removed. */
  method SellCard(store: Store, pricing: Pricing, uid: int, cardId: int) returns (r: Reply<Sale>)
    modifies store
    ensures var s := old(store.UserCards(uid));
      match FindCard(s, cardId)
      case None => r == HttpError(404, "Card not found") && store.cards == old(store.cards) && store.users == old(store.users)
      case Some(c) =>
        if InPcTruthy(c) then
          r == HttpError(400, "Cannot sell card that is in a PC") && store.cards == old(store.cards) && store.users == old(store.users)
        else
          && r == Ok(Sale(pricing.sale(c.purchasePrice), old(store.UserOf(uid)).coins + pricing.sale(c.purchasePrice), c))
          && store.users == old(store.users)[uid := UserRecord(r.value.newBalance, old(store.UserOf(uid)).lastCardTime)]
          && store.cards == old(store.cards)[uid := RemoveAll(s, cardId)]
    ensures store.banned == old(store.banned)
  {
    var card := store.GetCard(uid, cardId);
    if card.None? {
      return HttpError(404, "Card not found");
    }
    var c := card.value;
    if InPcTruthy(c) {
      return HttpError(400, "Cannot sell card that is in a PC");
    }
    var salePrice := pricing.sale(c.purchasePrice);
    var newBalance := store.AddCoins(uid, salePrice);
    var _ := store.RemoveCard(uid, cardId);
    r := Ok(Sale(salePrice, newBalance, c));
  }

  /** Selling a card that is not a PC with parts keeps the collection
      linked. */
  lemma SellPlainCardKeepsLinked(s: seq<Card>, c: Card)
    requires Linked(s) && UniqueIds(s) && FindCard(s, c.cardId) == Some(c) && c.components == []
    ensures Linked(RemoveAll(s, c.cardId))
  {
    var k := FirstIndex(s, c.cardId);
    assert forall j | 0 <= j < |s| && s[j].cardId == c.cardId :: j == k;
    assert forall j | 0 <= j < |s| && s[j].cardId == c.cardId :: s[j].components == [];
    RemoveIdsKeepsLinked(s, [c.cardId]);
    assert RemoveIds(s, [c.cardId]) == RemoveAll(RemoveIds(s, []), c.cardId);
  }

  /** `sell_card` accepts a PC card, since a PC is never inside another
      PC, and its parts are then left naming a PC that is gone. */
  lemma SellCardOfPcStrandsParts()
    ensures var pc := Card(1, "Custom Gaming PC (X)", "PC", 0, "Common", 0.0, None, [2], map[]);
      var part := Card(2, "X", "Graphics Card", 0, "Common", 0.0, Some(1), [], map[]);
      && Linked([pc, part]) && !InPcTruthy(pc)
      && RemoveAll([pc, part], 1) == [part] && !Linked([part])
  {
    var pc := Card(1, "Custom Gaming PC (X)", "PC", 0, "Common", 0.0, None, [2], map[]);
    var part := Card(2, "X", "Graphics Card", 0, "Common", 0.0, Some(1), [], map[]);
    var s := [pc, part];
    assert s[0].cardId == s[1].inPc.value && s[1].cardId in s[0].components;
    assert RemoveAll(s, 1) == [part] by {
      assert s[1..] == [part];
      assert RemoveAll([part], 1) == [part] + RemoveAll([], 1);
    }
  }

  // ---------------------------------------------------------------------
  // PCs

  /** A PC with the cards of its components that `get_card` finds. */
  datatype PcView = PcView(pc: Card, componentDetails: seq<Card>)

  /** The cards of `ids` found in `s`, in order; missing ones skipped. */
  function FoundCards(s: seq<Card>, ids: seq<int>): (found: seq<Card>)
    ensures |found| <= |ids|
    decreases |ids|
  {
    if |ids| == 0 then []
    else
      var last := match FindCard(s, ids[|ids| - 1]) case Some(c) => [c] case None => [];
      FoundCards(s, ids[..|ids| - 1]) + last
  }

  /** One more id adds its card, when found, at the end. */
  lemma FoundCardsStep(s: seq<Card>, ids: seq<int>, i: nat)
    requires i < |ids|
    ensures FoundCards(s, ids[..i + 1]) == FoundCards(s, ids[..i]) + (if FindCard(s, ids[i]).Some? then [FindCard(s, ids[i]).value] else [])
  {
    assert ids[..i + 1][..i] == ids[..i];
  }

  /** The loop collecting component details. */
  method ComponentDetails(store: Store, uid: int, ids: seq<int>) returns (found: seq<Card>)
    ensures found == FoundCards(store.UserCards(uid), ids)
  {
    ghost var s := store.UserCards(uid);
    found := [];
    var i := 0;
    while i < |ids|
      invariant 0 <= i <= |ids|
      invariant found == FoundCards(s, ids[..i])
    {
      FoundCardsStep(s, ids, i);
      var c := store.GetCard(uid, ids[i]);
      if c.Some? {
        found := found + [c.value];
      }
      i := i + 1;
    }
    assert ids[..i] == ids;
  }

  /** `build_pc`: 404 unless all three parts exist, 400 if one has a truthy
      `in_pc`; otherwise the PC is assembled and returned with its parts. */
  method BuildPc(store: Store, pricing: Pricing, uid: int, gpuId: int, cpuId: int, mbId: int, now: real)
    returns (r: Reply<PcView>)
    modifies store
    ensures var s := old(store.UserCards(uid));
      if !HasId(s, gpuId) || !HasId(s, cpuId) || !HasId(s, mbId) then
        r == HttpError(404, "One or more components not found") && store.cards == old(store.cards)
      else
        var gpu := FindCard(s, gpuId).value;
        var cpu := FindCard(s, cpuId).value;
        var mb := FindCard(s, mbId).value;
        if InPcTruthy(gpu) || InPcTruthy(cpu) || InPcTruthy(mb) then
          r == HttpError(400, "One or more components are already in a PC") && store.cards == old(store.cards)
        else
          var built := BuildOutcome(s, pricing, gpu, cpu, mb, now);
          && store.cards == old(store.cards)[uid := built]
          && r.Ok? && HasId(built, NewPcId(s, now)) && r.value.pc == FindCard(built, NewPcId(s, now)).value
          && r.value.componentDetails == FoundCards(built, r.value.pc.components)
    ensures store.users == old(store.users) && store.banned == old(store.banned)
  {
    var gpu := store.GetCard(uid, gpuId);
    var cpu := store.GetCard(uid, cpuId);
    var mb := store.GetCard(uid, mbId);
    if gpu.None? || cpu.None? || mb.None? {
      return HttpError(404, "One or more components not found");
    }
    if InPcTruthy(gpu.value) || InPcTruthy(cpu.value) || InPcTruthy(mb.value) {
      return HttpError(400, "One or more components are already in a PC");
    }
    r := AssembleChecked(store, pricing, uid, gpu.value, cpu.value, mb.value, now);
  }

  /** The id `add_card` gives a PC built at `now` onto `s`. */
  function NewPcId(s: seq<Card>, now: real): int {
    (now * 1000.0).Floor + |s|
  }

  /** The collection after `build_pc` assembles the three parts. */
  function BuildOutcome(s: seq<Card>, pricing: Pricing, gpu: Card, cpu: Card, mb: Card, now: real): seq<Card> {
    Built(s, NewPcCard(pricing, gpu, cpu, mb, NewPcId(s, now), now), [gpu.cardId, cpu.cardId, mb.cardId], PartsSpecs(gpu, cpu, mb))
  }

  /** The building part of `build_pc`, once the parts are found. */
  method AssembleChecked(store: Store, pricing: Pricing, uid: int, gpu: Card, cpu: Card, mb: Card, now: real)
    returns (r: Reply<PcView>)
    modifies store
    ensures var built := BuildOutcome(old(store.UserCards(uid)), pricing, gpu, cpu, mb, now);
      && store.cards == old(store.cards)[uid := built]
      && r.Ok? && HasId(built, NewPcId(old(store.UserCards(uid)), now))
      && r.value.pc == FindCard(built, NewPcId(old(store.UserCards(uid)), now)).value
      && r.value.componentDetails == FoundCards(built, r.value.pc.components)
    ensures store.users == old(store.users) && store.banned == old(store.banned)
  {
    ghost var s := store.UserCards(uid);
    var pcId := AssemblePc(store, pricing, uid, gpu, cpu, mb, now);
    assert pcId == NewPcId(s, now);
    ghost var built := BuildOutcome(s, pricing, gpu, cpu, mb, now);
    assert store.cards == old(store.cards)[uid := built];
    BuiltHasPc(s, NewPcCard(pricing, gpu, cpu, mb, pcId, now), [gpu.cardId, cpu.cardId, mb.cardId], PartsSpecs(gpu, cpu, mb));
    assert store.UserCards(uid) == built;
    var pc := store.GetCard(uid, pcId);
    var details := ComponentDetails(store, uid, pc.value.components);
    r := Ok(PcView(pc.value, details));
  }

  /** With a fresh PC id, the PC `build_pc` answers lists the three parts
      and carries the generated specs, each part now names it, and a
      linked collection stays linked. */
  lemma BuildPcOutcome(s: seq<Card>, pricing: Pricing, gpu: Card, cpu: Card, mb: Card, now: real)
    requires FindCard(s, gpu.cardId) == Some(gpu) && FindCard(s, cpu.cardId) == Some(cpu) && FindCard(s, mb.cardId) == Some(mb)
    requires !HasId(s, NewPcId(s, now))
    ensures var built := BuildOutcome(s, pricing, gpu, cpu, mb, now);
      var pcId := NewPcId(s, now);
      && FindCard(built, pcId).Some?
      && FindCard(built, pcId).value.components == [gpu.cardId, cpu.cardId, mb.cardId]
      && FindCard(built, pcId).value.specs == PartsSpecs(gpu, cpu, mb)
      && FindCard(built, gpu.cardId).Some? && FindCard(built, gpu.cardId).value.inPc == Some(pcId)
      && FindCard(built, cpu.cardId).Some? && FindCard(built, cpu.cardId).value.inPc == Some(pcId)
      && FindCard(built, mb.cardId).Some? && FindCard(built, mb.cardId).value.inPc == Some(pcId)
      && (Linked(s) ==> Linked(built))
      && (UniqueIds(s) ==> UniqueIds(built))
  {
    var ids := [gpu.cardId, cpu.cardId, mb.cardId];
    var pc := NewPcCard(pricing, gpu, cpu, mb, NewPcId(s, now), now);
    assert forall k | 0 <= k < |ids| :: HasId(s, ids[k]);
    BuildFindsPcAndParts(s, pc, ids, PartsSpecs(gpu, cpu, mb));
    BuildKeepsLinked(s, pc, ids, PartsSpecs(gpu, cpu, mb));
    assert ids[0] == gpu.cardId && ids[1] == cpu.cardId && ids[2] == mb.cardId;
  }

  /** The answer of `eject_component`. */
  datatype Ejection = Ejection(component: Card, pcRemoved: bool, remainingComponents: seq<int>)

  /** `eject_component`: 404 unless both cards exist, 400 unless the part
      is listed in the PC; otherwise the part leaves the list, the PC is
      removed when none is left, and the part's `in_pc` is cleared. */
  method EjectComponent(store: Store, uid: int, pcId: int, compId: int) returns (r: Reply<Ejection>)
    modifies store
    ensures var s := old(store.UserCards(uid));
      if !HasId(s, pcId) || !HasId(s, compId) then
        r == HttpError(404, "Card not found") && store.cards == old(store.cards)
      else
        var pc := FindCard(s, pcId).value;
        if compId !in pc.components then
          r == HttpError(400, "Component not in this PC") && store.cards == old(store.cards)
        else
          var rest := RemoveFirst(pc.components, compId);
          && store.cards == old(store.cards)[uid := EjectClearing(s, pc, compId)]
          && r == Ok(Ejection(FindCard(s, compId).value, |rest| == 0, rest))
    ensures store.users == old(store.users) && store.banned == old(store.banned)
  {
    var pc := store.GetCard(uid, pcId);
    var comp := store.GetCard(uid, compId);
    if pc.None? || comp.None? {
      return HttpError(404, "Card not found");
    }
    var components := pc.value.components;
    if compId !in components {
      return HttpError(400, "Component not in this PC");
    }
    components := EjectPart(store, uid, pc.value, compId);
    r := Ok(Ejection(comp.value, |components| == 0, components));
  }

  /** `sell_pc`: 404 unless the card exists and is a PC, 400 unless it has
      exactly three components; otherwise the parts and the PC are removed
      and the PC's sale price credited. */
  method SellPc(store: Store, pricing: Pricing, uid: int, pcId: int) returns (r: Reply<Sale>)
    modifies store
    ensures var s := old(store.UserCards(uid));
      if FindCard(s, pcId).None? || FindCard(s, pcId).value.category != "PC" then
        r == HttpError(404, "PC not found") && store.cards == old(store.cards) && store.users == old(store.users)
      else
        var pc := FindCard(s, pcId).value;
        if |pc.components| != 3 then
          r == HttpError(400, "Cannot sell incomplete PC") && store.cards == old(store.cards) && store.users == old(store.users)
        else
          var price := PcSalePrice(pricing, ComponentTotal(s, pc.components), pc.purchasePrice);
          && r == Ok(Sale(price, old(store.UserOf(uid)).coins + price, pc))
          && store.cards == old(store.cards)[uid := SoldPc(s, pc)]
          && store.users == old(store.users)[uid := UserRecord(old(store.UserOf(uid)).coins + price, old(store.UserOf(uid)).lastCardTime)]
    ensures store.banned == old(store.banned)
  {
    var pc := store.GetCard(uid, pcId);
    if pc.None? || pc.value.category != "PC" {
      return HttpError(404, "PC not found");
    }
    var components := pc.value.components;
    if |components| != 3 {
      return HttpError(400, "Cannot sell incomplete PC");
    }
    r := SellChecked(store, pricing, uid, pc.value);
  }

  /** The selling part of `sell_pc`, once the PC is found and complete. */
  method SellChecked(store: Store, pricing: Pricing, uid: int, pc: Card) returns (r: Reply<Sale>)
    modifies store
    ensures var s := old(store.UserCards(uid));
      var price := PcSalePrice(pricing, ComponentTotal(s, pc.components), pc.purchasePrice);
      && r == Ok(Sale(price, old(store.UserOf(uid)).coins + price, pc))
      && store.cards == (if uid in old(store.cards) then old(store.cards)[uid := SoldPc(s, pc)] else old(store.cards))
      && store.users == old(store.users)[uid := UserRecord(old(store.UserOf(uid)).coins + price, old(store.UserOf(uid)).lastCardTime)]
    ensures store.banned == old(store.banned)
  {
    ghost var s := store.UserCards(uid);
    var salePrice := CalculatePcSalePrice(store, pricing, uid, pc);
    RemoveCards(store, uid, pc.components);
    var newBalance := store.AddCoins(uid, salePrice);
    var _ := store.RemoveCard(uid, pc.cardId);
    assert (pc.components + [pc.cardId])[..|pc.components|] == pc.components;
    r := Ok(Sale(salePrice, newBalance, pc));
  }
}
