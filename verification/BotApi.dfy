/** The bot's built-in web API (`bot_api.py`): init-data verification with
    its ordered refusals and freshness window, the catalog listing and the
    server-side card draw. */
module BotApi {
  import opened Wrappers
  import opened Strings
  import opened Form
  import opened Database
  import opened Gadgets
  import opened Config

  /** A decoded JSON value. Arrays and non-integral numbers are `Other`. */
  datatype Json =
    | JInt(i: int)
    | JStr(s: string)
    | JBool(b: bool)
    | JNull
    | JObject(fields: Assoc<string, Json>)
    | Other

  /** The library steps: `parseQsl` is `urllib.parse.parse_qsl` with blank
      values kept (`None` when it raises), `sign` the hexadecimal
      HMAC-SHA-256 (RFC 2104) of a data-check string under the secret
      derived from the bot token, `loads` JSON decoding (`None` when it
      raises). */
  datatype Codec = Codec(
    parseQsl: string -> Option<seq<(string, string)>>,
    sign: string -> string,
    loads: string -> Option<Json>)

  /** The default freshness window, one day in seconds. */
  const MaxAgeSeconds: int := 24 * 3600

  /** The verified user: its integer id, and the user object with `id`
      replaced by that integer. */
  datatype VerifiedUser = VerifiedUser(id: int, user: Assoc<string, Json>)

  /** `hmac.compare_digest` accepts only ASCII strings; any other
      character makes it raise. */
  predicate IsAscii(s: string) {
    forall i | 0 <= i < |s| :: s[i] as int < 128
  }

  /** Python's `int(v)` on a JSON value: integers as they are, booleans
      as 0 and 1, strings parsed as decimals; anything else raises. */
  function IntOfJson(v: Json): Option<int> {
    match v
    case JInt(i) => Some(i)
    case JBool(b) => Some(if b then 1 else 0)
    case JStr(s) => ParseInt(s)
    case _ => None
  }

  /** The user object before the id is checked: the decoded `user` value,
      `{"raw": value}` when it does not decode, `{}` when it is missing or
      empty. */
  function UserValue(codec: Codec, data: Dict): Json {
    match Get(data, "user")
    case None => JObject([])
    case Some(raw) =>
      if raw == "" then JObject([])
      else
        match codec.loads(raw)
        case Some(j) => j
        case None => JObject([("raw", JStr(raw))])
  }

  /** `user.get("id")` for an object, falling back to `int(data["user_id"])`;
      a JSON `null` counts as missing. */
  function UserIdValue(user: Json, data: Dict): Option<Json> {
    var fromUser :=
      match user
      case JObject(fields) =>
        (match Get(fields, "id")
         case Some(v) => if v == JNull then None else Some(v)
         case None => None)
      case _ => None;
    if fromUser.Some? then fromUser
    else
      match Get(data, "user_id")
      case None => None
      case Some(raw) =>
        match ParseInt(raw)
        case None => None
        case Some(n) => Some(JInt(n))
  }

  /** The hash checks of `verify_init_data`: the dictionary without its
      `hash` when that hash is present, non-empty and the signature of the
      rest. A non-ASCII hash makes the digest comparison raise. */
  function CheckSigned(codec: Codec, pairs: seq<(string, string)>): (r: Reply<Dict>)
    ensures r.Ok? ==> r.value == Remove(DictOf(pairs), "hash")
    ensures r.HttpError? ==> r.status == 401 || r.status == 500
  {
    var provided := Get(DictOf(pairs), "hash");
    var data := Remove(DictOf(pairs), "hash");
    if provided.None? || provided.value == "" then HttpError(401, "Missing hash in initData")
    else if !IsAscii(provided.value) then HttpError(500, "Internal Server Error")
    else if codec.sign(DataCheckString(data)) != provided.value then HttpError(401, "Invalid initData signature")
    else Ok(data)
  }

  /** The freshness checks: the parsed `auth_date` when it is present,
      an integer, and at most `maxAge` seconds before `now`. */
  function CheckFresh(data: Dict, now: real, maxAge: int): (r: Reply<int>)
    ensures r.Ok? ==> now - r.value as real <= maxAge as real
    ensures r.HttpError? ==> r.status == 401
  {
    match Get(data, "auth_date")
    case None => HttpError(401, "Missing auth_date")
    case Some(text) =>
      if text == "" then HttpError(401, "Missing auth_date")
      else
        match ParseInt(text)
        case None => HttpError(401, "Invalid auth_date")
        case Some(authDate) =>
          if now - authDate as real > maxAge as real then HttpError(401, "initData expired")
          else Ok(authDate)
  }

  /** The user checks: an id from the user object or `user_id`, which
      `int()` accepts and which the object can take as its `id`. */
  function CheckUser(codec: Codec, data: Dict): (r: Reply<VerifiedUser>)
    ensures r.HttpError? ==> r.status == 401
  {
    var user := UserValue(codec, data);
    match UserIdValue(user, data)
    case None => HttpError(401, "initData missing user id")
    case Some(idValue) =>
      match IntOfJson(idValue)
      case None => HttpError(401, "Invalid user id in initData")
      case Some(id) =>
        if !user.JObject? then HttpError(401, "Invalid user id in initData")
        else Ok(VerifiedUser(id, Put(user.fields, "id", JInt(id))))
  }

  /** `verify_init_data` at clock reading `now`: each failure gives its
      own 401, in the order of the checks. */
  function VerifyInitData(codec: Codec, initData: Option<string>, now: real, maxAge: int): (r: Reply<VerifiedUser>)
    ensures initData.None? || initData.value == "" ==> r == HttpError(401, "Missing initData")
    ensures r.HttpError? ==> r.status == 401 || r.status == 500
  {
    if initData.None? || initData.value == "" then HttpError(401, "Missing initData")
    else
      match codec.parseQsl(initData.value)
      case None => HttpError(401, "Invalid initData format")
      case Some(pairs) =>
        match CheckSigned(codec, pairs)
        case HttpError(status, detail) => HttpError(status, detail)
        case Ok(data) =>
          match CheckFresh(data, now, maxAge)
          case HttpError(status, detail) => HttpError(status, detail)
          case Ok(_) => CheckUser(codec, data)
  }

  /** The values the checks read are the last ones given for their keys. */
  lemma CheckedValues(pairs: seq<(string, string)>)
    ensures Get(DictOf(pairs), "hash") == LastValue(pairs, "hash")
    ensures Get(Remove(DictOf(pairs), "hash"), "auth_date") == LastValue(pairs, "auth_date")
  {
    DictOfLastWins(pairs);
    RemoveGet(DictOf(pairs), "hash");
  }

  /** The signature check passes exactly when the last `hash` value is a
      non-empty ASCII string equal to the signature of the other pairs. */
  lemma CheckSignedExact(codec: Codec, pairs: seq<(string, string)>)
    ensures CheckSigned(codec, pairs).Ok? <==>
      && LastValue(pairs, "hash").Some? && LastValue(pairs, "hash").value != "" && IsAscii(LastValue(pairs, "hash").value)
      && codec.sign(DataCheckString(Remove(DictOf(pairs), "hash"))) == LastValue(pairs, "hash").value
    ensures CheckSigned(codec, pairs).Ok? ==> CheckSigned(codec, pairs).value == Remove(DictOf(pairs), "hash")
  {
    CheckedValues(pairs);
  }

  /** The freshness check passes exactly when `auth_date` parses to a time
      no more than `maxAge` seconds before `now`. */
  lemma CheckFreshExact(data: Dict, now: real, maxAge: int)
    ensures CheckFresh(data, now, maxAge).Ok? <==>
      && Get(data, "auth_date").Some?
      && ParseInt(Get(data, "auth_date").value).Some?
      && now - ParseInt(Get(data, "auth_date").value).value as real <= maxAge as real
    ensures CheckFresh(data, now, maxAge).Ok? ==> Some(CheckFresh(data, now, maxAge).value) == ParseInt(Get(data, "auth_date").value)
  {
  }

  /** An accepted user object carries the returned integer as its `id`. */
  lemma CheckUserSetsId(codec: Codec, data: Dict)
    requires CheckUser(codec, data).Ok?
    ensures Get(CheckUser(codec, data).value.user, "id") == Some(JInt(CheckUser(codec, data).value.id))
    ensures IntOfJson(UserIdValue(UserValue(codec, data), data).value) == Some(CheckUser(codec, data).value.id)
  {
    PutGet(UserValue(codec, data).fields, "id", JInt(CheckUser(codec, data).value.id));
  }

  /** What an accepted request proves: a non-empty `hash` equal to the
      signature of every other pair, an `auth_date` no older than the
      window, and a user object whose `id` is the returned integer. */
  lemma VerifyInitDataSound(codec: Codec, initData: string, pairs: seq<(string, string)>, now: real, maxAge: int)
    requires codec.parseQsl(initData) == Some(pairs)
    requires VerifyInitData(codec, Some(initData), now, maxAge).Ok?
    ensures var v := VerifyInitData(codec, Some(initData), now, maxAge).value;
      && LastValue(pairs, "hash").Some? && LastValue(pairs, "hash").value != ""
      && codec.sign(DataCheckString(Remove(DictOf(pairs), "hash"))) == LastValue(pairs, "hash").value
      && LastValue(pairs, "auth_date").Some?
      && ParseInt(LastValue(pairs, "auth_date").value).Some?
      && now - ParseInt(LastValue(pairs, "auth_date").value).value as real <= maxAge as real
      && Get(v.user, "id") == Some(JInt(v.id))
  {
    CheckSignedExact(codec, pairs);
    CheckedValues(pairs);
    var data := Remove(DictOf(pairs), "hash");
    CheckFreshExact(data, now, maxAge);
    CheckUserSetsId(codec, data);
  }

  /** The pairs that are signed never include `hash` and hold each key
      once with its last value. */
  lemma SignedDataExcludesHash(pairs: seq<(string, string)>)
    ensures "hash" !in Keys(Remove(DictOf(pairs), "hash"))
    ensures DistinctKeys(Remove(DictOf(pairs), "hash"))
    ensures forall k | k != "hash" :: Get(Remove(DictOf(pairs), "hash"), k) == LastValue(pairs, k)
  {
    DictOfLastWins(pairs);
    RemoveGet(DictOf(pairs), "hash");
  }

  /** Data accepted at one time is accepted, as the same user, at any
      earlier time: expiry is the only check that depends on the clock. */
  lemma VerifyInitDataEarlier(codec: Codec, initData: Option<string>, now: real, earlier: real, maxAge: int)
    requires earlier <= now
    requires VerifyInitData(codec, initData, now, maxAge).Ok?
    ensures VerifyInitData(codec, initData, earlier, maxAge) == VerifyInitData(codec, initData, now, maxAge)
  {
  }

  /** Once the signature holds, data is refused as expired exactly when
      more than the window has passed since `auth_date`. */
  lemma VerifyInitDataExpiry(codec: Codec, initData: string, pairs: seq<(string, string)>, now: real, maxAge: int, authDate: int)
    requires initData != "" && codec.parseQsl(initData) == Some(pairs)
    requires CheckSigned(codec, pairs).Ok?
    requires LastValue(pairs, "auth_date").Some? && ParseInt(LastValue(pairs, "auth_date").value) == Some(authDate)
    ensures VerifyInitData(codec, Some(initData), now, maxAge) == HttpError(401, "initData expired") <==>
      now - authDate as real > maxAge as real
  {
    var data := Remove(DictOf(pairs), "hash");
    CheckedValues(pairs);
    CheckSignedExact(codec, pairs);
    CheckFreshReadable(data, now, maxAge, authDate);
    CheckUserDetails(codec, data);
    assert VerifyInitData(codec, Some(initData), now, maxAge) ==
      if now - authDate as real > maxAge as real then HttpError(401, "initData expired") else CheckUser(codec, data);
  }

  /** With a readable `auth_date`, the freshness check fails only by
      expiry. */
  lemma CheckFreshReadable(data: Dict, now: real, maxAge: int, authDate: int)
    requires Get(data, "auth_date").Some? && ParseInt(Get(data, "auth_date").value) == Some(authDate)
    ensures CheckFresh(data, now, maxAge) ==
      if now - authDate as real > maxAge as real then HttpError(401, "initData expired") else Ok(authDate)
  {
    assert Get(data, "auth_date").value != "";
  }

  /** The user checks fail only with their own details. */
  lemma CheckUserDetails(codec: Codec, data: Dict)
    ensures CheckUser(codec, data).HttpError? ==>
      CheckUser(codec, data) == HttpError(401, "initData missing user id") ||
      CheckUser(codec, data) == HttpError(401, "Invalid user id in initData")
  {
  }

  /** The fallback `user_id` is used only when the user object gives no
      id, and an object's own non-null id always wins. */
  lemma UserIdPrecedence(fields: Assoc<string, Json>, data: Dict, v: Json)
    requires Get(fields, "id") == Some(v) && v != JNull
    ensures UserIdValue(JObject(fields), data) == Some(v)
  {
  }

  /** A value that is not an object can only pass the id checks through
      `user_id`, and then fails as it cannot take the `id` key. */
  lemma NonObjectUserRefused(codec: Codec, data: Dict)
    requires !UserValue(codec, data).JObject?
    ensures UserIdValue(UserValue(codec, data), data).Some? ==> Get(data, "user_id").Some?
  {
  }

  /** An integer written in decimal under `user_id` is read back as that
      integer. */
  lemma UserIdFallbackRoundTrip(user: Json, data: Dict, n: int)
    requires !user.JObject? && Get(data, "user_id") == Some(IntToDecimal(n))
    ensures UserIdValue(user, data) == Some(JInt(n))
    ensures IntOfJson(UserIdValue(user, data).value) == Some(n)
  {
    ParseIntOfDecimal(n);
  }

  /** `api_get_cards`: the name and rarity of every catalog gadget, in
      catalog order. */
  function CatalogListing(catalog: seq<Gadget>): (r: seq<(string, string)>)
    ensures |r| == |catalog|
    ensures forall i | 0 <= i < |r| :: r[i].0 == catalog[i].name && r[i].1 in RarityOrder
    decreases |catalog|
  {
    if |catalog| == 0 then []
    else [(catalog[0].name, RarityName(catalog[0].rarity))] + CatalogListing(catalog[1..])
  }

  /** Every listed name is that of a catalog gadget, and every catalog
      gadget is listed with its own rarity. */
  lemma {:induction false} CatalogListingExact(catalog: seq<Gadget>)
    ensures forall g | g in catalog :: (g.name, RarityName(g.rarity)) in CatalogListing(catalog)
    ensures forall p | p in CatalogListing(catalog) :: exists g | g in catalog :: p == (g.name, RarityName(g.rarity))
    decreases |catalog|
  {
    if |catalog| > 0 {
      CatalogListingExact(catalog[1..]);
      assert CatalogListing(catalog) == [(catalog[0].name, RarityName(catalog[0].rarity))] + CatalogListing(catalog[1..]);
      forall p | p in CatalogListing(catalog)
        ensures exists g | g in catalog :: p == (g.name, RarityName(g.rarity))
      {
        if p == (catalog[0].name, RarityName(catalog[0].rarity)) {
          assert catalog[0] in catalog;
        } else {
          assert p in CatalogListing(catalog[1..]);
          var g :| g in catalog[1..] && p == (g.name, RarityName(g.rarity));
          assert g in catalog;
        }
      }
    }
  }

  /** Python's `int(x)` on a float: truncation toward zero. */
  function Truncate(x: real): int {
    if x >= 0.0 then x.Floor else -((-x).Floor)
  }

  /** The answer of `api_get_card`. */
  datatype Drawn = Drawn(id: int, name: string, rarity: string)

  /** `api_get_card` for a verified user, with the random draw `x` and the
      clock reading `now`: a catalog gadget is added to the user's cards and
      the user's last draw time is set to the whole seconds of `now`. */
  method ApiGetCard(store: Store, user: VerifiedUser, x: real, now: real) returns (r: Drawn)
    requires 0.0 <= x < 1.0
    modifies store
    ensures exists g | g in Catalog && g.rarity == ChooseWeighted(RarityWeights, x * 100.0) ::
      && r == Drawn((now * 1000.0).Floor + |old(store.UserCards(user.id))|, g.name, RarityName(g.rarity))
      && store.cards == old(store.cards)[user.id := old(store.UserCards(user.id)) + [Card(
           r.id, g.name, CategoryName(g.category), g.price, RarityName(g.rarity), now, None, [], map[])]]
    ensures store.users == old(store.users)[user.id := UserRecord(old(store.UserOf(user.id)).coins, Truncate(now) as real)]
    ensures store.banned == old(store.banned)
  {
    var gadget := DrawFromCatalog(x);
    var cardId := store.AddCard(user.id, gadget.name, CategoryName(gadget.category), gadget.price, RarityName(gadget.rarity), now);
    store.UpdateUser(user.id, None, Some(Truncate(now) as real));
    r := Drawn(cardId, gadget.name, RarityName(gadget.rarity));
  }
}
