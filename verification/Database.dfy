/** The card and user store: per-user records of coins and the time of the
    last draw, per-user ordered card lists, and the banned list. The JSON
    files become the fields of `Store`; each operation changes them the way
    one load-mutate-save round does. */
module Database {
  import opened Wrappers

  /** A user record. */
  datatype UserRecord = UserRecord(coins: int, lastCardTime: real)

  /** The record `get_user` and `update_user` create. */
  const DefaultUser := UserRecord(0, 0.0)

  /** A card in a collection. A PC card lists its parts in `components`
      and has `specs`; a part inside a PC names that PC in `inPc`. */
  datatype Card = Card(
    cardId: int,
    gadgetName: string,
    category: string,
    purchasePrice: int,
    rarity: string,
    obtainedAt: real,
    inPc: Option<int>,
    components: seq<int>,
    specs: map<string, string>)

  /** The keyword arguments the handlers pass to `update_card`. */
  datatype CardPatch =
    | SetInPc(inPc: Option<int>)
    | SetParts(components: seq<int>, specs: map<string, string>)
    | SetComponents(components: seq<int>)

  /** An entry of the banned list. */
  datatype BanRecord = BanRecord(userId: int, username: Option<string>, reason: string, bannedAt: real)

  /** The categories `get_available_pc_parts` sorts parts into. */
  const PartCategories: seq<string> := ["Graphics Card", "Processor", "Motherboard"]

  /** `card.update(kwargs)`. */
  function ApplyPatch(c: Card, p: CardPatch): (d: Card)
    ensures d.cardId == c.cardId && d.gadgetName == c.gadgetName && d.category == c.category
    ensures d.purchasePrice == c.purchasePrice && d.rarity == c.rarity
    ensures p.SetInPc? ==> d.inPc == p.inPc && d.components == c.components && d.specs == c.specs
    ensures p.SetParts? ==> d.inPc == c.inPc && d.components == p.components && d.specs == p.specs
    ensures p.SetComponents? ==> d.inPc == c.inPc && d.components == p.components && d.specs == c.specs
  {
    match p
    case SetInPc(v) => c.(inPc := v)
    case SetParts(cs, sp) => c.(components := cs, specs := sp)
    case SetComponents(cs) => c.(components := cs)
  }

  // ---------------------------------------------------------------------
  // Card lists

  /** Some card of `s` has id `id`. */
  predicate HasId(s: seq<Card>, id: int) {
    exists i | 0 <= i < |s| :: s[i].cardId == id
  }

  /** No two cards of `s` share an id. */
  predicate UniqueIds(s: seq<Card>) {
    forall i, j | 0 <= i < j < |s| :: s[i].cardId != s[j].cardId
  }

  /** Position of the first card with id `id`, -1 when there is none. */
  function FirstIndex(s: seq<Card>, id: int): (k: int)
    ensures -1 <= k < |s|
    ensures k == -1 <==> !HasId(s, id)
    ensures k >= 0 ==> s[k].cardId == id && forall j | 0 <= j < k :: s[j].cardId != id
    decreases |s|
  {
    if |s| == 0 then -1
    else if s[0].cardId == id then 0
    else
      var k := FirstIndex(s[1..], id);
      if k == -1 then -1 else k + 1
  }

  /** The result of `get_card`: the first card with the id. */
  function FindCard(s: seq<Card>, id: int): (c: Option<Card>)
    ensures c.None? <==> !HasId(s, id)
    ensures c.Some? ==> c.value.cardId == id && c.value in s
  {
    var k := FirstIndex(s, id);
    if k == -1 then None else Some(s[k])
  }

  /** The list comprehension of `remove_card`: every card with the id
      dropped, the others kept in order. */
  function RemoveAll(s: seq<Card>, id: int): (t: seq<Card>)
    ensures |t| <= |s|
    ensures forall i | 0 <= i < |t| :: t[i].cardId != id
    decreases |s|
  {
    if |s| == 0 then []
    else (if s[0].cardId == id then [] else [s[0]]) + RemoveAll(s[1..], id)
  }

  /** The list shrinks exactly when a card with the id was present. */
  lemma {:induction false} RemoveAllShrinksIff(s: seq<Card>, id: int)
    ensures |RemoveAll(s, id)| < |s| <==> HasId(s, id)
    ensures !HasId(s, id) ==> RemoveAll(s, id) == s
    decreases |s|
  {
    if |s| > 0 {
      RemoveAllShrinksIff(s[1..], id);
      if HasId(s[1..], id) {
        var i :| 0 <= i < |s[1..]| && s[1..][i].cardId == id;
        assert s[i + 1].cardId == id;
      }
      if HasId(s, id) && s[0].cardId != id {
        var i :| 0 <= i < |s| && s[i].cardId == id;
        assert s[1..][i - 1].cardId == id;
      }
      if !HasId(s, id) {
        assert [s[0]] + s[1..] == s;
      }
    }
  }

  /** Removing distributes over concatenation, so the kept cards stay in
      their order. */
  lemma {:induction false} RemoveAllConcat(a: seq<Card>, b: seq<Card>, id: int)
    ensures RemoveAll(a + b, id) == RemoveAll(a, id) + RemoveAll(b, id)
    decreases |a|
  {
    if |a| == 0 {
      assert a + b == b;
    } else {
      assert (a + b)[1..] == a[1..] + b;
      RemoveAllConcat(a[1..], b, id);
    }
  }

  /** The cards left are exactly the cards of `s` with another id. */
  lemma {:induction false} RemoveAllMembers(s: seq<Card>, id: int)
    ensures forall c :: c in RemoveAll(s, id) <==> c in s && c.cardId != id
    decreases |s|
  {
    if |s| > 0 {
      RemoveAllMembers(s[1..], id);
      assert s == [s[0]] + s[1..];
    }
  }

  /** Removing cards keeps the ids of the others distinct. */
  lemma {:induction false} RemoveAllUnique(s: seq<Card>, id: int)
    requires UniqueIds(s)
    ensures UniqueIds(RemoveAll(s, id))
    decreases |s|
  {
    if |s| > 0 {
      RemoveAllUnique(s[1..], id);
      RemoveAllMembers(s[1..], id);
      var head := if s[0].cardId == id then [] else [s[0]];
      var rest := RemoveAll(s[1..], id);
      var t := head + rest;
      forall i, j | 0 <= i < j < |t|
        ensures t[i].cardId != t[j].cardId
      {
        if i < |head| {
          assert t[j] == rest[j - 1] && rest[j - 1] in s[1..];
          var m :| 0 <= m < |s[1..]| && s[1..][m] == rest[j - 1];
          assert s[m + 1] == t[j];
        } else {
          assert t[i] == rest[i - |head|] && t[j] == rest[j - |head|];
        }
      }
    }
  }

  /** Every card with a different id keeps its number of copies. */
  lemma {:induction false} RemoveAllKeepsOthers(s: seq<Card>, id: int, c: Card)
    requires c.cardId != id
    ensures multiset(RemoveAll(s, id))[c] == multiset(s)[c]
    decreases |s|
  {
    if |s| > 0 {
      RemoveAllKeepsOthers(s[1..], id, c);
      assert s == [s[0]] + s[1..];
    }
  }

  /** `update_card`'s loop: the first card with the id patched, the list
      otherwise unchanged. */
  function UpdateFirst(s: seq<Card>, id: int, p: CardPatch): (t: seq<Card>)
    ensures |t| == |s|
  {
    var k := FirstIndex(s, id);
    if k == -1 then s else s[k := ApplyPatch(s[k], p)]
  }

  /** Patching keeps the length and every id, and changes no card other
      than the first one with the id. */
  lemma UpdateFirstChangesOnlyFirstMatch(s: seq<Card>, id: int, p: CardPatch)
    ensures |UpdateFirst(s, id, p)| == |s|
    ensures forall i | 0 <= i < |s| :: UpdateFirst(s, id, p)[i].cardId == s[i].cardId
    ensures forall i | 0 <= i < |s| && i != FirstIndex(s, id) :: UpdateFirst(s, id, p)[i] == s[i]
    ensures HasId(s, id) ==> UpdateFirst(s, id, p)[FirstIndex(s, id)] == ApplyPatch(s[FirstIndex(s, id)], p)
    ensures !HasId(s, id) ==> UpdateFirst(s, id, p) == s
  {
  }

  /** The cards of `s` of category `cat` that are not inside a PC, in
      order. */
  function FreeOfCategory(s: seq<Card>, cat: string): (t: seq<Card>)
    ensures |t| <= |s|
    decreases |s|
  {
    if |s| == 0 then []
    else
      var last := s[|s| - 1];
      FreeOfCategory(s[..|s| - 1], cat) + (if last.category == cat && last.inPc.None? then [last] else [])
  }

  /** `FreeOfCategory` keeps exactly the free cards of the category. */
  lemma {:induction false} FreeOfCategoryExact(s: seq<Card>, cat: string)
    ensures forall j | 0 <= j < |FreeOfCategory(s, cat)| ::
      FreeOfCategory(s, cat)[j] in s && FreeOfCategory(s, cat)[j].category == cat && FreeOfCategory(s, cat)[j].inPc.None?
    ensures forall i | 0 <= i < |s| && s[i].category == cat && s[i].inPc.None? :: s[i] in FreeOfCategory(s, cat)
    decreases |s|
  {
    if |s| > 0 {
      var u := s[..|s| - 1];
      FreeOfCategoryExact(u, cat);
      var t := FreeOfCategory(s, cat);
      var v := FreeOfCategory(u, cat);
      forall j | 0 <= j < |t|
        ensures t[j] in s && t[j].category == cat && t[j].inPc.None?
      {
        if j < |v| {
          assert t[j] == v[j];
          assert v[j] in u;
        }
      }
      forall i | 0 <= i < |s| && s[i].category == cat && s[i].inPc.None?
        ensures s[i] in t
      {
        if i < |u| {
          assert s[i] == u[i];
          assert u[i] in v;
        }
      }
    }
  }

  lemma FreeOfCategoryStep(s: seq<Card>, i: nat, cat: string)
    requires i < |s|
    ensures FreeOfCategory(s[..i + 1], cat) ==
      FreeOfCategory(s[..i], cat) + (if s[i].category == cat && s[i].inPc.None? then [s[i]] else [])
  {
    assert s[..i + 1][..i] == s[..i];
  }

  /** The part lists of `get_available_pc_parts` as a value: the free
      cards of `s`, each appended to the list of its category when that is
      one of the three. */
  function FreeParts(s: seq<Card>): (parts: map<string, seq<Card>>)
    ensures parts.Keys == {"Graphics Card", "Processor", "Motherboard"}
    decreases |s|
  {
    if |s| == 0 then map["Graphics Card" := [], "Processor" := [], "Motherboard" := []]
    else
      var m, c := FreeParts(s[..|s| - 1]), s[|s| - 1];
      if c.category in m && c.inPc.None? then m[c.category := m[c.category] + [c]] else m
  }

  /** The part lists have the three categories as keys, each holding the
      free cards of its category in order. */
  lemma {:induction false} FreePartsExact(s: seq<Card>)
    ensures FreeParts(s).Keys == {"Graphics Card", "Processor", "Motherboard"}
    ensures forall cat | cat in FreeParts(s) :: FreeParts(s)[cat] == FreeOfCategory(s, cat)
    decreases |s|
  {
    if |s| > 0 {
      var i := |s| - 1;
      assert s[..i + 1] == s;
      FreePartsExact(s[..i]);
      forall cat | cat in FreeParts(s)
        ensures FreeParts(s)[cat] == FreeOfCategory(s, cat)
      {
        FreeOfCategoryStep(s, i, cat);
      }
    }
  }

  /** The cards of `s` that `keep` selects, in order: the list
      comprehensions that filter a collection. */
  function Select(s: seq<Card>, keep: Card -> bool): (t: seq<Card>)
    ensures |t| <= |s|
    decreases |s|
  {
    if |s| == 0 then []
    else (if keep(s[0]) then [s[0]] else []) + Select(s[1..], keep)
  }

  /** `Select` keeps exactly the selected cards ... */
  lemma {:induction false} SelectMembers(s: seq<Card>, keep: Card -> bool)
    ensures forall c :: c in Select(s, keep) <==> c in s && keep(c)
    decreases |s|
  {
    if |s| > 0 {
      SelectMembers(s[1..], keep);
      assert s == [s[0]] + s[1..];
    }
  }

  /** ... and in their order: selecting from a concatenation selects from
      each part. */
  lemma {:induction false} SelectConcat(a: seq<Card>, b: seq<Card>, keep: Card -> bool)
    ensures Select(a + b, keep) == Select(a, keep) + Select(b, keep)
    decreases |a|
  {
    if |a| == 0 {
      assert a + b == b;
    } else {
      var head := if keep(a[0]) then [a[0]] else [];
      assert (a + b)[0] == a[0] && (a + b)[1..] == a[1..] + b;
      SelectConcat(a[1..], b, keep);
      assert Select(a + b, keep) == head + Select(a[1..] + b, keep);
      assert Select(a, keep) == head + Select(a[1..], keep);
    }
  }

  /** The cards of `s` of category `cat`, in order. */
  function OfCategory(s: seq<Card>, cat: string): (t: seq<Card>)
    ensures |t| <= |s|
    decreases |s|
  {
    if |s| == 0 then []
    else (if s[0].category == cat then [s[0]] else []) + OfCategory(s[1..], cat)
  }

  /** `OfCategory` keeps exactly the cards of the category. */
  lemma {:induction false} OfCategoryExact(s: seq<Card>, cat: string)
    ensures forall j | 0 <= j < |OfCategory(s, cat)| :: OfCategory(s, cat)[j] in s && OfCategory(s, cat)[j].category == cat
    ensures forall i | 0 <= i < |s| && s[i].category == cat :: s[i] in OfCategory(s, cat)
    decreases |s|
  {
    if |s| > 0 {
      OfCategoryExact(s[1..], cat);
      var t := OfCategory(s, cat);
      var head := if s[0].category == cat then [s[0]] else [];
      var rest := OfCategory(s[1..], cat);
      forall j | 0 <= j < |t|
        ensures t[j] in s && t[j].category == cat
      {
        if j >= |head| {
          assert t[j] == rest[j - |head|];
          assert rest[j - |head|] in s[1..];
        }
      }
      forall i | 0 <= i < |s| && s[i].category == cat
        ensures s[i] in t
      {
        if i > 0 {
          assert s[i] == s[1..][i - 1];
          assert s[i] in rest;
        }
      }
    }
  }

  /** Some card of `s` is the gadget called `name`. */
  predicate HasGadget(s: seq<Card>, name: string) {
    exists i | 0 <= i < |s| :: s[i].gadgetName == name
  }

  /** The link between PCs and their parts, over one collection: a card
      whose `inPc` names a PC finds in the collection a card with that id
      listing it among its components. */
  predicate Linked(s: seq<Card>) {
    forall i | 0 <= i < |s| && s[i].inPc.Some? :: exists j | 0 <= j < |s| ::
      s[j].cardId == s[i].inPc.value && s[i].cardId in s[j].components
  }

  // ---------------------------------------------------------------------
  // The store

  class Store {
    /** `users.json`: user id to record. */
    var users: map<int, UserRecord>
    /** `cards.json`: user id to that user's cards, in order. */
    var cards: map<int, seq<Card>>
    /** `banned_users.json`. */
    var banned: map<int, BanRecord>

    /** An empty store, as when no file exists yet. */
    constructor()
      ensures users == map[] && cards == map[] && banned == map[]
    {
      users := map[];
      cards := map[];
      banned := map[];
    }

    /** `get_user_cards`: the user's cards, empty when there are none. */
    function UserCards(uid: int): (s: seq<Card>)
      reads this
      ensures uid in cards ==> s == cards[uid]
      ensures uid !in cards ==> s == []
    {
      if uid in cards then cards[uid] else []
    }

    /** The user's record as `get_user` would return it, without creating
        it. */
    function UserOf(uid: int): (u: UserRecord)
      reads this
      ensures uid in users ==> u == users[uid]
      ensures uid !in users ==> u == DefaultUser
    {
      if uid in users then users[uid] else DefaultUser
    }

    /** `get_user`: the record, created with no coins and no draw when
        absent; an existing record is returned unchanged. */
    method GetUser(uid: int) returns (u: UserRecord)
      modifies this
      ensures u == old(UserOf(uid))
      ensures users == old(users)[uid := u]
      ensures uid in old(users) ==> users == old(users)
      ensures cards == old(cards) && banned == old(banned)
    {
      if uid !in users {
        users := users[uid := DefaultUser];
      }
      u := users[uid];
    }

    /** `update_user`: sets the given fields, creating the default record
        first when needed; other users are untouched. */
    method UpdateUser(uid: int, coins: Option<int>, lastCardTime: Option<real>)
      modifies this
      ensures users == old(users)[uid := UserRecord(
        coins.GetOr(old(UserOf(uid)).coins), lastCardTime.GetOr(old(UserOf(uid)).lastCardTime))]
      ensures cards == old(cards) && banned == old(banned)
    {
      if uid !in users {
        users := users[uid := DefaultUser];
      }
      var u := users[uid];
      if coins.Some? {
        u := u.(coins := coins.value);
      }
      if lastCardTime.Some? {
        u := u.(lastCardTime := lastCardTime.value);
      }
      users := users[uid := u];
    }

    /** `add_coins`: stores and returns the old balance plus `amount`. */
    method AddCoins(uid: int, amount: int) returns (newCoins: int)
      modifies this
      ensures newCoins == old(UserOf(uid)).coins + amount
      ensures users == old(users)[uid := old(UserOf(uid)).(coins := newCoins)]
      ensures cards == old(cards) && banned == old(banned)
    {
      var u := GetUser(uid);
      newCoins := u.coins + amount;
      UpdateUser(uid, Some(newCoins), None);
    }

    /** `add_card` at clock reading `now` (seconds): the new card gets id
        `floor(now * 1000)` plus the number of cards the user had, no PC,
        no components and no specs, and goes to the end of the list. */
    method AddCard(uid: int, name: string, category: string, price: int, rarity: string, now: real)
      returns (cardId: int)
      modifies this
      ensures cardId == (now * 1000.0).Floor + |old(UserCards(uid))|
      ensures cards == old(cards)[uid := old(UserCards(uid)) + [Card(cardId, name, category, price, rarity, now, None, [], map[])]]
      ensures users == old(users) && banned == old(banned)
    {
      if uid !in cards {
        cards := cards[uid := []];
      }
      cardId := (now * 1000.0).Floor + |cards[uid]|;
      var card := Card(cardId, name, category, price, rarity, now, None, [], map[]);
      cards := cards[uid := cards[uid] + [card]];
    }

    /** `remove_card`: drops every card with the id and reports whether
        there was one. */
    method RemoveCard(uid: int, cardId: int) returns (removed: bool)
      modifies this
      ensures removed <==> HasId(old(UserCards(uid)), cardId)
      ensures cards == if uid in old(cards) then old(cards)[uid := RemoveAll(old(cards)[uid], cardId)] else old(cards)
      ensures users == old(users) && banned == old(banned)
    {
      if uid !in cards {
        return false;
      }
      var originalLength := |cards[uid]|;
      RemoveAllShrinksIff(cards[uid], cardId);
      cards := cards[uid := RemoveAll(cards[uid], cardId)];
      removed := |cards[uid]| < originalLength;
    }

    /** `get_card`: a search of the user's list for the first card with
        the id. */
    method GetCard(uid: int, cardId: int) returns (c: Option<Card>)
      ensures c == FindCard(UserCards(uid), cardId)
    {
      var s := UserCards(uid);
      var i := 0;
      while i < |s|
        invariant 0 <= i <= |s|
        invariant forall j | 0 <= j < i :: s[j].cardId != cardId
      {
        if s[i].cardId == cardId {
          return Some(s[i]);
        }
        i := i + 1;
      }
      return None;
    }

    /** `update_card`: patches the first card with the id and reports
        whether there was one. */
    method UpdateCard(uid: int, cardId: int, p: CardPatch) returns (found: bool)
      modifies this
      ensures found <==> HasId(old(UserCards(uid)), cardId)
      ensures cards == if found then old(cards)[uid := UpdateFirst(old(cards)[uid], cardId, p)] else old(cards)
      ensures uid in old(cards) ==> cards == old(cards)[uid := UpdateFirst(old(cards)[uid], cardId, p)]
      ensures users == old(users) && banned == old(banned)
    {
      if uid !in cards {
        return false;
      }
      UpdateFirstChangesOnlyFirstMatch(cards[uid], cardId, p);
      var s := cards[uid];
      var i := 0;
      while i < |s|
        invariant 0 <= i <= |s|
        invariant forall j | 0 <= j < i :: s[j].cardId != cardId
      {
        if s[i].cardId == cardId {
          assert FirstIndex(s, cardId) == i;
          cards := cards[uid := s[i := ApplyPatch(s[i], p)]];
          return true;
        }
        i := i + 1;
      }
      return false;
    }

    /** `get_available_pc_parts`: for each part category, the user's free
        cards of that category, in collection order. */
    method GetAvailablePcParts(uid: int) returns (parts: map<string, seq<Card>>)
      ensures parts.Keys == {"Graphics Card", "Processor", "Motherboard"}
      ensures forall cat | cat in parts :: parts[cat] == FreeOfCategory(UserCards(uid), cat)
    {
      var s := UserCards(uid);
      parts := map["Graphics Card" := [], "Processor" := [], "Motherboard" := []];
      var i := 0;
      while i < |s|
        invariant 0 <= i <= |s|
        invariant parts == FreeParts(s[..i])
      {
        assert s[..i + 1][..i] == s[..i];
        var card := s[i];
        if card.category in parts && card.inPc.None? {
          parts := parts[card.category := parts[card.category] + [card]];
        }
        i := i + 1;
      }
      assert s[..i] == s;
      FreePartsExact(s);
    }

    /** `get_built_pcs`: the user's PC cards, in order. */
    function BuiltPcs(uid: int): (pcs: seq<Card>)
      reads this
      ensures forall c | c in pcs :: c in UserCards(uid) && c.category == "PC"
      ensures forall c | c in UserCards(uid) && c.category == "PC" :: c in pcs
    {
      OfCategoryExact(UserCards(uid), "PC");
      OfCategory(UserCards(uid), "PC")
    }

    /** `user_has_gadget`: a search for a card of the gadget. */
    method UserHasGadget(uid: int, name: string) returns (has: bool)
      ensures has <==> HasGadget(UserCards(uid), name)
    {
      var s := UserCards(uid);
      var i := 0;
      while i < |s|
        invariant 0 <= i <= |s|
        invariant forall j | 0 <= j < i :: s[j].gadgetName != name
      {
        if s[i].gadgetName == name {
          return true;
        }
        i := i + 1;
      }
      return false;
    }

    /** `ban_user`: deletes the user's record and cards, and nothing else. */
    method BanUser(uid: int) returns (ok: bool)
      modifies this
      ensures ok
      ensures users == old(users) - {uid} && cards == old(cards) - {uid}
      ensures banned == old(banned)
    {
      if uid in users {
        users := users - {uid};
      }
      if uid in cards {
        cards := cards - {uid};
      }
      ok := true;
    }

    /** `is_user_banned`. */
    predicate IsUserBanned(uid: int)
      reads this
    {
      uid in banned
    }

    /** `add_banned_user` at clock reading `now`: records (or replaces) the
        user's ban entry. */
    method AddBannedUser(uid: int, username: Option<string>, reason: string, now: real)
      modifies this
      ensures banned == old(banned)[uid := BanRecord(uid, username, reason, now)]
      ensures IsUserBanned(uid)
      ensures users == old(users) && cards == old(cards)
    {
      banned := banned[uid := BanRecord(uid, username, reason, now)];
    }
  }
}
