/** The changes to a collection that building, ejecting and selling PCs
    make, shared by the backend, the web API and the bot: which cards each
    one patches or drops, and what becomes of the link between a PC and
    its parts (`Database.Linked`). */
module Assembly {
  import opened Wrappers
  import opened Database
  import opened Utils
  import PcGenerator

  /** Python truthiness of `card.get("in_pc")`: present and not zero. */
  predicate InPcTruthy(c: Card) {
    c.inPc.Some? && c.inPc.value != 0
  }

  // ---------------------------------------------------------------------
  // Links

  /** `Linked`, asked only of the cards whose id is outside `exempt`. */
  predicate LinkedOutside(s: seq<Card>, exempt: set<int>) {
    forall i | 0 <= i < |s| && s[i].inPc.Some? && s[i].cardId !in exempt :: exists j | 0 <= j < |s| ::
      s[j].cardId == s[i].inPc.value && s[i].cardId in s[j].components
  }

  lemma LinkedIsLinkedOutside(s: seq<Card>, exempt: set<int>)
    requires Linked(s)
    ensures LinkedOutside(s, exempt)
  {
  }

  /** Two lists with the same ids at the same places find an id at the same
      place. */
  lemma SameIdsSameFirstIndex(s: seq<Card>, t: seq<Card>, id: int)
    requires |s| == |t| && forall i | 0 <= i < |s| :: s[i].cardId == t[i].cardId
    ensures FirstIndex(s, id) == FirstIndex(t, id)
    ensures HasId(s, id) <==> HasId(t, id)
  {
    if HasId(s, id) {
      var a := FirstIndex(s, id);
      assert t[a].cardId == id;
    }
    if HasId(t, id) {
      var b := FirstIndex(t, id);
      assert s[b].cardId == id;
    }
  }

  /** Appending a card does not move the first card with an id already
      present, and a new id is found at the end. */
  lemma FirstIndexAppend(s: seq<Card>, x: Card, id: int)
    ensures HasId(s, id) ==> FirstIndex(s + [x], id) == FirstIndex(s, id)
    ensures !HasId(s, id) && x.cardId == id ==> FirstIndex(s + [x], id) == |s|
    ensures HasId(s + [x], id) <==> HasId(s, id) || x.cardId == id
  {
    var t := s + [x];
    if HasId(s, id) {
      var a := FirstIndex(s, id);
      assert t[a].cardId == id;
    }
    if HasId(t, id) && !HasId(s, id) {
      var b := FirstIndex(t, id);
      assert b == |s|;
    }
    if x.cardId == id {
      assert t[|s|].cardId == id;
    }
  }

  /** Clearing `inPc` on a card never breaks a link. */
  lemma ClearKeepsLinked(s: seq<Card>, id: int)
    requires Linked(s)
    ensures Linked(UpdateFirst(s, id, SetInPc(None)))
  {
    var t := UpdateFirst(s, id, SetInPc(None));
    UpdateFirstChangesOnlyFirstMatch(s, id, SetInPc(None));
    forall i | 0 <= i < |t| && t[i].inPc.Some?
      ensures exists j | 0 <= j < |t| :: t[j].cardId == t[i].inPc.value && t[i].cardId in t[j].components
    {
      assert t[i] == s[i];
      var j :| 0 <= j < |s| && s[j].cardId == s[i].inPc.value && s[i].cardId in s[j].components;
      assert t[j].cardId == s[j].cardId && t[j].components == s[j].components;
    }
  }

  /** When every card but `x` is linked and ids are distinct, clearing
      `x`'s `inPc` makes the whole list linked. */
  lemma ClearCompletesLink(s: seq<Card>, x: int)
    requires LinkedOutside(s, {x}) && UniqueIds(s)
    ensures Linked(UpdateFirst(s, x, SetInPc(None)))
  {
    var t := UpdateFirst(s, x, SetInPc(None));
    UpdateFirstChangesOnlyFirstMatch(s, x, SetInPc(None));
    forall i | 0 <= i < |t| && t[i].inPc.Some?
      ensures exists j | 0 <= j < |t| :: t[j].cardId == t[i].inPc.value && t[i].cardId in t[j].components
    {
      assert t[i] == s[i];
      assert s[i].cardId != x;
      var j :| 0 <= j < |s| && s[j].cardId == s[i].inPc.value && s[i].cardId in s[j].components;
      assert t[j].cardId == s[j].cardId && t[j].components == s[j].components;
    }
  }

  /** Dropping a card that no card outside `exempt` names as its PC keeps
      the others linked. */
  lemma RemoveAllKeepsLinkedOutside(s: seq<Card>, id: int, exempt: set<int>)
    requires LinkedOutside(s, exempt)
    requires forall i | 0 <= i < |s| && s[i].inPc == Some(id) :: s[i].cardId in exempt
    ensures LinkedOutside(RemoveAll(s, id), exempt)
  {
    var t := RemoveAll(s, id);
    RemoveAllMembers(s, id);
    forall i | 0 <= i < |t| && t[i].inPc.Some? && t[i].cardId !in exempt
      ensures exists j | 0 <= j < |t| :: t[j].cardId == t[i].inPc.value && t[i].cardId in t[j].components
    {
      assert t[i] in t;
      var a :| 0 <= a < |s| && s[a] == t[i];
      var j :| 0 <= j < |s| && s[j].cardId == s[a].inPc.value && s[a].cardId in s[j].components;
      assert s[j] in t;
      var b :| 0 <= b < |t| && t[b] == s[j];
    }
  }

  // ---------------------------------------------------------------------
  // Building a PC

  /** The loop that sets `in_pc` of each part in turn. */
  function MarkParts(s: seq<Card>, ids: seq<int>, pcId: int): seq<Card>
    decreases |ids|
  {
    if |ids| == 0 then s
    else MarkParts(UpdateFirst(s, ids[0], SetInPc(Some(pcId))), ids[1..], pcId)
  }

  /** `t` is `s` with some cards whose ids are in `ids` moved into PC
      `pcId`, and nothing else changed. */
  predicate MarkedFrom(s: seq<Card>, t: seq<Card>, pcId: int, ids: seq<int>) {
    && |t| == |s|
    && (forall i | 0 <= i < |s| :: t[i].cardId == s[i].cardId && t[i].components == s[i].components)
    && (forall i | 0 <= i < |s| :: t[i].inPc == s[i].inPc || (t[i].inPc == Some(pcId) && s[i].cardId in ids))
  }

  /** Marking changes only the `inPc` of listed parts, and every listed
      part that is present ends up inside the PC. */
  lemma {:induction false} MarkPartsShape(s: seq<Card>, ids: seq<int>, pcId: int)
    ensures MarkedFrom(s, MarkParts(s, ids, pcId), pcId, ids)
    ensures forall k | 0 <= k < |ids| && HasId(s, ids[k]) ::
      MarkParts(s, ids, pcId)[FirstIndex(s, ids[k])].inPc == Some(pcId)
    decreases |ids|
  {
    if |ids| > 0 {
      var u := UpdateFirst(s, ids[0], SetInPc(Some(pcId)));
      UpdateFirstChangesOnlyFirstMatch(s, ids[0], SetInPc(Some(pcId)));
      MarkPartsShape(u, ids[1..], pcId);
      var t := MarkParts(s, ids, pcId);
      assert t == MarkParts(u, ids[1..], pcId);
      forall i | 0 <= i < |s|
        ensures t[i].inPc == s[i].inPc || (t[i].inPc == Some(pcId) && s[i].cardId in ids)
      {
        assert u[i].cardId == s[i].cardId;
        if u[i].inPc != s[i].inPc {
          assert u[i].inPc == Some(pcId) && s[i].cardId == ids[0];
        }
      }
      forall k | 0 <= k < |ids| && HasId(s, ids[k])
        ensures t[FirstIndex(s, ids[k])].inPc == Some(pcId)
      {
        SameIdsSameFirstIndex(s, u, ids[k]);
        if k > 0 {
          assert ids[1..][k - 1] == ids[k];
        }
      }
    }
  }

  /** Patching the first match commutes with appending a card behind an id
      already present. */
  lemma UpdateFirstAppend(s: seq<Card>, x: Card, id: int, p: CardPatch)
    requires HasId(s, id)
    ensures UpdateFirst(s + [x], id, p) == UpdateFirst(s, id, p) + [x]
  {
    FirstIndexAppend(s, x, id);
  }

  /** Marking parts that are all present does not touch a card appended
      behind them. */
  lemma {:induction false} MarkPartsAppend(s: seq<Card>, x: Card, ids: seq<int>, pcId: int)
    requires forall k | 0 <= k < |ids| :: HasId(s, ids[k])
    ensures MarkParts(s + [x], ids, pcId) == MarkParts(s, ids, pcId) + [x]
    decreases |ids|
  {
    if |ids| > 0 {
      var u := UpdateFirst(s, ids[0], SetInPc(Some(pcId)));
      UpdateFirstAppend(s, x, ids[0], SetInPc(Some(pcId)));
      UpdateFirstChangesOnlyFirstMatch(s, ids[0], SetInPc(Some(pcId)));
      forall k | 0 <= k < |ids[1..]|
        ensures HasId(u, ids[1..][k])
      {
        SameIdsSameFirstIndex(s, u, ids[k + 1]);
      }
      MarkPartsAppend(u, x, ids[1..], pcId);
    }
  }

  /** What `build_pc` does to the collection `s`: append the new PC card
      `pc`, give it its components and specs, then move each part into it. */
  function Built(s: seq<Card>, pc: Card, ids: seq<int>, specs: map<string, string>): seq<Card> {
    MarkParts(UpdateFirst(s + [pc], pc.cardId, SetParts(ids, specs)), ids, pc.cardId)
  }

  /** With a fresh PC id and every part present, building leaves the old
      cards in place (only parts' `inPc` changed) and puts the finished PC
      last. */
  lemma BuiltShape(s: seq<Card>, pc: Card, ids: seq<int>, specs: map<string, string>)
    requires !HasId(s, pc.cardId)
    requires forall k | 0 <= k < |ids| :: HasId(s, ids[k])
    ensures Built(s, pc, ids, specs) == MarkParts(s, ids, pc.cardId) + [pc.(components := ids, specs := specs)]
  {
    FirstIndexAppend(s, pc, pc.cardId);
    var q := pc.(components := ids, specs := specs);
    assert UpdateFirst(s + [pc], pc.cardId, SetParts(ids, specs)) == s + [q];
    MarkPartsAppend(s, q, ids, pc.cardId);
  }

  /** Building a PC with a fresh id out of parts that are present keeps
      the collection linked and its ids distinct. */
  lemma BuildKeepsLinked(s: seq<Card>, pc: Card, ids: seq<int>, specs: map<string, string>)
    requires !HasId(s, pc.cardId) && pc.inPc.None?
    requires forall k | 0 <= k < |ids| :: HasId(s, ids[k])
    ensures Linked(s) ==> Linked(Built(s, pc, ids, specs))
    ensures UniqueIds(s) ==> UniqueIds(Built(s, pc, ids, specs))
  {
    BuiltShape(s, pc, ids, specs);
    MarkPartsShape(s, ids, pc.cardId);
    var t := MarkParts(s, ids, pc.cardId);
    var q := pc.(components := ids, specs := specs);
    var u := t + [q];
    if Linked(s) {
      forall i | 0 <= i < |u| && u[i].inPc.Some?
        ensures exists j | 0 <= j < |u| :: u[j].cardId == u[i].inPc.value && u[i].cardId in u[j].components
      {
        assert i < |t|;
        if t[i].inPc == s[i].inPc {
          var j :| 0 <= j < |s| && s[j].cardId == s[i].inPc.value && s[i].cardId in s[j].components;
          assert u[j] == t[j];
        } else {
          assert u[|t|] == q;
        }
      }
    }
    if UniqueIds(s) {
      forall i, j | 0 <= i < j < |u|
        ensures u[i].cardId != u[j].cardId
      {
        if j == |t| {
          assert s[i].cardId != pc.cardId;
        }
      }
    }
  }

  /** After building, `get_card` finds the PC with its components and specs,
      and finds each part inside it. */
  lemma BuildFindsPcAndParts(s: seq<Card>, pc: Card, ids: seq<int>, specs: map<string, string>)
    requires !HasId(s, pc.cardId)
    requires forall k | 0 <= k < |ids| :: HasId(s, ids[k])
    ensures FindCard(Built(s, pc, ids, specs), pc.cardId) == Some(pc.(components := ids, specs := specs))
    ensures forall k | 0 <= k < |ids| ::
      && FindCard(Built(s, pc, ids, specs), ids[k]).Some?
      && FindCard(Built(s, pc, ids, specs), ids[k]).value.inPc == Some(pc.cardId)
  {
    BuiltShape(s, pc, ids, specs);
    MarkPartsShape(s, ids, pc.cardId);
    var t := MarkParts(s, ids, pc.cardId);
    var q := pc.(components := ids, specs := specs);
    SameIdsSameFirstIndex(s, t, pc.cardId);
    FirstIndexAppend(t, q, pc.cardId);
    forall k | 0 <= k < |ids|
      ensures FindCard(t + [q], ids[k]).Some? && FindCard(t + [q], ids[k]).value.inPc == Some(pc.cardId)
    {
      SameIdsSameFirstIndex(s, t, ids[k]);
      FirstIndexAppend(t, q, ids[k]);
    }
  }

  /** Building keeps the new PC's id in the list whether or not it is
      fresh, so `get_card` on it succeeds. */
  lemma BuiltHasPc(s: seq<Card>, pc: Card, ids: seq<int>, specs: map<string, string>)
    ensures HasId(Built(s, pc, ids, specs), pc.cardId)
  {
    var u := UpdateFirst(s + [pc], pc.cardId, SetParts(ids, specs));
    FirstIndexAppend(s, pc, pc.cardId);
    UpdateFirstChangesOnlyFirstMatch(s + [pc], pc.cardId, SetParts(ids, specs));
    MarkPartsShape(u, ids, pc.cardId);
    SameIdsSameFirstIndex(u, MarkParts(u, ids, pc.cardId), pc.cardId);
    SameIdsSameFirstIndex(s + [pc], u, pc.cardId);
  }

  /** The specs `generate_pc_specs` gives a PC of these three parts. */
  function PartsSpecs(gpu: Card, cpu: Card, mb: Card): map<string, string> {
    PcGenerator.SpecsMap(PcGenerator.GeneratePcSpecs(gpu.rarity, cpu.rarity, mb.rarity).0)
  }

  /** The card `add_card` creates for a PC of these three parts: named
      after the graphics card, of the parts' highest rarity, priced at the
      premium over the parts and the generated specs. */
  function NewPcCard(pricing: Pricing, gpu: Card, cpu: Card, mb: Card, pcId: int, now: real): Card {
    var generated := PcGenerator.GeneratePcSpecs(gpu.rarity, cpu.rarity, mb.rarity);
    Card(pcId, "Custom Gaming PC (" + gpu.gadgetName + ")", "PC",
      pricing.premium(gpu.purchasePrice + cpu.purchasePrice + mb.purchasePrice + generated.2),
      generated.1, now, None, [], map[])
  }

  /** The part of `build_pc` after its checks: add the PC card, record its
      parts and specs, then move each part into it. */
  method AssemblePc(store: Store, pricing: Pricing, uid: int, gpu: Card, cpu: Card, mb: Card, now: real)
    returns (pcId: int)
    modifies store
    ensures pcId == (now * 1000.0).Floor + |old(store.UserCards(uid))|
    ensures store.cards == old(store.cards)[uid := Built(old(store.UserCards(uid)),
      NewPcCard(pricing, gpu, cpu, mb, pcId, now), [gpu.cardId, cpu.cardId, mb.cardId], PartsSpecs(gpu, cpu, mb))]
    ensures store.users == old(store.users) && store.banned == old(store.banned)
  {
    ghost var s0 := store.UserCards(uid);
    pcId := AddPcCard(store, pricing, uid, gpu, cpu, mb, now);
    ghost var pc := NewPcCard(pricing, gpu, cpu, mb, pcId, now);
    assert pc.cardId == pcId;
    assert store.cards == old(store.cards)[uid := UpdateFirst(s0 + [pc], pcId,
      SetParts([gpu.cardId, cpu.cardId, mb.cardId], PartsSpecs(gpu, cpu, mb)))];
    MarkThree(store, uid, gpu.cardId, cpu.cardId, mb.cardId, pcId);
  }

  /** The `add_card` of the PC and the `update_card` that records its parts
      and specs. */
  method AddPcCard(store: Store, pricing: Pricing, uid: int, gpu: Card, cpu: Card, mb: Card, now: real)
    returns (pcId: int)
    modifies store
    ensures pcId == (now * 1000.0).Floor + |old(store.UserCards(uid))|
    ensures store.cards == old(store.cards)[uid := UpdateFirst(old(store.UserCards(uid)) + [NewPcCard(pricing, gpu, cpu, mb, pcId, now)],
      pcId, SetParts([gpu.cardId, cpu.cardId, mb.cardId], PartsSpecs(gpu, cpu, mb)))]
    ensures store.users == old(store.users) && store.banned == old(store.banned)
  {
    ghost var s0 := store.UserCards(uid);
    var generated := PcGenerator.GeneratePcSpecs(gpu.rarity, cpu.rarity, mb.rarity);
    var total := pricing.premium(gpu.purchasePrice + cpu.purchasePrice + mb.purchasePrice + generated.2);
    var name := "Custom Gaming PC (" + gpu.gadgetName + ")";
    ghost var cards0 := store.cards;
    pcId := store.AddCard(uid, name, "PC", total, generated.1, now);
    ghost var pc := Card(pcId, name, "PC", total, generated.1, now, None, [], map[]);
    assert store.cards == cards0[uid := s0 + [pc]];
    assert pc == NewPcCard(pricing, gpu, cpu, mb, pcId, now);
    var ids := [gpu.cardId, cpu.cardId, mb.cardId];
    var specs := PcGenerator.SpecsMap(generated.0);
    assert specs == PartsSpecs(gpu, cpu, mb);
    var _ := store.UpdateCard(uid, pcId, SetParts(ids, specs));
  }

  /** The three `update_card(..., in_pc=pc_card_id)` calls. */
  method MarkThree(store: Store, uid: int, a: int, b: int, c: int, pcId: int)
    requires uid in store.cards
    modifies store
    ensures store.cards == old(store.cards)[uid := MarkParts(old(store.cards)[uid], [a, b, c], pcId)]
    ensures store.users == old(store.users) && store.banned == old(store.banned)
  {
    ghost var s0 := store.cards[uid];
    MarkPartsThree(s0, a, b, c, pcId);
    var _ := store.UpdateCard(uid, a, SetInPc(Some(pcId)));
    var _ := store.UpdateCard(uid, b, SetInPc(Some(pcId)));
    var _ := store.UpdateCard(uid, c, SetInPc(Some(pcId)));
  }

  /** Marking three parts is three single updates in turn. */
  lemma MarkPartsThree(s: seq<Card>, a: int, b: int, c: int, pcId: int)
    ensures MarkParts(s, [a, b, c], pcId)
      == UpdateFirst(UpdateFirst(UpdateFirst(s, a, SetInPc(Some(pcId))), b, SetInPc(Some(pcId))), c, SetInPc(Some(pcId)))
  {
    var p := SetInPc(Some(pcId));
    var s1 := UpdateFirst(s, a, p);
    var s2 := UpdateFirst(s1, b, p);
    assert [a, b, c][1..] == [b, c] && [b, c][1..] == [c] && [c][1..] == [];
    assert MarkParts(s, [a, b, c], pcId) == MarkParts(s1, [b, c], pcId);
    assert MarkParts(s1, [b, c], pcId) == MarkParts(s2, [c], pcId);
    assert MarkParts(s2, [c], pcId) == MarkParts(UpdateFirst(s2, c, p), [], pcId);
  }

  // ---------------------------------------------------------------------
  // Ejecting a part

  /** `list.remove`: the first occurrence of `x` dropped; unchanged when
      there is none. */
  function RemoveFirst(xs: seq<int>, x: int): (ys: seq<int>)
    ensures x in xs ==> |ys| == |xs| - 1
    ensures x !in xs ==> ys == xs
    decreases |xs|
  {
    if |xs| == 0 then []
    else if xs[0] == x then xs[1..]
    else [xs[0]] + RemoveFirst(xs[1..], x)
  }

  /** Every other value stays exactly as present as it was. */
  lemma {:induction false} RemoveFirstKeepsOthers(xs: seq<int>, x: int)
    ensures forall y | y != x :: y in RemoveFirst(xs, x) <==> y in xs
    decreases |xs|
  {
    if |xs| > 0 && xs[0] != x {
      RemoveFirstKeepsOthers(xs[1..], x);
      assert xs == [xs[0]] + xs[1..];
    }
  }

  /** The PC after losing part `compId`: removed when no part is left,
      otherwise given the remaining list. */
  function Shrunk(s: seq<Card>, pc: Card, compId: int): seq<Card> {
    var rest := RemoveFirst(pc.components, compId);
    if |rest| == 0 then RemoveAll(s, pc.cardId)
    else UpdateFirst(s, pc.cardId, SetComponents(rest))
  }

  /** The backend's eject: shrink the PC, then clear the part's `inPc`
      whether or not the PC was removed. */
  function EjectClearing(s: seq<Card>, pc: Card, compId: int): seq<Card> {
    UpdateFirst(Shrunk(s, pc, compId), compId, SetInPc(None))
  }

  /** The web API's and the bot's eject: when the last part leaves, the PC
      is removed and the part is left naming it. */
  function EjectLeavingPart(s: seq<Card>, pc: Card, compId: int): seq<Card> {
    if |RemoveFirst(pc.components, compId)| == 0 then RemoveAll(s, pc.cardId)
    else EjectClearing(s, pc, compId)
  }

  /** Shrinking the PC leaves every card but the ejected one linked. */
  lemma ShrunkLinkedOutside(s: seq<Card>, pc: Card, compId: int)
    requires Linked(s) && UniqueIds(s) && FindCard(s, pc.cardId) == Some(pc)
    ensures LinkedOutside(Shrunk(s, pc, compId), {compId})
    ensures UniqueIds(Shrunk(s, pc, compId))
  {
    var rest := RemoveFirst(pc.components, compId);
    var k := FirstIndex(s, pc.cardId);
    RemoveFirstKeepsOthers(pc.components, compId);
    if |rest| == 0 {
      forall i | 0 <= i < |s| && s[i].inPc == Some(pc.cardId)
        ensures s[i].cardId in {compId}
      {
        var j :| 0 <= j < |s| && s[j].cardId == pc.cardId && s[i].cardId in s[j].components;
        assert j == k;
      }
      LinkedIsLinkedOutside(s, {compId});
      RemoveAllKeepsLinkedOutside(s, pc.cardId, {compId});
      RemoveAllUnique(s, pc.cardId);
    } else {
      var t := UpdateFirst(s, pc.cardId, SetComponents(rest));
      UpdateFirstChangesOnlyFirstMatch(s, pc.cardId, SetComponents(rest));
      forall i | 0 <= i < |t| && t[i].inPc.Some? && t[i].cardId !in {compId}
        ensures exists j | 0 <= j < |t| :: t[j].cardId == t[i].inPc.value && t[i].cardId in t[j].components
      {
        assert t[i].inPc == s[i].inPc && t[i].cardId == s[i].cardId;
        var j :| 0 <= j < |s| && s[j].cardId == s[i].inPc.value && s[i].cardId in s[j].components;
        assert t[j].cardId == s[j].cardId;
        assert t[i].cardId in t[j].components;
      }
    }
  }

  /** The backend's eject keeps a linked collection linked. */
  lemma EjectClearingKeepsLinked(s: seq<Card>, pc: Card, compId: int)
    requires Linked(s) && UniqueIds(s) && FindCard(s, pc.cardId) == Some(pc)
    ensures Linked(EjectClearing(s, pc, compId))
    ensures UniqueIds(EjectClearing(s, pc, compId))
  {
    ShrunkLinkedOutside(s, pc, compId);
    ClearCompletesLink(Shrunk(s, pc, compId), compId);
    UpdateFirstChangesOnlyFirstMatch(Shrunk(s, pc, compId), compId, SetInPc(None));
  }

  /** Both ejects agree unless the ejected part was the last one. */
  lemma EjectsAgreeWhilePartsRemain(s: seq<Card>, pc: Card, compId: int)
    requires |RemoveFirst(pc.components, compId)| > 0
    ensures EjectLeavingPart(s, pc, compId) == EjectClearing(s, pc, compId)
  {
  }

  /** A PC with one part: ejecting that part with the leaving-part eject
      removes the PC and strands the part, which still names it. */
  lemma EjectLeavingPartStrandsLastPart()
    ensures var pc := Card(1, "Custom Gaming PC (X)", "PC", 0, "Common", 0.0, None, [2], map[]);
      var part := Card(2, "X", "Graphics Card", 0, "Common", 0.0, Some(1), [], map[]);
      && Linked([pc, part]) && UniqueIds([pc, part])
      && FindCard([pc, part], 1) == Some(pc)
      && EjectLeavingPart([pc, part], pc, 2) == [part]
      && !Linked(EjectLeavingPart([pc, part], pc, 2))
  {
    var pc := Card(1, "Custom Gaming PC (X)", "PC", 0, "Common", 0.0, None, [2], map[]);
    var part := Card(2, "X", "Graphics Card", 0, "Common", 0.0, Some(1), [], map[]);
    var s := [pc, part];
    assert s[0].cardId == s[1].inPc.value && s[1].cardId in s[0].components;
    assert RemoveFirst(pc.components, 2) == [];
    assert RemoveAll(s, 1) == [part] by {
      assert s[1..] == [part];
      assert RemoveAll([part], 1) == [part] + RemoveAll([], 1);
    }
  }

  // ---------------------------------------------------------------------
  // Selling

  /** The loop of `remove_card` calls for each id in turn. */
  function RemoveIds(s: seq<Card>, ids: seq<int>): seq<Card>
    decreases |ids|
  {
    if |ids| == 0 then s
    else RemoveAll(RemoveIds(s, ids[..|ids| - 1]), ids[|ids| - 1])
  }

  /** The cards left are exactly the cards whose id is not listed. */
  lemma {:induction false} RemoveIdsMembers(s: seq<Card>, ids: seq<int>)
    ensures forall c :: c in RemoveIds(s, ids) <==> c in s && c.cardId !in ids
    ensures UniqueIds(s) ==> UniqueIds(RemoveIds(s, ids))
    decreases |ids|
  {
    if |ids| > 0 {
      var init := ids[..|ids| - 1];
      RemoveIdsMembers(s, init);
      RemoveAllMembers(RemoveIds(s, init), ids[|ids| - 1]);
      assert ids == init + [ids[|ids| - 1]];
      if UniqueIds(s) {
        RemoveAllUnique(RemoveIds(s, init), ids[|ids| - 1]);
      }
    }
  }

  /** Removing a set of cards that holds every card inside any of them
      keeps the collection linked. */
  lemma RemoveIdsKeepsLinked(s: seq<Card>, ids: seq<int>)
    requires Linked(s)
    requires forall i | 0 <= i < |s| && s[i].inPc.Some? && s[i].inPc.value in ids :: s[i].cardId in ids
    ensures Linked(RemoveIds(s, ids))
  {
    var t := RemoveIds(s, ids);
    RemoveIdsMembers(s, ids);
    forall i | 0 <= i < |t| && t[i].inPc.Some?
      ensures exists j | 0 <= j < |t| :: t[j].cardId == t[i].inPc.value && t[i].cardId in t[j].components
    {
      assert t[i] in t;
      var a :| 0 <= a < |s| && s[a] == t[i];
      var j :| 0 <= j < |s| && s[j].cardId == s[a].inPc.value && s[a].cardId in s[j].components;
      assert s[j] in t;
      var b :| 0 <= b < |t| && t[b] == s[j];
    }
  }

  /** Selling a PC removes its parts and then the PC itself. */
  function SoldPc(s: seq<Card>, pc: Card): seq<Card> {
    RemoveIds(s, pc.components + [pc.cardId])
  }

  /** Selling a PC whose parts are not themselves PCs with parts keeps the
      collection linked, and leaves none of its cards behind. */
  lemma SoldPcKeepsLinked(s: seq<Card>, pc: Card)
    requires Linked(s) && UniqueIds(s) && FindCard(s, pc.cardId) == Some(pc)
    requires forall i | 0 <= i < |s| && s[i].inPc.Some? :: s[i].inPc.value !in pc.components
    ensures Linked(SoldPc(s, pc)) && UniqueIds(SoldPc(s, pc))
    ensures forall c | c in SoldPc(s, pc) :: c.cardId != pc.cardId && c.cardId !in pc.components
  {
    var ids := pc.components + [pc.cardId];
    var k := FirstIndex(s, pc.cardId);
    forall i | 0 <= i < |s| && s[i].inPc.Some? && s[i].inPc.value in ids
      ensures s[i].cardId in ids
    {
      assert s[i].inPc.value == pc.cardId;
      var j :| 0 <= j < |s| && s[j].cardId == pc.cardId && s[i].cardId in s[j].components;
      assert j == k;
    }
    RemoveIdsKeepsLinked(s, ids);
    RemoveIdsMembers(s, ids);
  }

  /** The loop of `update_card(..., in_pc=None)` calls for each id. */
  function ClearParts(s: seq<Card>, ids: seq<int>): seq<Card>
    decreases |ids|
  {
    if |ids| == 0 then s
    else UpdateFirst(ClearParts(s, ids[..|ids| - 1]), ids[|ids| - 1], SetInPc(None))
  }

  /** Clearing keeps every id in place and never breaks a link; under
      distinct ids every listed card ends up outside any PC. */
  lemma {:induction false} ClearPartsShape(s: seq<Card>, ids: seq<int>)
    ensures |ClearParts(s, ids)| == |s|
    ensures forall i | 0 <= i < |s| :: ClearParts(s, ids)[i].cardId == s[i].cardId
    ensures Linked(s) ==> Linked(ClearParts(s, ids))
    ensures UniqueIds(s) ==>
      forall i | 0 <= i < |s| :: ClearParts(s, ids)[i].inPc == (if s[i].cardId in ids then None else s[i].inPc)
    decreases |ids|
  {
    if |ids| > 0 {
      var init := ids[..|ids| - 1];
      var x := ids[|ids| - 1];
      ClearPartsShape(s, init);
      var u := ClearParts(s, init);
      UpdateFirstChangesOnlyFirstMatch(u, x, SetInPc(None));
      if Linked(s) {
        ClearKeepsLinked(u, x);
      }
      assert ids == init + [x];
      if UniqueIds(s) {
        var t := ClearParts(s, ids);
        forall i | 0 <= i < |s|
          ensures t[i].inPc == if s[i].cardId in ids then None else s[i].inPc
        {
          if u[i].cardId == x {
            assert u[FirstIndex(u, x)].cardId == s[FirstIndex(u, x)].cardId;
          }
        }
      }
    }
  }

  /** The bot's PC sale: the parts are moved out of the PC, then the PC
      alone is removed; the parts stay in the collection. */
  function SoldPcKeepingParts(s: seq<Card>, pc: Card): seq<Card> {
    RemoveAll(ClearParts(s, pc.components), pc.cardId)
  }

  /** Freeing the parts of a PC of a linked collection leaves it linked,
      with the same ids in the same places, and no card in that PC. */
  lemma ClearedPartsLeavePc(s: seq<Card>, pc: Card)
    requires Linked(s) && UniqueIds(s) && FindCard(s, pc.cardId) == Some(pc)
    ensures var u := ClearParts(s, pc.components);
      && |u| == |s| && Linked(u) && UniqueIds(u)
      && (forall i | 0 <= i < |u| :: u[i].cardId == s[i].cardId)
      && (forall i | 0 <= i < |u| :: u[i].inPc != Some(pc.cardId))
  {
    var u := ClearParts(s, pc.components);
    var k := FirstIndex(s, pc.cardId);
    ClearPartsShape(s, pc.components);
    forall i | 0 <= i < |u|
      ensures u[i].inPc != Some(pc.cardId)
    {
      if s[i].inPc == Some(pc.cardId) {
        var j :| 0 <= j < |s| && s[j].cardId == pc.cardId && s[i].cardId in s[j].components;
        assert j == k;
      }
    }
    assert UniqueIds(u);
  }

  /** Removing the cards with one id keeps a card of every other id. */
  lemma RemoveAllKeepsOtherIds(s: seq<Card>, u: seq<Card>, id: int)
    requires |u| == |s| && forall i | 0 <= i < |u| :: u[i].cardId == s[i].cardId
    ensures forall c | c in s && c.cardId != id :: HasId(RemoveAll(u, id), c.cardId)
  {
    RemoveAllMembers(u, id);
    forall c | c in s && c.cardId != id
      ensures HasId(RemoveAll(u, id), c.cardId)
    {
      var a :| 0 <= a < |s| && s[a] == c;
      assert u[a] in RemoveAll(u, id);
      var b :| 0 <= b < |RemoveAll(u, id)| && RemoveAll(u, id)[b] == u[a];
    }
  }

  /** That sale keeps the collection linked and every card but the PC. */
  lemma SoldPcKeepingPartsKeepsLinked(s: seq<Card>, pc: Card)
    requires Linked(s) && UniqueIds(s) && FindCard(s, pc.cardId) == Some(pc)
    ensures Linked(SoldPcKeepingParts(s, pc)) && UniqueIds(SoldPcKeepingParts(s, pc))
    ensures forall c | c in s && c.cardId != pc.cardId :: HasId(SoldPcKeepingParts(s, pc), c.cardId)
  {
    var u := ClearParts(s, pc.components);
    ClearedPartsLeavePc(s, pc);
    LinkedIsLinkedOutside(u, {});
    RemoveAllKeepsLinkedOutside(u, pc.cardId, {});
    RemoveAllUnique(u, pc.cardId);
    RemoveAllKeepsOtherIds(s, u, pc.cardId);
  }

  /** The loop that removes each listed card in turn. */
  method RemoveCards(store: Store, uid: int, ids: seq<int>)
    modifies store
    ensures store.cards == if uid in old(store.cards) then old(store.cards)[uid := RemoveIds(old(store.cards)[uid], ids)]
      else old(store.cards)
    ensures store.users == old(store.users) && store.banned == old(store.banned)
  {
    var i := 0;
    while i < |ids|
      invariant 0 <= i <= |ids|
      invariant store.cards == if uid in old(store.cards) then old(store.cards)[uid := RemoveIds(old(store.cards)[uid], ids[..i])]
        else old(store.cards)
      invariant store.users == old(store.users) && store.banned == old(store.banned)
    {
      var _ := store.RemoveCard(uid, ids[i]);
      assert ids[..i + 1][..i] == ids[..i];
      i := i + 1;
    }
    assert ids[..i] == ids;
  }

  /** The loop that moves each listed card out of its PC in turn. */
  method ClearPartsOf(store: Store, uid: int, ids: seq<int>)
    modifies store
    ensures store.cards == if uid in old(store.cards) then old(store.cards)[uid := ClearParts(old(store.cards)[uid], ids)]
      else old(store.cards)
    ensures store.users == old(store.users) && store.banned == old(store.banned)
  {
    var i := 0;
    while i < |ids|
      invariant 0 <= i <= |ids|
      invariant store.cards == if uid in old(store.cards) then old(store.cards)[uid := ClearParts(old(store.cards)[uid], ids[..i])]
        else old(store.cards)
      invariant store.users == old(store.users) && store.banned == old(store.banned)
    {
      ghost var before := store.cards;
      var _ := store.UpdateCard(uid, ids[i], SetInPc(None));
      assert ids[..i + 1][..i] == ids[..i];
      if uid in old(store.cards) {
        assert ClearParts(old(store.cards)[uid], ids[..i + 1])
          == UpdateFirst(ClearParts(old(store.cards)[uid], ids[..i]), ids[i], SetInPc(None));
        assert store.cards == before[uid := UpdateFirst(before[uid], ids[i], SetInPc(None))];
      } else {
        assert store.cards == before;
      }
      i := i + 1;
    }
    assert ids[..i] == ids;
  }

  /** The sale in the bot's `sell_pc_` branch once the PC is found: its
      parts are moved out of it, the price is credited and the PC is
      removed. Returns the price and the new balance. */
  method SellPcKeepingParts(store: Store, pricing: Pricing, uid: int, pc: Card) returns (r: (int, int))
    requires FindCard(store.UserCards(uid), pc.cardId) == Some(pc)
    modifies store
    ensures var s := old(store.UserCards(uid));
      && r.0 == PcSalePrice(pricing, ComponentTotal(s, pc.components), pc.purchasePrice)
      && store.cards == old(store.cards)[uid := SoldPcKeepingParts(s, pc)]
    ensures r.1 == old(store.UserOf(uid)).coins + r.0
    ensures store.users == old(store.users)[uid := UserRecord(r.1, old(store.UserOf(uid)).lastCardTime)]
    ensures store.banned == old(store.banned)
  {
    var salePrice := CalculatePcSalePrice(store, pricing, uid, pc);
    assert uid in store.cards;
    ClearPartsOf(store, uid, pc.components);
    var newBalance := store.AddCoins(uid, salePrice);
    var _ := store.RemoveCard(uid, pc.cardId);
    r := (salePrice, newBalance);
  }

  /** The first step of every eject: the PC loses part `compId` and is
      removed when none is left, or keeps the remaining list. Returns the
      remaining list. */
  method ShrinkPc(store: Store, uid: int, pc: Card, compId: int) returns (rest: seq<int>)
    requires FindCard(store.UserCards(uid), pc.cardId) == Some(pc)
    modifies store
    ensures rest == RemoveFirst(pc.components, compId)
    ensures store.cards == old(store.cards)[uid := Shrunk(old(store.UserCards(uid)), pc, compId)]
    ensures store.users == old(store.users) && store.banned == old(store.banned)
  {
    assert uid in store.cards;
    rest := RemoveFirst(pc.components, compId);
    if |rest| == 0 {
      var _ := store.RemoveCard(uid, pc.cardId);
    } else {
      var _ := store.UpdateCard(uid, pc.cardId, SetComponents(rest));
    }
  }

  /** The backend's eject once the PC and the part are found: the PC
      shrinks, then the part's `inPc` is cleared. */
  method EjectPart(store: Store, uid: int, pc: Card, compId: int) returns (rest: seq<int>)
    requires FindCard(store.UserCards(uid), pc.cardId) == Some(pc)
    modifies store
    ensures rest == RemoveFirst(pc.components, compId)
    ensures store.cards == old(store.cards)[uid := EjectClearing(old(store.UserCards(uid)), pc, compId)]
    ensures store.users == old(store.users) && store.banned == old(store.banned)
  {
    ghost var s := store.UserCards(uid);
    rest := ShrinkPc(store, uid, pc, compId);
    assert uid in store.cards && store.cards[uid] == Shrunk(s, pc, compId);
    var _ := store.UpdateCard(uid, compId, SetInPc(None));
  }

  /** The bot's eject on the store: the PC is removed when the part was
      its last, otherwise it keeps the other parts and the part is freed. */
  method EjectLeaving(store: Store, uid: int, pc: Card, compId: int) returns (emptied: bool)
    requires FindCard(store.UserCards(uid), pc.cardId) == Some(pc)
    modifies store
    ensures emptied <==> |RemoveFirst(pc.components, compId)| == 0
    ensures store.cards == old(store.cards)[uid := EjectLeavingPart(old(store.UserCards(uid)), pc, compId)]
    ensures store.users == old(store.users) && store.banned == old(store.banned)
  {
    assert uid in store.cards;
    var components := RemoveFirst(pc.components, compId);
    if |components| == 0 {
      var _ := store.RemoveCard(uid, pc.cardId);
      return true;
    }
    var _ := store.UpdateCard(uid, pc.cardId, SetComponents(components));
    var _ := store.UpdateCard(uid, compId, SetInPc(None));
    emptied := false;
  }
}
