/** The collection page of the mini-app: a drill-down from the type
    groups to the rarities of one group to the cards of one rarity. Each
    handler is one atomic state change; an awaited request is an input. */
module CollectionPage {
  import opened Wrappers
  import opened Strings
  import opened Config
  import Gadgets
  import Api

  /** The fields of a card the list shows. */
  datatype CardSummary = CardSummary(cardId: int, gadgetName: string, purchasePrice: int)

  datatype ViewState = Types | Rarities | Cards

  const LoadFailedMessage := "Ошибка загрузки"
  const CardsFailedMessage := "Ошибка загрузки карточек"
  const CardRoutePrefix := "/collection/card/"

  /** `types[key]`: the first entry with the key. */
  function EntryOf(types: seq<Api.TypeCount>, key: string): (e: Option<Api.TypeCount>)
    ensures e.None? <==> forall i | 0 <= i < |types| :: types[i].key != key
    ensures e.Some? ==> e.value in types && e.value.key == key
  {
    if |types| == 0 then None
    else if types[0].key == key then Some(types[0])
    else EntryOf(types[1..], key)
  }

  /** `Object.keys` of a rarity count table. */
  function CountKeys(m: Api.Counts): (keys: seq<string>)
    ensures |keys| == |m|
    ensures forall i | 0 <= i < |m| :: keys[i] == m[i].0
  {
    if |m| == 0 then [] else [m[0].0] + CountKeys(m[1..])
  }

  /** `order.filter(r => present.includes(r))`. */
  function InOrder(order: seq<string>, present: seq<string>): (r: seq<string>)
    ensures forall x :: x in r <==> x in order && x in present
    ensures |r| <= |order|
  {
    if |order| == 0 then []
    else if order[0] in present then [order[0]] + InOrder(order[1..], present)
    else InOrder(order[1..], present)
  }

  /** The rarities of `s` rise strictly in rarity value. */
  predicate Increasing(s: seq<string>) {
    forall i, j | 0 <= i < j < |s| :: Gadgets.RarityValue(s[i]) < Gadgets.RarityValue(s[j])
  }

  lemma ConsIncreasing(h: string, rest: seq<string>)
    requires Increasing(rest)
    requires forall x | x in rest :: Gadgets.RarityValue(h) < Gadgets.RarityValue(x)
    ensures Increasing([h] + rest)
  {
    var s := [h] + rest;
    forall i, j | 0 <= i < j < |s|
      ensures Gadgets.RarityValue(s[i]) < Gadgets.RarityValue(s[j])
    {
      assert s[j] == rest[j - 1];
      if i > 0 {
        assert s[i] == rest[i - 1];
      }
    }
  }

  /** Filtering keeps an order that is strictly increasing in rarity value. */
  lemma {:induction false} InOrderIncreasing(order: seq<string>, present: seq<string>)
    requires Increasing(order)
    ensures Increasing(InOrder(order, present))
  {
    if |order| > 0 {
      var tail := order[1..];
      assert Increasing(tail) by {
        forall i, j | 0 <= i < j < |tail|
          ensures Gadgets.RarityValue(tail[i]) < Gadgets.RarityValue(tail[j])
        {
          assert tail[i] == order[i + 1] && tail[j] == order[j + 1];
        }
      }
      InOrderIncreasing(tail, present);
      var rest := InOrder(tail, present);
      if order[0] in present {
        forall x | x in rest
          ensures Gadgets.RarityValue(order[0]) < Gadgets.RarityValue(x)
        {
          var k :| 0 <= k < |tail| && tail[k] == x;
          assert order[k + 1] == x;
        }
        ConsIncreasing(order[0], rest);
      }
    }
  }

  /** The rarity buttons of a type: the rarities the type has, in the
      Trash-to-Mythic order, each once. */
  function RarityButtons(present: seq<string>): (r: seq<string>)
    ensures forall x :: x in r <==> x in RarityOrder && x in present
    ensures Increasing(r)
  {
    Gadgets.RarityOrderIncreasing();
    InOrderIncreasing(RarityOrder, present);
    InOrder(RarityOrder, present)
  }

  /** Where a card button leads, with the page's selection as the route's
      state. */
  datatype Navigation = Navigation(path: string, typeKey: string, rarity: string)

  /** What the page renders below its header. */
  datatype Screen =
    | Loading
    | NoTypes
    | TypeList(types: seq<Api.TypeCount>)
    | RarityList(title: string, rarities: seq<string>)
    | NoCards
    | CardList(cards: seq<CardSummary>)
    | Blank

  class Collection {
    var viewState: ViewState
    var types: seq<Api.TypeCount>
    var selectedType: string
    var selectedRarity: string
    var cards: seq<CardSummary>
    var loading: bool
    var error: Option<string>

    /** The list of types has no selection, and cards are only held in
        the cards view. */
    ghost predicate Valid()
      reads this
    {
      && (viewState == Types ==> selectedType == "" && selectedRarity == "")
      && (viewState != Cards ==> cards == [])
    }

    /** The mount effect with `loadTypes`: the type counts are stored and
        the types are shown; a failed request shows its message. Loading
        is over either way. */
    constructor Mount(response: Outcome<seq<Api.TypeCount>>)
      ensures Valid() && viewState == Types && !loading && cards == []
      ensures selectedType == "" && selectedRarity == ""
      ensures response.Resolved? ==> types == response.data && error.None?
      ensures response.Rejected? ==> types == [] && error == Some(MessageOr(response.message, LoadFailedMessage))
    {
      viewState := Types;
      types := [];
      selectedType := "";
      selectedRarity := "";
      cards := [];
      loading := true;
      error := None;
      new;
      if response.Resolved? {
        types := response.data;
        viewState := Types;
      } else {
        error := Some(MessageOr(response.message, LoadFailedMessage));
      }
      loading := false;
    }

    /** `typeInfo`: the group of the selected type, none without one. */
    function TypeInfo(): (g: Option<TypeGroup>)
      reads this
      ensures selectedType == "" ==> g.None?
      ensures g.Some? ==> g.value in TypeGroups && g.value.key == selectedType
      ensures selectedType != "" && selectedType in TypeKeys(TypeGroups) ==> g.Some?
    {
      if selectedType == "" then None else GroupByKey(TypeGroups, selectedType)
    }

    /** `rarities`: the rarities counted for the selected type. */
    function PresentRarities(): (r: seq<string>)
      reads this
      ensures TypeInfo().None? || EntryOf(types, selectedType).None? ==> r == []
      ensures forall x :: x in r ==>
        && EntryOf(types, selectedType).Some?
        && x in CountKeys(EntryOf(types, selectedType).value.rarities)
    {
      if TypeInfo().Some? && EntryOf(types, selectedType).Some? then
        CountKeys(EntryOf(types, selectedType).value.rarities)
      else []
    }

    /** The rendered screen. */
    function View(): (s: Screen)
      reads this
      ensures s.TypeList? <==> viewState == Types && !loading && |types| > 0
      ensures s.RarityList? <==> viewState == Rarities && TypeInfo().Some?
      ensures s.RarityList? ==> s.rarities == RarityButtons(PresentRarities())
      ensures s.CardList? <==> viewState == Cards && !loading && |cards| > 0
      ensures s.CardList? ==> s.cards == cards
    {
      match viewState
      case Types => if loading then Loading else if |types| == 0 then NoTypes else TypeList(types)
      case Rarities =>
        if TypeInfo().Some? then RarityList(TypeInfo().value.name, RarityButtons(PresentRarities())) else Blank
      case Cards => if loading then Loading else if |cards| == 0 then NoCards else CardList(cards)
    }

    /** The back button is hidden in the types view. */
    function BackVisible(): (b: bool)
      reads this
      ensures b <==> viewState == Rarities || viewState == Cards
    {
      viewState != Types
    }

    /** `handleTypeSelect`, offered by the types list: the type is
        recorded and its rarities are shown. */
    method SelectType(key: string)
      requires Valid() && viewState == Types
      modifies this
      ensures Valid()
      ensures selectedType == key && viewState == Rarities
      ensures selectedRarity == old(selectedRarity) && cards == old(cards) && types == old(types)
      ensures loading == old(loading) && error == old(error)
    {
      selectedType := key;
      viewState := Rarities;
    }

    /** `handleRaritySelect`, offered by the rarity list: the rarity is
        recorded and the cards of the selected type and that rarity are
        requested; the cards view opens only when they arrive, a failure
        stays at the rarities with the error. */
    method SelectRarity(rarity: string, response: Outcome<seq<CardSummary>>) returns (request: (string, string))
      requires Valid() && viewState == Rarities
      modifies this
      ensures Valid()
      ensures request == (old(selectedType), rarity)
      ensures selectedRarity == rarity && selectedType == old(selectedType) && !loading
      ensures response.Resolved? ==> viewState == Cards && cards == response.data && error == old(error)
      ensures response.Rejected? ==>
        && viewState == Rarities && cards == old(cards)
        && error == Some(MessageOr(response.message, CardsFailedMessage))
      ensures types == old(types)
    {
      selectedRarity := rarity;
      loading := true;
      request := (selectedType, rarity);
      if response.Resolved? {
        cards := response.data;
        viewState := Cards;
      } else {
        error := Some(MessageOr(response.message, CardsFailedMessage));
      }
      loading := false;
    }

    /** `handleBack`: from the cards to the rarities, dropping the cards;
        from the rarities to the types, dropping the type and the rarity;
        nothing in the types view. */
    method Back()
      requires Valid()
      modifies this
      ensures Valid()
      ensures old(viewState) == Cards ==>
        viewState == Rarities && cards == [] && selectedType == old(selectedType) && selectedRarity == old(selectedRarity)
      ensures old(viewState) == Rarities ==>
        viewState == Types && selectedType == "" && selectedRarity == "" && cards == old(cards)
      ensures old(viewState) == Types ==>
        viewState == Types && selectedType == old(selectedType) && selectedRarity == old(selectedRarity) && cards == old(cards)
      ensures types == old(types) && loading == old(loading) && error == old(error)
    {
      if viewState == Cards {
        viewState := Rarities;
        cards := [];
      } else if viewState == Rarities {
        viewState := Types;
        selectedType := "";
        selectedRarity := "";
      }
    }

    /** `handleCardSelect`: the card's route, carrying the selection. */
    function CardRoute(cardId: int): (n: Navigation)
      reads this
      ensures StartsWith(n.path, CardRoutePrefix)
      ensures ParseInt(n.path[|CardRoutePrefix|..]) == Some(cardId)
      ensures n.typeKey == selectedType && n.rarity == selectedRarity
    {
      ParseIntOfDecimal(cardId);
      var path := CardRoutePrefix + IntToDecimal(cardId);
      assert path[|CardRoutePrefix|..] == IntToDecimal(cardId);
      Navigation(path, selectedType, selectedRarity)
    }
  }

  /** No handler clears the error once one is shown: going back, picking
      a type and picking a rarity, whatever the answer, keep it. */
  method ErrorStays(c: Collection, key: string, rarity: string, response: Outcome<seq<CardSummary>>)
    requires c.Valid() && c.viewState == Types && c.error.Some?
    modifies c
    ensures c.error.Some?
  {
    c.SelectType(key);
    var _ := c.SelectRarity(rarity, response);
    c.Back();
    if c.viewState == Rarities {
      c.Back();
    }
  }
}
