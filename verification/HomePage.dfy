/** The home page of the mini-app: the coin balance and the draw button
    with its reel. `handleDrawCard` awaits the server, so it is split at
    the request: the part before it and the part after the answer are one
    atomic state change each. */
module HomePage {
  import opened Wrappers

  /** The drawn card and its gadget, as far as the page shows them. */
  datatype DrawnCard = DrawnCard(cardId: int, rarity: string, gadgetName: string, category: string, price: int)

  /** The answer of `drawCard`: the card and the user's new balance. */
  datatype DrawReply = DrawReply(drawn: DrawnCard, coins: int)

  const UserFailedMessage := "Ошибка загрузки данных пользователя"
  const DrawFailedMessage := "Ошибка при получении карточки"

  /** What the page shows under its header: the reel while it runs, then
      the drawn card, else the draw button with any error. */
  datatype Screen =
    | Reel(reelCard: Option<DrawnCard>)
    | Revealed(drawn: DrawnCard)
    | DrawButton(error: Option<string>, disabled: bool)

  class Home {
    var coins: int
    var loading: bool
    var drawnCard: Option<DrawnCard>
    var showReel: bool
    var error: Option<string>

    /** No card is held while a draw is under way. */
    ghost predicate Valid()
      reads this
    {
      loading ==> drawnCard.None?
    }

    constructor()
      ensures Valid() && coins == 0 && !loading && drawnCard.None? && !showReel && error.None?
    {
      coins := 0;
      loading := false;
      drawnCard := None;
      showReel := false;
      error := None;
    }

    /** `loadUser`, once its request is answered: the balance is shown, or
        the failure's message. */
    method LoadUser(response: Outcome<int>)
      requires Valid()
      modifies this
      ensures Valid()
      ensures response.Resolved? ==> coins == response.data && error == old(error)
      ensures response.Rejected? ==> coins == old(coins) && error == Some(MessageOr(response.message, UserFailedMessage))
      ensures loading == old(loading) && drawnCard == old(drawnCard) && showReel == old(showReel)
    {
      if response.Resolved? {
        coins := response.data;
      } else {
        error := Some(MessageOr(response.message, UserFailedMessage));
      }
    }

    /** `handleDrawCard` up to the request: nothing while a draw is under
        way; otherwise loading starts, the error and the card are dropped
        and the reel is shown. */
    method BeginDraw() returns (started: bool)
      requires Valid()
      modifies this
      ensures Valid()
      ensures started <==> !old(loading)
      ensures !started ==>
        && loading && drawnCard == old(drawnCard) && showReel == old(showReel) && error == old(error)
      ensures started ==> loading && error.None? && showReel && drawnCard.None?
      ensures coins == old(coins)
    {
      if loading {
        return false;
      }
      loading := true;
      error := None;
      showReel := true;
      drawnCard := None;
      started := true;
    }

    /** The rest of `handleDrawCard`, once the server answers: the card
        and the new balance are kept, or the error is shown and the reel
        hidden. Loading ends either way. */
    method FinishDraw(response: Outcome<DrawReply>)
      requires Valid() && loading
      modifies this
      ensures Valid() && !loading
      ensures response.Resolved? ==>
        && drawnCard == Some(response.data.drawn) && coins == response.data.coins
        && showReel == old(showReel) && error == old(error)
      ensures response.Rejected? ==>
        && drawnCard == old(drawnCard) && coins == old(coins)
        && !showReel && error == Some(MessageOr(response.message, DrawFailedMessage))
    {
      if response.Resolved? {
        drawnCard := Some(response.data.drawn);
        coins := response.data.coins;
      } else {
        error := Some(MessageOr(response.message, DrawFailedMessage));
        showReel := false;
      }
      loading := false;
    }

    /** `handleReelComplete`: the reel is hidden; the card stays. */
    method ReelComplete()
      requires Valid()
      modifies this
      ensures Valid() && !showReel
      ensures drawnCard == old(drawnCard) && coins == old(coins) && loading == old(loading) && error == old(error)
    {
      showReel := false;
    }

    /** The "draw again" button of the revealed card: the card is dropped
        and a new draw begins. */
    method DrawAgain() returns (started: bool)
      requires Valid()
      modifies this
      ensures Valid()
      ensures started <==> !old(loading)
      ensures drawnCard.None? && loading && coins == old(coins)
      ensures started ==> error.None? && showReel
    {
      drawnCard := None;
      started := BeginDraw();
    }

    /** The rendered screen. */
    function View(): (s: Screen)
      reads this
      ensures showReel ==> s == Reel(drawnCard)
      ensures !showReel && drawnCard.Some? ==> s == Revealed(drawnCard.value)
      ensures !showReel && drawnCard.None? ==> s == DrawButton(error, loading)
    {
      if showReel then Reel(drawnCard)
      else if drawnCard.Some? then Revealed(drawnCard.value)
      else DrawButton(error, loading)
    }
  }

  /** A whole draw: the button starts it, the server's card and balance
      arrive, and once the reel stops the card is revealed with the new
      balance and no error. */
  method DrawAndReveal(h: Home, reply: DrawReply)
    requires h.Valid() && !h.loading
    modifies h
    ensures h.Valid() && !h.loading
    ensures h.View() == Revealed(reply.drawn) && h.coins == reply.coins && h.error.None?
  {
    var started := h.BeginDraw();
    h.FinishDraw(Resolved(reply));
    h.ReelComplete();
  }

  /** A failed draw leaves the button enabled with the error, and the
      balance as it was. */
  method FailedDrawShowsError(h: Home, message: string)
    requires h.Valid() && !h.loading
    modifies h
    ensures h.Valid() && !h.loading && h.coins == old(h.coins)
    ensures h.View() == DrawButton(Some(MessageOr(message, DrawFailedMessage)), false)
    ensures h.error.Some? && h.error.value != []
  {
    var started := h.BeginDraw();
    h.FinishDraw(Rejected(message));
  }
}
