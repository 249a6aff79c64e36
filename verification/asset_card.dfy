/**
 The asset card's three action buttons. Each checks, in this order, that a
 user is signed in and that the user is not the asset's seller, and only
 then opens its own modal.
 */
module AssetCard {
  import opened Optional
  import opened Types
  import Chat

  datatype CardState = CardState(purchaseOpen: bool, chatOpen: bool, dueDiligenceOpen: bool)

  const AllClosed := CardState(false, false, false)

  /** Why a button refused to open its modal. */
  datatype Refusal = SignInRequired | OwnAsset

  /** The rule the three buttons share: signing in comes first, then the
      user must not be the seller. */
  function RefusalFor(user: Option<User>, asset: DigitalAsset): (r: Option<Refusal>)
    ensures r == Some(SignInRequired) <==> user.None?
    ensures r == Some(OwnAsset) <==> user.Some? && user.value.id == asset.seller.id
    ensures r.None? <==> user.Some? && user.value.id != asset.seller.id
  {
    if user.None? then Some(SignInRequired)
    else if user.value.id == asset.seller.id then Some(OwnAsset)
    else None
  }

  /** `handlePurchaseClick`. */
  function HandlePurchaseClick(s: CardState, user: Option<User>, asset: DigitalAsset): (r: (CardState, Option<Refusal>))
    ensures r.1 == RefusalFor(user, asset)
    ensures r.1.Some? ==> r.0 == s
    ensures r.1.None? ==> r.0 == s.(purchaseOpen := true)
  {
    if user.None? then (s, Some(SignInRequired))
    else if user.value.id == asset.seller.id then (s, Some(OwnAsset))
    else (s.(purchaseOpen := true), None)
  }

  /** `handleChatClick`. */
  function HandleChatClick(s: CardState, user: Option<User>, asset: DigitalAsset): (r: (CardState, Option<Refusal>))
    ensures r.1 == RefusalFor(user, asset)
    ensures r.1.Some? ==> r.0 == s
    ensures r.1.None? ==> r.0 == s.(chatOpen := true)
  {
    if user.None? then (s, Some(SignInRequired))
    else if user.value.id == asset.seller.id then (s, Some(OwnAsset))
    else (s.(chatOpen := true), None)
  }

  /** `handleDueDiligenceClick`. */
  function HandleDueDiligenceClick(s: CardState, user: Option<User>, asset: DigitalAsset): (r: (CardState, Option<Refusal>))
    ensures r.1 == RefusalFor(user, asset)
    ensures r.1.Some? ==> r.0 == s
    ensures r.1.None? ==> r.0 == s.(dueDiligenceOpen := true)
  {
    if user.None? then (s, Some(SignInRequired))
    else if user.value.id == asset.seller.id then (s, Some(OwnAsset))
    else (s.(dueDiligenceOpen := true), None)
  }

  /** From a card with every modal closed, a refused click leaves them all
      closed, and an accepted one opens exactly its own. */
  lemma ClicksOpenOnlyTheirModal(user: Option<User>, asset: DigitalAsset)
    ensures var p := HandlePurchaseClick(AllClosed, user, asset).0;
      var c := HandleChatClick(AllClosed, user, asset).0;
      var d := HandleDueDiligenceClick(AllClosed, user, asset).0;
      if RefusalFor(user, asset).Some? then p == AllClosed && c == AllClosed && d == AllClosed
      else p == CardState(true, false, false) && c == CardState(false, true, false) && d == CardState(false, false, true)
  {
  }

  /** The card always opens the chat with the asset's seller. */
  function ChatCounterparty(asset: DigitalAsset): (r: Chat.Counterparty)
    ensures r.id == asset.seller.id && r.name == asset.seller.name
  {
    Chat.Counterparty(asset.seller.id, asset.seller.name)
  }
}
