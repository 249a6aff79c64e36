/**
 Properties that span components: what the asset card's guard rules out in
 the modals it opens, and how purchases and new listings show in search.
 */
module Flows {
  import opened Optional
  import opened Types
  import opened Seqs
  import opened Market
  import AssetCard
  import Purchase
  import Chat
  import DueDiligence
  import Search
  import CreateAsset

  /** The card refuses to open the purchase modal for the seller, while the
      modal on its own would record the seller as the buyer. */
  lemma CardBlocksSelfPurchase(db: Db, seller: User, asset: DigitalAsset, now: Timestamp)
    requires seller.id == asset.seller.id
    ensures AssetCard.HandlePurchaseClick(AssetCard.AllClosed, Some(seller), asset) == (AssetCard.AllClosed, Some(AssetCard.OwnAsset))
    ensures var r := Purchase.HandlePurchase(db, Some(seller), asset, true, now, {});
      r.closed && r.db.transactions[|db.transactions|].buyerId == r.db.transactions[|db.transactions|].sellerId
  {
    Purchase.ModalAllowsSelfPurchase(db, seller, asset, now);
  }

  /** A chat the card opens is keyed by the asset, the signed-in user as
      buyer and the seller as seller, and the two parties differ. */
  lemma ChatFromCardIsWithSeller(user: User, asset: DigitalAsset)
    requires AssetCard.HandleChatClick(AssetCard.AllClosed, Some(user), asset).0.chatOpen
    ensures user.id != asset.seller.id
    ensures Chat.KeyFor(user, asset, AssetCard.ChatCounterparty(asset)) == Chat.Key(asset.id, user.id, asset.seller.id)
  {
  }

  /** The card opens the due-diligence modal only for a user who is not the
      seller, and that user never sees the Verify and Reject buttons. */
  lemma DiligenceFromCardShowsNoVerdicts(user: User, asset: DigitalAsset, items: seq<DueDiligence.VerificationItem>)
    requires AssetCard.HandleDueDiligenceClick(AssetCard.AllClosed, Some(user), asset).0.dueDiligenceOpen
    ensures forall i :: 0 <= i < |items| ==> !DueDiligence.ShowsVerdictButtons(items[i], Some(user), asset)
  {
  }

  /** After a completed purchase the asset is pending, so no search lists it. */
  lemma PurchasedAssetLeavesSearch(db: Db, user: Option<User>, asset: DigitalAsset, agreed: bool, now: Timestamp,
                                   failing: set<Purchase.Call>, query: string)
    requires Purchase.HandlePurchase(db, user, asset, agreed, now, failing).closed
    ensures var after := Purchase.HandlePurchase(db, user, asset, agreed, now, failing).db;
      forall i :: 0 <= i < |Search.Query(Search.Rows(after), query)| ==>
        Search.Query(Search.Rows(after), query)[i].asset.id != asset.id
  {
    var after := Purchase.HandlePurchase(db, user, asset, agreed, now, failing).db;
    var rows := Search.Rows(after);
    var r := Search.Query(rows, query);
    forall i | 0 <= i < |r|
      ensures r[i].asset.id != asset.id
    {
      assert r[i] in rows && Search.IsHit(r[i], query);
      var j :| 0 <= j < |rows| && rows[j] == r[i];
      assert rows[j].asset == after.listings[j];
    }
  }

  /** A new listing is stored pending review: submitting it changes no
      search's results. */
  lemma NewListingLeavesSearchUnchanged(db: Db, form: CreateAsset.Form, user: User, parseFloat: string -> Money,
                                        parseInt: string -> int, now: Timestamp, query: string)
    ensures var after := CreateAsset.HandleSubmit(db, form, Some(user), parseFloat, parseInt, now, false).db;
      Search.Query(Search.Rows(after), query) == Search.Query(Search.Rows(db), query)
  {
    var r := CreateAsset.HandleSubmit(db, form, Some(user), parseFloat, parseInt, now, false);
    if r.closed {
      var n := |db.listings|;
      var l := r.db.listings[n];
      assert r.db.listings == db.listings + [l];
      Search.RowsAppend(db, r.db, l);
      Search.HitsAppend(Search.Rows(db), Search.Rows(r.db)[n], query);
      Search.QueryFollowsHits(Search.Rows(r.db), Search.Rows(db), query);
    }
  }
}
