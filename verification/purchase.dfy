/**
 The purchase modal's confirm button: it needs a signed-in user and the
 accepted terms, then writes a pending transaction and, only if that
 succeeded, marks the asset pending. The modal closes only when both writes
 succeed. It does not check who the buyer is; that check is the caller's.
 */
module Purchase {
  import opened Optional
  import opened Types
  import opened Market

  datatype Call = InsertTransaction | UpdateAsset

  datatype Failure = NotSignedIn | TermsNotAccepted | TransactionRejected | AssetUpdateRejected

  datatype Outcome = Outcome(db: Db, closed: bool, failure: Option<Failure>)

  /** `handlePurchase` by `user` at time `now`. */
  function HandlePurchase(db: Db, user: Option<User>, asset: DigitalAsset, agreed: bool, now: Timestamp, failing: set<Call>): (r: Outcome)
    ensures user.None? ==> r == Outcome(db, false, Some(NotSignedIn))
    ensures user.Some? && !agreed ==> r == Outcome(db, false, Some(TermsNotAccepted))
    ensures r.closed <==> r.failure.None?
    ensures r.failure == Some(TransactionRejected) <==> user.Some? && agreed && InsertTransaction in failing
    ensures r.failure == Some(AssetUpdateRejected) <==>
      user.Some? && agreed && InsertTransaction !in failing && UpdateAsset in failing
    ensures r.db.profiles == db.profiles
    ensures r.db.listings == if r.failure.None? then SetListingStatus(db.listings, asset.id, Pending) else db.listings
    ensures r.failure.Some? && r.failure != Some(AssetUpdateRejected) ==> r.db == db
    ensures r.failure.None? || r.failure == Some(AssetUpdateRejected) ==>
      && |r.db.transactions| == |db.transactions| + 1
      && r.db.transactions[..|db.transactions|] == db.transactions
      && var t := r.db.transactions[|db.transactions|];
         && t.assetId == asset.id && t.buyerId == user.value.id && t.sellerId == asset.seller.id
         && t.amount == asset.price && t.status == TransactionPending
  {
    if user.None? then Outcome(db, false, Some(NotSignedIn))
    else if !agreed then Outcome(db, false, Some(TermsNotAccepted))
    else if InsertTransaction in failing then Outcome(db, false, Some(TransactionRejected))
    else
      var t := Transaction(db.nextId, asset.id, user.value.id, asset.seller.id, asset.price, TransactionPending, now, now);
      var db1 := db.(transactions := db.transactions + [t], nextId := db.nextId + 1);
      if UpdateAsset in failing then Outcome(db1, false, Some(AssetUpdateRejected))
      else Outcome(db1.(listings := SetListingStatus(db.listings, asset.id, Pending)), true, None)
  }

  /** The modal alone lets a seller buy their own asset: the transaction is
      written with the seller as its buyer. */
  lemma ModalAllowsSelfPurchase(db: Db, seller: User, asset: DigitalAsset, now: Timestamp)
    requires seller.id == asset.seller.id
    ensures var r := HandlePurchase(db, Some(seller), asset, true, now, {});
      r.closed && r.db.transactions[|db.transactions|].buyerId == r.db.transactions[|db.transactions|].sellerId
  {
  }
}
