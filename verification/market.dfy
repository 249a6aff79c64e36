/**
 The backend tables behind listing, searching and purchasing, held in memory:
 seller profiles, listed assets and transactions. Row fields keep the
 backend's lower-case-with-underscores names. The backend assigns every new
 row the next unused identifier and stamps it with the time of insertion.
 */
module Market {
  import opened Optional
  import opened Types

  /** A row of the `profiles` table. */
  datatype Profile = Profile(
    id: Id,
    name: string,
    email: string,
    avatar_url: Option<string>,
    rating: real,
    verified: bool,
    joined_at: Timestamp)

  /** A row of the `assets` table. */
  datatype Listing = Listing(
    id: Id,
    seller_id: Id,
    title: string,
    description: string,
    category: Category,
    price: Money,
    monthly_revenue: Option<Money>,
    monthly_profit: Option<Money>,
    monthly_visitors: Option<int>,
    page_views: Option<int>,
    status: AssetStatus,
    created_at: Timestamp)

  datatype Db = Db(
    profiles: seq<Profile>,
    listings: seq<Listing>,
    transactions: seq<Transaction>,
    nextId: Id)

  /** The profile with identifier `id`, as a join on it finds it. */
  function ProfileOf(profiles: seq<Profile>, id: Id): (r: Option<Profile>)
    ensures r.Some? ==> r.value in profiles && r.value.id == id
    ensures r.None? ==> forall i :: 0 <= i < |profiles| ==> profiles[i].id != id
  {
    if |profiles| == 0 then None
    else if profiles[0].id == id then Some(profiles[0])
    else ProfileOf(profiles[1..], id)
  }

  /** `update({status}).eq('id', id)`: every row with identifier `id` takes the
      new status; nothing else in any row changes. */
  function SetListingStatus(listings: seq<Listing>, id: Id, status: AssetStatus): (r: seq<Listing>)
    ensures |r| == |listings|
    ensures forall i :: 0 <= i < |r| && listings[i].id == id ==> r[i] == listings[i].(status := status)
    ensures forall i :: 0 <= i < |r| && listings[i].id != id ==> r[i] == listings[i]
  {
    seq(|listings|, i requires 0 <= i < |listings| =>
      if listings[i].id == id then listings[i].(status := status) else listings[i])
  }
}
