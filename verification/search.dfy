/**
 The search modal's effect on the debounced query: the whitespace
 short-circuit, an in-memory statement of the backend query (active assets
 whose title or description contains the query ignoring case, newest first,
 at most five), and the normaliser from a response row to a `DigitalAsset`.
 */
module Search {
  import opened Optional
  import opened Types
  import opened Text
  import opened Seqs
  import opened Market

  const ResultLimit: nat := 5

  /** The embedded seller: the profile columns the query selects. */
  datatype SellerRow = SellerRow(
    id: Id,
    name: string,
    avatar_url: Option<string>,
    rating: real,
    verified: bool,
    joined_at: Timestamp)

  /** A response row: every column of the asset row, and the embedded seller,
      which is null when no profile has the asset's `seller_id`. */
  datatype SearchRow = SearchRow(asset: Listing, seller: Option<SellerRow>)

  function SellerColumns(p: Profile): SellerRow {
    SellerRow(p.id, p.name, p.avatar_url, p.rating, p.verified, p.joined_at)
  }

  /** The assets table with each row's seller profile embedded. */
  function Rows(db: Db): (r: seq<SearchRow>)
    ensures |r| == |db.listings|
    ensures forall i :: 0 <= i < |r| ==> r[i].asset == db.listings[i]
    ensures forall i :: 0 <= i < |r| ==>
      (r[i].seller.Some? <==> exists k :: 0 <= k < |db.profiles| && db.profiles[k].id == db.listings[i].seller_id)
    ensures forall i :: 0 <= i < |r| && r[i].seller.Some? ==>
      && r[i].seller.value.id == db.listings[i].seller_id
      && exists k :: 0 <= k < |db.profiles| && r[i].seller.value == SellerColumns(db.profiles[k])
  {
    seq(|db.listings|, i requires 0 <= i < |db.listings| =>
      var p := ProfileOf(db.profiles, db.listings[i].seller_id);
      SearchRow(db.listings[i], if p.Some? then Some(SellerColumns(p.value)) else None))
  }

  /** The query's `or` of two case-insensitive substring tests. */
  predicate MatchesQuery(title: string, description: string, query: string) {
    ContainsIgnoringCase(title, query) || ContainsIgnoringCase(description, query)
  }

  /** A row the query selects: an active asset matching the query. */
  predicate IsHit(row: SearchRow, query: string) {
    row.asset.status == Active && MatchesQuery(row.asset.title, row.asset.description, query)
  }

  function NewestFirst(rows: seq<SearchRow>): (r: seq<SearchRow>)
    ensures multiset(r) == multiset(rows)
    ensures forall i, j :: 0 <= i < j < |r| ==> r[i].asset.created_at >= r[j].asset.created_at
  {
    var key := (row: SearchRow) => -row.asset.created_at;
    var r := SortBy(rows, key);
    assert forall i, j :: 0 <= i < j < |r| ==> key(r[i]) <= key(r[j]);
    r
  }

  /** Appending a listing, with the profiles unchanged, appends one joined row. */
  lemma RowsAppend(db: Db, after: Db, l: Listing)
    requires after.profiles == db.profiles && after.listings == db.listings + [l]
    ensures Rows(after) == Rows(db) + [Rows(after)[|db.listings|]]
    ensures Rows(after)[|db.listings|].asset == l
  {
    var n := |db.listings|;
    forall i | 0 <= i < n
      ensures Rows(after)[i] == Rows(db)[i]
    {
      assert after.listings[i] == db.listings[i];
    }
  }

  /** The rows the query's conditions select, in table order. */
  function Hits(rows: seq<SearchRow>, query: string): (r: seq<SearchRow>)
    ensures forall i :: 0 <= i < |r| ==> r[i] in rows && IsHit(r[i], query)
    ensures forall i :: 0 <= i < |rows| && IsHit(rows[i], query) ==> rows[i] in r
  {
    Filter(rows, row => IsHit(row, query))
  }

  /** Adding a row to the table adds it to the hits exactly when it is one. */
  lemma HitsAppend(rows: seq<SearchRow>, x: SearchRow, query: string)
    ensures Hits(rows + [x], query) == Hits(rows, query) + (if IsHit(x, query) then [x] else [])
  {
    FilterAppend(rows, x, row => IsHit(row, query));
  }

  /** The query's answer depends only on the hits. */
  lemma QueryFollowsHits(a: seq<SearchRow>, b: seq<SearchRow>, query: string)
    requires Hits(a, query) == Hits(b, query)
    ensures Query(a, query) == Query(b, query)
  {
  }

  /** The backend query of the search modal, over the joined rows. */
  function Query(rows: seq<SearchRow>, query: string): (r: seq<SearchRow>)
    ensures |r| <= ResultLimit
    ensures |r| == Min(ResultLimit, |Hits(rows, query)|)
    ensures forall i :: 0 <= i < |r| ==> r[i] in rows && IsHit(r[i], query)
    ensures multiset(r) <= multiset(Hits(rows, query))
    ensures forall i, j :: 0 <= i < j < |r| ==> r[i].asset.created_at >= r[j].asset.created_at
    ensures forall x, y :: x in rows && IsHit(x, query) && x !in r && y in r ==>
      y.asset.created_at >= x.asset.created_at
  {
    var hits := Hits(rows, query);
    var sorted := NewestFirst(hits);
    var r := Take(sorted, ResultLimit);
    TopOfHits(rows, query, hits, sorted, r);
    r
  }

  /** The first rows of the hits sorted newest first keep every promise of
      `Query`. */
  lemma TopOfHits(rows: seq<SearchRow>, query: string, hits: seq<SearchRow>, sorted: seq<SearchRow>, r: seq<SearchRow>)
    requires forall i :: 0 <= i < |hits| ==> hits[i] in rows && IsHit(hits[i], query)
    requires forall i :: 0 <= i < |rows| && IsHit(rows[i], query) ==> rows[i] in hits
    requires multiset(sorted) == multiset(hits)
    requires forall i, j :: 0 <= i < j < |sorted| ==> sorted[i].asset.created_at >= sorted[j].asset.created_at
    requires |r| == Min(ResultLimit, |sorted|) && r == sorted[..|r|]
    requires multiset(r) <= multiset(sorted)
    ensures |r| == Min(ResultLimit, |hits|)
    ensures forall i :: 0 <= i < |r| ==> r[i] in rows && IsHit(r[i], query)
    ensures multiset(r) <= multiset(hits)
    ensures forall i, j :: 0 <= i < j < |r| ==> r[i].asset.created_at >= r[j].asset.created_at
    ensures forall x, y :: x in rows && IsHit(x, query) && x !in r && y in r ==>
      y.asset.created_at >= x.asset.created_at
  {
    assert |sorted| == |multiset(sorted)| == |hits|;
    forall i | 0 <= i < |r|
      ensures r[i] in hits
    {
      assert r[i] == sorted[i];
      assert sorted[i] in multiset(sorted);
    }
    TopIsNewest(rows, query, hits, sorted, r);
  }

  lemma TopIsNewest(rows: seq<SearchRow>, query: string, hits: seq<SearchRow>, sorted: seq<SearchRow>, r: seq<SearchRow>)
    requires forall i :: 0 <= i < |rows| && IsHit(rows[i], query) ==> rows[i] in hits
    requires multiset(sorted) == multiset(hits)
    requires forall i, j :: 0 <= i < j < |sorted| ==> sorted[i].asset.created_at >= sorted[j].asset.created_at
    requires |r| <= |sorted| && r == sorted[..|r|]
    ensures forall x, y :: x in rows && IsHit(x, query) && x !in r && y in r ==>
      y.asset.created_at >= x.asset.created_at
  {
    forall x, y | x in rows && IsHit(x, query) && x !in r && y in r
      ensures y.asset.created_at >= x.asset.created_at
    {
      assert x in multiset(sorted);
      var j :| 0 <= j < |sorted| && sorted[j] == x;
      var k :| 0 <= k < |r| && r[k] == y;
      assert sorted[k] == y;
      assert j >= |r|;
    }
  }

  /** The seller as a search result shows it: the email is never exposed. */
  function SellerView(s: SellerRow): User {
    User(s.id, s.name, "", s.avatar_url, s.rating, s.verified, s.joined_at)
  }

  /** `n || 0` for a nullable count. */
  function CountOrZero(n: Option<int>): int {
    if n.Some? then n.value else 0
  }

  /** The normaliser as it should be: the asset's own fields carried over,
      the seller with the email blanked and the avatar taken from
      `avatar_url`, traffic counts defaulted to 0. It fails (the mapping
      throws) when the row has no seller. */
  function Normalise(row: SearchRow): (r: Option<DigitalAsset>)
    ensures r.Some? <==> row.seller.Some?
    ensures r.Some? ==> var a, l, s := r.value, row.asset, row.seller.value;
      && a.id == l.id && a.title == l.title && a.description == l.description
      && a.category == l.category && a.price == l.price && a.status == l.status
      && a.createdAt == l.created_at
      && a.monthlyRevenue == l.monthly_revenue && a.monthlyProfit == l.monthly_profit
      && a.seller.email == ""
      && a.seller.id == s.id && a.seller.name == s.name && a.seller.avatar == s.avatar_url
      && a.seller.rating == s.rating && a.seller.verified == s.verified
      && a.seller.joinedAt == s.joined_at
      && a.trafficStats.Some?
      && a.trafficStats.value.monthlyVisitors == (if l.monthly_visitors.Some? then l.monthly_visitors.value else 0)
      && a.trafficStats.value.pageViews == (if l.page_views.Some? then l.page_views.value else 0)
  {
    match row.seller
    case None => None
    case Some(s) =>
      var l := row.asset;
      Some(DigitalAsset(
        l.id, l.title, l.description, l.category, l.price,
        l.monthly_revenue, l.monthly_profit,
        Some(TrafficStats(CountOrZero(l.monthly_visitors), CountOrZero(l.page_views))),
        l.created_at, SellerView(s), l.status))
  }

  /** The normaliser as written: it spreads the row, whose revenue and profit
      columns are `monthly_revenue` and `monthly_profit`, so the
      `monthlyRevenue` and `monthlyProfit` a `DigitalAsset` is read through
      are never set. Everything else is as `Normalise` gives it. */
  function NormaliseAsWritten(row: SearchRow): (r: Option<DigitalAsset>)
    ensures r.Some? <==> row.seller.Some?
    ensures r.Some? ==> r.value.monthlyRevenue.None? && r.value.monthlyProfit.None?
    ensures r.Some? ==> r.value == Normalise(row).value.(monthlyRevenue := None, monthlyProfit := None)
  {
    match Normalise(row)
    case None => None
    case Some(a) => Some(a.(monthlyRevenue := None, monthlyProfit := None))
  }

  /** A search hit with a recorded revenue shows none. */
  lemma AsWrittenDropsRevenue(row: SearchRow)
    requires row.seller.Some? && row.asset.monthly_revenue.Some?
    ensures NormaliseAsWritten(row).value.monthlyRevenue != row.asset.monthly_revenue
    ensures Normalise(row).value.monthlyRevenue == row.asset.monthly_revenue
  {
  }

  /** `data.map(...)` with the row mapping `norm`: every row mapped in order,
      or a failure as soon as the mapping fails on one row. */
  function MapRows(rows: seq<SearchRow>, norm: SearchRow -> Option<DigitalAsset>): (r: Option<seq<DigitalAsset>>)
    ensures r.Some? <==> forall i :: 0 <= i < |rows| ==> norm(rows[i]).Some?
    ensures r.Some? ==> |r.value| == |rows| && forall i :: 0 <= i < |rows| ==> norm(rows[i]) == Some(r.value[i])
  {
    if |rows| == 0 then Some([])
    else
      var head, rest := norm(rows[0]), MapRows(rows[1..], norm);
      if head.Some? && rest.Some? then Some([head.value] + rest.value) else None
  }

  datatype SearchView = SearchView(results: seq<DigitalAsset>, loading: bool)

  /** The view after the effect, and whether a backend request was made. */
  datatype SearchStep = SearchStep(view: SearchView, requested: bool)

  /** What a shown result promises: at most five, all active, newest first,
      each matching the query, no seller email. */
  ghost predicate ValidResults(results: seq<DigitalAsset>, query: string) {
    && |results| <= ResultLimit
    && (forall i :: 0 <= i < |results| ==>
         && results[i].status == Active
         && results[i].seller.email == ""
         && MatchesQuery(results[i].title, results[i].description, query))
    && (forall i, j :: 0 <= i < j < |results| ==> results[i].createdAt >= results[j].createdAt)
  }

  /** `searchAssets` for the debounced query, as written. A query that trims
      to nothing clears the results without a request. Otherwise the request
      is made with the untrimmed query; the results become the top hits
      mapped as written, so without revenue or profit. On an error (`fails`,
      or a hit with no seller, on which the mapping throws) the results stay
      as they were. */
  function SearchAssets(v: SearchView, debounced: string, db: Db, fails: bool): (r: SearchStep)
    ensures r.requested <==> !AllWhitespace(debounced)
    ensures !r.requested ==> r.view == v.(results := [])
    ensures r.requested ==> !r.view.loading
    ensures r.requested ==>
      var shown := MapRows(Query(Rows(db), debounced), NormaliseAsWritten);
      r.view.results == if !fails && shown.Some? then shown.value else v.results
    ensures r.requested ==> r.view.results == v.results || ValidResults(r.view.results, debounced)
    ensures r.requested && r.view.results != v.results ==>
      forall i :: 0 <= i < |r.view.results| ==> r.view.results[i].monthlyRevenue.None? && r.view.results[i].monthlyProfit.None?
  {
    if Trim(debounced) == "" then SearchStep(v.(results := []), false)
    else if fails then SearchStep(v.(loading := false), true)
    else
      var hits := Query(Rows(db), debounced);
      var results := MapRows(hits, NormaliseAsWritten);
      if results.Some? then
        NormalisedHitsValid(hits, results.value, debounced);
        SearchStep(SearchView(results.value, false), true)
      else SearchStep(v.(loading := false), true)
  }

  /** `searchAssets` with the corrected mapping: as `SearchAssets`, except that
      each result carries its listing's revenue and profit. */
  function SearchAssetsCorrected(v: SearchView, debounced: string, db: Db, fails: bool): (r: SearchStep)
    ensures r.requested <==> !AllWhitespace(debounced)
    ensures !r.requested ==> r.view == v.(results := [])
    ensures r.requested ==> !r.view.loading
    ensures r.requested ==>
      var shown := MapRows(Query(Rows(db), debounced), Normalise);
      r.view.results == if !fails && shown.Some? then shown.value else v.results
    ensures r.requested ==> r.view.results == v.results || ValidResults(r.view.results, debounced)
    ensures r.requested && !fails && r.view.results != v.results ==>
      var hits := Query(Rows(db), debounced);
      |r.view.results| == |hits| && forall i :: 0 <= i < |hits| ==>
        && r.view.results[i].monthlyRevenue == hits[i].asset.monthly_revenue
        && r.view.results[i].monthlyProfit == hits[i].asset.monthly_profit
  {
    if Trim(debounced) == "" then SearchStep(v.(results := []), false)
    else if fails then SearchStep(v.(loading := false), true)
    else
      var hits := Query(Rows(db), debounced);
      var results := MapRows(hits, Normalise);
      if results.Some? then
        NormalisedHitsValid(hits, results.value, debounced);
        SearchStep(SearchView(results.value, false), true)
      else SearchStep(v.(loading := false), true)
  }

  /** Mapping the query's rows keeps every promise the query makes, whether
      or not revenue and profit are carried over. */
  lemma NormalisedHitsValid(hits: seq<SearchRow>, results: seq<DigitalAsset>, query: string)
    requires |hits| <= ResultLimit
    requires forall i :: 0 <= i < |hits| ==> IsHit(hits[i], query)
    requires forall i, j :: 0 <= i < j < |hits| ==> hits[i].asset.created_at >= hits[j].asset.created_at
    requires |results| == |hits|
    requires forall i :: 0 <= i < |hits| ==>
      && Normalise(hits[i]).Some?
      && results[i] == Normalise(hits[i]).value.(monthlyRevenue := results[i].monthlyRevenue, monthlyProfit := results[i].monthlyProfit)
    ensures ValidResults(results, query)
  {
    forall i, j | 0 <= i < j < |results|
      ensures results[i].createdAt >= results[j].createdAt
    {
      assert results[i].createdAt == hits[i].asset.created_at;
      assert results[j].createdAt == hits[j].asset.created_at;
    }
  }
}
