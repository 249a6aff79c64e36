/**
 The entities shared by every component: a listed digital asset, the user who
 sells or buys it, the browse-view filter state and a purchase transaction.
 Identifiers are opaque naturals, timestamps are integers (the parsing of
 date strings is not modelled) and amounts of money are reals.
 */
module Types {
  import opened Optional

  type Id = nat
  type Timestamp = int
  type Money = real

  /** The four kinds of asset the marketplace lists. */
  datatype Category = Website | App | Domain | Saas

  /** The name a category has in the backend and in the forms. */
  function CategoryName(c: Category): string {
    match c
    case Website => "website"
    case App => "app"
    case Domain => "domain"
    case Saas => "saas"
  }

  /** Reads a category name back; only the four names are categories. */
  function CategoryFromName(s: string): (r: Option<Category>)
    ensures forall c :: r == Some(c) <==> CategoryName(c) == s
  {
    if s == "website" then Some(Website)
    else if s == "app" then Some(App)
    else if s == "domain" then Some(Domain)
    else if s == "saas" then Some(Saas)
    else None
  }

  /** The lifecycle of a listing: a purchase moves it from active to pending. */
  datatype AssetStatus = Active | Pending | Sold

  /** Both counts are present whenever traffic statistics are. */
  datatype TrafficStats = TrafficStats(monthlyVisitors: int, pageViews: int)

  datatype User = User(
    id: Id,
    name: string,
    email: string,
    avatar: Option<string>,
    rating: real,
    verified: bool,
    joinedAt: Timestamp)

  datatype DigitalAsset = DigitalAsset(
    id: Id,
    title: string,
    description: string,
    category: Category,
    price: Money,
    monthlyRevenue: Option<Money>,
    monthlyProfit: Option<Money>,
    trafficStats: Option<TrafficStats>,
    createdAt: Timestamp,
    seller: User,
    status: AssetStatus)

  /** The orderings the browse view offers. */
  datatype SortKey = ByPrice | ByRevenue | ByDate

  /** The browse-view filter state; every field may be unset. The category is
      free text because the filter select passes its option value through. */
  datatype AssetFilters = AssetFilters(
    category: Option<string>,
    minPrice: Option<real>,
    maxPrice: Option<real>,
    minRevenue: Option<real>,
    sortBy: Option<SortKey>)

  datatype TransactionStatus = TransactionPending | Completed | Cancelled

  datatype Transaction = Transaction(
    id: Id,
    assetId: Id,
    buyerId: Id,
    sellerId: Id,
    amount: Money,
    status: TransactionStatus,
    createdAt: Timestamp,
    updatedAt: Timestamp)
}
