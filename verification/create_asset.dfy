/**
 The new-listing form: its initial state, the change handler, and the record
 the submit handler inserts. Text is parsed by `parseFloat` and `parseInt`,
 which are parameters here.
 */
module CreateAsset {
  import opened Optional
  import opened Types
  import opened Market

  datatype Field = Title | Description | CategoryField | Price | MonthlyRevenue | MonthlyProfit | MonthlyVisitors | PageViews

  /** The form state: every control holds text. */
  datatype Form = Form(
    title: string,
    description: string,
    category: string,
    price: string,
    monthlyRevenue: string,
    monthlyProfit: string,
    monthlyVisitors: string,
    pageViews: string)

  function FieldOf(f: Form, k: Field): string {
    match k
    case Title => f.title
    case Description => f.description
    case CategoryField => f.category
    case Price => f.price
    case MonthlyRevenue => f.monthlyRevenue
    case MonthlyProfit => f.monthlyProfit
    case MonthlyVisitors => f.monthlyVisitors
    case PageViews => f.pageViews
  }

  /** The form as the modal opens: category "website", every other field empty. */
  function InitialForm(): (f: Form)
    ensures FieldOf(f, CategoryField) == CategoryName(Website)
    ensures forall k :: k != CategoryField ==> FieldOf(f, k) == ""
  {
    Form("", "", "website", "", "", "", "", "")
  }

  /** `handleChange`: the named field takes the control's value; no other
      field changes. */
  function HandleChange(f: Form, name: Field, value: string): (r: Form)
    ensures FieldOf(r, name) == value
    ensures forall k :: k != name ==> FieldOf(r, k) == FieldOf(f, k)
  {
    match name
    case Title => f.(title := value)
    case Description => f.(description := value)
    case CategoryField => f.(category := value)
    case Price => f.(price := value)
    case MonthlyRevenue => f.(monthlyRevenue := value)
    case MonthlyProfit => f.(monthlyProfit := value)
    case MonthlyVisitors => f.(monthlyVisitors := value)
    case PageViews => f.(pageViews := value)
  }

  /** One change event from a control the form renders. There is no page-views
      input, and the category select offers only the four category names. */
  datatype Edit = Edit(name: Field, value: string)

  ghost predicate FromRenderedControl(e: Edit) {
    && e.name != PageViews
    && (e.name == CategoryField ==> CategoryFromName(e.value).Some?)
  }

  function ApplyEdits(f: Form, edits: seq<Edit>): Form
    decreases |edits|
  {
    if |edits| == 0 then f else ApplyEdits(HandleChange(f, edits[0].name, edits[0].value), edits[1..])
  }

  /** Whatever the user does with the rendered controls, the page-views field
      stays empty and the category stays a category name. */
  lemma {:induction false} RenderedControlsKeepForm(f: Form, edits: seq<Edit>)
    requires f.pageViews == "" && CategoryFromName(f.category).Some?
    requires forall i :: 0 <= i < |edits| ==> FromRenderedControl(edits[i])
    ensures ApplyEdits(f, edits).pageViews == ""
    ensures CategoryFromName(ApplyEdits(f, edits).category).Some?
    decreases |edits|
  {
    if |edits| > 0 {
      var f1 := HandleChange(f, edits[0].name, edits[0].value);
      assert FromRenderedControl(edits[0]);
      assert forall i :: 0 <= i < |edits| - 1 ==> edits[1..][i] == edits[i + 1];
      RenderedControlsKeepForm(f1, edits[1..]);
    }
  }

  /** The record `handleSubmit` inserts, before the backend adds an
      identifier and a creation time. */
  datatype NewListing = NewListing(
    seller_id: Id,
    title: string,
    description: string,
    category: string,
    price: Money,
    monthly_revenue: Option<Money>,
    monthly_profit: Option<Money>,
    monthly_visitors: Option<int>,
    page_views: Option<int>,
    status: AssetStatus)

  /** `text ? parse(text) : null`: an empty field is null, any other is parsed. */
  function Nullable<T>(text: string, parse: string -> T): (r: Option<T>)
    ensures text == "" <==> r.None?
    ensures r.Some? ==> r.value == parse(text)
  {
    if text != "" then Some(parse(text)) else None
  }

  /** The listing record for `seller`: owned by the seller, pending review,
      title, description and category copied verbatim, price parsed, and each
      optional number null when its field is empty. */
  function ListingRecord(form: Form, seller: User, parseFloat: string -> Money, parseInt: string -> int): (r: NewListing)
    ensures r.seller_id == seller.id && r.status == Pending
    ensures r.title == form.title && r.description == form.description && r.category == form.category
    ensures r.price == parseFloat(form.price)
    ensures r.monthly_revenue == Nullable(form.monthlyRevenue, parseFloat)
    ensures r.monthly_profit == Nullable(form.monthlyProfit, parseFloat)
    ensures r.monthly_visitors == Nullable(form.monthlyVisitors, parseInt)
    ensures r.page_views == Nullable(form.pageViews, parseInt)
  {
    NewListing(seller.id, form.title, form.description, form.category, parseFloat(form.price),
      Nullable(form.monthlyRevenue, parseFloat), Nullable(form.monthlyProfit, parseFloat),
      Nullable(form.monthlyVisitors, parseInt), Nullable(form.pageViews, parseInt), Pending)
  }

  /** The form never sends page views. */
  lemma NoPageViewsSent(edits: seq<Edit>, seller: User, parseFloat: string -> Money, parseInt: string -> int)
    requires forall i :: 0 <= i < |edits| ==> FromRenderedControl(edits[i])
    ensures ListingRecord(ApplyEdits(InitialForm(), edits), seller, parseFloat, parseInt).page_views.None?
  {
    RenderedControlsKeepForm(InitialForm(), edits);
  }

  datatype SubmitOutcome = SubmitOutcome(db: Db, closed: bool, sent: Option<NewListing>)

  /** The assets table stores a record under the next identifier, stamped
      `now`; it refuses a category that is not one of the four names. */
  function StoreListing(db: Db, rec: NewListing, now: Timestamp): (r: Option<Db>)
    ensures r.Some? <==> CategoryFromName(rec.category).Some?
    ensures r.Some? ==> r.value == db.(
      listings := db.listings + [Listing(db.nextId, rec.seller_id, rec.title, rec.description,
        CategoryFromName(rec.category).value, rec.price, rec.monthly_revenue, rec.monthly_profit,
        rec.monthly_visitors, rec.page_views, rec.status, now)],
      nextId := db.nextId + 1)
  {
    match CategoryFromName(rec.category)
    case None => None
    case Some(c) =>
      var l := Listing(db.nextId, rec.seller_id, rec.title, rec.description, c, rec.price,
        rec.monthly_revenue, rec.monthly_profit, rec.monthly_visitors, rec.page_views, rec.status, now);
      Some(db.(listings := db.listings + [l], nextId := db.nextId + 1))
  }

  /** `handleSubmit`: without a user nothing is sent. Otherwise the listing
      record is sent; the modal closes only if the backend stored it. */
  function HandleSubmit(db: Db, form: Form, user: Option<User>, parseFloat: string -> Money, parseInt: string -> int,
                        now: Timestamp, insertFails: bool): (r: SubmitOutcome)
    ensures user.None? ==> r == SubmitOutcome(db, false, None)
    ensures user.Some? ==> r.sent == Some(ListingRecord(form, user.value, parseFloat, parseInt))
    ensures r.closed <==> user.Some? && !insertFails && StoreListing(db, r.sent.value, now).Some?
    ensures r.closed ==> Some(r.db) == StoreListing(db, r.sent.value, now)
    ensures !r.closed ==> r.db == db
  {
    if user.None? then SubmitOutcome(db, false, None)
    else
      var rec := ListingRecord(form, user.value, parseFloat, parseInt);
      var stored := if insertFails then None else StoreListing(db, rec, now);
      if stored.Some? then SubmitOutcome(stored.value, true, Some(rec))
      else SubmitOutcome(db, false, Some(rec))
  }
}
