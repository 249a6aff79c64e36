/**
 The due-diligence modal: a buyer's request for an asset is looked up, or
 created together with the default checklist, and the checklist's items are
 marked verified or rejected one at a time. The backend tables are held in
 memory; each backend call may fail, as named in `failing`.
 */
module DueDiligence {
  import opened Optional
  import opened Types
  import opened Seqs

  datatype ItemKind = Analytics | Financial | Legal | Technical

  datatype ItemStatus = ItemPending | Verified | Rejected

  /** The two outcomes the seller's buttons can record. */
  datatype Verdict = Verify | Reject

  function VerdictStatus(v: Verdict): ItemStatus {
    match v
    case Verify => Verified
    case Reject => Rejected
  }

  datatype ItemTemplate = ItemTemplate(kind: ItemKind, title: string, description: string)

  /** The checklist every new request starts with. */
  const DefaultItems: seq<ItemTemplate> := [
    ItemTemplate(Analytics, "Traffic Analytics Verification",
      "Verify traffic sources, user engagement metrics, and growth trends."),
    ItemTemplate(Financial, "Revenue Verification",
      "Verify revenue claims, payment processors, and financial statements."),
    ItemTemplate(Legal, "Legal Documentation",
      "Review terms of service, privacy policy, and other legal documents."),
    ItemTemplate(Technical, "Technical Audit",
      "Review codebase, infrastructure, and technical documentation.")
  ]

  /** A row of `due_diligence_requests`. */
  datatype Request = Request(id: Id, asset_id: Id, buyer_id: Id, status: string)

  /** A row of `verification_items`; `notes` is empty until a verdict, and
      `created_at` is the time of the insert that created the row. */
  datatype VerificationItem = VerificationItem(
    id: Id,
    request_id: Id,
    kind: ItemKind,
    title: string,
    description: string,
    status: ItemStatus,
    notes: string,
    created_at: Timestamp)

  datatype DiligenceDb = DiligenceDb(requests: seq<Request>, items: seq<VerificationItem>, nextId: Id)

  datatype DiligenceView = DiligenceView(requestId: Option<Id>, items: seq<VerificationItem>, loading: bool)

  datatype Call = LookupRequest | InsertRequest | InsertItems | LoadItems | UpdateItem

  function Kinds(items: seq<VerificationItem>): seq<ItemKind> {
    seq(|items|, i requires 0 <= i < |items| => items[i].kind)
  }

  /** The rows inserted with a new request at time `at`: one per default
      item, in order, each pointing at the request and pending. They are one
      insert, so they share one creation time. */
  function ChecklistFor(requestId: Id, firstId: Id, at: Timestamp): (r: seq<VerificationItem>)
    ensures |r| == 4
    ensures Kinds(r) == [Analytics, Financial, Legal, Technical]
    ensures forall i :: 0 <= i < |r| ==>
      && r[i].request_id == requestId && r[i].status == ItemPending && r[i].notes == ""
      && r[i].title == DefaultItems[i].title && r[i].description == DefaultItems[i].description
      && r[i].id == firstId + i && r[i].created_at == at
  {
    seq(|DefaultItems|, i requires 0 <= i < |DefaultItems| =>
      VerificationItem(firstId + i, requestId, DefaultItems[i].kind,
        DefaultItems[i].title, DefaultItems[i].description, ItemPending, "", at))
  }

  function RequestsFor(db: DiligenceDb, assetId: Id, buyerId: Id): seq<Request> {
    Filter(db.requests, (q: Request) => q.asset_id == assetId && q.buyer_id == buyerId)
  }

  /** `.match({asset_id, buyer_id}).single()`: the request when exactly one
      row has that key, and nothing otherwise. */
  function FindRequest(db: DiligenceDb, assetId: Id, buyerId: Id): (r: Option<Id>)
    ensures r.Some? <==> |RequestsFor(db, assetId, buyerId)| == 1
    ensures r.Some? ==> exists q :: q in db.requests && q == Request(r.value, assetId, buyerId, q.status)
  {
    var m := RequestsFor(db, assetId, buyerId);
    if |m| == 1 then
      assert m[0] in db.requests;
      Some(m[0].id)
    else None
  }

  /** The rows that point at a request, in table order. */
  function RowsOf(db: DiligenceDb, requestId: Id): seq<VerificationItem> {
    Filter(db.items, (it: VerificationItem) => it.request_id == requestId)
  }

  /** The items of a request, oldest first: every row that points at the
      request, each as often as it is stored, and nothing else. Rows created
      at the same time may come in any order. */
  function ItemsOf(db: DiligenceDb, requestId: Id): (r: seq<VerificationItem>)
    ensures multiset(r) == multiset(RowsOf(db, requestId))
    ensures forall i, j :: 0 <= i < j < |r| ==> r[i].created_at <= r[j].created_at
    ensures forall i :: 0 <= i < |r| ==> r[i].request_id == requestId && r[i] in db.items
    ensures forall i :: 0 <= i < |db.items| && db.items[i].request_id == requestId ==> db.items[i] in r
  {
    var rows := RowsOf(db, requestId);
    var key := (it: VerificationItem) => it.created_at;
    var sorted := SortBy(rows, key);
    assert forall i, j :: 0 <= i < j < |sorted| ==> key(sorted[i]) <= key(sorted[j]);
    SameElements(sorted, rows);
    forall i | 0 <= i < |sorted| ensures sorted[i].request_id == requestId && sorted[i] in db.items {
      assert sorted[i] in rows;
    }
    sorted
  }

  datatype Step = Step(db: DiligenceDb, view: DiligenceView)

  /** `loadVerificationItems`: on success the view shows the request's items,
      on failure it keeps what it had. */
  function LoadItemsInto(v: DiligenceView, db: DiligenceDb, requestId: Id, failing: set<Call>): (r: DiligenceView)
    ensures LoadItems in failing ==> r == v
    ensures LoadItems !in failing ==> r == v.(items := ItemsOf(db, requestId))
  {
    if LoadItems in failing then v else v.(items := ItemsOf(db, requestId))
  }

  /** `loadOrCreateRequest` for the signed-in `user`. An existing request is
      reused with no write. Otherwise a pending request is inserted and then
      its four default items, created at `now`; if that second insert fails the request stays
      behind without items and the view is not pointed at it. A failed
      lookup reads as "no request". */
  function LoadOrCreateRequest(db: DiligenceDb, v: DiligenceView, user: Option<User>, asset: DigitalAsset, now: Timestamp, failing: set<Call>): (r: Step)
    ensures user.None? ==> r == Step(db, v)
    ensures user.Some? ==> r.view == v.(requestId := r.view.requestId, items := r.view.items, loading := false)
    ensures user.Some? && LookupRequest !in failing && FindRequest(db, asset.id, user.value.id).Some? ==>
      var id := FindRequest(db, asset.id, user.value.id).value;
      && r.db == db && r.view.requestId == Some(id)
      && r.view.items == if LoadItems in failing then v.items else ItemsOf(db, id)
    ensures user.Some? && (LookupRequest in failing || FindRequest(db, asset.id, user.value.id).None?) ==>
      if InsertRequest in failing then r.db == db && r.view == v.(loading := false)
      else
        var q := Request(db.nextId, asset.id, user.value.id, "pending");
        && r.db.requests == db.requests + [q]
        && (InsertItems in failing ==> r.db.items == db.items && r.view == v.(loading := false))
        && (InsertItems !in failing ==>
             && r.db.items == db.items + ChecklistFor(q.id, db.nextId + 1, now)
             && r.view.requestId == Some(q.id)
             && r.view.items == if LoadItems in failing then v.items else ItemsOf(r.db, q.id))
  {
    if user.None? then Step(db, v)
    else
      var u := user.value;
      var found := if LookupRequest in failing then None else FindRequest(db, asset.id, u.id);
      if found.Some? then
        var v1 := v.(requestId := found, loading := false);
        Step(db, LoadItemsInto(v1, db, found.value, failing))
      else if InsertRequest in failing then Step(db, v.(loading := false))
      else
        var q := Request(db.nextId, asset.id, u.id, "pending");
        var db1 := db.(requests := db.requests + [q], nextId := db.nextId + 1);
        if InsertItems in failing then Step(db1, v.(loading := false))
        else
          var db2 := db1.(items := db.items + ChecklistFor(q.id, db1.nextId, now), nextId := db1.nextId + 4);
          var v1 := v.(requestId := Some(q.id), loading := false);
          Step(db2, LoadItemsInto(v1, db2, q.id, failing))
  }

  /** A new request shows exactly the four default items, pending, when no
      earlier item already points at the new request's identifier. The four
      share one creation time, so the load puts them in no particular order. */
  lemma NewRequestShowsChecklist(db: DiligenceDb, v: DiligenceView, u: User, asset: DigitalAsset, now: Timestamp, failing: set<Call>)
    requires FindRequest(db, asset.id, u.id).None?
    requires InsertRequest !in failing && InsertItems !in failing && LoadItems !in failing
    requires forall i :: 0 <= i < |db.items| ==> db.items[i].request_id < db.nextId
    ensures multiset(LoadOrCreateRequest(db, v, Some(u), asset, now, failing).view.items)
         == multiset(ChecklistFor(db.nextId, db.nextId + 1, now))
  {
    var r := LoadOrCreateRequest(db, v, Some(u), asset, now, failing);
    var checklist := ChecklistFor(db.nextId, db.nextId + 1, now);
    var mine := (it: VerificationItem) => it.request_id == db.nextId;
    FilterConcat(db.items, checklist, mine);
    FilterNone(db.items, mine);
    FilterAll(checklist, mine);
    assert r.db.items == db.items + checklist;
    assert r.view.items == ItemsOf(r.db, db.nextId);
    assert RowsOf(r.db, db.nextId) == checklist;
  }

  /** At most one request per (asset, buyer): the backend does not enforce
      this, so the lookup is the only guard. */
  ghost predicate AtMostOneRequest(db: DiligenceDb, assetId: Id, buyerId: Id) {
    |RequestsFor(db, assetId, buyerId)| <= 1
  }

  /** Two calls in sequence whose lookups and inserts succeed end on the
      same request, and the second writes nothing. */
  lemma RequestReused(db: DiligenceDb, v: DiligenceView, u: User, asset: DigitalAsset, t1: Timestamp, t2: Timestamp, f1: set<Call>, f2: set<Call>)
    requires AtMostOneRequest(db, asset.id, u.id)
    requires LookupRequest !in f1 && InsertRequest !in f1 && InsertItems !in f1
    requires LookupRequest !in f2
    ensures var first := LoadOrCreateRequest(db, v, Some(u), asset, t1, f1);
      var second := LoadOrCreateRequest(first.db, first.view, Some(u), asset, t2, f2);
      && first.view.requestId.Some?
      && second.db == first.db && second.view.requestId == first.view.requestId
  {
    var first := LoadOrCreateRequest(db, v, Some(u), asset, t1, f1);
    if FindRequest(db, asset.id, u.id).None? {
      var q := Request(db.nextId, asset.id, u.id, "pending");
      FilterAppend(db.requests, q, (q: Request) => q.asset_id == asset.id && q.buyer_id == u.id);
      assert RequestsFor(first.db, asset.id, u.id) == [q];
      assert FindRequest(first.db, asset.id, u.id) == Some(q.id);
    }
  }

  /** The lookup is the only guard against a second request: if it fails
      while a request exists, a duplicate is inserted, and from then on no
      lookup finds a request, so every later open inserts yet another. */
  lemma FailedLookupDuplicates(db: DiligenceDb, v: DiligenceView, u: User, asset: DigitalAsset, now: Timestamp)
    requires |RequestsFor(db, asset.id, u.id)| == 1
    ensures var first := LoadOrCreateRequest(db, v, Some(u), asset, now, {LookupRequest});
      && |RequestsFor(first.db, asset.id, u.id)| == 2
      && FindRequest(first.db, asset.id, u.id).None?
  {
    var q := Request(db.nextId, asset.id, u.id, "pending");
    FilterAppend(db.requests, q, (q: Request) => q.asset_id == asset.id && q.buyer_id == u.id);
  }

  /** When the items insert fails the request is left without a checklist,
      and every later open reuses that request and shows no items. */
  lemma OrphanedRequestShowsNoItems(db: DiligenceDb, v: DiligenceView, u: User, asset: DigitalAsset, t1: Timestamp, t2: Timestamp, f2: set<Call>)
    requires RequestsFor(db, asset.id, u.id) == []
    requires forall i :: 0 <= i < |db.items| ==> db.items[i].request_id < db.nextId
    requires LookupRequest !in f2 && LoadItems !in f2
    ensures var first := LoadOrCreateRequest(db, v, Some(u), asset, t1, {InsertItems});
      var second := LoadOrCreateRequest(first.db, first.view, Some(u), asset, t2, f2);
      && first.view.requestId == v.requestId
      && second.db == first.db
      && second.view.requestId == Some(db.nextId)
      && second.view.items == []
  {
    var q := Request(db.nextId, asset.id, u.id, "pending");
    var key := (r: Request) => r.asset_id == asset.id && r.buyer_id == u.id;
    FilterAppend(db.requests, q, key);
    FilterNone(db.items, (it: VerificationItem) => it.request_id == db.nextId);
  }

  /** `updateItemStatus` on a list of items: the item with `itemId` takes the
      verdict's status and the notes; nothing else about it, and no other
      item, changes. */
  function MarkItem(items: seq<VerificationItem>, itemId: Id, verdict: Verdict, notes: string): (r: seq<VerificationItem>)
    ensures |r| == |items|
    ensures forall i :: 0 <= i < |r| && items[i].id != itemId ==> r[i] == items[i]
    ensures forall i :: 0 <= i < |r| && items[i].id == itemId ==>
      && r[i].status == VerdictStatus(verdict) && r[i].notes == notes
      && r[i].(status := items[i].status, notes := items[i].notes) == items[i]
  {
    seq(|items|, i requires 0 <= i < |items| =>
      if items[i].id == itemId then items[i].(status := VerdictStatus(verdict), notes := notes) else items[i])
  }

  /** Recording the same verdict twice is recording it once. */
  lemma MarkItemIdempotent(items: seq<VerificationItem>, itemId: Id, verdict: Verdict, notes: string)
    ensures MarkItem(MarkItem(items, itemId, verdict, notes), itemId, verdict, notes) == MarkItem(items, itemId, verdict, notes)
  {
  }

  /** Verdicts on different items do not interfere. */
  lemma MarkItemCommutes(items: seq<VerificationItem>, a: Id, va: Verdict, na: string, b: Id, vb: Verdict, nb: string)
    requires a != b
    ensures MarkItem(MarkItem(items, a, va, na), b, vb, nb) == MarkItem(MarkItem(items, b, vb, nb), a, va, na)
  {
  }

  /** The update is written to the backend first; the shown items change
      only if that write succeeded. */
  function UpdateItemStatus(db: DiligenceDb, v: DiligenceView, itemId: Id, verdict: Verdict, notes: string, failing: set<Call>): (r: Step)
    ensures UpdateItem in failing ==> r == Step(db, v)
    ensures UpdateItem !in failing ==>
      && r.db == db.(items := MarkItem(db.items, itemId, verdict, notes))
      && r.view == v.(items := MarkItem(v.items, itemId, verdict, notes))
  {
    if UpdateItem in failing then Step(db, v)
    else Step(db.(items := MarkItem(db.items, itemId, verdict, notes)), v.(items := MarkItem(v.items, itemId, verdict, notes)))
  }

  /** The notes each of the seller's buttons records. */
  function VerdictNotes(v: Verdict): string {
    match v
    case Verify => "Verified and approved"
    case Reject => "Rejected - requires additional information"
  }

  /** A click on Verify or Reject for `item`: once the backend accepts the
      write, every shown copy of the item carries the verdict's status and
      its fixed notes. */
  function OnVerdictClick(db: DiligenceDb, v: DiligenceView, item: VerificationItem, verdict: Verdict, failing: set<Call>): (r: Step)
    ensures UpdateItem in failing ==> r == Step(db, v)
    ensures UpdateItem !in failing ==> |r.view.items| == |v.items| && forall i :: 0 <= i < |v.items| ==>
      if v.items[i].id == item.id then r.view.items[i].status == VerdictStatus(verdict) && r.view.items[i].notes == VerdictNotes(verdict)
      else r.view.items[i] == v.items[i]
  {
    UpdateItemStatus(db, v, item.id, verdict, VerdictNotes(verdict), failing)
  }

  /** The Verify and Reject buttons show for a pending item, and only to the
      asset's seller. */
  predicate ShowsVerdictButtons(item: VerificationItem, user: Option<User>, asset: DigitalAsset) {
    item.status == ItemPending && user.Some? && user.value.id == asset.seller.id
  }

  /** Once a verdict is recorded the item's buttons are gone, so each item
      can be decided at most once from the modal. */
  lemma VerdictHidesButtons(items: seq<VerificationItem>, itemId: Id, verdict: Verdict, notes: string, user: Option<User>, asset: DigitalAsset)
    ensures forall i :: 0 <= i < |items| ==>
      var after := MarkItem(items, itemId, verdict, notes)[i];
      (ShowsVerdictButtons(after, user, asset) <==>
         items[i].id != itemId && ShowsVerdictButtons(items[i], user, asset))
  {
  }
}
