# Digital-asset marketplace front-end, modelled in Dafny

This is a model of the browser front-end of a marketplace for websites, apps, domains and
SaaS products. The model covers:

- **Filters panel.** It edits the browse view's filter state.
- **Search modal.** It debounces what the user types, queries the backend for at most five
  active listings and normalises the rows it gets back.
- **Asset card.** Its three buttons refuse to act for a signed-out user or for the asset's
  own seller.
- **Purchase modal.** It records a pending transaction and marks the asset pending.
- **Chat modal.** It finds or creates the conversation about an asset, loads its messages,
  appends realtime insert events and sends trimmed messages.
- **Due-diligence modal.** It finds or creates a buyer's request together with a four-item
  checklist and records the seller's verdicts.
- **New-listing form.** It builds the record a new listing is inserted as.

The backend is an in-memory store: lists of rows, plus a counter that hands out
identifiers. Each backend call may fail. A handler takes the set of calls that fail
(`failing`) and returns the new store and the new view state. Everything is immutable
datatypes and pure functions.

Modules:

- `Optional`, `Text` and `Seqs` are shared helpers. `Text` holds JavaScript's `trim` and an
  ASCII case-insensitive substring test. `Seqs` holds filter, insertion sort by key, and take.
- `Types` holds the shared entities.
- `Market` holds the listings, profiles and transactions tables.
- `Filters`, `Debounce`, `Search`, `AssetCard`, `Purchase`, `Chat`, `DueDiligence` and
  `CreateAsset` have one module per component.
- `Flows` holds properties that span components.

## Model

| member | source | states |
|---|---|---|
| Types.CategoryFromName | src/types/index.ts:5 | a string is a category exactly when it is one of the four names, and reading back a name gives its category |
| Filters.HandleFilterChange | src/components/Filters.tsx:11-15 | the empty string unsets the key; any other value is stored as given; no other key changes |
| Filters.HandleFilterChangeIdempotent | src/components/Filters.tsx:11-15 | making the same edit twice gives the state the first edit gave |
| Filters.OnNumberInput | src/components/Filters.tsx:48 | a number box always stores `Number(text)` under its key and leaves every other key alone, even when the text is empty |
| Filters.NumberBox | src/components/Filters.tsx:47 | a number box is blank exactly when its value is unset or 0, and otherwise shows the value |
| Filters.OnCategorySelect | src/components/Filters.tsx:30-36 | "All Categories" unsets the category; any other option becomes the category; no other key changes |
| Filters.OnSortSelect | src/components/Filters.tsx:76-80 | the chosen option becomes the sort; no other key changes |
| Filters.Display | src/components/Filters.tsx:29-75 | an unset category shows "All Categories"; an unset sort shows "Most Recent"; a set sort shows itself; each number box shows its own bound, blank when that bound is unset or 0 |
| Filters.ClearFilters | src/components/Filters.tsx:85 | Clear Filters leaves no category, price or revenue bound, and the sort is by date |
| Filters.ClearedLooksUnfiltered | src/components/Filters.tsx:84-89 | after Clear Filters the panel shows exactly what it shows with nothing chosen |
| Filters.EmptiedNumberBoxStoresZero | src/components/Filters.tsx:12-13 | emptying a number box stores 0 under the key, yet the panel then looks the same as with the key unset |
| Filters.OnNumberInputCorrected | src/components/Filters.tsx:12-13 | with the clearing the comment intends, an empty box unsets the key and any other text is stored as its number |
| Debounce.Mount | src/components/search/SearchModal.tsx:13-24 | on first mount the query and the debounced query are empty, nothing has been announced, and a timer is due 300 ms after mounting |
| Debounce.MountStartsNoSearch | src/components/search/SearchModal.tsx:13-24 | the timer scheduled at mount carries the empty query, which is already debounced, so mounting starts no search |
| Debounce.Step | src/components/search/SearchModal.tsx:18-24 | a timer due by the time of an event fires first; a keystroke that changes the text replaces the pending timer with one for the new text, due 300 ms later; a keystroke that leaves the text as it was changes nothing more |
| Debounce.Fire | src/components/search/SearchModal.tsx:19-21 | a due timer makes its value the debounced query and announces it only if it changed; if no timer is due, nothing changes |
| Debounce.RunAppend | src/components/search/SearchModal.tsx:18-24 | running two event sequences one after the other is running their concatenation |
| Debounce.MountConsistent | src/components/search/SearchModal.tsx:13-24 | on mount, the pending timer carries the current query |
| Debounce.StepConsistent | src/components/search/SearchModal.tsx:18-24 | every event keeps the timer carrying the current query; an event announces nothing, or the query as it stood, and never a superseded value |
| Debounce.RunConsistent | src/components/search/SearchModal.tsx:18-24 | over any run the state stays consistent and the announced queries only grow at the end |
| Debounce.BurstHoldsBack | src/components/search/SearchModal.tsx:18-24 | during edits less than 300 ms apart nothing is announced; at the end one timer is pending, for the last edit, due 300 ms after it |
| Debounce.BurstEmitsOnlyLast | src/components/search/SearchModal.tsx:18-24 | a burst followed by quiet announces exactly the last text typed, or nothing if that text is already the debounced query |
| Debounce.QuickTypingStartsOneSearch | src/components/search/SearchModal.tsx:18-24 | typing "a", "ab", "abc" 100 ms apart starts one search, for "abc" |
| Debounce.PauseStartsTwoSearches | src/components/search/SearchModal.tsx:18-24 | a 400 ms pause between two edits starts a search for each |
| Text.Trim | src/components/search/SearchModal.tsx:28 | the result is a slice of the input with only whitespace cut from either end; it is empty exactly when the input is all whitespace; it neither starts nor ends with whitespace |
| Text.TrimIdempotent | src/components/search/SearchModal.tsx:28 | a property of the trim helper: trimming twice is trimming once |
| Text.VerbatimOccurrenceMatches | src/components/search/SearchModal.tsx:48-51 | a query that occurs verbatim in a text also matches it case-insensitively |
| Text.FoldedNeedleMatchesAlike | src/components/search/SearchModal.tsx:48-51 | the case of the query does not change whether it matches |
| Search.Rows | src/components/search/SearchModal.tsx:37-47 | the join gives one row per listing, in table order, each carrying its listing; the seller is present exactly when some profile has the listing's seller id, and is then that profile's selected columns |
| Search.RowsAppend | src/components/search/SearchModal.tsx:37-47 | inserting a listing while the profiles stay the same adds exactly one joined row, at the end |
| Search.Hits | src/components/search/SearchModal.tsx:48-52 | the rows selected are exactly the active rows whose title or description contains the query, ignoring case |
| Search.HitsAppend | src/components/search/SearchModal.tsx:48-52 | an added row is added to the hits exactly when it is a hit |
| Search.QueryFollowsHits | src/components/search/SearchModal.tsx:48-54 | two tables with the same hits give the same answer |
| Search.Query | src/components/search/SearchModal.tsx:35-54 | at most five rows, as many as there are hits up to five; the rows are distinct hits (a sub-multiset of the hits), each an active matching row of the table; newest first; no hit left out is newer than one kept |
| Search.Normalise | src/components/search/SearchModal.tsx:58-74 | the normalised result carries every asset field; the seller's email is blanked and the avatar comes from `avatar_url`; missing traffic counts become 0; a row without a seller fails |
| Search.NormaliseAsWritten | src/components/search/SearchModal.tsx:58-59 | as written, a result never carries revenue or profit; everything else is as `Normalise` gives |
| Search.AsWrittenDropsRevenue | src/components/search/SearchModal.tsx:58-59 | a hit with a recorded revenue shows none as written, and shows it when corrected |
| Search.MapRows | src/components/search/SearchModal.tsx:58-74 | the rows are mapped one for one, in order, and the whole mapping fails if it fails on any row |
| Search.SearchAssets | src/components/search/SearchModal.tsx:26-85 | a request is made exactly when the debounced query is not all whitespace; a blank query clears the results; on success the results are exactly the query's rows mapped as written, so at most five active matching results, newest first, with no seller email and no revenue or profit; an error or a hit without a seller keeps the old results |
| Search.SearchAssetsCorrected | src/components/search/SearchModal.tsx:26-85 | as `SearchAssets`, but with the corrected mapping, so each result carries its listing's revenue and profit |
| AssetCard.RefusalFor | src/components/AssetCard.tsx:20-54 | a click is refused for sign-in exactly when no user is signed in, and for the user's own asset exactly when the signed-in user is the seller |
| AssetCard.HandlePurchaseClick | src/components/AssetCard.tsx:20-30 | refused by the shared rule with nothing opened; otherwise only the purchase modal opens |
| AssetCard.HandleChatClick | src/components/AssetCard.tsx:32-42 | refused by the shared rule with nothing opened; otherwise only the chat modal opens |
| AssetCard.HandleDueDiligenceClick | src/components/AssetCard.tsx:44-54 | refused by the shared rule with nothing opened; otherwise only the due-diligence modal opens |
| AssetCard.ClicksOpenOnlyTheirModal | src/components/AssetCard.tsx:16-54 | from a card with every modal closed, each button opens its own modal and no other, or nothing |
| AssetCard.ChatCounterparty | src/components/AssetCard.tsx:134-139 | the chat is always opened with the asset's seller |
| Purchase.HandlePurchase | src/components/transaction/PurchaseModal.tsx:21-63 | no write without a user or the accepted terms; a pending transaction for the asset's price, from the user to the seller, is appended; only after that insert succeeds is the asset marked pending; the modal closes exactly when both writes succeed |
| Purchase.ModalAllowsSelfPurchase | src/components/transaction/PurchaseModal.tsx:21-43 | on its own the modal records a transaction whose buyer is the seller |
| Chat.KeyFor | src/components/chat/ChatModal.tsx:65-69 | the conversation key is the asset, the asset's seller, and as buyer the other party if the user is the seller and the user otherwise |
| Chat.FindConversation | src/components/chat/ChatModal.tsx:62-70 | the lookup finds a conversation exactly when one row has the key, and that row is in the table |
| Chat.LoadOrCreateConversation | src/components/chat/ChatModal.tsx:56-94 | an existing conversation is reused with no write; otherwise one is inserted under the same key and selected; a failed insert leaves store and selection as they were |
| Chat.ConversationReused | src/components/chat/ChatModal.tsx:56-94 | opening twice ends on the same conversation, and the second open writes nothing |
| Chat.LoadMessagesInto | src/components/chat/ChatModal.tsx:96-110 | the list shown is a permutation of the conversation's messages, oldest first; on failure the old list stays |
| Chat.OnInsertEvent | src/components/chat/ChatModal.tsx:123-125 | an insert event appends its row at the end and leaves the rest of the list as it was |
| Chat.EventsAppendInOrder | src/components/chat/ChatModal.tsx:123-125 | a run of events appends exactly those rows, in arrival order |
| Chat.RedeliveryShowsTwice | src/components/chat/ChatModal.tsx:123-125 | an event delivered twice shows its message twice |
| Chat.SendMessage | src/components/chat/ChatModal.tsx:134-155 | nothing is sent without a user or a conversation, or when the draft is all whitespace; otherwise the trimmed draft is inserted as the user's message; the draft is cleared only on success; the conversation, the shown list and the loading flag are untouched |
| Chat.SentMessageShowsOnDelivery | src/components/chat/ChatModal.tsx:123-155 | once its insert event arrives, a sent message shows last, from the user, with the trimmed text |
| DueDiligence.ChecklistFor | src/components/due-diligence/DueDiligenceModal.tsx:91-99 | a new request gets four pending items, one per default template (DueDiligenceModal.tsx:23-44) in order, under the request, all created at the time of the one insert |
| DueDiligence.ItemsOf | src/components/due-diligence/DueDiligenceModal.tsx:114-118 | the loaded items are a permutation of the table's rows that point at the request, ordered by creation time, oldest first; every such row is shown and no other |
| DueDiligence.LoadItemsInto | src/components/due-diligence/DueDiligenceModal.tsx:113-125 | on success the view shows the request's items and nothing else changes; on failure the view is unchanged |
| DueDiligence.FindRequest | src/components/due-diligence/DueDiligenceModal.tsx:64-71 | the lookup finds a request exactly when one row has the asset and buyer, and that row is in the table |
| DueDiligence.LoadOrCreateRequest | src/components/due-diligence/DueDiligenceModal.tsx:58-111 | an existing request is reused with no write and the view shows its items; otherwise a pending request and then its checklist are inserted, and the view points at the new request and shows its items; if the checklist insert fails the request stays behind and the view does not point at it; a failed item load keeps the shown items; only the request, the items and the loading flag of the view change |
| DueDiligence.NewRequestShowsChecklist | src/components/due-diligence/DueDiligenceModal.tsx:78-104 | a newly created request shows exactly its four default items, pending, as a multiset: they share one creation time, so the ordered load fixes no order among them |
| DueDiligence.RequestReused | src/components/due-diligence/DueDiligenceModal.tsx:58-111 | opening twice, with the first open succeeding, ends on the same request, and the second open writes nothing |
| DueDiligence.FailedLookupDuplicates | src/components/due-diligence/DueDiligenceModal.tsx:64-86 | a failed lookup inserts a duplicate request, after which no lookup finds one |
| DueDiligence.OrphanedRequestShowsNoItems | src/components/due-diligence/DueDiligenceModal.tsx:78-125 | after a failed checklist insert, every later open reuses the bare request and shows no items |
| DueDiligence.MarkItem | src/components/due-diligence/DueDiligenceModal.tsx:136-140 | the named item takes the verdict's status and the notes; nothing else about it, and no other item, changes |
| DueDiligence.MarkItemIdempotent | src/components/due-diligence/DueDiligenceModal.tsx:136-140 | recording a verdict twice is recording it once |
| DueDiligence.MarkItemCommutes | src/components/due-diligence/DueDiligenceModal.tsx:136-140 | verdicts on two different items can be recorded in either order |
| DueDiligence.UpdateItemStatus | src/components/due-diligence/DueDiligenceModal.tsx:127-146 | a failed write changes nothing; a successful one changes the item in both the store and the view |
| DueDiligence.OnVerdictClick | src/components/due-diligence/DueDiligenceModal.tsx:208-219 | Verify and Reject record their status with their fixed notes, whatever was typed in the notes box |
| DueDiligence.ShowsVerdictButtons | src/components/due-diligence/DueDiligenceModal.tsx:200 | the buttons show for a pending item, and only to the asset's seller |
| DueDiligence.VerdictHidesButtons | src/components/due-diligence/DueDiligenceModal.tsx:200 | after a verdict an item shows no buttons; the other items show buttons exactly as before |
| CreateAsset.InitialForm | src/components/asset/CreateAssetModal.tsx:15-24 | the form as first mounted has category "website" and every other field empty |
| CreateAsset.HandleChange | src/components/asset/CreateAssetModal.tsx:28-31 | the named field takes the control's value; no other field changes |
| CreateAsset.RenderedControlsKeepForm | src/components/asset/CreateAssetModal.tsx:78-175 | whatever is entered through the rendered controls, the page-views field stays empty and the category stays one of the four names |
| CreateAsset.NoPageViewsSent | src/components/asset/CreateAssetModal.tsx:51 | a form filled in through its controls never sends page views |
| CreateAsset.Nullable | src/components/asset/CreateAssetModal.tsx:48-51 | an empty field is null; any other field is parsed |
| CreateAsset.ListingRecord | src/components/asset/CreateAssetModal.tsx:42-53 | the record belongs to the user and is pending; title, description and category are copied verbatim; the price is parsed; each optional number is null exactly when its field is empty |
| CreateAsset.StoreListing | src/components/asset/CreateAssetModal.tsx:42 | the table stores a record, under the next identifier, exactly when its category is one of the four names |
| CreateAsset.HandleSubmit | src/components/asset/CreateAssetModal.tsx:33-64 | nothing is sent without a user; otherwise the listing record is sent; the modal closes exactly when it is stored, and otherwise the store is unchanged |
| Market.ProfileOf | src/components/search/SearchModal.tsx:39-46 | the joined profile has the seller's identifier, and no profile is found only when none has it |
| Market.SetListingStatus | src/components/transaction/PurchaseModal.tsx:48-51 | every row with the identifier takes the new status; nothing else changes |
| Flows.CardBlocksSelfPurchase | src/components/AssetCard.tsx:25-28 | the card refuses the purchase modal to the seller, whereas the modal on its own would record the seller as buyer |
| Flows.ChatFromCardIsWithSeller | src/components/AssetCard.tsx:32-42 | a chat the card opens is keyed by the asset, the user as buyer and the seller as seller, and buyer and seller differ |
| Flows.DiligenceFromCardShowsNoVerdicts | src/components/AssetCard.tsx:44-54 | the card opens due diligence only for a non-seller, and that user never sees the Verify and Reject buttons |
| Flows.PurchasedAssetLeavesSearch | src/components/transaction/PurchaseModal.tsx:47-56 | once a purchase completes, no search lists the asset |
| Flows.NewListingLeavesSearchUnchanged | src/components/asset/CreateAssetModal.tsx:52 | a new listing is stored pending review, so submitting it changes no search's results |

## Left out

- Rendering: markup, icons, toasts, scrolling, loading spinners and the close buttons are not modelled. The open and closed flags of the card's modals are modelled only as far as the buttons set them.
- Parsing: `Number`, `parseFloat` and `parseInt` are function parameters. NaN and the parsing of dates are not modelled. Timestamps are integers and money is real.
- Search.Query: PostgREST's filter grammar is not modelled. The model leaves out the `%` and `_` wildcards a query may contain, a comma that breaks the `or` filter, and the whitespace around the filter text. Case folding covers ASCII letters only.
- Search.SearchAssets: the request is modelled as one atomic step. Overlapping responses that arrive out of order are not modelled, because concurrency is outside a pure model.
- Chat: the realtime channel is modelled as a stream of insert events. The unsubscribe closure is never released and re-subscription on a new conversation is not modelled, because the subscription lifecycle is framework behaviour. The loaded list and the events are not merged against each other.
- DueDiligence.ChecklistFor: a new item's notes are the empty string. The insert sends no notes, so this stands for the backend column's default, which is not part of this model.
- CreateAsset.InitialForm: the modal stays mounted (Header.tsx:101-104) and nothing resets the form after a submit or a close, so only the first open starts from this form. Later opens start from whatever the form last held, which is any form `HandleChange` can reach.
- Debounce.Mount: the search modal also stays mounted, so only the first open starts from an empty query. Later opens keep the last query and results.
- DueDiligence.LoadOrCreateRequest: the items' `created_at` stands for the backend column's default, the time of the insert. It is the parameter `now`, because the clock is not part of this model.
- Chat.LoadOrCreateConversation and DueDiligence.LoadOrCreateRequest: `.single()` is modelled as "exactly one row, otherwise nothing". The error text of a lookup is ignored, as in the code.
- Concurrent opens: two opens of the chat modal, or of the due-diligence modal, can race. Both lookups can miss and both can insert. The model runs one handler at a time, so it does not show this race. Only the sequential duplicate after a failed lookup is modelled (DueDiligence.FailedLookupDuplicates).
- CreateAsset.HandleSubmit: the browser's `required` and `min` checks on the form's inputs are not modelled, because they happen before the handler runs.
- CreateAsset.StoreListing: that the table refuses an unknown category stands in for the backend's column type. The front-end itself sends whatever the category field holds.
- Purchase.HandlePurchase: the terms checkbox disabling the button is not modelled. The handler's own check on the terms is modelled.
- The application shell, the header, authentication and the backend client are not part of this model. The browse view's query builder that would apply the filter state to listings does not exist in the code, so only the state the panel edits is modelled.

## Findings

| source | as written | input that shows it | evidently intended | confidence | as-written member | corrected member |
|---|---|---|---|---|---|---|
| src/components/Filters.tsx:48 | the number boxes pass `Number(e.target.value)`, and `Number("")` is 0, so the `value === ''` clearing never fires | type 100 in Min price, then delete it: the filter holds `minPrice: 0` while the box shows blank | emptying a box unsets the bound, as the comment at line 12 says | not executed | Filters.EmptiedNumberBoxStoresZero | Filters.OnNumberInputCorrected |
| src/components/search/SearchModal.tsx:58-59 | the result spreads the backend row, whose columns are `monthly_revenue` and `monthly_profit`, but a `DigitalAsset` is read through `monthlyRevenue` and `monthlyProfit` | a listing with `monthly_revenue = 500` found by search: its result has no `monthlyRevenue` | the result carries the listing's revenue and profit | not executed | Search.NormaliseAsWritten | Search.Normalise |
