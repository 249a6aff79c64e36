/**
 The chat modal: the conversation for (asset, buyer, seller) is looked up or
 created, its messages are loaded oldest first, realtime insert events are
 appended as they arrive, and a typed message is sent trimmed. The backend
 tables are held in memory; each backend call may fail, as named in `failing`.
 */
module Chat {
  import opened Optional
  import opened Types
  import opened Text
  import opened Seqs

  /** The person on the other side, as the modal receives them. */
  datatype Counterparty = Counterparty(id: Id, name: string)

  /** A row of `conversations`. */
  datatype Conversation = Conversation(id: Id, asset_id: Id, buyer_id: Id, seller_id: Id)

  /** A row of `messages`. */
  datatype Message = Message(
    id: Id,
    conversation_id: Id,
    sender_id: Id,
    content: string,
    created_at: Timestamp,
    read: bool)

  datatype ChatDb = ChatDb(conversations: seq<Conversation>, messages: seq<Message>, nextId: Id)

  datatype ChatView = ChatView(
    conversationId: Option<Id>,
    messages: seq<Message>,
    draft: string,
    loading: bool,
    sending: bool)

  datatype Call = LookupConversation | InsertConversation | LoadMessages | InsertMessage

  /** The natural key of a conversation. */
  datatype Key = Key(assetId: Id, buyerId: Id, sellerId: Id)

  /** The key the modal uses: the seller is always the asset's seller; the
      buyer is the other party when the signed-in user is the seller, and the
      user otherwise. Lookup and insert use this same key. */
  function KeyFor(user: User, asset: DigitalAsset, other: Counterparty): (k: Key)
    ensures k.sellerId == asset.seller.id
    ensures user.id == asset.seller.id ==> k.buyerId == other.id
    ensures user.id != asset.seller.id ==> k.buyerId == user.id
    ensures k.assetId == asset.id
  {
    Key(asset.id, if user.id == asset.seller.id then other.id else user.id, asset.seller.id)
  }

  function ConversationsFor(db: ChatDb, k: Key): seq<Conversation> {
    Filter(db.conversations, (c: Conversation) => c.asset_id == k.assetId && c.buyer_id == k.buyerId && c.seller_id == k.sellerId)
  }

  /** `.match(key).single()`: the conversation when exactly one row has the
      key, and nothing otherwise. */
  function FindConversation(db: ChatDb, k: Key): (r: Option<Id>)
    ensures r.Some? <==> |ConversationsFor(db, k)| == 1
    ensures r.Some? ==> Conversation(r.value, k.assetId, k.buyerId, k.sellerId) in db.conversations
  {
    var m := ConversationsFor(db, k);
    if |m| == 1 then
      assert m[0] in db.conversations;
      Some(m[0].id)
    else None
  }

  datatype Step = Step(db: ChatDb, view: ChatView)

  /** `loadOrCreateConversation`: an existing conversation is reused with no
      write; otherwise one is inserted under the same key. A failed lookup
      reads as "no conversation"; a failed insert leaves everything as it was. */
  function LoadOrCreateConversation(db: ChatDb, v: ChatView, user: Option<User>, asset: DigitalAsset, other: Counterparty, failing: set<Call>): (r: Step)
    ensures user.None? ==> r == Step(db, v)
    ensures user.Some? ==> r.view == v.(conversationId := r.view.conversationId, loading := false)
    ensures user.Some? && LookupConversation !in failing && FindConversation(db, KeyFor(user.value, asset, other)).Some? ==>
      r.db == db && r.view.conversationId == FindConversation(db, KeyFor(user.value, asset, other))
    ensures user.Some? && (LookupConversation in failing || FindConversation(db, KeyFor(user.value, asset, other)).None?) ==>
      var k := KeyFor(user.value, asset, other);
      if InsertConversation in failing then r.db == db && r.view.conversationId == v.conversationId
      else
        && r.db.conversations == db.conversations + [Conversation(db.nextId, k.assetId, k.buyerId, k.sellerId)]
        && r.db.messages == db.messages
        && r.view.conversationId == Some(db.nextId)
  {
    if user.None? then Step(db, v)
    else
      var k := KeyFor(user.value, asset, other);
      var found := if LookupConversation in failing then None else FindConversation(db, k);
      if found.Some? then Step(db, v.(conversationId := found, loading := false))
      else if InsertConversation in failing then Step(db, v.(loading := false))
      else
        var c := Conversation(db.nextId, k.assetId, k.buyerId, k.sellerId);
        Step(db.(conversations := db.conversations + [c], nextId := db.nextId + 1),
             v.(conversationId := Some(c.id), loading := false))
  }

  /** Two calls in sequence whose lookups succeed, the first also inserting
      if it must, end on the same conversation, and the second writes nothing. */
  lemma ConversationReused(db: ChatDb, v: ChatView, u: User, asset: DigitalAsset, other: Counterparty, f1: set<Call>, f2: set<Call>)
    requires |ConversationsFor(db, KeyFor(u, asset, other))| <= 1
    requires LookupConversation !in f1 && InsertConversation !in f1
    requires LookupConversation !in f2
    ensures var first := LoadOrCreateConversation(db, v, Some(u), asset, other, f1);
      var second := LoadOrCreateConversation(first.db, first.view, Some(u), asset, other, f2);
      && first.view.conversationId.Some?
      && second.db == first.db && second.view.conversationId == first.view.conversationId
  {
    var k := KeyFor(u, asset, other);
    var first := LoadOrCreateConversation(db, v, Some(u), asset, other, f1);
    if FindConversation(db, k).None? {
      var c := Conversation(db.nextId, k.assetId, k.buyerId, k.sellerId);
      FilterAppend(db.conversations, c, (c: Conversation) => c.asset_id == k.assetId && c.buyer_id == k.buyerId && c.seller_id == k.sellerId);
      assert ConversationsFor(first.db, k) == [c];
    }
  }

  /** `loadMessages`: the conversation's messages, oldest first; on a failure
      the shown list is kept. */
  function LoadMessagesInto(db: ChatDb, v: ChatView, failing: set<Call>): (r: ChatView)
    ensures v.conversationId.None? || LoadMessages in failing ==> r == v
    ensures v.conversationId.Some? && LoadMessages !in failing ==>
      && r == v.(messages := r.messages)
      && multiset(r.messages) == multiset(Filter(db.messages, (m: Message) => m.conversation_id == v.conversationId.value))
      && forall i, j :: 0 <= i < j < |r.messages| ==> r.messages[i].created_at <= r.messages[j].created_at
  {
    if v.conversationId.None? || LoadMessages in failing then v
    else
      var id := v.conversationId.value;
      var key := (m: Message) => m.created_at;
      var sorted := SortBy(Filter(db.messages, (m: Message) => m.conversation_id == id), key);
      assert forall i, j :: 0 <= i < j < |sorted| ==> key(sorted[i]) <= key(sorted[j]);
      v.(messages := sorted)
  }

  /** A realtime insert event: the new row goes at the end of the list, with
      no check for a message already shown and no reordering. */
  function OnInsertEvent(v: ChatView, m: Message): (r: ChatView)
    ensures r == v.(messages := r.messages)
    ensures |r.messages| == |v.messages| + 1
    ensures r.messages[..|v.messages|] == v.messages && r.messages[|v.messages|] == m
  {
    v.(messages := v.messages + [m])
  }

  /** A run of events, folded in arrival order. */
  function OnInsertEvents(v: ChatView, events: seq<Message>): ChatView
    decreases |events|
  {
    if |events| == 0 then v else OnInsertEvents(OnInsertEvent(v, events[0]), events[1..])
  }

  /** Folding the events appends exactly them, in the order they arrived. */
  lemma {:induction false} EventsAppendInOrder(v: ChatView, events: seq<Message>)
    ensures OnInsertEvents(v, events) == v.(messages := v.messages + events)
    decreases |events|
  {
    if |events| == 0 {
      assert v.messages + events == v.messages;
    } else {
      EventsAppendInOrder(OnInsertEvent(v, events[0]), events[1..]);
      assert v.messages + [events[0]] + events[1..] == v.messages + events;
    }
  }

  /** Nothing de-duplicates: an event delivered twice shows twice. */
  lemma RedeliveryShowsTwice(v: ChatView, m: Message)
    ensures multiset(OnInsertEvents(v, [m, m]).messages)[m] == multiset(v.messages)[m] + 2
  {
    EventsAppendInOrder(v, [m, m]);
  }

  /** `sendMessage`: nothing happens without a user, without a conversation
      or when the draft trims to nothing. Otherwise the trimmed draft is
      inserted as the user's message, stamped `now`; the draft is cleared only
      if the insert succeeds. The shown list is not touched: the message
      shows when its insert event arrives. Returns the inserted row. */
  function SendMessage(db: ChatDb, v: ChatView, user: Option<User>, now: Timestamp, failing: set<Call>): (r: (Step, Option<Message>))
    ensures user.None? || v.conversationId.None? || AllWhitespace(v.draft) ==> r == (Step(db, v), None)
    ensures user.Some? && v.conversationId.Some? && !AllWhitespace(v.draft) ==>
      && r.0.view == v.(draft := r.0.view.draft, sending := false)
      && (InsertMessage in failing ==> r.0.db == db && r.0.view.draft == v.draft && r.1.None?)
      && (InsertMessage !in failing ==>
           && r.1.Some?
           && r.1.value.sender_id == user.value.id
           && r.1.value.conversation_id == v.conversationId.value
           && r.1.value.content == Trim(v.draft)
           && r.0.db.messages == db.messages + [r.1.value]
           && r.0.db.conversations == db.conversations
           && r.0.view.draft == "")
  {
    if user.None? || v.conversationId.None? || Trim(v.draft) == "" then (Step(db, v), None)
    else if InsertMessage in failing then (Step(db, v.(sending := false)), None)
    else
      var m := Message(db.nextId, v.conversationId.value, user.value.id, Trim(v.draft), now, false);
      (Step(db.(messages := db.messages + [m], nextId := db.nextId + 1), v.(draft := "", sending := false)), Some(m))
  }

  /** A sent message shows once its insert event arrives: last in the list,
      from the user, with the trimmed text. */
  lemma SentMessageShowsOnDelivery(db: ChatDb, v: ChatView, u: User, now: Timestamp)
    requires v.conversationId.Some? && !AllWhitespace(v.draft)
    ensures var (step, sent) := SendMessage(db, v, Some(u), now, {});
      var shown := OnInsertEvent(step.view, sent.value).messages;
      && shown[..|shown| - 1] == v.messages
      && shown[|shown| - 1].sender_id == u.id
      && shown[|shown| - 1].content == Trim(v.draft)
  {
  }
}
