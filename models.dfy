/**
 * The records of the panel (conversations, messages, campaigns and campaign items) and the
 * in-memory "database": four dictionaries keyed by identifier, held here by the class `Store`.
 */
module Models {
  import opened Wrappers

  /** Python truthiness of an optional string: it is neither `None` nor `""`. */
  predicate Given(o: Option<string>) {
    o.Some? && o.value != ""
  }

  predicate Distinct(s: seq<string>) {
    forall i, j :: 0 <= i < j < |s| ==> s[i] != s[j]
  }

  lemma DistinctFront(s: seq<string>)
    requires Distinct(s) && s != []
    ensures Distinct(s[..|s| - 1]) && s[|s| - 1] !in s[..|s| - 1]
  {
  }

  /** A sequence is its front followed by its last element, after any prefix. */
  lemma AppendLast(a: seq<string>, s: seq<string>)
    requires s != []
    ensures a + s[..|s| - 1] + [s[|s| - 1]] == a + s
  {
    assert s[..|s| - 1] + [s[|s| - 1]] == s;
  }

  /**
   * A Python `dict` keyed by identifiers. Python dictionaries remember insertion order, and the
   * server walks them in that order, so the keys are kept as a sequence beside the map.
   */
  datatype Table<V> = Table(keys: seq<string>, rows: map<string, V>) {
    ghost predicate Valid() {
      Distinct(keys) && forall k :: k in rows <==> k in keys
    }

    /** `d[k] = v`: a new key goes to the end, an existing key keeps its place. */
    function Put(k: string, v: V): (t: Table<V>)
      ensures Valid() ==> t.Valid()
    {
      if k in rows then Table(keys, rows[k := v]) else Table(keys + [k], rows[k := v])
    }
  }

  /** Writing a key twice is writing it once with the second value. */
  lemma PutPut<V>(t: Table<V>, k: string, v1: V, v2: V)
    ensures t.Put(k, v1).Put(k, v2) == t.Put(k, v2)
  {
    assert t.rows[k := v1][k := v2] == t.rows[k := v2];
  }

  function EmptyTable<V>(): Table<V> {
    Table([], map[])
  }

  // ---------------------------------------------------------------------------------------------
  // Chat records

  datatype Conversation = Conversation(
    id: string,
    waId: string,
    name: Option<string> := None,
    lastMessageText: Option<string> := None,
    lastMessageAt: Option<int> := None,
    unreadCount: nat := 0)

  /** A chat message; `timestamp` is a `datetime`, modelled as a number of seconds. */
  datatype Message = Message(
    id: string,
    conversationId: string,
    direction: string,
    kind: string,
    timestamp: int,
    text: Option<string> := None,
    waId: Option<string> := None,
    status: string := "sent",
    metaMessageId: Option<string> := None)

  /** `Message.create_outgoing`: a text the panel sent, carrying the provider's message id. */
  function CreateOutgoing(id: string, conversationId: string, text: string, metaMessageId: string, now: int): (m: Message)
    ensures m.id == id && m.conversationId == conversationId && m.timestamp == now
    ensures m.direction == "outgoing" && m.kind == "text" && m.status == "sent"
    ensures m.text == Some(text) && m.metaMessageId == Some(metaMessageId) && m.waId == None
  {
    Message(id, conversationId, "outgoing", "text", now, text := Some(text), status := "sent",
            metaMessageId := Some(metaMessageId))
  }

  /** `Message.create_incoming`: a text received from the customer `waId`. */
  function CreateIncoming(id: string, conversationId: string, text: string, waId: string, timestamp: int): (m: Message)
    ensures m.id == id && m.conversationId == conversationId && m.timestamp == timestamp
    ensures m.direction == "incoming" && m.kind == "text" && m.status == "received"
    ensures m.text == Some(text) && m.waId == Some(waId) && m.metaMessageId == None
  {
    Message(id, conversationId, "incoming", "text", timestamp, text := Some(text), waId := Some(waId),
            status := "received")
  }

  /** The conversation `create_or_get_conversation` makes for a customer it has not seen. */
  function NewConversation(id: string, waId: string): (c: Conversation)
    ensures c.id == id && c.waId == waId && c.name == Some(waId)
    ensures c.lastMessageText == None && c.lastMessageAt == None && c.unreadCount == 0
  {
    Conversation(id, waId, name := Some(waId), lastMessageText := None, lastMessageAt := None, unreadCount := 0)
  }

  // ---------------------------------------------------------------------------------------------
  // Campaign records

  datatype CampaignStatus = Pending | Running | Finished | Failed

  datatype CampaignItemStatus = ItemPending | ItemSent | ItemFailed

  datatype Campaign = Campaign(
    id: string,
    name: string,
    phoneNumberId: string,
    templateName: Option<string> := None,
    templateLanguageCode: Option<string> := Some("pt_BR"),
    templateBodyParams: Option<seq<string>> := None,
    messageText: Option<string> := None,
    total: nat := 0,
    sent: nat := 0,
    failed: nat := 0,
    status: CampaignStatus := Pending)

  datatype CampaignItem = CampaignItem(
    id: string,
    campaignId: string,
    to: string,
    status: CampaignItemStatus := ItemPending,
    errorMessage: Option<string> := None)

  /** The body of a campaign-creation request. */
  datatype CampaignCreate = CampaignCreate(
    name: string,
    phoneNumberId: string,
    toNumbers: seq<string>,
    templateName: Option<string> := None,
    templateLanguageCode: Option<string> := Some("pt_BR"),
    templateBodyParams: Option<seq<string>> := None,
    messageText: Option<string> := None)

  /** A campaign built with every optional field left at its declared default. */
  function DefaultCampaign(id: string, name: string, phoneNumberId: string): (c: Campaign)
    ensures c.total == 0 && c.sent == 0 && c.failed == 0 && c.status == Pending
    ensures c.templateLanguageCode == Some("pt_BR")
    ensures c.templateName == None && c.messageText == None && c.templateBodyParams == None
  {
    Campaign(id, name, phoneNumberId)
  }

  /** A campaign item built with its optional fields left at their declared defaults. */
  function DefaultCampaignItem(id: string, campaignId: string, to: string): (it: CampaignItem)
    ensures it.status == ItemPending && it.errorMessage == None
    ensures it.id == id && it.campaignId == campaignId && it.to == to
  {
    CampaignItem(id, campaignId, to)
  }

  /** Exactly one of the template name and the free text is given. */
  predicate Exclusive(c: Campaign) {
    Given(c.templateName) != Given(c.messageText)
  }

  // ---------------------------------------------------------------------------------------------
  // Queries over the tables

  /** The keys, in order, of the items that belong to campaign `cid`. */
  function Owned(keys: seq<string>, rows: map<string, CampaignItem>, cid: string): (r: seq<string>)
    ensures forall k :: k in r <==> k in keys && k in rows && rows[k].campaignId == cid
    ensures forall j :: 0 <= j < |r| ==> r[j] in rows && rows[r[j]].campaignId == cid
    ensures Distinct(keys) ==> Distinct(r)
    ensures |r| <= |keys|
  {
    if keys == [] then []
    else
      var last := keys[|keys| - 1];
      var front := Owned(keys[..|keys| - 1], rows, cid);
      assert forall k :: k in keys <==> k in keys[..|keys| - 1] || k == last;
      front + (if last in rows && rows[last].campaignId == cid then [last] else [])
  }

  /** The identifiers of the items of campaign `cid`, in insertion order. */
  function ItemIdsOf(items: Table<CampaignItem>, cid: string): seq<string>
  {
    Owned(items.keys, items.rows, cid)
  }

  /** A campaign none of whose items are stored has an empty item list. */
  lemma {:induction false} OwnedNone(keys: seq<string>, rows: map<string, CampaignItem>, cid: string)
    requires forall k :: k in rows ==> rows[k].campaignId != cid
    ensures Owned(keys, rows, cid) == []
  {
    if keys != [] {
      OwnedNone(keys[..|keys| - 1], rows, cid);
    }
  }

  /** Which items belong to which campaign depends only on the items' campaign fields. */
  lemma {:induction false} OwnedFrame(keys: seq<string>, rows1: map<string, CampaignItem>, rows2: map<string, CampaignItem>, cid: string)
    requires forall k :: k in keys ==> (k in rows1 <==> k in rows2)
    requires forall k :: k in keys && k in rows1 ==> rows1[k].campaignId == rows2[k].campaignId
    ensures Owned(keys, rows1, cid) == Owned(keys, rows2, cid)
  {
    if keys != [] {
      OwnedFrame(keys[..|keys| - 1], rows1, rows2, cid);
    }
  }

  /** Adding an item under a new key appends it to its own campaign's items and to no other's. */
  lemma OwnedPut(t: Table<CampaignItem>, k: string, it: CampaignItem, cid: string)
    requires t.Valid() && k !in t.rows
    ensures ItemIdsOf(t.Put(k, it), cid) == ItemIdsOf(t, cid) + (if it.campaignId == cid then [k] else [])
  {
    var t' := t.Put(k, it);
    assert t'.keys == t.keys + [k];
    assert t'.keys[..|t'.keys| - 1] == t.keys;
    OwnedFrame(t.keys, t.rows, t'.rows, cid);
  }

  /** The key of the first conversation, in insertion order, with the customer number `waId`. */
  function FindIn(keys: seq<string>, rows: map<string, Conversation>, waId: string): (r: Option<string>)
    ensures r.Some? ==> r.value in keys && r.value in rows && rows[r.value].waId == waId
    ensures r.None? ==> forall k :: k in keys && k in rows ==> rows[k].waId != waId
  {
    if keys == [] then None
    else if keys[0] in rows && rows[keys[0]].waId == waId then Some(keys[0])
    else FindIn(keys[1..], rows, waId)
  }

  function FindByWaId(t: Table<Conversation>, waId: string): Option<string>
  {
    FindIn(t.keys, t.rows, waId)
  }

  /** The conversations stored under their own ids, one per customer number. */
  ghost predicate ConversationsValid(t: Table<Conversation>) {
    && t.Valid()
    && (forall k :: k in t.rows ==> t.rows[k].id == k)
    && (forall a, b :: a in t.rows && b in t.rows && t.rows[a].waId == t.rows[b].waId ==> a == b)
  }

  /**
   * `create_or_get_conversation`, as a function of the conversation table: the conversation of the
   * customer `waId` if there is one, otherwise a new one under `freshId`, inserted into the table.
   */
  function GetOrInsert(t: Table<Conversation>, waId: string, freshId: string): (r: (Table<Conversation>, Conversation))
    ensures r.1.waId == waId
    ensures ConversationsValid(t) && freshId !in t.rows ==>
      ConversationsValid(r.0) && r.1.id in r.0.rows && r.0.rows[r.1.id] == r.1
    ensures |r.0.keys| <= |t.keys| + 1
  {
    match FindByWaId(t, waId)
    case Some(k) =>
      assert k in t.rows && t.rows[k].waId == waId;
      (t, t.rows[k])
    case None => (t.Put(freshId, NewConversation(freshId, waId)), NewConversation(freshId, waId))
  }

  /** A customer already known: the table is left as it is and their conversation is returned. */
  lemma GetOrInsertFound(t: Table<Conversation>, waId: string, freshId: string, k: string)
    requires ConversationsValid(t) && k in t.rows && t.rows[k].waId == waId
    ensures GetOrInsert(t, waId, freshId) == (t, t.rows[k])
  {
  }

  /** A new customer: exactly one conversation is added, named after the number and with nothing unread. */
  lemma GetOrInsertNew(t: Table<Conversation>, waId: string, freshId: string)
    requires forall k :: k in t.keys && k in t.rows ==> t.rows[k].waId != waId
    ensures var (t', c) := GetOrInsert(t, waId, freshId);
      && c == NewConversation(freshId, waId)
      && t' == t.Put(freshId, c)
  {
  }

  /** Asking twice for the same customer returns the same conversation and adds at most one. */
  lemma GetOrInsertTwice(t: Table<Conversation>, waId: string, id1: string, id2: string)
    requires ConversationsValid(t) && id1 !in t.rows
    ensures var (t1, c1) := GetOrInsert(t, waId, id1);
      var (t2, c2) := GetOrInsert(t1, waId, id2);
      && c2 == c1 && t2 == t1
      && |t2.keys| <= |t.keys| + 1
  {
    var (t1, c1) := GetOrInsert(t, waId, id1);
    GetOrInsertFound(t1, waId, id2, c1.id);
  }

  // ---------------------------------------------------------------------------------------------
  // The in-memory database

  /** Every campaign, and every item of each, as `create_campaign` and `run_campaign` leave them. */
  ghost predicate LedgerValid(campaigns: Table<Campaign>, items: Table<CampaignItem>) {
    && campaigns.Valid() && items.Valid()
    && (forall c :: c in campaigns.rows ==> campaigns.rows[c].id == c)
    && (forall k :: k in items.rows ==> items.rows[k].id == k)
    && (forall c :: c in campaigns.rows ==> Exclusive(campaigns.rows[c]))
    && (forall k :: k in items.rows ==> items.rows[k].campaignId in campaigns.rows)
    && (forall c :: c in campaigns.rows ==> |ItemIdsOf(items, c)| == campaigns.rows[c].total)
    && (forall c :: c in campaigns.rows && campaigns.rows[c].status == Pending ==>
          campaigns.rows[c].sent == 0 && campaigns.rows[c].failed == 0)
    && (forall k :: k in items.rows && items.rows[k].campaignId in campaigns.rows
          && campaigns.rows[items.rows[k].campaignId].status == Pending
          ==> items.rows[k].status == ItemPending)
  }

  /** The module-level dictionaries `conversations_db`, `messages_db`, `campaigns_db`, `campaign_items_db`. */
  class Store {
    var conversations: Table<Conversation>
    var messages: Table<Message>
    var campaigns: Table<Campaign>
    var items: Table<CampaignItem>

    ghost predicate Valid()
      reads this
    {
      && ConversationsValid(conversations)
      && messages.Valid()
      && (forall k :: k in messages.rows ==> messages.rows[k].id == k)
      && LedgerValid(campaigns, items)
    }

    constructor ()
      ensures Valid()
      ensures conversations == EmptyTable() && messages == EmptyTable()
      ensures campaigns == EmptyTable() && items == EmptyTable()
    {
      conversations, messages := EmptyTable(), EmptyTable();
      campaigns, items := EmptyTable(), EmptyTable();
    }

    /** `create_or_get_conversation`: a search in insertion order, then an insert if nothing matched. */
    method CreateOrGetConversation(waId: string, freshId: string) returns (conv: Conversation)
      requires Valid() && freshId !in conversations.rows
      modifies this
      ensures Valid()
      ensures (conversations, conv) == GetOrInsert(old(conversations), waId, freshId)
      ensures conversations.rows[conv.id] == conv && conv.waId == waId
      ensures messages == old(messages) && campaigns == old(campaigns) && items == old(items)
    {
      var i := 0;
      while i < |conversations.keys|
        invariant 0 <= i <= |conversations.keys|
        invariant FindIn(conversations.keys[i..], conversations.rows, waId) == FindByWaId(conversations, waId)
      {
        var c := conversations.rows[conversations.keys[i]];
        if c.waId == waId {
          return c;
        }
        assert conversations.keys[i..][1..] == conversations.keys[i + 1..];
        i := i + 1;
      }
      conv := NewConversation(freshId, waId);
      conversations := conversations.Put(conv.id, conv);
    }
  }
}
