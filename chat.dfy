/**
 * The chat side of the server: the webhook handshake, the inbound-message webhook, the
 * outgoing text message, and the message list of one conversation.
 */
module Chat {
  import opened Wrappers
  import opened Models
  import opened MetaClient

  // ---------------------------------------------------------------------------------------------
  // Webhook handshake

  const VerifyToken: string := "SEU_VERIFY_TOKEN_AQUI"
  const VerificationFailed: string := "Erro de verificação"

  /** An HTML response: its body (`None` when the handler passed `None`) and its status code. */
  datatype HtmlResponse = HtmlResponse(content: Option<string>, statusCode: int)

  /**
   * `verify_webhook`: the provider's challenge is echoed with 200 only to a subscription request
   * carrying the configured token; every other request gets 403. Absent query parameters are `None`.
   */
  function VerifyWebhook(hubMode: Option<string>, hubChallenge: Option<string>, hubVerifyToken: Option<string>)
    : (r: HtmlResponse)
    ensures r.statusCode == 200 || r.statusCode == 403
    ensures r.statusCode == 200 <==> hubMode == Some("subscribe") && hubVerifyToken == Some(VerifyToken)
    ensures r.statusCode == 200 ==> r.content == hubChallenge
    ensures r.statusCode == 403 ==> r.content == Some(VerificationFailed)
  {
    if hubMode == Some("subscribe") && hubVerifyToken == Some(VerifyToken) then HtmlResponse(hubChallenge, 200)
    else HtmlResponse(Some(VerificationFailed), 403)
  }

  // ---------------------------------------------------------------------------------------------
  // Conversation upkeep

  /** Rewriting a stored conversation under its own id, with the same number, keeps the table well formed. */
  lemma RefreshKeepsConversations(t: Table<Conversation>, c: Conversation)
    requires ConversationsValid(t) && c.id in t.rows && t.rows[c.id].waId == c.waId
    ensures ConversationsValid(t.Put(c.id, c)) && t.Put(c.id, c).keys == t.keys
  {
  }

  /** Storing a message under a fresh id keeps every message filed under its own id. */
  lemma StoreMessageKeepsValid(t: Table<Message>, m: Message)
    requires t.Valid() && (forall k :: k in t.rows ==> t.rows[k].id == k) && m.id !in t.rows
    ensures var t1 := t.Put(m.id, m);
      && t1.Valid() && (forall k :: k in t1.rows ==> t1.rows[k].id == k)
      && t1.keys == t.keys + [m.id]
  {
  }
  /**
   * `messages_db[msg.id] = msg` followed by writing back the conversation `conv` it belongs to,
   * with its last message and counters brought up to date.
   */
  method StoreMessage(db: Store, msg: Message, conv: Conversation)
    requires db.Valid() && msg.id !in db.messages.rows
    requires conv.id in db.conversations.rows && db.conversations.rows[conv.id].waId == conv.waId
    modifies db
    ensures db.Valid()
    ensures db.messages == old(db.messages).Put(msg.id, msg) && db.conversations == old(db.conversations).Put(conv.id, conv)
    ensures db.campaigns == old(db.campaigns) && db.items == old(db.items)
  {
    RefreshKeepsConversations(db.conversations, conv);
    StoreMessageKeepsValid(db.messages, msg);
    db.messages, db.conversations := db.messages.Put(msg.id, msg), db.conversations.Put(conv.id, conv);
  }


  /** What `GetOrInsert` returns is stored, and it adds at most the fresh id; no stored row changes. */
  lemma GetOrInsertFrame(t: Table<Conversation>, waId: string, freshId: string)
    requires ConversationsValid(t) && freshId !in t.rows
    ensures var (t1, c) := GetOrInsert(t, waId, freshId);
      && ConversationsValid(t1) && c.id in t1.rows && t1.rows[c.id] == c && c.waId == waId
      && (forall k :: k in t.rows ==> k in t1.rows && t1.rows[k] == t.rows[k])
      && (forall k :: k in t1.rows ==> k in t.rows || k == freshId)
      && (c.id !in t.rows ==> c == NewConversation(freshId, waId))
  {
  }

  // ---------------------------------------------------------------------------------------------
  // Outgoing text

  /** The body of a request to send a text message. */
  datatype SendTextRequest = SendTextRequest(phoneNumberId: string, to: string, message: string)

  /** A conversation the panel has just written to: last message and time updated, nothing unread. */
  function Replied(c: Conversation, text: string, now: int): (r: Conversation)
    ensures r.id == c.id && r.waId == c.waId && r.name == c.name
    ensures r.lastMessageText == Some(text) && r.lastMessageAt == Some(now) && r.unreadCount == 0
  {
    c.(lastMessageText := Some(text), lastMessageAt := Some(now), unreadCount := 0)
  }

  /**
   * `send_text_message`. `freshConvId` and `msgId` stand for the `uuid4()` values, `now` for
   * `utcnow()`, and `token`/`reply` for the access token and the provider's answer. The conversation
   * is found or opened BEFORE the provider is called, so it stays opened when the send raises; on
   * success the outgoing message is stored and the conversation records it with nothing unread.
   */
  method SendTextMessage(db: Store, payload: SendTextRequest, token: Option<string>, reply: HttpOutcome,
                         freshConvId: string, msgId: string, now: int)
    returns (r: Result<Message, string>)
    requires db.Valid() && freshConvId !in db.conversations.rows && msgId !in db.messages.rows
    modifies db
    ensures db.Valid()
    ensures db.campaigns == old(db.campaigns) && db.items == old(db.items)
    ensures var (convs, conv) := GetOrInsert(old(db.conversations), payload.to, freshConvId);
      var sent := SendText(token, payload.to, Some(payload.message), payload.phoneNumberId, reply);
      && (sent.Failure? ==>
            r == Failure(sent.error) && db.conversations == convs && db.messages == old(db.messages))
      && (sent.Success? ==>
            && r == Success(CreateOutgoing(msgId, conv.id, payload.message, sent.value, now))
            && db.messages == old(db.messages).Put(msgId, r.value)
            && db.conversations == convs.Put(conv.id, Replied(conv, payload.message, now)))
  {
    var conv := db.CreateOrGetConversation(payload.to, freshConvId);
    var sent := SendText(token, payload.to, Some(payload.message), payload.phoneNumberId, reply);
    if sent.Failure? {
      return Failure(sent.error);
    }
    var msg := CreateOutgoing(msgId, conv.id, payload.message, sent.value, now);
    StoreMessage(db, msg, Replied(conv, payload.message, now));
    r := Success(msg);
  }

  /**
   * After a successful send the customer has exactly one conversation, it holds the text just sent
   * and has nothing unread, and every other conversation is as it was.
   */
  lemma SendTextConversation(t: Table<Conversation>, to: string, freshId: string, text: string, now: int)
    requires ConversationsValid(t) && freshId !in t.rows
    ensures var (t1, conv) := GetOrInsert(t, to, freshId);
      var t2 := t1.Put(conv.id, Replied(conv, text, now));
      && ConversationsValid(t2)
      && conv.id in t2.rows && t2.rows[conv.id].waId == to
      && t2.rows[conv.id].unreadCount == 0 && t2.rows[conv.id].lastMessageText == Some(text)
      && (forall k :: k in t2.rows && t2.rows[k].waId == to ==> k == conv.id)
      && (forall k :: k in t.rows && k != conv.id ==> k in t2.rows && t2.rows[k] == t.rows[k])
      && |t2.keys| <= |t.keys| + 1
  {
    GetOrInsertFrame(t, to, freshId);
    var (t1, conv) := GetOrInsert(t, to, freshId);
    RefreshKeepsConversations(t1, Replied(conv, text, now));
  }

  // ---------------------------------------------------------------------------------------------
  // Inbound webhook

  /** One element of a change's "messages" list: its "from", its text's "body" and its "timestamp", each possibly absent. */
  datatype InboundMessage = InboundMessage(from: Option<string>, body: Option<string>, timestamp: Option<int>)

  /** One element of an entry's "changes": the "messages" list of its "value" (an absent list is empty). */
  datatype Change = Change(messages: seq<InboundMessage>)

  /** One element of the body's "entry" list. */
  datatype Entry = Entry(changes: seq<Change>)

  datatype WebhookBody = WebhookBody(entry: seq<Entry>)

  /** `msg.get("text", {}).get("body", "")`. */
  function TextOf(m: InboundMessage): string
  {
    m.body.GetOr("")
  }

  /** `int(msg.get("timestamp", "0"))`. */
  function TimeOf(m: InboundMessage): int
  {
    m.timestamp.GetOr(0)
  }

  function ChangesMessages(cs: seq<Change>): seq<InboundMessage>
  {
    if cs == [] then [] else cs[0].messages + ChangesMessages(cs[1..])
  }

  function EntriesMessages(es: seq<Entry>): seq<InboundMessage>
  {
    if es == [] then [] else ChangesMessages(es[0].changes) + EntriesMessages(es[1..])
  }

  /** Every inbound message of a webhook body, in the order the three nested loops visit them. */
  function Inbound(body: WebhookBody): seq<InboundMessage>
  {
    EntriesMessages(body.entry)
  }

  /** The two dictionaries the webhook writes. */
  datatype Inbox = Inbox(conversations: Table<Conversation>, messages: Table<Message>)

  ghost predicate InboxValid(s: Inbox) {
    && ConversationsValid(s.conversations)
    && s.messages.Valid()
    && (forall k :: k in s.messages.rows ==> s.messages.rows[k].id == k)
  }

  /** A source of `uuid4()` values: never the same value twice. */
  ghost predicate Injective(ids: nat -> string) {
    forall i, j :: i != j ==> ids(i) != ids(j)
  }

  /** The stored message for an inbound one, in the conversation `convId`. */
  function Incoming(msgId: string, convId: string, from: string, m: InboundMessage): Message
  {
    CreateIncoming(msgId, convId, TextOf(m), from, TimeOf(m))
  }

  /** A conversation that has just received `m`: last message and time updated, one more unread. */
  function Received(c: Conversation, m: InboundMessage): (r: Conversation)
    ensures r.id == c.id && r.waId == c.waId && r.name == c.name
    ensures r.lastMessageText == Some(TextOf(m)) && r.lastMessageAt == Some(TimeOf(m))
    ensures r.unreadCount == c.unreadCount + 1
  {
    c.(lastMessageText := Some(TextOf(m)), lastMessageAt := Some(TimeOf(m)), unreadCount := c.unreadCount + 1)
  }

  /** The body of the innermost loop for a message from `from`. */
  function Absorb(s: Inbox, from: string, m: InboundMessage, convId: string, msgId: string): Inbox
  {
    var (convs, conv) := GetOrInsert(s.conversations, from, convId);
    Inbox(convs.Put(conv.id, Received(conv, m)), s.messages.Put(msgId, Incoming(msgId, conv.id, from, m)))
  }

  /**
   * The messages `ms` absorbed in order, the n-th using the n-th fresh ids. A message without a
   * sender stops the webhook with an error (`create_or_get_conversation(None)` cannot build a
   * conversation), leaving what was stored before it; the boolean says whether all went through.
   */
  function AbsorbAll(s: Inbox, ms: seq<InboundMessage>, n: nat, convIds: nat -> string, msgIds: nat -> string)
    : (Inbox, bool)
    decreases |ms|
  {
    if ms == [] then (s, true)
    else if ms[0].from.None? then (s, false)
    else AbsorbAll(Absorb(s, ms[0].from.value, ms[0], convIds(n), msgIds(n)), ms[1..], n + 1, convIds, msgIds)
  }

  /** How many of the messages `ms` came from the number `waId`. */
  function CountFrom(ms: seq<InboundMessage>, waId: string): nat
  {
    if ms == [] then 0 else (if ms[0].from == Some(waId) then 1 else 0) + CountFrom(ms[1..], waId)
  }

  /** Fresh ids from the n-th on: none is a stored conversation or message. */
  ghost predicate FreshFrom(s: Inbox, n: nat, convIds: nat -> string, msgIds: nat -> string) {
    && (forall i: nat :: i >= n ==> convIds(i) !in s.conversations.rows)
    && (forall i: nat :: i >= n ==> msgIds(i) !in s.messages.rows)
  }

  /**
   * One inbound message, on the conversations: the table stays well formed, rows are only added
   * (at the fresh id) and keep their numbers, and the sender's conversation gains one unread while
   * no other does.
   */
  lemma AbsorbConversations(s: Inbox, from: string, m: InboundMessage, convId: string, msgId: string)
    requires ConversationsValid(s.conversations) && convId !in s.conversations.rows
    ensures var r := Absorb(s, from, m, convId, msgId).conversations;
      var c := GetOrInsert(s.conversations, from, convId).1.id;
      && ConversationsValid(r)
      && c in r.rows && r.rows[c].waId == from
      && (forall k :: k in s.conversations.rows ==> k in r.rows && r.rows[k].waId == s.conversations.rows[k].waId)
      && (forall k :: k in r.rows ==> k in s.conversations.rows || k == convId)
      && (forall k :: k in r.rows ==>
            r.rows[k].unreadCount
              == (if k in s.conversations.rows then s.conversations.rows[k].unreadCount else 0)
                 + (if r.rows[k].waId == from then 1 else 0))
  {
    GetOrInsertFrame(s.conversations, from, convId);
    var (convs, conv) := GetOrInsert(s.conversations, from, convId);
    RefreshKeepsConversations(convs, Received(conv, m));
  }

  /** One inbound message, on the messages: stored under the fresh id, in the sender's conversation, after the others. */
  lemma AbsorbMessages(s: Inbox, from: string, m: InboundMessage, convId: string, msgId: string)
    requires s.messages.Valid() && (forall k :: k in s.messages.rows ==> s.messages.rows[k].id == k)
    requires msgId !in s.messages.rows
    ensures var r := Absorb(s, from, m, convId, msgId).messages;
      && r.Valid() && (forall k :: k in r.rows ==> r.rows[k].id == k)
      && r.keys == s.messages.keys + [msgId]
      && (forall k :: k in s.messages.rows ==> k in r.rows && r.rows[k] == s.messages.rows[k])
      && msgId in r.rows
      && r.rows[msgId] == Incoming(msgId, GetOrInsert(s.conversations, from, convId).1.id, from, m)
  {
    StoreMessageKeepsValid(s.messages, Incoming(msgId, GetOrInsert(s.conversations, from, convId).1.id, from, m));
  }

  /** The ids drawn for the n-th message are used up; the later ones stay fresh. */
  lemma AbsorbFresh(s: Inbox, from: string, m: InboundMessage, n: nat, convIds: nat -> string, msgIds: nat -> string)
    requires InboxValid(s) && FreshFrom(s, n, convIds, msgIds) && Injective(convIds) && Injective(msgIds)
    ensures FreshFrom(Absorb(s, from, m, convIds(n), msgIds(n)), n + 1, convIds, msgIds)
  {
    AbsorbConversations(s, from, m, convIds(n), msgIds(n));
    AbsorbMessages(s, from, m, convIds(n), msgIds(n));
  }

  /** One inbound message keeps both tables well formed and the later ids fresh. */
  lemma AbsorbValid(s: Inbox, from: string, m: InboundMessage, n: nat, convIds: nat -> string, msgIds: nat -> string)
    requires InboxValid(s) && FreshFrom(s, n, convIds, msgIds) && Injective(convIds) && Injective(msgIds)
    ensures var s1 := Absorb(s, from, m, convIds(n), msgIds(n));
      InboxValid(s1) && FreshFrom(s1, n + 1, convIds, msgIds)
  {
    AbsorbConversations(s, from, m, convIds(n), msgIds(n));
    AbsorbMessages(s, from, m, convIds(n), msgIds(n));
    AbsorbFresh(s, from, m, n, convIds, msgIds);
  }

  /** `receive_webhook` goes through exactly when every inbound message names its sender. */
  lemma {:induction false} AbsorbAllOk(s: Inbox, ms: seq<InboundMessage>, n: nat, convIds: nat -> string, msgIds: nat -> string)
    ensures AbsorbAll(s, ms, n, convIds, msgIds).1 <==> AllNamed(ms)
    decreases |ms|
  {
    if ms != [] && ms[0].from.Some? {
      AbsorbAllOk(Absorb(s, ms[0].from.value, ms[0], convIds(n), msgIds(n)), ms[1..], n + 1, convIds, msgIds);
      assert forall j :: 1 <= j < |ms| ==> ms[j] == ms[1..][j - 1];
    }
  }

  /** Up to where the webhook stops, the tables stay well formed and no stored row is lost or renumbered. */
  lemma {:induction false} AbsorbAllValid(s: Inbox, ms: seq<InboundMessage>, n: nat, convIds: nat -> string, msgIds: nat -> string)
    requires InboxValid(s) && FreshFrom(s, n, convIds, msgIds) && Injective(convIds) && Injective(msgIds)
    ensures var r := AbsorbAll(s, ms, n, convIds, msgIds).0;
      && InboxValid(r)
      && (forall k :: k in s.conversations.rows ==>
            k in r.conversations.rows && r.conversations.rows[k].waId == s.conversations.rows[k].waId)
      && (forall k :: k in s.messages.rows ==> k in r.messages.rows && r.messages.rows[k] == s.messages.rows[k])
    decreases |ms|
  {
    if ms != [] && ms[0].from.Some? {
      var s1 := Absorb(s, ms[0].from.value, ms[0], convIds(n), msgIds(n));
      AbsorbConversations(s, ms[0].from.value, ms[0], convIds(n), msgIds(n));
      AbsorbMessages(s, ms[0].from.value, ms[0], convIds(n), msgIds(n));
      AbsorbValid(s, ms[0].from.value, ms[0], n, convIds, msgIds);
      AbsorbAllValid(s1, ms[1..], n + 1, convIds, msgIds);
    }
  }

  /**
   * Every conversation's `unread_count` rises by the number of inbound messages from its number
   * (a conversation opened by the webhook starts from 0).
   */
  lemma {:induction false} AbsorbAllUnread(s: Inbox, ms: seq<InboundMessage>, n: nat, convIds: nat -> string, msgIds: nat -> string)
    requires InboxValid(s) && FreshFrom(s, n, convIds, msgIds) && Injective(convIds) && Injective(msgIds)
    requires AllNamed(ms)
    ensures var r := AbsorbAll(s, ms, n, convIds, msgIds).0;
      forall k :: k in r.conversations.rows ==>
        r.conversations.rows[k].unreadCount
          == (if k in s.conversations.rows then s.conversations.rows[k].unreadCount else 0)
             + CountFrom(ms, r.conversations.rows[k].waId)
    decreases |ms|
  {
    if ms != [] {
      var from := ms[0].from.value;
      var s1 := Absorb(s, from, ms[0], convIds(n), msgIds(n));
      var c := GetOrInsert(s.conversations, from, convIds(n)).1.id;
      AbsorbConversations(s, from, ms[0], convIds(n), msgIds(n));
      AbsorbValid(s, from, ms[0], n, convIds, msgIds);
      AllNamedTail(ms);
      AbsorbAllUnread(s1, ms[1..], n + 1, convIds, msgIds);
      AbsorbAllValid(s1, ms[1..], n + 1, convIds, msgIds);
      var r := AbsorbAll(s1, ms[1..], n + 1, convIds, msgIds).0;
      AbsorbAllCons(s, ms, n, convIds, msgIds);
      assert c in r.conversations.rows && r.conversations.rows[c].waId == from;
      forall k | k in r.conversations.rows
        ensures r.conversations.rows[k].unreadCount
          == (if k in s.conversations.rows then s.conversations.rows[k].unreadCount else 0)
             + CountFrom(ms, r.conversations.rows[k].waId)
      {
        var w := r.conversations.rows[k].waId;
        assert CountFrom(ms, w) == (if from == w then 1 else 0) + CountFrom(ms[1..], w);
        if k !in s1.conversations.rows {
          // The sender has a conversation in `s1`; a second one in `r` would break one-per-number.
          assert c != k;
          assert w != from;
        } else {
          assert s1.conversations.rows[k].waId == w;
        }
      }
    }
  }

  /** Every message names its sender. */
  predicate AllNamed(ms: seq<InboundMessage>) {
    forall j :: 0 <= j < |ms| ==> ms[j].from.Some?
  }

  lemma AllNamedTail(ms: seq<InboundMessage>)
    requires AllNamed(ms) && ms != []
    ensures AllNamed(ms[1..])
  {
    assert forall j :: 0 <= j < |ms[1..]| ==> ms[1..][j] == ms[j + 1];
  }

  /** When every message names its sender, the message table grows by exactly one row per message. */
  lemma {:induction false} AbsorbAllCount(s: Inbox, ms: seq<InboundMessage>, n: nat, convIds: nat -> string, msgIds: nat -> string)
    requires InboxValid(s) && FreshFrom(s, n, convIds, msgIds) && Injective(convIds) && Injective(msgIds)
    requires AllNamed(ms)
    ensures |AbsorbAll(s, ms, n, convIds, msgIds).0.messages.keys| == |s.messages.keys| + |ms|
    decreases |ms|
  {
    if ms != [] {
      var from := ms[0].from.value;
      AbsorbMessages(s, from, ms[0], convIds(n), msgIds(n));
      AbsorbValid(s, from, ms[0], n, convIds, msgIds);
      AllNamedTail(ms);
      AbsorbAllCount(Absorb(s, from, ms[0], convIds(n), msgIds(n)), ms[1..], n + 1, convIds, msgIds);
    }
  }

  /**
   * The inbound message `m` is stored under `id`, with the sender's number and the text (or ""),
   * in the conversation that holds that number.
   */
  ghost predicate StoredAt(r: Inbox, id: string, m: InboundMessage)
    requires m.from.Some?
  {
    && id in r.messages.rows
    && var stored := r.messages.rows[id];
    && stored == Incoming(id, stored.conversationId, m.from.value, m)
    && stored.conversationId in r.conversations.rows
    && r.conversations.rows[stored.conversationId].waId == m.from.value
  }

  /**
   * The j-th inbound message is stored under the j-th fresh id, with the sender's number and the
   * text (or ""), in the conversation that holds that number.
   */
  lemma {:induction false} AbsorbAllMessageAt(s: Inbox, ms: seq<InboundMessage>, n: nat, convIds: nat -> string,
                                              msgIds: nat -> string, j: nat)
    requires InboxValid(s) && FreshFrom(s, n, convIds, msgIds) && Injective(convIds) && Injective(msgIds)
    requires AllNamed(ms) && j < |ms|
    ensures StoredAt(AbsorbAll(s, ms, n, convIds, msgIds).0, msgIds(n + j), ms[j])
    decreases |ms|, 1
  {
    if j == 0 {
      AbsorbAllFirstMessage(s, ms, n, convIds, msgIds);
    } else {
      AbsorbAllLaterMessage(s, ms, n, convIds, msgIds, j);
    }
  }

  lemma {:induction false} AbsorbAllLaterMessage(s: Inbox, ms: seq<InboundMessage>, n: nat, convIds: nat -> string,
                                                 msgIds: nat -> string, j: nat)
    requires InboxValid(s) && FreshFrom(s, n, convIds, msgIds) && Injective(convIds) && Injective(msgIds)
    requires AllNamed(ms) && 0 < j < |ms|
    ensures StoredAt(AbsorbAll(s, ms, n, convIds, msgIds).0, msgIds(n + j), ms[j])
    decreases |ms|, 0
  {
    assert ms[0].from.Some?;
    var s1 := Absorb(s, ms[0].from.value, ms[0], convIds(n), msgIds(n));
    AbsorbAllCons(s, ms, n, convIds, msgIds);
    AbsorbValid(s, ms[0].from.value, ms[0], n, convIds, msgIds);
    AllNamedTail(ms);
    AbsorbAllMessageAt(s1, ms[1..], n + 1, convIds, msgIds, j - 1);
    assert ms[1..][j - 1] == ms[j];
  }

  /** A message with a sender is absorbed, and the rest follow with the next fresh ids. */
  lemma AbsorbAllCons(s: Inbox, ms: seq<InboundMessage>, n: nat, convIds: nat -> string, msgIds: nat -> string)
    requires ms != [] && ms[0].from.Some?
    ensures AbsorbAll(s, ms, n, convIds, msgIds)
         == AbsorbAll(Absorb(s, ms[0].from.value, ms[0], convIds(n), msgIds(n)), ms[1..], n + 1, convIds, msgIds)
  {
  }

  /** The first message is stored under the first fresh id, and nothing after it overwrites it. */
  lemma AbsorbAllFirstMessage(s: Inbox, ms: seq<InboundMessage>, n: nat, convIds: nat -> string, msgIds: nat -> string)
    requires InboxValid(s) && FreshFrom(s, n, convIds, msgIds) && Injective(convIds) && Injective(msgIds)
    requires AllNamed(ms) && ms != []
    ensures var r := AbsorbAll(s, ms, n, convIds, msgIds).0;
      && msgIds(n) in r.messages.rows
      && var stored := r.messages.rows[msgIds(n)];
      && stored == Incoming(msgIds(n), stored.conversationId, ms[0].from.value, ms[0])
      && stored.conversationId in r.conversations.rows
      && r.conversations.rows[stored.conversationId].waId == ms[0].from.value
  {
    var from := ms[0].from.value;
    var s1 := Absorb(s, from, ms[0], convIds(n), msgIds(n));
    AbsorbConversations(s, from, ms[0], convIds(n), msgIds(n));
    AbsorbMessages(s, from, ms[0], convIds(n), msgIds(n));
    AbsorbValid(s, from, ms[0], n, convIds, msgIds);
    AbsorbAllValid(s1, ms[1..], n + 1, convIds, msgIds);
  }

  /** The messages of an entry list are those of its first entry, then those of the rest. */
  lemma EntriesStep(es: seq<Entry>, i: nat)
    requires i < |es|
    ensures EntriesMessages(es[i..]) == ChangesMessages(es[i].changes) + EntriesMessages(es[i + 1..])
  {
    assert es[i..][1..] == es[i + 1..];
  }

  /** The messages of a change list, followed by `rest`, are those of its first change, then the others'. */
  lemma ChangesStep(cs: seq<Change>, i: nat, rest: seq<InboundMessage>)
    requires i < |cs|
    ensures ChangesMessages(cs[i..]) + rest == cs[i].messages + (ChangesMessages(cs[i + 1..]) + rest)
  {
    assert cs[i..][1..] == cs[i + 1..];
  }

  lemma ChangesDone(cs: seq<Change>, rest: seq<InboundMessage>)
    ensures ChangesMessages(cs[|cs|..]) + rest == rest
  {
    assert cs[|cs|..] == [];
  }

  /** What is left to absorb, one message further on. */
  lemma RestStep(ms: seq<InboundMessage>, k: nat, tail: seq<InboundMessage>)
    requires k < |ms|
    ensures (ms[k..] + tail)[0] == ms[k] && (ms[k..] + tail)[1..] == ms[k + 1..] + tail
  {
  }

  /** The body of `receive_webhook`'s innermost loop, for a message from `from`: store it and update its conversation. */
  method ReceiveOne(db: Store, from: string, msg: InboundMessage, n: nat, convIds: nat -> string, msgIds: nat -> string)
    requires db.Valid() && Injective(convIds) && Injective(msgIds)
    requires FreshFrom(Inbox(db.conversations, db.messages), n, convIds, msgIds)
    modifies db
    ensures db.Valid() && FreshFrom(Inbox(db.conversations, db.messages), n + 1, convIds, msgIds)
    ensures db.campaigns == old(db.campaigns) && db.items == old(db.items)
    ensures Inbox(db.conversations, db.messages) == Absorb(old(Inbox(db.conversations, db.messages)), from, msg, convIds(n), msgIds(n))
  {
    ghost var before := Inbox(db.conversations, db.messages);
    AbsorbValid(before, from, msg, n, convIds, msgIds);
    var conv := db.CreateOrGetConversation(from, convIds(n));
    var stored := CreateIncoming(msgIds(n), conv.id, TextOf(msg), from, TimeOf(msg));
    StoreMessage(db, stored, Received(conv, msg));
    assert Inbox(db.conversations, db.messages) == Absorb(before, from, msg, convIds(n), msgIds(n));
  }

  /**
   * The innermost loop of `receive_webhook`, over the messages of one change. `goal` is what the
   * whole webhook stores; `rest` the messages still to come after these. It stops with `false`
   * where the source raises, and otherwise leaves `rest` to do.
   */
  method ReceiveMessages(db: Store, msgs: seq<InboundMessage>, ghost rest: seq<InboundMessage>, n0: nat,
                         convIds: nat -> string, msgIds: nat -> string, ghost goal: (Inbox, bool))
    returns (ok: bool, n: nat)
    requires db.Valid() && Injective(convIds) && Injective(msgIds)
    requires FreshFrom(Inbox(db.conversations, db.messages), n0, convIds, msgIds)
    requires AbsorbAll(Inbox(db.conversations, db.messages), msgs + rest, n0, convIds, msgIds) == goal
    modifies db
    ensures db.Valid() && FreshFrom(Inbox(db.conversations, db.messages), n, convIds, msgIds)
    ensures db.campaigns == old(db.campaigns) && db.items == old(db.items)
    ensures ok ==> AbsorbAll(Inbox(db.conversations, db.messages), rest, n, convIds, msgIds) == goal
    ensures !ok ==> (Inbox(db.conversations, db.messages), false) == goal
  {
    n := n0;
    var k := 0;
    assert msgs[k..] == msgs;
    while k < |msgs|
      invariant 0 <= k <= |msgs|
      invariant db.Valid() && FreshFrom(Inbox(db.conversations, db.messages), n, convIds, msgIds)
      invariant db.campaigns == old(db.campaigns) && db.items == old(db.items)
      invariant AbsorbAll(Inbox(db.conversations, db.messages), msgs[k..] + rest, n, convIds, msgIds) == goal
    {
      var msg := msgs[k];
      RestStep(msgs, k, rest);
      if msg.from.None? {
        // `Conversation(wa_id=None)` fails validation: the request ends with an error here.
        return false, n;
      }
      ReceiveOne(db, msg.from.value, msg, n, convIds, msgIds);
      n := n + 1;
      k := k + 1;
    }
    assert msgs[k..] + rest == rest;
    ok := true;
  }

  /** The middle loop of `receive_webhook`, over the changes of one entry. */
  method ReceiveChanges(db: Store, changes: seq<Change>, ghost rest: seq<InboundMessage>, n0: nat,
                        convIds: nat -> string, msgIds: nat -> string, ghost goal: (Inbox, bool))
    returns (ok: bool, n: nat)
    requires db.Valid() && Injective(convIds) && Injective(msgIds)
    requires FreshFrom(Inbox(db.conversations, db.messages), n0, convIds, msgIds)
    requires AbsorbAll(Inbox(db.conversations, db.messages), ChangesMessages(changes) + rest, n0, convIds, msgIds) == goal
    modifies db
    ensures db.Valid() && FreshFrom(Inbox(db.conversations, db.messages), n, convIds, msgIds)
    ensures db.campaigns == old(db.campaigns) && db.items == old(db.items)
    ensures ok ==> AbsorbAll(Inbox(db.conversations, db.messages), rest, n, convIds, msgIds) == goal
    ensures !ok ==> (Inbox(db.conversations, db.messages), false) == goal
  {
    n := n0;
    var j := 0;
    assert changes[j..] == changes;
    while j < |changes|
      invariant 0 <= j <= |changes|
      invariant db.Valid() && FreshFrom(Inbox(db.conversations, db.messages), n, convIds, msgIds)
      invariant db.campaigns == old(db.campaigns) && db.items == old(db.items)
      invariant AbsorbAll(Inbox(db.conversations, db.messages), ChangesMessages(changes[j..]) + rest, n, convIds, msgIds) == goal
    {
      ChangesStep(changes, j, rest);
      ok, n := ReceiveMessages(db, changes[j].messages, ChangesMessages(changes[j + 1..]) + rest, n, convIds, msgIds, goal);
      if !ok {
        return;
      }
      j := j + 1;
    }
    ChangesDone(changes, rest);
    ok := true;
  }

  /**
   * `receive_webhook`: its outer loop over the body's entries, the inner two in `ReceiveChanges`
   * and `ReceiveMessages`. `convIds(n)` and `msgIds(n)` stand for the `uuid4()` values drawn for the
   * n-th message. It stores exactly what `AbsorbAll` describes, and answers `false` where the
   * source raises.
   */
  method ReceiveWebhook(db: Store, body: WebhookBody, convIds: nat -> string, msgIds: nat -> string)
    returns (ok: bool)
    requires db.Valid() && Injective(convIds) && Injective(msgIds)
    requires FreshFrom(Inbox(db.conversations, db.messages), 0, convIds, msgIds)
    modifies db
    ensures db.Valid()
    ensures db.campaigns == old(db.campaigns) && db.items == old(db.items)
    ensures (Inbox(db.conversations, db.messages), ok)
      == AbsorbAll(Inbox(old(db.conversations), old(db.messages)), Inbound(body), 0, convIds, msgIds)
  {
    ghost var goal := AbsorbAll(Inbox(db.conversations, db.messages), Inbound(body), 0, convIds, msgIds);
    var n: nat := 0;
    var i := 0;
    assert body.entry[i..] == body.entry;
    while i < |body.entry|
      invariant 0 <= i <= |body.entry|
      invariant db.Valid() && FreshFrom(Inbox(db.conversations, db.messages), n, convIds, msgIds)
      invariant db.campaigns == old(db.campaigns) && db.items == old(db.items)
      invariant AbsorbAll(Inbox(db.conversations, db.messages), EntriesMessages(body.entry[i..]), n, convIds, msgIds) == goal
    {
      EntriesStep(body.entry, i);
      ok, n := ReceiveChanges(db, body.entry[i].changes, EntriesMessages(body.entry[i + 1..]), n, convIds, msgIds, goal);
      if !ok {
        return;
      }
      i := i + 1;
    }
    assert EntriesMessages(body.entry[i..]) == [];
    ok := true;
  }

  // ---------------------------------------------------------------------------------------------
  // Message list of a conversation

  /** The stored messages of conversation `cid`, in insertion order. */
  function InConversation(keys: seq<string>, rows: map<string, Message>, cid: string): (r: seq<Message>)
    ensures forall j :: 0 <= j < |r| ==> r[j].conversationId == cid
    ensures forall k :: k in keys && k in rows && rows[k].conversationId == cid ==> rows[k] in r
    ensures forall m :: m in r ==> exists k :: k in keys && k in rows && rows[k] == m
  {
    if keys == [] then []
    else
      var last := keys[|keys| - 1];
      var front := InConversation(keys[..|keys| - 1], rows, cid);
      assert forall k :: k in keys ==> k in keys[..|keys| - 1] || k == last;
      front + (if last in rows && rows[last].conversationId == cid then [rows[last]] else [])
  }

  predicate SortedByTime(s: seq<Message>) {
    forall i, j :: 0 <= i < j < |s| ==> s[i].timestamp <= s[j].timestamp
  }

  /** The messages of `s` stamped `ts`, in their order in `s`. */
  function AtTime(s: seq<Message>, ts: int): seq<Message>
  {
    if s == [] then []
    else AtTime(s[..|s| - 1], ts) + (if s[|s| - 1].timestamp == ts then [s[|s| - 1]] else [])
  }

  /** `m` placed after every message of `s` that is not later than it. */
  function InsertByTime(s: seq<Message>, m: Message): seq<Message>
  {
    if s == [] || s[|s| - 1].timestamp <= m.timestamp then s + [m]
    else InsertByTime(s[..|s| - 1], m) + [s[|s| - 1]]
  }

  /** `list.sort(key=lambda m: m.timestamp)`: a stable sort by timestamp. */
  function SortByTime(s: seq<Message>): seq<Message>
  {
    if s == [] then [] else InsertByTime(SortByTime(s[..|s| - 1]), s[|s| - 1])
  }

  lemma AtTimeAppend(s: seq<Message>, m: Message, ts: int)
    ensures AtTime(s + [m], ts) == AtTime(s, ts) + (if m.timestamp == ts then [m] else [])
  {
    assert (s + [m])[..|s|] == s;
  }

  lemma {:induction false} InsertByTimeMultiset(s: seq<Message>, m: Message)
    ensures multiset(InsertByTime(s, m)) == multiset(s) + multiset{m}
  {
    if s != [] && s[|s| - 1].timestamp > m.timestamp {
      var n := |s| - 1;
      InsertByTimeMultiset(s[..n], m);
      assert s == s[..n] + [s[n]];
    }
  }

  lemma {:induction false} InsertByTimeSorted(s: seq<Message>, m: Message)
    requires SortedByTime(s)
    ensures SortedByTime(InsertByTime(s, m))
  {
    if s != [] && s[|s| - 1].timestamp > m.timestamp {
      var n := |s| - 1;
      var front := InsertByTime(s[..n], m);
      InsertByTimeSorted(s[..n], m);
      InsertByTimeMultiset(s[..n], m);
      SortedLast(s);
      forall x | x in front ensures x.timestamp <= s[n].timestamp {
        assert x in multiset(front);
        if x != m {
          assert x in multiset(s[..n]);
        }
      }
      assert InsertByTime(s, m) == front + [s[n]];
      SortedAppend(front, s[n]);
    }
  }

  /** In a sorted sequence nothing before the last message is later than it. */
  lemma SortedLast(s: seq<Message>)
    requires SortedByTime(s) && s != []
    ensures forall x :: x in s[..|s| - 1] ==> x.timestamp <= s[|s| - 1].timestamp
  {
    forall x | x in s[..|s| - 1] ensures x.timestamp <= s[|s| - 1].timestamp {
      var k :| 0 <= k < |s| - 1 && s[..|s| - 1][k] == x;
      assert s[k] == x;
    }
  }

  lemma SortedAppend(s: seq<Message>, m: Message)
    requires SortedByTime(s) && forall x :: x in s ==> x.timestamp <= m.timestamp
    ensures SortedByTime(s + [m])
  {
    forall i, j | 0 <= i < j < |s| + 1 ensures (s + [m])[i].timestamp <= (s + [m])[j].timestamp {
      assert (s + [m])[i] == s[i];
      if j == |s| {
        assert s[i] in s;
      } else {
        assert (s + [m])[j] == s[j];
      }
    }
  }

  /** Inserting keeps the relative order of the messages stamped with any one time, and puts `m` last among them. */
  lemma {:induction false} InsertByTimeAtTime(s: seq<Message>, m: Message, ts: int)
    ensures AtTime(InsertByTime(s, m), ts) == AtTime(s, ts) + (if m.timestamp == ts then [m] else [])
  {
    if s == [] || s[|s| - 1].timestamp <= m.timestamp {
      AtTimeAppend(s, m, ts);
    } else {
      var n := |s| - 1;
      var front := InsertByTime(s[..n], m);
      assert InsertByTime(s, m) == front + [s[n]];
      InsertByTimeAtTime(s[..n], m, ts);
      AtTimeAppend(front, s[n], ts);
      assert AtTime(s, ts) == AtTime(s[..n], ts) + (if s[n].timestamp == ts then [s[n]] else []);
      // `s[n]` is later than `m`, so at most one of the two is stamped `ts`.
      var a := AtTime(s[..n], ts);
      if s[n].timestamp == ts {
        assert AtTime(front, ts) == a + [] == a;
        assert AtTime(s, ts) == a + [s[n]] == a + [s[n]] + [];
      } else {
        assert AtTime(InsertByTime(s, m), ts) == AtTime(front, ts) + [] == AtTime(front, ts);
        assert AtTime(s, ts) == a + [] == a;
      }
    }
  }

  /** The sort is a permutation that puts the messages in time order and keeps ties in their original order. */
  lemma SortByTimeSpec(s: seq<Message>)
    ensures SortedByTime(SortByTime(s))
    ensures multiset(SortByTime(s)) == multiset(s)
    ensures forall ts :: AtTime(SortByTime(s), ts) == AtTime(s, ts)
  {
    SortByTimeSorted(s);
    SortByTimeMultiset(s);
    forall ts ensures AtTime(SortByTime(s), ts) == AtTime(s, ts) {
      SortByTimeStable(s, ts);
    }
  }

  lemma {:induction false} SortByTimeSorted(s: seq<Message>)
    ensures SortedByTime(SortByTime(s))
  {
    if s != [] {
      var n := |s| - 1;
      SortByTimeSorted(s[..n]);
      InsertByTimeSorted(SortByTime(s[..n]), s[n]);
    }
  }

  lemma {:induction false} SortByTimeMultiset(s: seq<Message>)
    ensures multiset(SortByTime(s)) == multiset(s)
  {
    if s != [] {
      var n := |s| - 1;
      var sorted := SortByTime(s[..n]);
      assert SortByTime(s) == InsertByTime(sorted, s[n]);
      SortByTimeMultiset(s[..n]);
      InsertByTimeMultiset(sorted, s[n]);
      assert s == s[..n] + [s[n]];
    }
  }

  lemma {:induction false} SortByTimeStable(s: seq<Message>, ts: int)
    ensures AtTime(SortByTime(s), ts) == AtTime(s, ts)
  {
    if s != [] {
      var n := |s| - 1;
      var sorted := SortByTime(s[..n]);
      assert SortByTime(s) == InsertByTime(sorted, s[n]);
      SortByTimeStable(s[..n], ts);
      InsertByTimeAtTime(sorted, s[n], ts);
      assert AtTime(s, ts) == AtTime(s[..n], ts) + (if s[n].timestamp == ts then [s[n]] else []);
    }
  }

  /** `get_conversation_messages`: the conversation's messages, oldest first, ties in insertion order. */
  function ConversationMessages(t: Table<Message>, cid: string): seq<Message>
  {
    SortByTime(InConversation(t.keys, t.rows, cid))
  }

  /**
   * The listing holds exactly the stored messages of the conversation, each as often as it is
   * stored, oldest first, and messages with equal timestamps in the order they were stored.
   */
  lemma ConversationMessagesSpec(t: Table<Message>, cid: string)
    ensures var r := ConversationMessages(t, cid);
      && SortedByTime(r)
      && multiset(r) == multiset(InConversation(t.keys, t.rows, cid))
      && (forall ts :: AtTime(r, ts) == AtTime(InConversation(t.keys, t.rows, cid), ts))
      && (forall m :: m in r <==> exists k :: k in t.keys && k in t.rows && t.rows[k] == m && m.conversationId == cid)
  {
    var s := InConversation(t.keys, t.rows, cid);
    SortByTimeSpec(s);
    var r := ConversationMessages(t, cid);
    forall m ensures m in r <==> m in s {
      assert m in r <==> m in multiset(r);
    }
  }
}
