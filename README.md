# WhatsApp gateway core in Dafny

This project models the core of a small WhatsApp Business gateway and proves properties of it. The gateway is a FastAPI server with a browser panel. It keeps four in-memory dictionaries:

- conversations, one per customer number;
- messages;
- campaigns;
- campaign items, one per recipient of a campaign.

The model covers:

- **Chat.**
  - The webhook handshake (`verify_webhook`).
  - The inbound-message webhook (`receive_webhook`).
  - Sending a free-text message (`send_text_message`).
  - The time-ordered message list of a conversation (`get_conversation_messages`).
  - `create_or_get_conversation`.
- **Campaigns.**
  - Creating a campaign: validation, then the campaign and one item per number (`create_campaign`).
  - Running a campaign: one provider call per item, the item settled, the counters updated, the campaign finished (`run_campaign`).
- **Provider client.**
  - The token guard, the send URL, the headers and the JSON payloads of the two senders.
  - How the provider's reply becomes a message id or an error.
- **Browser panel.**
  - The campaign mode.
  - The request body `startCampaign` posts, or the alert it shows instead.
  - The conversation search filter.

Modules:

- `Wrappers` holds `Option` and `Result`.
- `Text` models `strip`/`trim`, line splitting, lower-casing and substring search.
- `Models` holds the records, their factories and defaults, and an insertion-ordered `Table`. Python dictionaries remember insertion order, and the server iterates them in that order. `Models` also holds the class `Store` with the four dictionaries as fields.
- `MetaClient` is the provider client.
- `Chat` and `Campaigns` hold the request handlers.
- `Client` is the panel.

Code that changes the dictionaries is written as methods on `Store` that modify it. Each of those is proved against a function describing the new state: `GetOrInsert`, `AddItems`, `SettleAll`/`Finish`, `AbsorbAll`. The properties are lemmas about those functions.

Things outside the program are parameters:

- Each `uuid4()` value is a caller-supplied fresh id, or a sequence of distinct ids.
- `utcnow()` is a `now` argument.
- The access token read from the environment is an `Option<string>`.
- The provider's HTTP answer is an `HttpOutcome`. For a campaign it is a function `replies` giving the answer to the j-th send.

A call that raises in the source is a `Failure` carrying the exception's text. For the webhook it is a `false` result that leaves what was stored before the raise.

## Model

| member | source | states |
|---|---|---|
| Models.CreateOutgoing | app/models.py:42-53 | an outgoing message: given id, conversation and time, direction "outgoing", type "text", status "sent", the text and the provider id, no customer number |
| Models.CreateIncoming | app/models.py:55-67 | an incoming message: direction "incoming", type "text", status "received", the text, the customer number, the provider's timestamp, no provider id |
| Models.NewConversation | app/models.py:85-92 | a new conversation is named after the number, has no last message and nothing unread |
| Models.DefaultCampaign | app/models.py:108-124 | a campaign's defaults: counters 0, pending, language "pt_BR", no template, text or parameters |
| Models.DefaultCampaignItem | app/models.py:133-138 | an item built with its defaults, as `create_campaign` stores one per number: the given id, campaign and number, pending, no error |
| Models.GetOrInsertFound | app/models.py:81-83 | a known customer's conversation is returned and the table is unchanged |
| Models.GetOrInsertNew | app/models.py:85-94 | for an unknown customer exactly one new conversation is added, under the fresh id |
| Models.GetOrInsertTwice | app/models.py:76-94 | asking twice for the same number returns the same conversation and adds at most one |
| Models.Store.CreateOrGetConversation | app/models.py:76-94 | the insertion-order scan returns the first conversation with the number, otherwise inserts a new one; the store stays consistent and the other dictionaries are unchanged |
| Models.Store.constructor | app/models.py:11-15 | the four dictionaries start empty |
| MetaClient.MessagesUrlInjective | app/meta_client.py:20 | distinct sender numbers post to distinct URLs |
| MetaClient.TextPayload | app/meta_client.py:27-35 | the text payload names the product, the recipient, type "text", the body and no link preview |
| MetaClient.BuildTemplatePayload | app/meta_client.py:73-97 | building the template payload step by step gives the template payload |
| MetaClient.TemplatePayloadFields | app/meta_client.py:84-97 | the template payload carries the name and language, and a body component exactly when there are parameters |
| MetaClient.BodyComponentParameters | app/meta_client.py:75-81 | the body component holds one text parameter per template parameter, in order |
| MetaClient.TextRequest | app/meta_client.py:17-35 | without a token: the configuration error; otherwise a bearer request to the sender's URL with the text payload |
| MetaClient.TemplateRequest | app/meta_client.py:63-97 | without a token: the configuration error; otherwise a request to the sender's URL with the template payload |
| MetaClient.ReadMessageId | app/meta_client.py:39-46 | a non-2xx reply or a transport error is an error; otherwise the first message's id, or "" when there is none |
| MetaClient.SendText | app/meta_client.py:12-46 | the configuration error without a token, otherwise the outcome of the reply |
| MetaClient.SendTemplate | app/meta_client.py:49-108 | the configuration error without a token, otherwise the outcome of the reply |
| MetaClient.SendIsDispatch | app/meta_client.py:12-108 | a provider call's outcome is the outcome of the sender it names, with its arguments |
| MetaClient.SendOutcome | app/meta_client.py:17-18 | a call succeeds if and only if a request was built and the reply is 2xx; without a token it always fails with the configuration error |
| Text.StripIsSlice | app/main.py:204 | stripping removes only whitespace at both ends and keeps a contiguous slice |
| Text.StripIdempotent | app/main.py:204 | stripping twice is stripping once |
| Text.JoinSplit | app/static/js/app.js:277-278 | splitting on a separator and joining back gives the text |
| Text.SplitJoin | app/static/js/app.js:277-278 | joining pieces without the separator and splitting gives the pieces |
| Text.NonBlankLinesClean | app/static/js/app.js:277-280 | every kept line is non-empty and already trimmed |
| Chat.VerifyWebhook | app/main.py:116-127 | 200 with the challenge if and only if mode is "subscribe" and the token matches; 403 with the error text otherwise |
| Chat.StoreMessage | app/main.py:99-104 | a message stored under a fresh id and its conversation written back keep the store consistent |
| Chat.SendTextMessage | app/main.py:78-106 | the conversation is found or opened first; a failed send returns the error with the conversation kept and no message; a successful one stores the outgoing message and marks the conversation replied with nothing unread |
| Chat.SendTextConversation | app/main.py:84-104 | after a send the number has exactly one conversation, holding the text with nothing unread; the other conversations are unchanged |
| Chat.ReceiveWebhook | app/main.py:130-164 | the three nested loops store exactly what `AbsorbAll` gives for the flattened messages; the campaign dictionaries are untouched |
| Chat.ReceiveChanges | app/main.py:140-162 | the loop over one entry's changes stores what `AbsorbAll` gives for their messages, or stops where the source raises |
| Chat.ReceiveMessages | app/main.py:143-162 | the loop over one change's messages stores what `AbsorbAll` gives, stopping with `false` at a message without a sender |
| Chat.ReceiveOne | app/main.py:145-162 | one inbound message: its conversation found or opened, the incoming message stored, the conversation updated, as `Absorb` gives |
| Chat.AbsorbAllOk | app/main.py:145-149 | the webhook goes through if and only if every message names its sender |
| Chat.AbsorbAllValid | app/main.py:149-162 | the tables stay consistent, and no stored row is lost or moved to another number |
| Chat.AbsorbAllUnread | app/main.py:159-161 | each conversation's unread count rises by the number of messages from its number |
| Chat.AbsorbAllCount | app/main.py:151-157 | one message row is added per inbound message |
| Chat.AbsorbAllMessageAt | app/main.py:145-157 | the j-th inbound message is stored under the j-th fresh id, with its text (or "") and timestamp, in its sender's conversation |
| Chat.InConversation | app/main.py:70-73 | the filter keeps exactly the stored messages of the conversation |
| Chat.SortByTimeSpec | app/main.py:74 | the sort is a permutation, in time order, and stable for equal timestamps |
| Chat.InsertByTimeAtTime | app/main.py:74 | one insertion step keeps equal-timestamp messages in order, the new one last |
| Chat.ConversationMessagesSpec | app/main.py:68-75 | the listing holds exactly the conversation's stored messages, oldest first, ties in storage order |
| Campaigns.CheckTarget | app/main.py:177-182 | passes if and only if exactly one of template and text is given; each error message is tied to its case |
| Campaigns.NewCampaign | app/main.py:184-197 | the stored campaign copies the request, total is the count of numbers given, counters 0, pending |
| Campaigns.StripAll | app/main.py:200-204 | every number is stripped; a blank one becomes "" and is still kept |
| Campaigns.AddItemsFacts | app/main.py:200-207 | adding items keeps the table well formed, appends the new ids after the existing keys, and keeps every existing row |
| Campaigns.AddItemsNewRows | app/main.py:200-207 | the j-th number's item is stored under the j-th fresh id: that number, this campaign, pending, no error |
| Campaigns.AddItemsOwned | app/main.py:200-207 | the new items are the campaign's, in order, after any it had; no other campaign gains items |
| Campaigns.CreateKeepsLedger | app/main.py:184-207 | after creation every campaign has `total` items and every pending campaign has only pending items |
| Campaigns.StoreItems | app/main.py:200-207 | the item loop stores exactly the items `AddItems` gives |
| Campaigns.CreateCampaign | app/main.py:171-212 | a request failing the check changes nothing; otherwise the campaign and its items are stored and the store stays consistent |
| Campaigns.CampaignItems | app/main.py:220-225 | the items of the campaign, in insertion order |
| Campaigns.CallFor | app/main.py:247-262 | the template sender if and only if a template is named, with its language or "pt_BR"; otherwise the text sender |
| Campaigns.CallForRequest | app/main.py:247-262 | the request posted for a recipient: none without a token; otherwise to the campaign's sender URL, with the template payload (name, language or "pt_BR", parameters) when a template is named, else the text payload |
| Campaigns.Settle | app/main.py:264-271 | an item is sent with no error if and only if the call succeeded, else failed with the error text |
| Campaigns.DeliveredPlusUndelivered | app/main.py:264-271 | every send is counted once, as sent or as failed |
| Campaigns.AllDelivered | app/main.py:264-271 | no send is counted as failed if and only if every send succeeded |
| Campaigns.ProgressCounts | app/main.py:237-271 | while running, sent + failed grows by one per send |
| Campaigns.RunSettlesEveryItem | app/main.py:240-274 | after a run every item of the campaign is settled; other campaigns' items are untouched |
| Campaigns.RunKeepsOwnership | app/main.py:240-274 | a run moves no item to another campaign |
| Campaigns.RunAddsTotal | app/main.py:237-279 | a run adds `total` to sent + failed, so from a pending campaign it ends with sent + failed == total, finished |
| Campaigns.RunKeepsLedger | app/main.py:228-279 | a run keeps the campaign and item ledger consistent |
| Campaigns.OutcomesAt | app/main.py:245-262 | the j-th outcome is the call for the j-th item answered by the j-th reply |
| Campaigns.SendOne | app/main.py:246-274 | one loop pass: the call, the item settled, one counter raised, both written back |
| Campaigns.SendAll | app/main.py:245-276 | the loop makes, for the j-th item, the call `CallFor` gives for its number, takes the j-th reply as its outcome, and leaves the items and counters that `SettleAll` and `Progress` give |
| Campaigns.RunFound | app/main.py:237-279 | for a stored campaign: marked running, the j-th item of the campaign (insertion order) gets the call `CallFor` gives, each item settled by its outcome, then finished with the counts |
| Campaigns.RunCampaign | app/main.py:228-279 | an unknown campaign changes nothing; otherwise the j-th item gets the call `CallFor` gives for its number and the j-th reply, the items are settled, the campaign finished with the counts, and the store stays consistent |
| Client.GetCampaignMode | app/static/js/app.js:238-244 | the scan returns the first checked radio's value, or "text" |
| Client.CampaignModeFirstChecked | app/static/js/app.js:240-242 | the mode is the first checked radio's value, whatever follows |
| Client.CampaignModeNoneChecked | app/static/js/app.js:243 | with no radio checked the mode is "text" |
| Client.StartCampaign | app/static/js/app.js:265-320 | the trims, alerts and field-by-field body give the request `CampaignRequest` describes |
| Client.CampaignRequestAborts | app/static/js/app.js:272-306 | an alert and no request if and only if name, sender or numbers is empty after trimming, or the mode's own field is |
| Client.CampaignRequestNumbers | app/static/js/app.js:277-285 | the numbers sent are the trimmed non-blank lines, at least one |
| Client.CampaignRequestTextMode | app/static/js/app.js:288-297 | text mode posts the trimmed message and null template fields |
| Client.CampaignRequestTemplateMode | app/static/js/app.js:298-320 | template mode posts the name, the language or "pt_BR", the trimmed non-blank parameter lines, and a null text |
| Client.LanguageOrDefault | app/static/js/app.js:300 | the trimmed language, or "pt_BR" when it is empty |
| Client.CampaignRequestAccepted | app/static/js/app.js:282-320 | every body the panel posts passes the server's template-or-text check |
| Client.CampaignRequestStoredAsIs | app/static/js/app.js:277-280 | the posted numbers are unchanged by the server's strip, so its total counts only real recipients |
| Text.ContainsIff | app/static/js/app.js:210-211 | `includes` holds if and only if the needle occurs at some index of the text |
| Client.MatchesOccurs | app/static/js/app.js:208-211 | a conversation matches if and only if the lowered input occurs in its lowered name (or "") or its lowered number |
| Client.SearchMembers | app/static/js/app.js:207-212 | the result holds exactly the conversations whose name or number contains the lowered term |
| Client.SearchAppend | app/static/js/app.js:209 | filtering keeps list order |
| Client.SearchEmptyInput | app/static/js/app.js:207-212 | an empty search shows every conversation |
| Client.SearchIdempotent | app/static/js/app.js:209-212 | filtering the result again changes nothing |

Behaviour of the code worth noting:

- `run_campaign` (app/main.py:240) sends to every item of the campaign, not only pending ones. A second run of the same campaign therefore sends again and counts every item again (`RunAddsTotal`).
- `total` is the number of entries in `to_numbers`, blank ones included (app/main.py:193). The server strips each number but does not drop blank ones (app/main.py:204). Only the panel drops blank lines. When every character of the numbers is one that JavaScript's `trim` and Python's `strip` treat alike, the panel's requests therefore reach `sent + failed == total` with real recipients only (`CampaignRequestStoredAsIs`). A line made only of a character that `strip` removes and `trim` keeps, such as U+001C, is still posted as a number; the server stores it as "" and counts it in `total`.
- No handler checks who owns a campaign.
- Outgoing messages are stamped with `datetime.utcnow()`, which is naive UTC (app/models.py:52, app/main.py:103). Incoming messages are stamped with `datetime.fromtimestamp`, which is naive local time (app/models.py:66, app/main.py:160). On a server whose clock is not set to UTC, the sort at app/main.py:74 therefore orders incoming and outgoing messages against one another by two different clocks. `ConversationMessagesSpec`'s "oldest first" reads all timestamps on one clock.
- An inbound message without a `from` makes `create_or_get_conversation(None)` raise. Everything stored before it is kept and later messages are not processed.

## Left out

- HTTP routing, request parsing, response models and FastAPI background tasks are left out. `create_campaign`'s handoff to `run_campaign` is two separate calls in the model.
- `asyncio.sleep` between sends, and the concurrency of handlers that interleave at `await`, are left out. Each handler runs atomically in the model.
- The `httpx` client, its 30-second timeout and the JSON decoding of the reply are abstracted. The reply is an `HttpOutcome` input: a transport error, or a status code with the text of `raise_for_status`'s error and the reply's `messages` list.
- `uuid4()` and `datetime.utcnow()` are parameters. `send_text_message` reads the clock twice (the message's time and the conversation's time); the model uses one `now` for both.
- Chat.TimeOf: `datetime.fromtimestamp` with its local time zone is not modelled. Timestamps are the provider's integer seconds. A `timestamp` that `int()` cannot parse, or a body that is not the expected nest of objects, is not modelled.
- Text.Strip: whitespace is the six ASCII characters space, tab, newline, vertical tab, form feed and carriage return, and one `Strip` stands for both JavaScript's `trim` and Python's `str.strip`. Beyond these, both remove U+00A0, U+1680, U+2000-U+200A, U+2028, U+2029, U+202F, U+205F and U+3000. Python's `strip` also removes U+001C-U+001F and U+0085, which `trim` keeps. `trim` also removes U+FEFF, which `strip` keeps.
- Client.CampaignRequestStoredAsIs: holds only for numbers whose characters `trim` and `strip` treat alike. A panel line containing one of U+001C-U+001F, U+0085 or U+FEFF at either end can be stripped differently by the server, and a line made only of U+001C-U+001F or U+0085 is stored as "" and counted in `total`.
- Text.ToLower: lower-casing covers A-Z only. JavaScript's `toLowerCase` also folds non-ASCII letters.
- `list_conversations` and `list_campaigns` are left out. They return the dictionaries' values unchanged.
- The authentication routes, the database module, the terms and privacy pages, and the duplicated panel scripts `campaigns.js` and `chat.js` are not part of this model.
- The panel's DOM access is left out: reading inputs, alerts, rendering, polling and mode-switch display. The form's raw input values and radio buttons are parameters, and an alert is a `Failure` with its text.
- Campaigns.RunCampaign: the work list, calls and outcomes it returns are ghost. The outcome of a send depends only on the token and the reply, not on the call, because the provider is not modelled. The call made for each item is stated through `calls` and `CallFor`; the request posted for it is stated by `CallForRequest`.
- MetaClient.ReadMessageId: a reply entry whose "id" is JSON `null` makes the source return `None` as the message id. `MessageEntry` cannot represent a null id, so the model covers only an absent id, which gives "".
