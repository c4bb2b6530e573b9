/**
 * Bulk sending: `create_campaign` validates a request and stores one campaign and one item per
 * recipient; `run_campaign` then walks the campaign's items in insertion order, sends each one
 * through the provider client, records the outcome on the item and in the campaign's counters,
 * and marks the campaign finished.
 */
module Campaigns {
  import opened Wrappers
  import opened Text
  import opened Models
  import opened MetaClient

  const NeitherGivenMessage: string := "Informe template_name OU message_text."
  const BothGivenMessage: string := "Use apenas template_name OU message_text, não os dois."

  /** The check `create_campaign` makes before storing anything: `None` when it passes, else the error. */
  function CheckTarget(p: CampaignCreate): (r: Option<string>)
    ensures r.None? <==> Given(p.templateName) != Given(p.messageText)
    ensures r == Some(NeitherGivenMessage) <==> !Given(p.templateName) && !Given(p.messageText)
    ensures r == Some(BothGivenMessage) <==> Given(p.templateName) && Given(p.messageText)
  {
    if !Given(p.templateName) && !Given(p.messageText) then Some(NeitherGivenMessage)
    else if Given(p.templateName) && Given(p.messageText) then Some(BothGivenMessage)
    else None
  }

  /** The campaign stored for a request: counters at zero, `total` the number of numbers given, pending. */
  function NewCampaign(id: string, p: CampaignCreate): (c: Campaign)
    ensures c.id == id && c.name == p.name && c.phoneNumberId == p.phoneNumberId
    ensures c.templateName == p.templateName && c.templateLanguageCode == p.templateLanguageCode
    ensures c.templateBodyParams == p.templateBodyParams && c.messageText == p.messageText
    ensures c.total == |p.toNumbers| && c.sent == 0 && c.failed == 0 && c.status == Pending
    ensures CheckTarget(p).None? ==> Exclusive(c)
  {
    Campaign(id, p.name, p.phoneNumberId, p.templateName, p.templateLanguageCode, p.templateBodyParams,
             p.messageText, |p.toNumbers|, 0, 0, Pending)
  }

  /** The numbers of a request with the whitespace around each one stripped. */
  function StripAll(numbers: seq<string>): (r: seq<string>)
    ensures |r| == |numbers|
    ensures forall j :: 0 <= j < |r| ==> r[j] == Strip(numbers[j]) && (r[j] == [] <==> Blank(numbers[j]))
  {
    seq(|numbers|, j requires 0 <= j < |numbers| => Strip(numbers[j]))
  }

  /** The items `create_campaign` adds: one per recipient, under the given ids, in order, all for campaign `cid`. */
  function AddItems(t: Table<CampaignItem>, cid: string, ids: seq<string>, numbers: seq<string>): Table<CampaignItem>
    requires |ids| == |numbers|
  {
    if ids == [] then t
    else
      var n := |ids| - 1;
      AddItems(t, cid, ids[..n], numbers[..n]).Put(ids[n], DefaultCampaignItem(ids[n], cid, numbers[n]))
  }

  /** Adding the first `i + 1` items is adding the first `i` and then item `i`. */
  lemma AddItemsPrefix(t: Table<CampaignItem>, cid: string, ids: seq<string>, tos: seq<string>, i: nat)
    requires |ids| == |tos| && i < |ids|
    ensures AddItems(t, cid, ids[..i + 1], tos[..i + 1])
         == AddItems(t, cid, ids[..i], tos[..i]).Put(ids[i], DefaultCampaignItem(ids[i], cid, tos[i]))
  {
    assert ids[..i + 1][..i] == ids[..i];
    assert tos[..i + 1][..i] == tos[..i];
  }

  /** Adding items under fresh ids appends their ids, in order, after the existing keys. */
  lemma {:induction false} AddItemsKeys(t: Table<CampaignItem>, cid: string, ids: seq<string>, tos: seq<string>)
    requires t.Valid() && |ids| == |tos| && Distinct(ids)
    requires forall j :: 0 <= j < |ids| ==> ids[j] !in t.rows
    ensures var r := AddItems(t, cid, ids, tos);
      && r.keys == t.keys + ids
      && forall k :: k in r.rows <==> k in t.rows || k in ids
  {
    if ids != [] {
      var n := |ids| - 1;
      DistinctFront(ids);
      AddItemsKeys(t, cid, ids[..n], tos[..n]);
      assert ids[n] !in AddItems(t, cid, ids[..n], tos[..n]).rows;
      AppendLast(t.keys, ids);
      assert forall k :: k in ids <==> k in ids[..n] || k == ids[n];
    }
  }

  /** Adding items keeps every existing row as it was. */
  lemma {:induction false} AddItemsKeepsRows(t: Table<CampaignItem>, cid: string, ids: seq<string>, tos: seq<string>)
    requires |ids| == |tos|
    requires forall j :: 0 <= j < |ids| ==> ids[j] !in t.rows
    ensures var r := AddItems(t, cid, ids, tos);
      forall k :: k in t.rows ==> k in r.rows && r.rows[k] == t.rows[k]
  {
    if ids != [] {
      var n := |ids| - 1;
      AddItemsKeepsRows(t, cid, ids[..n], tos[..n]);
    }
  }

  /** Each added item is stored under its own id, for its own recipient. */
  lemma {:induction false} AddItemsNewRows(t: Table<CampaignItem>, cid: string, ids: seq<string>, tos: seq<string>)
    requires |ids| == |tos| && Distinct(ids)
    ensures var r := AddItems(t, cid, ids, tos);
      forall j :: 0 <= j < |ids| ==> ids[j] in r.rows && r.rows[ids[j]] == DefaultCampaignItem(ids[j], cid, tos[j])
  {
    if ids != [] {
      var n := |ids| - 1;
      DistinctFront(ids);
      AddItemsNewRows(t, cid, ids[..n], tos[..n]);
      forall j | 0 <= j < n ensures ids[..n][j] == ids[j] && tos[..n][j] == tos[j] && ids[j] != ids[n] { }
    }
  }

  /**
   * Adding items under fresh ids appends them, in order, after the existing ones, keeps every
   * existing row, and stores each recipient's item under its id.
   */
  lemma AddItemsFacts(t: Table<CampaignItem>, cid: string, ids: seq<string>, tos: seq<string>)
    requires t.Valid() && |ids| == |tos| && Distinct(ids)
    requires forall j :: 0 <= j < |ids| ==> ids[j] !in t.rows
    ensures var r := AddItems(t, cid, ids, tos);
      && r.Valid()
      && r.keys == t.keys + ids
      && (forall k :: k in t.rows ==> k in r.rows && r.rows[k] == t.rows[k])
      && (forall j :: 0 <= j < |ids| ==> ids[j] in r.rows && r.rows[ids[j]] == DefaultCampaignItem(ids[j], cid, tos[j]))
  {
    AddItemsKeys(t, cid, ids, tos);
    AddItemsKeepsRows(t, cid, ids, tos);
    AddItemsNewRows(t, cid, ids, tos);
    var keys := t.keys + ids;
    forall i, j | 0 <= i < j < |keys| ensures keys[i] != keys[j] {
      if j < |t.keys| {
      } else if i >= |t.keys| {
        assert keys[i] == ids[i - |t.keys|] && keys[j] == ids[j - |t.keys|];
      } else {
        assert keys[i] in t.keys && keys[j] == ids[j - |t.keys|];
      }
    }
  }

  /** The last of the added items goes in under a key the earlier ones left free. */
  lemma AddItemsStep(t: Table<CampaignItem>, cid: string, ids: seq<string>, tos: seq<string>)
    requires t.Valid() && |ids| == |tos| && Distinct(ids) && ids != []
    requires forall j :: 0 <= j < |ids| ==> ids[j] !in t.rows
    ensures var n := |ids| - 1;
      var front := AddItems(t, cid, ids[..n], tos[..n]);
      && front.Valid() && ids[n] !in front.rows
      && AddItems(t, cid, ids, tos) == front.Put(ids[n], DefaultCampaignItem(ids[n], cid, tos[n]))
  {
    var n := |ids| - 1;
    var front := AddItems(t, cid, ids[..n], tos[..n]);
    DistinctFront(ids);
    AddItemsFacts(t, cid, ids[..n], tos[..n]);
    assert ids[n] !in t.keys;
    assert ids[n] !in front.keys;
  }

  /** The new items are campaign `cid`'s, in order, after any it had, and no other campaign gains any. */
  lemma {:induction false} AddItemsOwned(t: Table<CampaignItem>, cid: string, ids: seq<string>, tos: seq<string>, c: string)
    requires t.Valid() && |ids| == |tos| && Distinct(ids)
    requires forall j :: 0 <= j < |ids| ==> ids[j] !in t.rows
    ensures ItemIdsOf(AddItems(t, cid, ids, tos), c) == ItemIdsOf(t, c) + (if c == cid then ids else [])
  {
    if ids != [] {
      var n := |ids| - 1;
      var front := AddItems(t, cid, ids[..n], tos[..n]);
      var it := DefaultCampaignItem(ids[n], cid, tos[n]);
      var before := ItemIdsOf(t, c);
      assert front.Valid() && ids[n] !in front.rows && AddItems(t, cid, ids, tos) == front.Put(ids[n], it) by {
        AddItemsStep(t, cid, ids, tos);
      }
      assert ItemIdsOf(front, c) == before + (if c == cid then ids[..n] else []) by {
        DistinctFront(ids);
        AddItemsOwned(t, cid, ids[..n], tos[..n], c);
      }
      OwnedPut(front, ids[n], it, c);
      if c == cid {
        AppendLast(before, ids);
      }
    }
  }

  /** Every stored item, old or new, is filed under its own id and belongs to a stored campaign. */
  lemma CreateKeepsItems(campaigns: Table<Campaign>, items: Table<CampaignItem>, p: CampaignCreate, cid: string,
                         itemIds: seq<string>)
    requires items.Valid() && cid !in campaigns.rows
    requires forall k :: k in items.rows ==> items.rows[k].id == k && items.rows[k].campaignId in campaigns.rows
    requires forall k ::
      (k in items.rows && items.rows[k].campaignId in campaigns.rows && campaigns.rows[items.rows[k].campaignId].status == Pending)
      ==> items.rows[k].status == ItemPending
    requires |itemIds| == |p.toNumbers| && Distinct(itemIds)
    requires forall j :: 0 <= j < |itemIds| ==> itemIds[j] !in items.rows
    ensures var camps := campaigns.Put(cid, NewCampaign(cid, p));
      var r := AddItems(items, cid, itemIds, StripAll(p.toNumbers));
      forall k :: k in r.rows ==>
        && r.rows[k].id == k && r.rows[k].campaignId in camps.rows
        && (camps.rows[r.rows[k].campaignId].status == Pending ==> r.rows[k].status == ItemPending)
  {
    var camps := campaigns.Put(cid, NewCampaign(cid, p));
    var tos := StripAll(p.toNumbers);
    var r := AddItems(items, cid, itemIds, tos);
    AddItemsKeys(items, cid, itemIds, tos);
    AddItemsKeepsRows(items, cid, itemIds, tos);
    AddItemsNewRows(items, cid, itemIds, tos);
    assert camps.rows == campaigns.rows[cid := NewCampaign(cid, p)];
    forall k | k in r.rows
      ensures r.rows[k].id == k && r.rows[k].campaignId in camps.rows
      ensures camps.rows[r.rows[k].campaignId].status == Pending ==> r.rows[k].status == ItemPending
    {
      if k in items.rows {
        assert r.rows[k] == items.rows[k] && items.rows[k].campaignId != cid;
      } else {
        var j :| 0 <= j < |itemIds| && itemIds[j] == k;
      }
    }
  }

  /** Every campaign, the new one included, has as many items as its `total`. */
  lemma CreateKeepsTotals(campaigns: Table<Campaign>, items: Table<CampaignItem>, p: CampaignCreate, cid: string,
                          itemIds: seq<string>)
    requires items.Valid() && cid !in campaigns.rows
    requires forall k :: k in items.rows ==> items.rows[k].campaignId in campaigns.rows
    requires forall c :: c in campaigns.rows ==> |ItemIdsOf(items, c)| == campaigns.rows[c].total
    requires |itemIds| == |p.toNumbers| && Distinct(itemIds)
    requires forall j :: 0 <= j < |itemIds| ==> itemIds[j] !in items.rows
    ensures var camps := campaigns.Put(cid, NewCampaign(cid, p));
      var r := AddItems(items, cid, itemIds, StripAll(p.toNumbers));
      forall c :: c in camps.rows ==> |ItemIdsOf(r, c)| == camps.rows[c].total
  {
    var camps := campaigns.Put(cid, NewCampaign(cid, p));
    var tos := StripAll(p.toNumbers);
    var r := AddItems(items, cid, itemIds, tos);
    OwnedNone(items.keys, items.rows, cid);
    forall c | c in camps.rows ensures |ItemIdsOf(r, c)| == camps.rows[c].total {
      AddItemsOwned(items, cid, itemIds, tos, c);
    }
  }

  /** Filing a new campaign under a fresh id keeps every campaign under its own id, with one target and clean counters while pending. */
  lemma AddKeepsCampaigns(campaigns: Table<Campaign>, cid: string, p: CampaignCreate)
    requires campaigns.Valid() && cid !in campaigns.rows && CheckTarget(p).None?
    requires forall c :: c in campaigns.rows ==> campaigns.rows[c].id == c && Exclusive(campaigns.rows[c])
    requires forall c :: c in campaigns.rows && campaigns.rows[c].status == Pending ==>
      campaigns.rows[c].sent == 0 && campaigns.rows[c].failed == 0
    ensures var camps := campaigns.Put(cid, NewCampaign(cid, p));
      && camps.Valid()
      && (forall c :: c in camps.rows ==> camps.rows[c].id == c && Exclusive(camps.rows[c]))
      && (forall c :: c in camps.rows && camps.rows[c].status == Pending ==> camps.rows[c].sent == 0 && camps.rows[c].failed == 0)
  {
    var camps := campaigns.Put(cid, NewCampaign(cid, p));
    assert camps.rows == campaigns.rows[cid := NewCampaign(cid, p)];
  }

  /** A request that passes the check leaves the campaign ledger consistent once its campaign and items are stored. */
  lemma CreateKeepsLedger(campaigns: Table<Campaign>, items: Table<CampaignItem>, p: CampaignCreate, cid: string,
                          itemIds: seq<string>)
    requires LedgerValid(campaigns, items) && CheckTarget(p).None?
    requires cid !in campaigns.rows
    requires |itemIds| == |p.toNumbers| && Distinct(itemIds)
    requires forall j :: 0 <= j < |itemIds| ==> itemIds[j] !in items.rows
    ensures LedgerValid(campaigns.Put(cid, NewCampaign(cid, p)), AddItems(items, cid, itemIds, StripAll(p.toNumbers)))
  {
    AddKeepsCampaigns(campaigns, cid, p);
    AddItemsFacts(items, cid, itemIds, StripAll(p.toNumbers));
    CreateKeepsItems(campaigns, items, p, cid, itemIds);
    CreateKeepsTotals(campaigns, items, p, cid, itemIds);
  }

  /**
   * `create_campaign`. `campaignId` and `itemIds` stand for the fresh `uuid4()` values: one for the
   * campaign, one per number. A request that fails the check stores nothing; otherwise one campaign
   * and one item per number, in the given order, are added, and nothing else changes.
   */
  method CreateCampaign(db: Store, p: CampaignCreate, campaignId: string, itemIds: seq<string>)
    returns (r: Result<Campaign, string>)
    requires db.Valid()
    requires campaignId !in db.campaigns.rows
    requires |itemIds| == |p.toNumbers| && Distinct(itemIds)
    requires forall j :: 0 <= j < |itemIds| ==> itemIds[j] !in db.items.rows
    modifies db
    ensures db.Valid()
    ensures db.conversations == old(db.conversations) && db.messages == old(db.messages)
    ensures CheckTarget(p).Some? ==>
      r == Failure(CheckTarget(p).value) && db.campaigns == old(db.campaigns) && db.items == old(db.items)
    ensures CheckTarget(p).None? ==>
      && r == Success(NewCampaign(campaignId, p))
      && db.campaigns == old(db.campaigns).Put(campaignId, r.value)
      && db.items == AddItems(old(db.items), campaignId, itemIds, StripAll(p.toNumbers))
  {
    var err := CheckTarget(p);
    if err.Some? {
      return Failure(err.value);
    }
    var camp := NewCampaign(campaignId, p);
    ghost var items0 := db.items;
    db.campaigns := db.campaigns.Put(camp.id, camp);
    StoreItems(db, camp.id, itemIds, p.toNumbers);
    CreateKeepsLedger(old(db.campaigns), items0, p, campaignId, itemIds);
    r := Success(camp);
  }

  /** `create_campaign`'s loop: one pending item per recipient, with the number stripped, under the given ids. */
  method StoreItems(db: Store, cid: string, itemIds: seq<string>, numbers: seq<string>)
    requires |itemIds| == |numbers|
    modifies db
    ensures db.conversations == old(db.conversations) && db.messages == old(db.messages)
    ensures db.campaigns == old(db.campaigns)
    ensures db.items == AddItems(old(db.items), cid, itemIds, StripAll(numbers))
  {
    ghost var tos := StripAll(numbers);
    var i := 0;
    while i < |numbers|
      invariant 0 <= i <= |numbers|
      invariant db.conversations == old(db.conversations) && db.messages == old(db.messages)
      invariant db.campaigns == old(db.campaigns)
      invariant db.items == AddItems(old(db.items), cid, itemIds[..i], tos[..i])
    {
      var item := DefaultCampaignItem(itemIds[i], cid, Strip(numbers[i]));
      AddItemsPrefix(old(db.items), cid, itemIds, tos, i);
      db.items := db.items.Put(item.id, item);
      i := i + 1;
    }
    assert itemIds[..i] == itemIds && tos[..i] == tos;
  }

  /** The items of campaign `cid`, in insertion order: `list_campaign_items`, and `run_campaign`'s work list. */
  function CampaignItems(t: Table<CampaignItem>, cid: string): (r: seq<CampaignItem>)
    requires t.Valid()
    ensures |r| == |ItemIdsOf(t, cid)|
    ensures forall j :: 0 <= j < |r| ==> r[j].campaignId == cid && r[j] == t.rows[ItemIdsOf(t, cid)[j]]
  {
    var ids := ItemIdsOf(t, cid);
    seq(|ids|, j requires 0 <= j < |ids| => t.rows[ids[j]])
  }

  /** `camp.template_language_code or "pt_BR"`. */
  function LanguageOf(camp: Campaign): string
  {
    if Given(camp.templateLanguageCode) then camp.templateLanguageCode.value else DefaultLanguage
  }

  /**
   * The provider call `run_campaign` makes for one recipient: the template sender exactly when the
   * campaign names a template, with its language or "pt_BR", otherwise the free-text sender.
   */
  function CallFor(camp: Campaign, to: string): (call: ProviderCall)
    ensures call.to == to && call.phoneNumberId == camp.phoneNumberId
    ensures call.TemplateCall? <==> Given(camp.templateName)
    ensures call.TemplateCall? ==>
      && call.templateName == camp.templateName.value
      && call.bodyParams == camp.templateBodyParams
      && call.languageCode == (if Given(camp.templateLanguageCode) then camp.templateLanguageCode.value else "pt_BR")
    ensures call.TextCall? ==> call.text == camp.messageText
  {
    if Given(camp.templateName) then
      TemplateCall(to, camp.phoneNumberId, camp.templateName.value, LanguageOf(camp), camp.templateBodyParams)
    else
      TextCall(to, camp.messageText, camp.phoneNumberId)
  }

  /**
   * The request posted for one recipient: none without an access token; otherwise to the campaign's
   * sender, with the template payload (its language or "pt_BR", its parameters) when the campaign
   * names a template, and the free-text payload when it does not.
   */
  lemma CallForRequest(token: Option<string>, camp: Campaign, to: string)
    ensures var r := RequestFor(token, CallFor(camp, to));
      && (r.Failure? <==> !Given(token))
      && (r.Success? ==> r.value.url == MessagesUrl(camp.phoneNumberId))
      && (r.Success? && Given(camp.templateName) ==>
            r.value.payload == TemplatePayload(to, camp.templateName.value,
              if Given(camp.templateLanguageCode) then camp.templateLanguageCode.value else "pt_BR",
              camp.templateBodyParams))
      && (r.Success? && !Given(camp.templateName) ==> r.value.payload == TextPayload(to, camp.messageText))
  {
  }

  /** An item after its send: `sent` with no error, or `failed` with the error's text. */
  function Settle(item: CampaignItem, outcome: Result<string, string>): (r: CampaignItem)
    ensures r.id == item.id && r.campaignId == item.campaignId && r.to == item.to
    ensures r.status == ItemSent <==> outcome.Success?
    ensures r.status == ItemFailed <==> outcome.Failure?
    ensures outcome.Success? ==> r.errorMessage == None
    ensures outcome.Failure? ==> r.errorMessage == Some(outcome.error)
  {
    match outcome
    case Success(_) => item.(status := ItemSent, errorMessage := None)
    case Failure(e) => item.(status := ItemFailed, errorMessage := Some(e))
  }

  /** How many of the sends succeeded. */
  function Delivered(rs: seq<Result<string, string>>): nat
  {
    if rs == [] then 0 else Delivered(rs[..|rs| - 1]) + (if rs[|rs| - 1].Success? then 1 else 0)
  }

  /** How many of the sends raised. */
  function Undelivered(rs: seq<Result<string, string>>): nat
  {
    if rs == [] then 0 else Undelivered(rs[..|rs| - 1]) + (if rs[|rs| - 1].Failure? then 1 else 0)
  }

  /** Every send is counted once, as delivered or as not. */
  lemma {:induction false} DeliveredPlusUndelivered(rs: seq<Result<string, string>>)
    ensures Delivered(rs) + Undelivered(rs) == |rs|
  {
    if rs != [] {
      DeliveredPlusUndelivered(rs[..|rs| - 1]);
    }
  }

  /** Nothing failed exactly when every send was delivered. */
  lemma {:induction false} AllDelivered(rs: seq<Result<string, string>>)
    ensures Undelivered(rs) == 0 <==> forall j :: 0 <= j < |rs| ==> rs[j].Success?
  {
    if rs != [] {
      var front := rs[..|rs| - 1];
      AllDelivered(front);
      assert forall j :: 0 <= j < |front| ==> front[j] == rs[j];
    }
  }

  /** The campaign while it runs, once the sends with outcomes `rs` are done. */
  function Progress(camp: Campaign, rs: seq<Result<string, string>>): Campaign
  {
    camp.(status := Running, sent := camp.sent + Delivered(rs), failed := camp.failed + Undelivered(rs))
  }

  /** The campaign `run_campaign` leaves behind. */
  function Finish(camp: Campaign, rs: seq<Result<string, string>>): Campaign
  {
    Progress(camp, rs).(status := Finished)
  }

  /** Each send moves the running campaign's `sent + failed` on by exactly one. */
  lemma ProgressCounts(camp: Campaign, rs: seq<Result<string, string>>)
    ensures Progress(camp, rs).status == Running
    ensures Progress(camp, rs).sent + Progress(camp, rs).failed == camp.sent + camp.failed + |rs|
  {
    DeliveredPlusUndelivered(rs);
  }

  /** The items table after the items `ids` were settled, in order, with outcomes `rs`. */
  function SettleAll(t: Table<CampaignItem>, ids: seq<string>, rs: seq<Result<string, string>>): Table<CampaignItem>
    requires |ids| == |rs|
    requires forall j :: 0 <= j < |ids| ==> ids[j] in t.rows
  {
    if ids == [] then t
    else
      var n := |ids| - 1;
      SettleAll(t, ids[..n], rs[..n]).Put(ids[n], Settle(t.rows[ids[n]], rs[n]))
  }

  /** Settling rewrites exactly the listed rows, each by its own outcome, and adds or removes none. */
  lemma {:induction false} SettleAllFacts(t: Table<CampaignItem>, ids: seq<string>, rs: seq<Result<string, string>>)
    requires |ids| == |rs| && Distinct(ids)
    requires forall j :: 0 <= j < |ids| ==> ids[j] in t.rows
    ensures var r := SettleAll(t, ids, rs);
      && r.keys == t.keys && r.rows.Keys == t.rows.Keys
      && (forall j :: 0 <= j < |ids| ==> r.rows[ids[j]] == Settle(t.rows[ids[j]], rs[j]))
      && (forall k :: k in t.rows && k !in ids ==> r.rows[k] == t.rows[k])
      && (forall k :: k in t.rows ==> r.rows[k].id == t.rows[k].id && r.rows[k].campaignId == t.rows[k].campaignId)
  {
    SettleAllShape(t, ids, rs);
    SettleAllListed(t, ids, rs);
    SettleAllUnlisted(t, ids, rs);
    var r := SettleAll(t, ids, rs);
    forall k | k in t.rows ensures r.rows[k].id == t.rows[k].id && r.rows[k].campaignId == t.rows[k].campaignId {
      if k in ids {
        var j :| 0 <= j < |ids| && ids[j] == k;
      }
    }
  }

  lemma {:induction false} SettleAllShape(t: Table<CampaignItem>, ids: seq<string>, rs: seq<Result<string, string>>)
    requires |ids| == |rs|
    requires forall j :: 0 <= j < |ids| ==> ids[j] in t.rows
    ensures SettleAll(t, ids, rs).keys == t.keys && SettleAll(t, ids, rs).rows.Keys == t.rows.Keys
  {
    if ids != [] {
      var n := |ids| - 1;
      SettleAllShape(t, ids[..n], rs[..n]);
    }
  }

  lemma {:induction false} SettleAllListed(t: Table<CampaignItem>, ids: seq<string>, rs: seq<Result<string, string>>)
    requires |ids| == |rs| && Distinct(ids)
    requires forall j :: 0 <= j < |ids| ==> ids[j] in t.rows
    ensures var r := SettleAll(t, ids, rs);
      forall j :: 0 <= j < |ids| ==> ids[j] in r.rows && r.rows[ids[j]] == Settle(t.rows[ids[j]], rs[j])
  {
    if ids != [] {
      var n := |ids| - 1;
      DistinctFront(ids);
      SettleAllListed(t, ids[..n], rs[..n]);
      forall j | 0 <= j < n ensures ids[j] != ids[n] && ids[..n][j] == ids[j] && rs[..n][j] == rs[j] { }
    }
  }

  lemma {:induction false} SettleAllUnlisted(t: Table<CampaignItem>, ids: seq<string>, rs: seq<Result<string, string>>)
    requires |ids| == |rs|
    requires forall j :: 0 <= j < |ids| ==> ids[j] in t.rows
    ensures var r := SettleAll(t, ids, rs);
      forall k :: k in t.rows && k !in ids ==> k in r.rows && r.rows[k] == t.rows[k]
  {
    if ids != [] {
      var n := |ids| - 1;
      SettleAllUnlisted(t, ids[..n], rs[..n]);
      assert forall k :: k !in ids ==> k !in ids[..n] && k != ids[n];
    }
  }

  /** Settling keeps the table's keys, in order, so it stays a well-formed table. */
  lemma SettleAllValid(t: Table<CampaignItem>, ids: seq<string>, rs: seq<Result<string, string>>)
    requires t.Valid() && |ids| == |rs| && Distinct(ids)
    requires forall j :: 0 <= j < |ids| ==> ids[j] in t.rows
    ensures SettleAll(t, ids, rs).Valid()
  {
    SettleAllFacts(t, ids, rs);
  }

  /** After a run every item of the campaign is settled, and the items of other campaigns are untouched. */
  lemma RunSettlesEveryItem(items: Table<CampaignItem>, cid: string, rs: seq<Result<string, string>>)
    requires items.Valid() && |rs| == |ItemIdsOf(items, cid)|
    ensures var r := SettleAll(items, ItemIdsOf(items, cid), rs);
      && (forall k :: k in r.rows && r.rows[k].campaignId == cid ==> r.rows[k].status != ItemPending)
      && (forall k :: k in items.rows && items.rows[k].campaignId != cid ==> k in r.rows && r.rows[k] == items.rows[k])
  {
    var ids := ItemIdsOf(items, cid);
    SettleAllFacts(items, ids, rs);
  }

  /** The rows keep their campaign through a run, so every campaign keeps the same items. */
  lemma RunKeepsOwnership(items: Table<CampaignItem>, cid: string, rs: seq<Result<string, string>>)
    requires items.Valid() && |rs| == |ItemIdsOf(items, cid)|
    ensures forall c :: ItemIdsOf(SettleAll(items, ItemIdsOf(items, cid), rs), c) == ItemIdsOf(items, c)
  {
    var ids := ItemIdsOf(items, cid);
    var r := SettleAll(items, ids, rs);
    SettleAllFacts(items, ids, rs);
    forall c | true ensures ItemIdsOf(r, c) == ItemIdsOf(items, c) {
      OwnedFrame(items.keys, items.rows, r.rows, c);
    }
  }

  /**
   * A run adds one to `sent + failed` per item of the campaign, so a second run of the same campaign
   * counts every item again; started from a fresh (pending) campaign it ends with `sent + failed == total`.
   */
  lemma RunAddsTotal(campaigns: Table<Campaign>, items: Table<CampaignItem>, cid: string, rs: seq<Result<string, string>>)
    requires LedgerValid(campaigns, items) && cid in campaigns.rows
    requires |rs| == |ItemIdsOf(items, cid)|
    ensures var camp := campaigns.rows[cid];
      var done := Finish(camp, rs);
      && done.total == camp.total && done.status == Finished
      && done.sent + done.failed == camp.sent + camp.failed + camp.total
      && (camp.status == Pending ==> done.sent + done.failed == done.total)
  {
    DeliveredPlusUndelivered(rs);
  }

  /** After a run every item is still filed under its own id, in the same campaign, and none of a pending campaign's items has been sent. */
  lemma RunKeepsItems(campaigns: Table<Campaign>, items: Table<CampaignItem>, cid: string, rs: seq<Result<string, string>>)
    requires items.Valid() && cid in campaigns.rows && |rs| == |ItemIdsOf(items, cid)|
    requires forall k :: k in items.rows ==> items.rows[k].id == k && items.rows[k].campaignId in campaigns.rows
    requires forall k ::
      (k in items.rows && items.rows[k].campaignId in campaigns.rows && campaigns.rows[items.rows[k].campaignId].status == Pending)
      ==> items.rows[k].status == ItemPending
    ensures var camps := campaigns.Put(cid, Finish(campaigns.rows[cid], rs));
      var r := SettleAll(items, ItemIdsOf(items, cid), rs);
      forall k :: k in r.rows ==>
        && r.rows[k].id == k && r.rows[k].campaignId in camps.rows
        && (camps.rows[r.rows[k].campaignId].status == Pending ==> r.rows[k].status == ItemPending)
  {
    var camps := campaigns.Put(cid, Finish(campaigns.rows[cid], rs));
    var ids := ItemIdsOf(items, cid);
    var r := SettleAll(items, ids, rs);
    SettleAllFacts(items, ids, rs);
    assert camps.rows == campaigns.rows[cid := Finish(campaigns.rows[cid], rs)];
    forall k | k in r.rows
      ensures r.rows[k].id == k && r.rows[k].campaignId in camps.rows
      ensures camps.rows[r.rows[k].campaignId].status == Pending ==> r.rows[k].status == ItemPending
    {
      assert k in items.rows;
      if items.rows[k].campaignId == cid {
        assert camps.rows[cid].status == Finished;
      } else {
        assert k !in ids;
      }
    }
  }

  /** Rewriting a campaign in place with the same identity, target and total keeps the campaign table consistent. */
  lemma FinishKeepsCampaigns(campaigns: Table<Campaign>, cid: string, done: Campaign)
    requires campaigns.Valid() && cid in campaigns.rows
    requires forall c :: c in campaigns.rows ==> campaigns.rows[c].id == c && Exclusive(campaigns.rows[c])
    requires forall c :: c in campaigns.rows && campaigns.rows[c].status == Pending ==>
      campaigns.rows[c].sent == 0 && campaigns.rows[c].failed == 0
    requires done.id == cid && Exclusive(done) && done.status != Pending
    ensures var camps := campaigns.Put(cid, done);
      && camps.Valid() && camps.keys == campaigns.keys && camps.rows == campaigns.rows[cid := done]
      && (forall c :: c in camps.rows ==> camps.rows[c].id == c && Exclusive(camps.rows[c]))
      && (forall c :: c in camps.rows && camps.rows[c].status == Pending ==> camps.rows[c].sent == 0 && camps.rows[c].failed == 0)
  {
  }

  /** A run leaves the campaign ledger consistent. */
  lemma RunKeepsLedger(campaigns: Table<Campaign>, items: Table<CampaignItem>, cid: string, rs: seq<Result<string, string>>)
    requires LedgerValid(campaigns, items) && cid in campaigns.rows
    requires |rs| == |ItemIdsOf(items, cid)|
    ensures LedgerValid(campaigns.Put(cid, Finish(campaigns.rows[cid], rs)), SettleAll(items, ItemIdsOf(items, cid), rs))
  {
    var done := Finish(campaigns.rows[cid], rs);
    FinishKeepsCampaigns(campaigns, cid, done);
    SettleAllValid(items, ItemIdsOf(items, cid), rs);
    RunKeepsItems(campaigns, items, cid, rs);
    RunKeepsTotals(campaigns, items, cid, rs);
  }

  /** After a run every campaign still has as many items as its `total` says. */
  lemma RunKeepsTotals(campaigns: Table<Campaign>, items: Table<CampaignItem>, cid: string, rs: seq<Result<string, string>>)
    requires items.Valid() && cid in campaigns.rows && |rs| == |ItemIdsOf(items, cid)|
    requires forall c :: c in campaigns.rows ==> |ItemIdsOf(items, c)| == campaigns.rows[c].total
    ensures var camps := campaigns.Put(cid, Finish(campaigns.rows[cid], rs));
      var r := SettleAll(items, ItemIdsOf(items, cid), rs);
      forall c :: c in camps.rows ==> |ItemIdsOf(r, c)| == camps.rows[c].total
  {
    var camps := campaigns.Put(cid, Finish(campaigns.rows[cid], rs));
    var r := SettleAll(items, ItemIdsOf(items, cid), rs);
    RunKeepsOwnership(items, cid, rs);
    assert camps.rows == campaigns.rows[cid := Finish(campaigns.rows[cid], rs)];
    forall c | c in camps.rows ensures |ItemIdsOf(r, c)| == camps.rows[c].total {
      assert ItemIdsOf(r, c) == ItemIdsOf(items, c);
      assert camps.rows[c].total == campaigns.rows[c].total;
    }
  }

  /** Settling one more item is one more write into the table. */
  lemma SettleAllStep(t: Table<CampaignItem>, ids: seq<string>, rs: seq<Result<string, string>>, i: nat, o: Result<string, string>)
    requires i < |ids| && |rs| == i
    requires forall j :: 0 <= j < |ids| ==> ids[j] in t.rows
    ensures SettleAll(t, ids[..i + 1], rs + [o]) == SettleAll(t, ids[..i], rs).Put(ids[i], Settle(t.rows[ids[i]], o))
  {
    assert ids[..i + 1][..i] == ids[..i];
    assert (rs + [o])[..i] == rs;
  }

  /** One more send adds one to `sent` or to `failed`, according to its outcome. */
  lemma ProgressStep(camp: Campaign, rs: seq<Result<string, string>>, o: Result<string, string>)
    ensures Progress(camp, rs + [o]) ==
      if o.Success? then Progress(camp, rs).(sent := Progress(camp, rs).sent + 1)
      else Progress(camp, rs).(failed := Progress(camp, rs).failed + 1)
  {
    assert (rs + [o])[..|rs|] == rs;
  }

  /** The counters do not affect which call is made for a recipient. */
  lemma CallForProgress(camp: Campaign, rs: seq<Result<string, string>>, to: string)
    ensures CallFor(Progress(camp, rs), to) == CallFor(camp, to)
  {
  }

  /**
   * One pass of `run_campaign`'s loop: the provider call for one item, the item settled by its
   * outcome, one added to the matching counter, and both written back.
   */
  method SendOne(db: Store, campaignId: string, camp: Campaign, item: CampaignItem, token: Option<string>,
                 reply: HttpOutcome, ghost camp0: Campaign, ghost done: seq<Result<string, string>>)
    returns (next: Campaign, ghost call: ProviderCall, ghost outcome: Result<string, string>)
    requires camp == Progress(camp0, done)
    modifies db
    ensures db.conversations == old(db.conversations) && db.messages == old(db.messages)
    ensures call == CallFor(camp, item.to) && call == CallFor(camp0, item.to) && outcome == Send(token, call, reply)
    ensures outcome.Success? ==> next == camp.(sent := camp.sent + 1)
    ensures outcome.Failure? ==> next == camp.(failed := camp.failed + 1)
    ensures next == Progress(camp0, done + [outcome])
    ensures db.items == old(db.items).Put(item.id, Settle(item, outcome))
    ensures db.campaigns == old(db.campaigns).Put(campaignId, next)
  {
    CallForProgress(camp0, done, item.to);
    var request := CallFor(camp, item.to);
    var result := Send(token, request, reply);
    call := request;
    outcome := result;
    var settled := item;
    match result {
      case Success(_) =>
        settled := settled.(status := ItemSent, errorMessage := None);
        next := camp.(sent := camp.sent + 1);
      case Failure(e) =>
        settled := settled.(status := ItemFailed, errorMessage := Some(e));
        next := camp.(failed := camp.failed + 1);
    }
    ProgressStep(camp0, done, result);
    db.items := db.items.Put(settled.id, settled);
    db.campaigns := db.campaigns.Put(campaignId, next);
  }

  /**
   * The loop of `run_campaign`: for each item of the work list, in order, the provider call, the
   * item settled by its outcome, and the running campaign's counters, each written back at once.
   */
  method SendAll(db: Store, campaignId: string, camp0: Campaign, work: seq<CampaignItem>, token: Option<string>,
                 replies: nat -> HttpOutcome, ghost campaigns0: Table<Campaign>, ghost items0: Table<CampaignItem>,
                 ghost ids: seq<string>)
    returns (camp: Campaign, ghost calls: seq<ProviderCall>, ghost outcomes: seq<Result<string, string>>)
    requires |work| == |ids|
    requires forall j :: 0 <= j < |ids| ==> ids[j] in items0.rows && work[j] == items0.rows[ids[j]] && work[j].id == ids[j]
    requires db.campaigns == campaigns0.Put(campaignId, Progress(camp0, [])) && db.items == items0
    modifies db
    ensures db.conversations == old(db.conversations) && db.messages == old(db.messages)
    ensures |calls| == |ids| && |outcomes| == |ids|
    ensures forall j :: 0 <= j < |ids| ==> calls[j] == CallFor(camp0, work[j].to)
    ensures forall j :: 0 <= j < |ids| ==> outcomes[j] == Send(token, calls[j], replies(j))
    ensures camp == Progress(camp0, outcomes)
    ensures db.campaigns == campaigns0.Put(campaignId, camp)
    ensures db.items == SettleAll(items0, ids, outcomes)
  {
    camp := Progress(camp0, []);
    calls, outcomes := [], [];
    var i := 0;
    while i < |work|
      invariant 0 <= i <= |work|
      invariant db.conversations == old(db.conversations) && db.messages == old(db.messages)
      invariant |calls| == i && |outcomes| == i
      invariant forall j :: 0 <= j < i ==> calls[j] == CallFor(camp0, work[j].to)
      invariant outcomes == Outcomes(token, camp0, work[..i], replies)
      invariant camp == Progress(camp0, outcomes)
      invariant db.campaigns == campaigns0.Put(campaignId, camp)
      invariant db.items == SettleAll(items0, ids[..i], outcomes)
    {
      camp, calls, outcomes := SendNext(db, campaignId, camp0, work, token, replies, campaigns0, items0, ids, i,
                                        camp, calls, outcomes);
      i := i + 1;
    }
    assert ids[..i] == ids && work[..i] == work;
    OutcomesAt(token, camp0, work, replies);
  }

  /** The i-th pass of `SendAll`'s loop, with the loop's bookkeeping carried one item further. */
  method SendNext(db: Store, campaignId: string, camp0: Campaign, work: seq<CampaignItem>, token: Option<string>,
                  replies: nat -> HttpOutcome, ghost campaigns0: Table<Campaign>, ghost items0: Table<CampaignItem>,
                  ghost ids: seq<string>, i: nat, camp: Campaign, ghost calls: seq<ProviderCall>,
                  ghost outcomes: seq<Result<string, string>>)
    returns (next: Campaign, ghost calls': seq<ProviderCall>, ghost outcomes': seq<Result<string, string>>)
    requires i < |work| == |ids|
    requires forall j :: 0 <= j < |ids| ==> ids[j] in items0.rows && work[j] == items0.rows[ids[j]] && work[j].id == ids[j]
    requires |calls| == i && |outcomes| == i
    requires forall j :: 0 <= j < i ==> calls[j] == CallFor(camp0, work[j].to)
    requires outcomes == Outcomes(token, camp0, work[..i], replies)
    requires camp == Progress(camp0, outcomes)
    requires db.campaigns == campaigns0.Put(campaignId, camp)
    requires db.items == SettleAll(items0, ids[..i], outcomes)
    modifies db
    ensures db.conversations == old(db.conversations) && db.messages == old(db.messages)
    ensures |calls'| == i + 1 && |outcomes'| == i + 1
    ensures forall j :: 0 <= j < i + 1 ==> calls'[j] == CallFor(camp0, work[j].to)
    ensures outcomes' == Outcomes(token, camp0, work[..i + 1], replies)
    ensures next == Progress(camp0, outcomes')
    ensures db.campaigns == campaigns0.Put(campaignId, next)
    ensures db.items == SettleAll(items0, ids[..i + 1], outcomes')
  {
    ghost var call, outcome;
    next, call, outcome := SendOne(db, campaignId, camp, work[i], token, replies(i), camp0, outcomes);
    SettleAllStep(items0, ids, outcomes, i, outcome);
    PutPut(campaigns0, campaignId, camp, next);
    OutcomesStep(token, camp0, work, replies, i);
    CallsStep(calls, call, camp0, work, i);
    calls', outcomes' := calls + [call], outcomes + [outcome];
  }

  /** One more call made, for the next item of the work list. */
  lemma CallsStep(calls: seq<ProviderCall>, call: ProviderCall, camp: Campaign, work: seq<CampaignItem>, i: nat)
    requires i < |work| && |calls| == i && call == CallFor(camp, work[i].to)
    requires forall j :: 0 <= j < i ==> calls[j] == CallFor(camp, work[j].to)
    ensures forall j :: 0 <= j < i + 1 ==> (calls + [call])[j] == CallFor(camp, work[j].to)
  {
  }

  /** The outcomes of sending to each item of `work` in turn, the j-th send answered by `replies(j)`. */
  function Outcomes(token: Option<string>, camp: Campaign, work: seq<CampaignItem>, replies: nat -> HttpOutcome)
    : seq<Result<string, string>>
  {
    if work == [] then []
    else
      var n := |work| - 1;
      Outcomes(token, camp, work[..n], replies) + [Send(token, CallFor(camp, work[n].to), replies(n))]
  }

  lemma OutcomesStep(token: Option<string>, camp: Campaign, work: seq<CampaignItem>, replies: nat -> HttpOutcome, i: nat)
    requires i < |work|
    ensures Outcomes(token, camp, work[..i + 1], replies)
         == Outcomes(token, camp, work[..i], replies) + [Send(token, CallFor(camp, work[i].to), replies(i))]
  {
    assert work[..i + 1][..i] == work[..i];
  }

  lemma {:induction false} OutcomesAt(token: Option<string>, camp: Campaign, work: seq<CampaignItem>, replies: nat -> HttpOutcome)
    ensures var r := Outcomes(token, camp, work, replies);
      |r| == |work| && forall j :: 0 <= j < |work| ==> r[j] == Send(token, CallFor(camp, work[j].to), replies(j))
  {
    if work != [] {
      var n := |work| - 1;
      OutcomesAt(token, camp, work[..n], replies);
      var front := Outcomes(token, camp, work[..n], replies);
      forall j | 0 <= j < n ensures (front + [Send(token, CallFor(camp, work[n].to), replies(n))])[j] == front[j] && work[..n][j] == work[j] { }
    }
  }

  /**
   * `run_campaign` once the campaign is found: marked running, its items sent in insertion order,
   * then marked finished with the counts of delivered and failed sends.
   */
  method RunFound(db: Store, campaignId: string, token: Option<string>, replies: nat -> HttpOutcome)
    returns (ghost ids: seq<string>, ghost calls: seq<ProviderCall>, ghost outcomes: seq<Result<string, string>>)
    requires campaignId in db.campaigns.rows && db.items.Valid()
    requires forall k :: k in db.items.rows ==> db.items.rows[k].id == k
    modifies db
    ensures db.conversations == old(db.conversations) && db.messages == old(db.messages)
    ensures var camp := old(db.campaigns.rows[campaignId]);
      && ids == ItemIdsOf(old(db.items), campaignId)
      && |calls| == |ids| && |outcomes| == |ids|
      && (forall j :: 0 <= j < |ids| ==> calls[j] == CallFor(camp, old(db.items.rows)[ids[j]].to))
      && (forall j :: 0 <= j < |ids| ==> outcomes[j] == Send(token, calls[j], replies(j)))
      && db.items == SettleAll(old(db.items), ids, outcomes)
      && db.campaigns == old(db.campaigns).Put(campaignId, Finish(camp, outcomes))
  {
    var camp := db.campaigns.rows[campaignId];
    ghost var campaigns0, items0 := db.campaigns, db.items;
    db.campaigns := db.campaigns.Put(campaignId, camp.(status := Running));

    var work := CampaignItems(db.items, campaignId);
    ids := ItemIdsOf(db.items, campaignId);
    assert forall j :: 0 <= j < |ids| ==> ids[j] in items0.rows && work[j] == items0.rows[ids[j]] && work[j].id == ids[j] by {
      assert forall j :: 0 <= j < |ids| ==> ids[j] in ids;
    }
    var running;
    running, calls, outcomes := SendAll(db, campaignId, camp, work, token, replies, campaigns0, items0, ids);
    var done := running.(status := Finished);
    PutPut(campaigns0, campaignId, running, done);
    db.campaigns := db.campaigns.Put(campaignId, done);
  }

  /**
   * `run_campaign`. `token` is the configured access token and `replies(j)` what the provider
   * answers to the j-th send. An unknown campaign changes nothing; otherwise the ghost results
   * record the work list (`ids`), the provider call made for each item (`calls`, whose requests
   * `CallForRequest` describes) and the outcome of each send, and the store is left consistent.
   */
  method RunCampaign(db: Store, campaignId: string, token: Option<string>, replies: nat -> HttpOutcome)
    returns (ghost ids: seq<string>, ghost calls: seq<ProviderCall>, ghost outcomes: seq<Result<string, string>>)
    requires db.Valid()
    modifies db
    ensures db.Valid()
    ensures db.conversations == old(db.conversations) && db.messages == old(db.messages)
    ensures campaignId !in old(db.campaigns.rows) ==> db.campaigns == old(db.campaigns) && db.items == old(db.items)
    ensures campaignId in old(db.campaigns.rows) ==>
      var camp := old(db.campaigns.rows[campaignId]);
      && ids == ItemIdsOf(old(db.items), campaignId)
      && |calls| == |ids| && |outcomes| == |ids|
      && (forall j :: 0 <= j < |ids| ==> calls[j] == CallFor(camp, old(db.items.rows)[ids[j]].to))
      && (forall j :: 0 <= j < |ids| ==> outcomes[j] == Send(token, calls[j], replies(j)))
      && db.items == SettleAll(old(db.items), ids, outcomes)
      && db.campaigns == old(db.campaigns).Put(campaignId, Finish(camp, outcomes))
  {
    ids, calls, outcomes := [], [], [];
    if campaignId !in db.campaigns.rows {
      return;
    }
    ghost var campaigns0, items0 := db.campaigns, db.items;
    ids, calls, outcomes := RunFound(db, campaignId, token, replies);
    RunKeepsLedger(campaigns0, items0, campaignId, outcomes);
  }
}
