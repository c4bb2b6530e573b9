/**
 * The browser panel's campaign form and conversation search: which mode the form is in, the
 * request body it posts to start a campaign (or the alert it shows instead), and the search filter
 * over the conversation list. The DOM is abstracted away: the raw values of the form's inputs and
 * radio buttons are parameters.
 */
module Client {
  import opened Wrappers
  import opened Text
  import opened Models
  import Campaigns

  // ---------------------------------------------------------------------------------------------
  // Campaign mode

  /** One radio button of the "campaign-mode" group. */
  datatype Radio = Radio(checked: bool, value: string)

  const TextMode: string := "text"

  /** The value of the first checked radio button, or "text" when none is checked. */
  function CampaignMode(radios: seq<Radio>): string
  {
    if radios == [] then TextMode
    else if radios[0].checked then radios[0].value
    else CampaignMode(radios[1..])
  }

  /** `getCampaignMode`: a scan of the radio buttons that returns at the first checked one. */
  method GetCampaignMode(radios: seq<Radio>) returns (mode: string)
    ensures mode == CampaignMode(radios)
  {
    var i := 0;
    while i < |radios|
      invariant 0 <= i <= |radios|
      invariant CampaignMode(radios[i..]) == CampaignMode(radios)
    {
      if radios[i].checked {
        return radios[i].value;
      }
      assert radios[i..][1..] == radios[i + 1..];
      i := i + 1;
    }
    mode := TextMode;
  }

  /** The mode is the value of the first checked radio button, whatever follows it. */
  lemma {:induction false} CampaignModeFirstChecked(radios: seq<Radio>, i: nat)
    requires i < |radios| && radios[i].checked
    requires forall j :: 0 <= j < i ==> !radios[j].checked
    ensures CampaignMode(radios) == radios[i].value
  {
    if i > 0 {
      CampaignModeFirstChecked(radios[1..], i - 1);
    }
  }

  /** With no radio button checked the form is in text mode. */
  lemma {:induction false} CampaignModeNoneChecked(radios: seq<Radio>)
    requires forall j :: 0 <= j < |radios| ==> !radios[j].checked
    ensures CampaignMode(radios) == TextMode
  {
    if radios != [] {
      CampaignModeNoneChecked(radios[1..]);
    }
  }

  // ---------------------------------------------------------------------------------------------
  // Starting a campaign

  const MissingFieldsAlert: string := "Preencha nome, PHONE_NUMBER_ID e os números."
  const MissingMessageAlert: string := "Digite a mensagem de texto."
  const MissingTemplateAlert: string := "Digite o nome do template."

  /** The raw values of the campaign form's inputs and its mode radio buttons. */
  datatype CampaignForm = CampaignForm(
    name: string,
    phoneNumberId: string,
    numbers: string,
    radios: seq<Radio>,
    message: string,
    templateName: string,
    templateLanguage: string,
    templateParams: string)

  /** The JSON body posted to "/api/campaigns"; `None` is JSON `null`. */
  datatype CampaignBody = CampaignBody(
    name: string,
    phoneNumberId: string,
    toNumbers: seq<string>,
    messageText: Option<string>,
    templateName: Option<string>,
    templateLanguageCode: Option<string>,
    templateBodyParams: Option<seq<string>>)

  /** `input.value.trim() || "pt_BR"`. */
  function LanguageOrDefault(raw: string): (r: string)
    ensures r != ""
    ensures Strip(raw) != "" ==> r == Strip(raw)
    ensures Strip(raw) == "" ==> r == "pt_BR"
  {
    if Strip(raw) == "" then "pt_BR" else Strip(raw)
  }

  /** The template parameters: the trimmed non-blank lines of the trimmed text, or none when it is empty. */
  function ParamsOf(raw: string): seq<string>
  {
    var text := Strip(raw);
    if text != "" then NonBlankLines(text) else []
  }

  /**
   * The mode's fields filled into a body that already holds the name, sender number and numbers:
   * the trimmed message in text mode, the template, its language and parameters otherwise; or the
   * alert shown when the mode's own field is empty.
   */
  function WithMode(form: CampaignForm, body: CampaignBody): (r: Result<CampaignBody, string>)
    ensures r.Success? ==>
      r.value.name == body.name && r.value.phoneNumberId == body.phoneNumberId && r.value.toNumbers == body.toNumbers
  {
    if CampaignMode(form.radios) == TextMode then
      var message := Strip(form.message);
      if message == "" then Failure(MissingMessageAlert)
      else Success(body.(messageText := Some(message), templateName := None, templateLanguageCode := None,
                         templateBodyParams := None))
    else
      var tplName := Strip(form.templateName);
      if tplName == "" then Failure(MissingTemplateAlert)
      else Success(body.(templateName := Some(tplName), templateLanguageCode := Some(LanguageOrDefault(form.templateLanguage)),
                         templateBodyParams := Some(ParamsOf(form.templateParams)), messageText := None))
  }

  /** What `startCampaign` does with a form: the body it posts, or the alert it shows and posts nothing. */
  function CampaignRequest(form: CampaignForm): Result<CampaignBody, string>
  {
    var name := Strip(form.name);
    var phoneNumberId := Strip(form.phoneNumberId);
    var numbersText := Strip(form.numbers);
    if name == "" || phoneNumberId == "" || numbersText == "" then Failure(MissingFieldsAlert)
    else WithMode(form, CampaignBody(name, phoneNumberId, NonBlankLines(numbersText), None, None, None, None))
  }

  /**
   * `startCampaign` up to the POST: it reads and trims the inputs, shows an alert and stops when
   * one is missing, and otherwise fills in the body field by field in the branch of its mode.
   */
  method StartCampaign(form: CampaignForm) returns (r: Result<CampaignBody, string>)
    ensures r == CampaignRequest(form)
  {
    var name := Strip(form.name);
    var phoneNumberId := Strip(form.phoneNumberId);
    var numbersText := Strip(form.numbers);
    var mode := GetCampaignMode(form.radios);
    if name == "" || phoneNumberId == "" || numbersText == "" {
      return Failure(MissingFieldsAlert);
    }
    var toNumbers := NonBlankLines(numbersText);
    var body := CampaignBody(name, phoneNumberId, toNumbers, None, None, None, None);
    if mode == TextMode {
      var message := Strip(form.message);
      if message == "" {
        return Failure(MissingMessageAlert);
      }
      body := body.(messageText := Some(message));
      body := body.(templateName := None);
      body := body.(templateLanguageCode := None);
      body := body.(templateBodyParams := None);
    } else {
      var tplName := Strip(form.templateName);
      var tplLang := Strip(form.templateLanguage);
      if tplLang == "" {
        tplLang := "pt_BR";
      }
      var tplParamsText := Strip(form.templateParams);
      if tplName == "" {
        return Failure(MissingTemplateAlert);
      }
      var params := [];
      if tplParamsText != "" {
        params := NonBlankLines(tplParamsText);
      }
      body := body.(templateName := Some(tplName));
      body := body.(templateLanguageCode := Some(tplLang));
      body := body.(templateBodyParams := Some(params));
      body := body.(messageText := None);
    }
    r := Success(body);
  }

  /** No request is sent when the trimmed name, sender number or number list is empty, or the mode's own field is. */
  lemma CampaignRequestAborts(form: CampaignForm)
    ensures CampaignRequest(form).Failure? <==>
      || Strip(form.name) == "" || Strip(form.phoneNumberId) == "" || Strip(form.numbers) == ""
      || (CampaignMode(form.radios) == TextMode && Strip(form.message) == "")
      || (CampaignMode(form.radios) != TextMode && Strip(form.templateName) == "")
  {
  }

  /**
   * The numbers sent are the trimmed non-blank lines of the number list, and there is at least one
   * whenever a request is sent.
   */
  lemma CampaignRequestNumbers(form: CampaignForm)
    requires CampaignRequest(form).Success?
    ensures var b := CampaignRequest(form).value;
      && b.toNumbers == NonBlankLines(Strip(form.numbers))
      && b.toNumbers != []
      && forall k :: 0 <= k < |b.toNumbers| ==> b.toNumbers[k] != "" && Strip(b.toNumbers[k]) == b.toNumbers[k]
  {
    var t := Strip(form.numbers);
    assert t != "" && CampaignRequest(form).value.toNumbers == NonBlankLines(t);
    NonBlankLinesClean(t);
  }

  /** In text mode the body carries the trimmed message and no template field. */
  lemma CampaignRequestTextMode(form: CampaignForm)
    requires CampaignRequest(form).Success? && CampaignMode(form.radios) == TextMode
    ensures var b := CampaignRequest(form).value;
      && b.messageText == Some(Strip(form.message)) && Strip(form.message) != ""
      && b.templateName == None && b.templateLanguageCode == None && b.templateBodyParams == None
  {
  }

  /**
   * In template mode the body carries the trimmed template name, the language (or "pt_BR"), the
   * trimmed non-blank lines of the parameters (none for an empty text), and no message text.
   */
  lemma CampaignRequestTemplateMode(form: CampaignForm)
    requires CampaignRequest(form).Success? && CampaignMode(form.radios) != TextMode
    ensures var b := CampaignRequest(form).value;
      && b.templateName == Some(Strip(form.templateName)) && Strip(form.templateName) != ""
      && b.templateLanguageCode == Some(if Strip(form.templateLanguage) == "" then "pt_BR" else Strip(form.templateLanguage))
      && b.templateBodyParams == Some(NonBlankLines(Strip(form.templateParams)))
      && b.messageText == None
  {
    if Strip(form.templateParams) == "" {
      BlankTextNoLines("");
    }
  }

  /** The server's view of a posted body: JSON `null` becomes `None`, even where the model has a default. */
  function ToCreate(b: CampaignBody): (p: CampaignCreate)
    ensures p.name == b.name && p.phoneNumberId == b.phoneNumberId && p.toNumbers == b.toNumbers
    ensures p.templateName == b.templateName && p.templateLanguageCode == b.templateLanguageCode
    ensures p.templateBodyParams == b.templateBodyParams && p.messageText == b.messageText
  {
    CampaignCreate(b.name, b.phoneNumberId, b.toNumbers, b.templateName, b.templateLanguageCode,
                   b.templateBodyParams, b.messageText)
  }

  /** Every body the panel sends names exactly one of a template and a free text, so it passes the server's check. */
  lemma CampaignRequestAccepted(form: CampaignForm)
    requires CampaignRequest(form).Success?
    ensures var p := ToCreate(CampaignRequest(form).value);
      && Given(p.templateName) != Given(p.messageText)
      && Campaigns.CheckTarget(p).None?
  {
    if CampaignMode(form.radios) == TextMode {
      CampaignRequestTextMode(form);
    } else {
      CampaignRequestTemplateMode(form);
    }
  }

  /**
   * The numbers of every body the panel sends are already trimmed and non-blank, so the server
   * stores them as they are: its `total` then counts only real recipients.
   */
  lemma CampaignRequestStoredAsIs(form: CampaignForm)
    requires CampaignRequest(form).Success?
    ensures var p := ToCreate(CampaignRequest(form).value);
      && Campaigns.StripAll(p.toNumbers) == p.toNumbers
      && forall k :: 0 <= k < |p.toNumbers| ==> !Blank(p.toNumbers[k])
  {
    CampaignRequestNumbers(form);
    var nums := CampaignRequest(form).value.toNumbers;
    forall k | 0 <= k < |nums| ensures !Blank(nums[k]) {
      assert !IsSpace(nums[k][0]);
    }
    var stripped := Campaigns.StripAll(nums);
    assert |stripped| == |nums|;
    forall k | 0 <= k < |nums| ensures stripped[k] == nums[k] { }
  }

  // ---------------------------------------------------------------------------------------------
  // Conversation search

  /** `(c.name || "").toLowerCase().includes(term) || (c.wa_id || "").toLowerCase().includes(term)`, `term` lowered. */
  predicate Matches(c: Conversation, input: string)
  {
    var term := ToLower(input);
    Contains(ToLower(c.name.GetOr("")), term) || Contains(ToLower(c.waId), term)
  }

  /** A conversation matches when the lowered input occurs in its lowered name (or "") or its lowered number. */
  lemma MatchesOccurs(c: Conversation, input: string)
    ensures Matches(c, input) <==>
      (exists i: nat :: OccursAt(ToLower(c.name.GetOr("")), ToLower(input), i))
      || (exists i: nat :: OccursAt(ToLower(c.waId), ToLower(input), i))
  {
    ContainsIff(ToLower(c.name.GetOr("")), ToLower(input));
    ContainsIff(ToLower(c.waId), ToLower(input));
  }

  /** The search box's filter: the conversations that match the input, in their list order. */
  function Search(convs: seq<Conversation>, input: string): seq<Conversation>
  {
    if convs == [] then []
    else (if Matches(convs[0], input) then [convs[0]] else []) + Search(convs[1..], input)
  }

  /** The result holds exactly the conversations of the list that match, and no more of them. */
  lemma {:induction false} SearchMembers(convs: seq<Conversation>, input: string)
    ensures var r := Search(convs, input);
      && |r| <= |convs|
      && (forall c :: c in r <==> c in convs && Matches(c, input))
  {
    if convs != [] {
      SearchMembers(convs[1..], input);
      assert forall c :: c in convs <==> c == convs[0] || c in convs[1..];
    }
  }

  /** Filtering a list is filtering its two halves and joining them, so the list order is kept. */
  lemma {:induction false} SearchAppend(a: seq<Conversation>, b: seq<Conversation>, input: string)
    ensures Search(a + b, input) == Search(a, input) + Search(b, input)
  {
    if a == [] {
      assert a + b == b;
    } else {
      var head := if Matches(a[0], input) then [a[0]] else [];
      SearchAppend(a[1..], b, input);
      assert (a + b)[0] == a[0] && (a + b)[1..] == a[1..] + b;
      assert Search(a + b, input) == head + Search(a[1..] + b, input);
      assert Search(a, input) == head + Search(a[1..], input);
    }
  }

  /** An empty search box shows every conversation. */
  lemma {:induction false} SearchEmptyInput(convs: seq<Conversation>)
    ensures Search(convs, "") == convs
  {
    if convs != [] {
      SearchEmptyInput(convs[1..]);
      assert ToLower("") == "";
      assert IsPrefix("", ToLower(convs[0].name.GetOr("")));
    }
  }

  /** Searching the result again with the same input changes nothing. */
  lemma {:induction false} SearchIdempotent(convs: seq<Conversation>, input: string)
    ensures Search(Search(convs, input), input) == Search(convs, input)
  {
    if convs != [] {
      SearchIdempotent(convs[1..], input);
      var head := if Matches(convs[0], input) then [convs[0]] else [];
      SearchAppend(head, Search(convs[1..], input), input);
      if head != [] {
        assert head[1..] == [];
      }
    }
  }
}
