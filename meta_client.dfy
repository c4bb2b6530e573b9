/**
 * The WhatsApp Cloud API client: the guard on the access token, the request it would post
 * (URL, headers and JSON payload) and the message id it reads back from the provider's reply.
 * The HTTP exchange itself is not modelled: its outcome is an input, an `HttpOutcome`.
 */
module MetaClient {
  import opened Wrappers
  import opened Models

  const BaseUrl: string := "https://graph.facebook.com/v21.0"
  const MessagesPath: string := "/messages"
  const MissingTokenMessage: string := "META_ACCESS_TOKEN não configurado no .env"
  const DefaultLanguage: string := "pt_BR"

  /** JSON values; an object maps its keys to their values (JSON objects are unordered). */
  datatype Json = JNull | JBool(b: bool) | JStr(s: string) | JArr(elems: seq<Json>) | JObj(fields: map<string, Json>)

  /** The value stored under `key` in an object, if any. */
  function Field(j: Json, key: string): Option<Json>
  {
    if j.JObj? && key in j.fields then Some(j.fields[key]) else None
  }

  function OptionalText(t: Option<string>): Json
  {
    match t
    case Some(s) => JStr(s)
    case None => JNull
  }

  /** The send endpoint of the sender number `phoneNumberId`. */
  function MessagesUrl(phoneNumberId: string): string
  {
    BaseUrl + "/" + phoneNumberId + MessagesPath
  }

  /** The sender number can be read back from the URL, so distinct senders post to distinct URLs. */
  lemma MessagesUrlInjective(p: string, q: string)
    requires MessagesUrl(p) == MessagesUrl(q)
    ensures p == q
  {
    var u := MessagesUrl(p);
    assert |p| == |q|;
    assert p == u[|BaseUrl| + 1..|BaseUrl| + 1 + |p|];
    assert q == MessagesUrl(q)[|BaseUrl| + 1..|BaseUrl| + 1 + |q|];
  }

  function Headers(token: string): seq<(string, string)>
  {
    [("Authorization", "Bearer " + token), ("Content-Type", "application/json")]
  }

  /** A POST request: where it goes, its headers, and its JSON body. */
  datatype Request = Request(url: string, headers: seq<(string, string)>, payload: Json)

  /** The JSON body of a free-text message. */
  function TextPayload(to: string, text: Option<string>): (p: Json)
    ensures Field(p, "messaging_product") == Some(JStr("whatsapp"))
    ensures Field(p, "to") == Some(JStr(to)) && Field(p, "type") == Some(JStr("text"))
    ensures Field(p, "text").Some?
    ensures Field(Field(p, "text").value, "body") == Some(OptionalText(text))
    ensures Field(Field(p, "text").value, "preview_url") == Some(JBool(false))
  {
    JObj(map["messaging_product" := JStr("whatsapp"),
             "to" := JStr(to),
             "type" := JStr("text"),
             "text" := JObj(map["preview_url" := JBool(false), "body" := OptionalText(text)])])
  }

  /** One `{"type": "text", "text": p}` per template parameter, in the same order. */
  function ParameterObjects(params: seq<string>): (r: seq<Json>)
    ensures |r| == |params|
    ensures forall i :: 0 <= i < |r| ==> Field(r[i], "type") == Some(JStr("text")) && Field(r[i], "text") == Some(JStr(params[i]))
  {
    seq(|params|, i requires 0 <= i < |params| => JObj(map["type" := JStr("text"), "text" := JStr(params[i])]))
  }

  /** Python truthiness of the optional parameter list: present and non-empty. */
  predicate HasParams(params: Option<seq<string>>) {
    params.Some? && params.value != []
  }

  function BodyComponent(params: seq<string>): Json
  {
    JObj(map["type" := JStr("body"), "parameters" := JArr(ParameterObjects(params))])
  }

  /** The JSON body of a template message, in closed form. */
  function TemplatePayload(to: string, templateName: string, languageCode: string, bodyParams: Option<seq<string>>): Json
  {
    var template := map["name" := JStr(templateName), "language" := JObj(map["code" := JStr(languageCode)])];
    JObj(map["messaging_product" := JStr("whatsapp"),
             "to" := JStr(to),
             "type" := JStr("template"),
             "template" := JObj(if HasParams(bodyParams)
                                then template["components" := JArr([BodyComponent(bodyParams.value)])]
                                else template)])
  }

  /**
   * The template payload as `send_whatsapp_template` builds it: the component list first, then
   * the payload, then the components attached to the template only when there are any.
   */
  method BuildTemplatePayload(to: string, templateName: string, languageCode: string, bodyParams: Option<seq<string>>)
    returns (payload: Json)
    ensures payload == TemplatePayload(to, templateName, languageCode, bodyParams)
  {
    var components: seq<Json> := [];
    if HasParams(bodyParams) {
      components := components + [BodyComponent(bodyParams.value)];
    }
    var template := map["name" := JStr(templateName), "language" := JObj(map["code" := JStr(languageCode)])];
    var fields := map["messaging_product" := JStr("whatsapp"),
                      "to" := JStr(to),
                      "type" := JStr("template"),
                      "template" := JObj(template)];
    if components != [] {
      assert components == [BodyComponent(bodyParams.value)];
      template := template["components" := JArr(components)];
      fields := fields["template" := JObj(template)];
    }
    payload := JObj(fields);
  }

  /**
   * What the provider is told in a template message: the name, the language, and a body
   * component exactly when there are parameters, holding them in order.
   */
  lemma TemplatePayloadFields(to: string, templateName: string, languageCode: string, bodyParams: Option<seq<string>>)
    ensures var p := TemplatePayload(to, templateName, languageCode, bodyParams);
      && Field(p, "messaging_product") == Some(JStr("whatsapp"))
      && Field(p, "to") == Some(JStr(to)) && Field(p, "type") == Some(JStr("template"))
      && Field(p, "template").Some?
      && var t := Field(p, "template").value;
      && Field(t, "name") == Some(JStr(templateName))
      && Field(t, "language") == Some(JObj(map["code" := JStr(languageCode)]))
      && (Field(t, "components").Some? <==> HasParams(bodyParams))
      && (HasParams(bodyParams) ==>
            Field(t, "components") == Some(JArr([BodyComponent(bodyParams.value)])))
  {
  }

  /** The body component lists one text parameter per template parameter, in the same order. */
  lemma BodyComponentParameters(params: seq<string>)
    ensures Field(BodyComponent(params), "type") == Some(JStr("body"))
    ensures var ps := Field(BodyComponent(params), "parameters");
      && ps.Some? && ps.value.JArr? && |ps.value.elems| == |params|
      && forall i :: 0 <= i < |params| ==> Field(ps.value.elems[i], "text") == Some(JStr(params[i]))
  {
  }

  /** The request `send_whatsapp_text` would post, or the error it raises before building one. */
  function TextRequest(token: Option<string>, to: string, text: Option<string>, phoneNumberId: string): (r: Result<Request, string>)
    ensures r.Failure? <==> !Given(token)
    ensures r.Failure? ==> r.error == MissingTokenMessage
    ensures r.Success? ==> r.value.url == MessagesUrl(phoneNumberId) && r.value.payload == TextPayload(to, text)
    ensures r.Success? ==> ("Authorization", "Bearer " + token.value) in r.value.headers
  {
    if !Given(token) then Failure(MissingTokenMessage)
    else Success(Request(MessagesUrl(phoneNumberId), Headers(token.value), TextPayload(to, text)))
  }

  /** The request `send_whatsapp_template` would post, or the error it raises before building one. */
  function TemplateRequest(token: Option<string>, to: string, phoneNumberId: string, templateName: string,
                           languageCode: string := DefaultLanguage, bodyParams: Option<seq<string>> := None)
    : (r: Result<Request, string>)
    ensures r.Failure? <==> !Given(token)
    ensures r.Failure? ==> r.error == MissingTokenMessage
    ensures r.Success? ==> r.value.url == MessagesUrl(phoneNumberId)
    ensures r.Success? ==> r.value.payload == TemplatePayload(to, templateName, languageCode, bodyParams)
    ensures r.Success? ==> ("Authorization", "Bearer " + token.value) in r.value.headers
  {
    if !Given(token) then Failure(MissingTokenMessage)
    else Success(Request(MessagesUrl(phoneNumberId), Headers(token.value), TemplatePayload(to, templateName, languageCode, bodyParams)))
  }

  /** One element of the "messages" list of the provider's reply. */
  datatype MessageEntry = MessageEntry(id: Option<string>)

  /**
   * What the POST produced: a transport error, or a reply with its status code, the text of the
   * error `raise_for_status` would raise for it, and the "messages" list of its JSON body if present.
   */
  datatype HttpOutcome =
    | TransportError(detail: string)
    | Reply(statusCode: int, statusError: string, messages: Option<seq<MessageEntry>>)

  predicate IsSuccessStatus(code: int) {
    200 <= code < 300
  }

  /** `raise_for_status()` and then the id of the first message of the reply, or "" when there is none. */
  function ReadMessageId(reply: HttpOutcome): (r: Result<string, string>)
    ensures r.Success? <==> reply.Reply? && IsSuccessStatus(reply.statusCode)
    ensures reply.TransportError? ==> r == Failure(reply.detail)
    ensures reply.Reply? && !IsSuccessStatus(reply.statusCode) ==> r == Failure(reply.statusError)
    ensures r.Success? && reply.messages.Some? && reply.messages.value != [] ==>
      r.value == reply.messages.value[0].id.GetOr("")
    ensures r.Success? && (reply.messages.None? || reply.messages.value == []) ==> r.value == ""
  {
    match reply
    case TransportError(d) => Failure(d)
    case Reply(code, err, msgs) =>
      if !IsSuccessStatus(code) then Failure(err)
      else if msgs.Some? && msgs.value != [] then Success(msgs.value[0].id.GetOr(""))
      else Success("")
  }

  /** `send_whatsapp_text`: the provider's message id, or the text of the error it raised. */
  function SendText(token: Option<string>, to: string, text: Option<string>, phoneNumberId: string, reply: HttpOutcome)
    : (r: Result<string, string>)
    ensures !Given(token) ==> r == Failure(MissingTokenMessage)
    ensures Given(token) ==> r == ReadMessageId(reply)
  {
    match TextRequest(token, to, text, phoneNumberId)
    case Failure(e) => Failure(e)
    case Success(_) => ReadMessageId(reply)
  }

  /** `send_whatsapp_template`: the provider's message id, or the text of the error it raised. */
  function SendTemplate(token: Option<string>, to: string, phoneNumberId: string, templateName: string,
                        languageCode: string := DefaultLanguage, bodyParams: Option<seq<string>> := None,
                        reply: HttpOutcome)
    : (r: Result<string, string>)
    ensures !Given(token) ==> r == Failure(MissingTokenMessage)
    ensures Given(token) ==> r == ReadMessageId(reply)
  {
    match TemplateRequest(token, to, phoneNumberId, templateName, languageCode, bodyParams)
    case Failure(e) => Failure(e)
    case Success(_) => ReadMessageId(reply)
  }

  /** One call to the client: which of the two senders, with which arguments. */
  datatype ProviderCall =
    | TextCall(to: string, text: Option<string>, phoneNumberId: string)
    | TemplateCall(to: string, phoneNumberId: string, templateName: string, languageCode: string,
                   bodyParams: Option<seq<string>>)

  /**
   * The outcome of a call as its caller sees it: the configuration error when there is no access
   * token, otherwise what the provider's reply makes of it (`SendIsDispatch` shows this is the
   * outcome of the sender the call names).
   */
  function Send(token: Option<string>, call: ProviderCall, reply: HttpOutcome): Result<string, string>
  {
    if !Given(token) then Failure(MissingTokenMessage) else ReadMessageId(reply)
  }

  /** `Send` is the outcome of `send_whatsapp_text` or `send_whatsapp_template`, with the call's arguments. */
  lemma SendIsDispatch(token: Option<string>, call: ProviderCall, reply: HttpOutcome)
    ensures call.TextCall? ==>
      Send(token, call, reply) == SendText(token, call.to, call.text, call.phoneNumberId, reply)
    ensures call.TemplateCall? ==>
      Send(token, call, reply)
        == SendTemplate(token, call.to, call.phoneNumberId, call.templateName, call.languageCode, call.bodyParams, reply)
  {
  }

  /** The request that goes with a call; it exists exactly when the access token is configured. */
  function RequestFor(token: Option<string>, call: ProviderCall): Result<Request, string>
  {
    match call
    case TextCall(to, text, pn) => TextRequest(token, to, text, pn)
    case TemplateCall(to, pn, name, lang, params) => TemplateRequest(token, to, pn, name, lang, params)
  }

  /**
   * A call succeeds exactly when a request was built and the provider answered 2xx; without an
   * access token it fails with the configuration error whatever the network would have done.
   */
  lemma SendOutcome(token: Option<string>, call: ProviderCall, reply: HttpOutcome)
    ensures Send(token, call, reply).Success? <==>
      RequestFor(token, call).Success? && reply.Reply? && IsSuccessStatus(reply.statusCode)
    ensures !Given(token) ==> Send(token, call, reply) == Failure(MissingTokenMessage)
  {
  }
}
