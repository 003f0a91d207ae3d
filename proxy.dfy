/** The `POST` handler of the assistant route, split at its one outbound
    call: `Plan` decides, from the parsed request body and whether the
    provider key is configured, either the response to give at once or the
    request to send; `Respond` maps the provider's answer to the response.
    `Post` is the handler in the route's own step-by-step form, proved to do
    what the two functions say. */
module AssistantRoute {
  import opened JsValues
  import Personas
  import Assembly
  import UpstreamErrors
  import Replies

  const MissingKeyText: string := "Missing OPENAI_API_KEY"
  const ServerErrorText: string := "Server error"

  /** Message thrown by destructuring a null request body (the runtime's
      wording). */
  const NullBodyMessage: string :=
    "Cannot destructure property 'messages' of '(intermediate value)' as it is null."

  /** A JSON response: its HTTP status and its body. */
  datatype HttpResponse = HttpResponse(status: int, body: Json)

  /** The body sent to the provider. */
  datatype ProviderRequest = ProviderRequest(model: string, input: seq<Json>)

  /** The outcome of the outbound call. `Failed` is a rejected `fetch`.
      `Answered` is a response: its status, its content-type header (None
      when absent), its body read as text, its body parsed as JSON (None
      when it does not parse) and the message of that parse error. */
  datatype Answer =
    | Failed(message: string)
    | Answered(status: int, contentType: Option<string>, text: string,
               json: Option<Json>, parseError: string)

  /** What the route does before the outbound call. */
  datatype Step = Stop(response: HttpResponse) | Send(request: ProviderRequest)

  /** The catch-all: status 500 with `{ error: e?.message || 'Server error' }`. */
  function ServerError(message: string): (r: HttpResponse)
    ensures r.status == 500
    ensures Get(Some(r.body), "error") == Some(JStr(if message == "" then ServerErrorText else message))
  {
    HttpResponse(500, JObj([("error", Or(Some(JStr(message)), Some(JStr(ServerErrorText))).value)]))
  }

  const MissingKeyResponse: HttpResponse := HttpResponse(500, JObj([("error", JStr(MissingKeyText))]))

  /** The response to a non-OK provider status: that status, with the body
      `{ error, upstreamStatus, fullError }`. */
  function UpstreamErrorResponse(status: int, payload: Json): (r: HttpResponse)
    ensures r.status == status
    ensures Get(Some(r.body), "error") == Some(UpstreamErrors.ErrorText(payload))
    ensures Get(Some(r.body), "upstreamStatus") == Some(JNum(status))
    ensures Get(Some(r.body), "fullError") == Some(payload)
  {
    var fields := [
      ("error", UpstreamErrors.ErrorText(payload)),
      ("upstreamStatus", JNum(status)),
      ("fullError", payload)];
    assert Lookup(fields[2..], "fullError") == Some(payload);
    assert Lookup(fields[1..], "upstreamStatus") == Some(JNum(status));
    assert Lookup(fields[1..], "fullError") == Some(payload);
    HttpResponse(status, JObj(fields))
  }

  /** `resp.ok`: a status of the 2xx class. */
  predicate IsOk(status: int)
    ensures IsOk(status) <==> status / 100 == 2
  {
    200 <= status <= 299
  }

  /** The request side of the handler. `body` is what `req.json()` gave (None
      when it rejected, with `bodyError` as the message). Every early response
      is a 500; without the key the response is the missing-key error, decided
      before any request exists; a request is sent only with the key, starts
      with the resolved persona's system message, and uses the image model
      exactly when the image is truthy. */
  function Plan(hasKey: bool, body: Option<Json>, bodyError: string): (s: Step)
    ensures s.Stop? ==> s.response.status == 500
    ensures body.None? ==> s == Stop(ServerError(bodyError))
    ensures body == Some(JNull) ==> s == Stop(ServerError(NullBodyMessage))
    ensures hasKey && body.Some? && body.value != JNull ==>
      var a := Assembly.AssembledInput(Personas.Resolve(Get(body, "assistantType")),
                                       Get(body, "messages"), Get(body, "imageBase64"));
      && (s.Send? <==> a.Ok?)
      && (a.Ok? ==> s.request.input == a.value)
      && (a.Throws? ==> s == Stop(ServerError(a.message)))
    ensures body.Some? && body.value != JNull && !hasKey ==> s == Stop(MissingKeyResponse)
    ensures s.Send? ==> hasKey && body.Some? && body.value != JNull
    ensures s.Send? ==>
      var image := Get(body, "imageBase64");
      && (s.request.model == Assembly.ImageModel <==> Truthy(image))
      && (s.request.model == Assembly.TextModel <==> !Truthy(image))
      && |s.request.input| >= 1
      && s.request.input[0] == Assembly.SystemMessage(Personas.Resolve(Get(body, "assistantType")))
  {
    if body.None? then Stop(ServerError(bodyError))
    else if body.value == JNull then Stop(ServerError(NullBodyMessage))
    else if !hasKey then Stop(MissingKeyResponse)
    else
      var messages := Get(body, "messages");
      var image := Get(body, "imageBase64");
      var prompt := Personas.Resolve(Get(body, "assistantType"));
      match Assembly.AssembledInput(prompt, messages, image)
      case Throws(message) => Stop(ServerError(message))
      case Ok(input) => Send(ProviderRequest(Assembly.ModelFor(image), input))
  }

  /** The response side of the handler. A rejected call is a 500. A non-OK
      status is passed through unchanged, with `upstreamStatus` equal to it,
      the error text picked from the payload and the payload itself. An OK
      response whose body does not parse is a 500; otherwise the status is
      200 and the reply is never null. */
  function Respond(answer: Answer): (r: HttpResponse)
    ensures answer.Failed? ==> r == ServerError(answer.message)
    ensures answer.Answered? && !IsOk(answer.status) ==>
      var payload := UpstreamErrors.ErrorPayload(answer.contentType, answer.text, answer.json);
      && r.status == answer.status
      && Get(Some(r.body), "upstreamStatus") == Some(JNum(r.status))
      && Get(Some(r.body), "error") == Some(UpstreamErrors.ErrorText(payload))
      && Get(Some(r.body), "fullError") == Some(payload)
    ensures answer.Answered? && IsOk(answer.status) && answer.json.None? ==>
      r == ServerError(answer.parseError)
    ensures answer.Answered? && IsOk(answer.status) && answer.json.Some? ==>
      && r.status == 200
      && Get(Some(r.body), "reply") == Some(Replies.ReplyOf(answer.json.value))
      && !Nullish(Get(Some(r.body), "reply"))
  {
    match answer
    case Failed(message) => ServerError(message)
    case Answered(status, contentType, text, json, parseError) =>
      if !IsOk(status) then
        UpstreamErrorResponse(status, UpstreamErrors.ErrorPayload(contentType, text, json))
      else if json.None? then ServerError(parseError)
      else HttpResponse(200, JObj([("reply", Replies.ReplyOf(json.value))]))
  }

  /** The response side as the route performs it, with the scan loop. */
  method HandleResponse(answer: Answer) returns (response: HttpResponse)
    ensures response == Respond(answer)
  {
    if answer.Failed? {
      return ServerError(answer.message);
    }
    if !IsOk(answer.status) {
      var payload := UpstreamErrors.ErrorPayload(answer.contentType, answer.text, answer.json);
      return UpstreamErrorResponse(answer.status, payload);
    }
    if answer.json.None? {
      return ServerError(answer.parseError);
    }
    var data := answer.json.value;
    var reply := Replies.ScanReply(data);
    if !Truthy(Some(reply)) {
      reply := Replies.ReplyFallback(data);
    }
    response := HttpResponse(200, JObj([("reply", reply)]));
  }

  /** The handler. `provider` stands for the outbound call; `sent` is the
      request passed to it, None when the handler answers without calling it. */
  method Post(hasKey: bool, body: Option<Json>, bodyError: string, provider: ProviderRequest -> Answer)
    returns (response: HttpResponse, sent: Option<ProviderRequest>)
    ensures Plan(hasKey, body, bodyError).Stop? ==>
      sent == None && response == Plan(hasKey, body, bodyError).response
    ensures Plan(hasKey, body, bodyError).Send? ==>
      sent == Some(Plan(hasKey, body, bodyError).request) && response == Respond(provider(sent.value))
  {
    sent := None;
    if body.None? {
      return ServerError(bodyError), None;
    }
    if body.value == JNull {
      return ServerError(NullBodyMessage), None;
    }
    var messages := Get(body, "messages");
    var image := Get(body, "imageBase64");
    var assistantType := Get(body, "assistantType");
    if !hasKey {
      return MissingKeyResponse, None;
    }
    var prompt := Personas.Resolve(assistantType);
    var input := Assembly.AssembleInput(prompt, messages, image);
    if input.Throws? {
      return ServerError(input.message), None;
    }
    var model := Assembly.ModelFor(image);
    var request := ProviderRequest(model, input.value);
    sent := Some(request);
    response := HandleResponse(provider(request));
  }

  /** Without the key, a parsed non-null body gets the missing-key error and
      nothing is sent, whatever the provider would answer. */
  lemma MissingKeySendsNothing(body: Json, bodyError: string)
    requires body != JNull
    ensures Plan(false, Some(body), bodyError) == Stop(MissingKeyResponse)
  {
  }

  /** The model depends on the image alone: two sent requests whose bodies
      carry the same image use the same model, whatever their personas and
      turns. */
  lemma ModelDependsOnImageOnly(hasKey: bool, b1: Json, b2: Json, e1: string, e2: string)
    requires Get(Some(b1), "imageBase64") == Get(Some(b2), "imageBase64")
    requires Plan(hasKey, Some(b1), e1).Send? && Plan(hasKey, Some(b2), e2).Send?
    ensures Plan(hasKey, Some(b1), e1).request.model == Plan(hasKey, Some(b2), e2).request.model
  {
  }

  /** A 429 whose JSON body carries `{ error: { message: 'insufficient_quota' } }`
      is passed on as a 429 with that error text. */
  lemma QuotaErrorPassedThrough()
    ensures var r := Respond(Answered(429, Some("application/json"), "",
        Some(JObj([("error", JObj([("message", JStr("insufficient_quota"))]))])), ""));
      r.status == 429 && Get(Some(r.body), "error") == Some(JStr("insufficient_quota"))
  {
    var payload := JObj([("error", JObj([("message", JStr("insufficient_quota"))]))]);
    assert StartsWith("application/json", UpstreamErrors.JsonMediaType);
    assert UpstreamErrors.IsJsonContentType(Some("application/json"));
    assert UpstreamErrors.ErrorPayload(Some("application/json"), "", Some(payload)) == payload;
    UpstreamErrors.QuotaMessage();
  }
}
