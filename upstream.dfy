/** Mapping of a non-OK provider response to the route's error body: the
    payload read from the body, and the `error` text picked from it. */
module UpstreamErrors {
  import opened JsValues

  const UpstreamErrorText: string := "Upstream error"
  const JsonMediaType: string := "application/json"

  /** `(resp.headers.get('content-type') || '').includes('application/json')`;
      an absent header reads as null. */
  predicate IsJsonContentType(contentType: Option<string>)
    ensures IsJsonContentType(contentType) <==>
      contentType.Some? && (exists i ::
        0 <= i <= |contentType.value| - |JsonMediaType| && StartsWith(contentType.value[i..], JsonMediaType))
  {
    var ct := if contentType.Some? && contentType.value != "" then contentType.value else "";
    ContainsIff(ct, JsonMediaType);
    Contains(ct, JsonMediaType)
  }

  /** `errorPayload`. A JSON body is parsed (`json` is the parse result, None
      when parsing fails, which the route turns into null); any other body is
      wrapped as `{ error: text || 'Upstream error' }`. */
  function ErrorPayload(contentType: Option<string>, text: string, json: Option<Json>): (p: Json)
    ensures IsJsonContentType(contentType) && json.Some? ==> p == json.value
    ensures IsJsonContentType(contentType) && json.None? ==> p == JNull
    ensures !IsJsonContentType(contentType) ==>
      Get(Some(p), "error") == Some(JStr(if text == "" then UpstreamErrorText else text))
  {
    if IsJsonContentType(contentType) then
      (if json.Some? then json.value else JNull)
    else
      JObj([("error", JStr(if text != "" then text else UpstreamErrorText))])
  }

  /** `errorPayload?.error?.message || errorPayload?.error ||
      JSON.stringify(errorPayload) || 'Upstream error'`: the first truthy of
      the nested message, the error field, and the serialised payload. The
      serialised payload is never empty, so the last alternative is never
      reached and the result is always truthy; it need not be a string when
      the error field is a non-string value. */
  function ErrorText(payload: Json): (e: Json)
    ensures Truthy(Some(e))
    ensures var message := Get(Get(Some(payload), "error"), "message");
      Truthy(message) ==> Some(e) == message
    ensures var message := Get(Get(Some(payload), "error"), "message");
      var error := Get(Some(payload), "error");
      !Truthy(message) && Truthy(error) ==> Some(e) == error
    ensures var message := Get(Get(Some(payload), "error"), "message");
      var error := Get(Some(payload), "error");
      !Truthy(message) && !Truthy(error) ==> e == JStr(Stringify(payload))
  {
    var chosen := Or(Get(Get(Some(payload), "error"), "message"),
                  Or(Get(Some(payload), "error"),
                  Or(Some(JStr(Stringify(payload))),
                     Some(JStr(UpstreamErrorText)))));
    chosen.value
  }

  /** A body that is not JSON yields its own text as the error, or
      'Upstream error' when it is empty. */
  lemma TextBodyError(contentType: Option<string>, text: string, json: Option<Json>)
    requires !IsJsonContentType(contentType)
    ensures ErrorText(ErrorPayload(contentType, text, json))
      == JStr(if text == "" then UpstreamErrorText else text)
  {
  }

  /** A JSON body that does not parse yields the error text "null". */
  lemma UnparsableJsonBodyError(contentType: Option<string>, text: string)
    requires IsJsonContentType(contentType)
    ensures ErrorText(ErrorPayload(contentType, text, None)) == JStr("null")
  {
  }

  /** `{ error: { message: 'insufficient_quota' } }` yields that message. */
  lemma QuotaMessage()
    ensures ErrorText(JObj([("error", JObj([("message", JStr("insufficient_quota"))]))]))
      == JStr("insufficient_quota")
  {
  }
}
