# Assistant proxy route — a Dafny model

This project models the one piece of logic in a subscription-gated chat
application: the `POST` handler of the assistant API route. For each request
the handler:

- picks one of four persona system prompts;
- assembles the provider request from the conversation and an optional image;
- sends it to the language-model provider's `responses` endpoint;
- turns the provider's answer back into `{ reply }`, or into an error body
  that keeps the provider's status.

The model splits the handler at its one outbound call:

- `AssistantRoute.Plan` decides, from the parsed request body and whether the
  provider key is set, either the response to give at once or the
  `ProviderRequest` (model and input list) to send.
- `AssistantRoute.Respond` maps the provider's `Answer` to the HTTP response.
- `AssistantRoute.Post` is the handler in the route's own step-by-step form.
  It takes the outbound call as a function parameter and is proved to behave
  as `Plan` and `Respond` say. It also returns the request it passed to that
  function, if any, so "nothing is sent" can be stated.

Files, one module each:

- `json.dfy` (`JsValues`): JSON values as `JSON.parse` leaves them, plus
  `undefined`. It also holds the JavaScript operations the route applies to
  them: optional chaining (`Get`, `At`), truthiness (`Truthy`, `Or` for `||`),
  nullishness (`Nullish`, `Coalesce` for `??`), `String(...)` (`ToText`),
  `JSON.stringify` (`Stringify`), `trim`, `startsWith` and `includes`. The
  route mixes `||` and `??`, and the model keeps the two apart.
- `personas.dfy` (`Personas`): the persona table as a constant map, and the
  lookup with its fallback to the skin-care prompt.
- `assembly.dfy` (`Assembly`): the `input` list, the image part, the
  `data:` URL shaping of a bare base64 image, and the model choice. A bare
  image gets the `data:image/jpeg;base64,` prefix, the base64 form of the
  `data:` URL of RFC 2397, section 3.
- `upstream.dfy` (`UpstreamErrors`): the error payload read from a non-OK
  response, and the ordered `||` choice of its error text.
- `replies.dfy` (`Replies`): the scan of `output` for the first message with
  output text, and the `??` chain of older response shapes.
- `proxy.dfy` (`AssistantRoute`): responses, `Plan`, `Respond`, the
  catch-all and the `Post` handler.

Inputs that stand for I/O:

- `hasKey` stands for reading `OPENAI_API_KEY`.
- `body` (with `bodyError`) stands for the result of `req.json()`.
- `provider` stands for the `fetch` call to the provider.
- An `Answer` carries the status, the content-type header, the body as text,
  the body parsed as JSON, and the parse error's message.

## Notes on the code's behaviour

These follow the code, where a reader of its comments might expect otherwise:

- The request body is parsed and destructured before the key is checked.
  Without a key, a body that does not parse, or the JSON `null`, gets the
  parse or destructuring error, not the missing-key error. Both are 500s, and
  neither sends anything.
- With a truthy image, a last turn that is JSON `null` makes
  `lastMessage.role` throw, giving a 500.
- A user last turn with an image but no string `content` gets its text from
  `String(content)`. So a missing content becomes the text part `"undefined"`.
- The `error` of an upstream-error body need not be a string. It is
  `payload.error` itself when that is truthy but has no truthy `message`, for
  example an object.
- The reply need not be a string, and can be empty. The fallback chain uses
  `??`, so an empty `output_text` stops it: the reply is `""`, not the
  apology.
- The assistant type is turned into a string before the lookup. So
  `['study']` selects the study prompt.

## Model

| member | source | states |
|---|---|---|
| JsValues.Get | app/api/assistant/route.ts:169-189 | optional property access `v?.key`: defined only on objects, giving the named field |
| JsValues.At | app/api/assistant/route.ts:185-187 | optional index access `v?.[i]`: an array element when in range, undefined on null/undefined |
| JsValues.Truthy | app/api/assistant/route.ts:68 | no nullish value is truthy |
| JsValues.Or | app/api/assistant/route.ts:68 | `a || b` is truthy exactly when either operand is; a truthy left operand is kept, otherwise the right one is the result |
| JsValues.Coalesce | app/api/assistant/route.ts:183-190 | `a ?? b` is nullish exactly when both are; a non-nullish left operand is kept, even a falsy one, otherwise the right one is the result |
| JsValues.ToText | app/api/assistant/route.ts:68 | `String(v)` is "undefined" for undefined and the string itself for a string |
| JsValues.JsonText | app/api/assistant/route.ts:68 | `String(j)` of a string is itself, of null is "null", of an object is "[object Object]", of an empty array is empty, and of a one-string array is that string |
| JsValues.ContainsIff | app/api/assistant/route.ts:143 | `includes` holds exactly when the pattern occurs at some offset of the string |
| JsValues.OrCoalesceDiffer | app/api/assistant/route.ts:157 | `||` and `??` agree except on `false`, `0` and `""`; there `??` keeps the left operand and `||` takes the right |
| JsValues.Trim | app/api/assistant/route.ts:101 | `trim()` leaves the part of the string between its leading and trailing white space; that part neither starts nor ends with white space |
| JsValues.TrimEmptyIff | app/api/assistant/route.ts:101 | `trim()` is empty exactly when every character is white space |
| JsValues.Stringify | app/api/assistant/route.ts:157 | `JSON.stringify` of a JSON value is never empty; a string becomes a quoted literal, an array is bracketed, an object braced |
| Personas.LookupKey | app/api/assistant/route.ts:68 | the lookup key is `acne-care` for a falsy assistant type and the string itself for a non-empty string |
| Personas.Resolve | app/api/assistant/route.ts:15-68 | the prompt chosen is always one of the four table prompts, and is non-empty |
| Personas.ResolveFallsBack | app/api/assistant/route.ts:67-68 | a falsy assistant type, or one whose string form is not a key, selects the skin-care prompt |
| Personas.ResolveKnown | app/api/assistant/route.ts:15-68 | each of the four keys selects its own prompt |
| Personas.ResolveExactly | app/api/assistant/route.ts:67-68 | a non-default prompt is selected if and only if the assistant type is truthy and its string form is that prompt's key |
| Personas.ResolveArrayKey | app/api/assistant/route.ts:68 | the lookup goes through `String(...)`: `['study']` selects the study prompt |
| Assembly.ImageUrl | app/api/assistant/route.ts:88-93 | a string image becomes a `data:` URL; one without the scheme gets the JPEG base64 prefix and keeps the original as payload; a `data:` URL and non-strings pass unchanged |
| Assembly.ImageUrlIdempotent | app/api/assistant/route.ts:88-93 | shaping an image URL twice is shaping it once |
| Assembly.WantsTextPartIff | app/api/assistant/route.ts:101 | a text part is built exactly when the text has a non-white-space character and is not the image placeholder |
| Assembly.TurnText | app/api/assistant/route.ts:96-98 | a string content is the text itself; a missing content gives "undefined", a null one "null" |
| Assembly.ContentParts | app/api/assistant/route.ts:100-104 | the parts are one or two; the last is always the image part; there are two exactly when a text part is wanted, and then the first is that text |
| Assembly.UserTurnWithImage | app/api/assistant/route.ts:106-109 | the rebuilt last turn is a user turn whose content is the content parts of its text and the image |
| Assembly.MissingContentGivesUndefinedText | app/api/assistant/route.ts:96-109 | any last turn without `content`, rebuilt with an image, has as content the text part "undefined" followed by the image part |
| Assembly.PlaceholderGivesImageOnly | app/api/assistant/route.ts:101-104 | the placeholder text with an image gives the image part alone |
| Assembly.TextAndImageGiveTwoParts | app/api/assistant/route.ts:101-104 | the text "abc" with an image gives the text part, then the image part |
| Assembly.AssembledInput | app/api/assistant/route.ts:70-114 | the input starts with the system message; with no turns it has length 1; with no truthy image or a non-user last turn it is the system message followed by the turns unchanged; with a truthy image and a user last turn, the earlier turns are unchanged and the last is rebuilt with the image; it throws exactly for a null last turn with a truthy image |
| Assembly.AssembleInput | app/api/assistant/route.ts:70-113 | building the input by successive `push` steps gives the input described above |
| Assembly.ModelFor | app/api/assistant/route.ts:116 | the image model is chosen exactly when the image is truthy, the text model exactly when it is not |
| Assembly.EmptyImageIsNoImage | app/api/assistant/route.ts:86-116 | an empty-string image gives the text model, and the turns are passed unchanged |
| UpstreamErrors.IsJsonContentType | app/api/assistant/route.ts:142-143 | the body counts as JSON exactly when a content-type header is present and contains `application/json` |
| UpstreamErrors.ErrorPayload | app/api/assistant/route.ts:141-148 | a JSON body is its parse result, or null when parsing fails; any other body becomes `{error: text}`, or `{error: 'Upstream error'}` when the text is empty |
| UpstreamErrors.ErrorText | app/api/assistant/route.ts:157 | the error is the first truthy of the nested message, the error field and the serialised payload; it is always truthy, so the final literal is never reached |
| UpstreamErrors.TextBodyError | app/api/assistant/route.ts:145-157 | a non-JSON body yields its text as the error, or 'Upstream error' when it is empty |
| UpstreamErrors.UnparsableJsonBodyError | app/api/assistant/route.ts:144-157 | a JSON body that fails to parse yields the error text "null" |
| UpstreamErrors.QuotaMessage | app/api/assistant/route.ts:157 | `{error:{message:'insufficient_quota'}}` yields 'insufficient_quota' |
| Replies.FindOutputText | app/api/assistant/route.ts:172 | `find` gives an element of the content whose type is `output_text`, and gives nothing exactly when none has that type |
| Replies.FindOutputTextIsFirst | app/api/assistant/route.ts:172 | `find` gives the first element whose type is `output_text` |
| Replies.IsMessage | app/api/assistant/route.ts:171 | only an object can be a message item |
| Replies.MessageText | app/api/assistant/route.ts:171-173 | a message text exists only for a message item, and is the `text` of its first `output_text` content |
| Replies.FirstMessageText | app/api/assistant/route.ts:168-179 | what the scan finds is always truthy |
| Replies.FirstMessageTextAt | app/api/assistant/route.ts:168-179 | the scan finds the text of the first output item that is a message whose first output text has a truthy text |
| Replies.FirstMessageTextNone | app/api/assistant/route.ts:168-179 | the scan finds nothing exactly when no output item answers |
| Replies.OnlyMessagesAnswer | app/api/assistant/route.ts:171 | an item whose type is not `message`, such as `reasoning`, is skipped |
| Replies.ScannedReply | app/api/assistant/route.ts:168-178 | when `data.output` is an array the result is the scan of its items, otherwise undefined; what it finds is truthy |
| Replies.ScanReply | app/api/assistant/route.ts:168-179 | the `for` loop with `break` leaves in `reply` the text the scan finds, and null when it finds none |
| Replies.FallbackCandidates | app/api/assistant/route.ts:184-189 | the chain tries six alternatives |
| Replies.FirstNonNullish | app/api/assistant/route.ts:183-190 | the ordered search gives the final default or one of the candidates that is neither null nor undefined |
| Replies.FirstNonNullishAt | app/api/assistant/route.ts:183-190 | when every candidate before position i is nullish and the one at i is not, the search gives the one at i |
| Replies.FirstNonNullishNone | app/api/assistant/route.ts:183-190 | when every candidate is nullish, the search gives the final default |
| Replies.FirstNonNullishStep | app/api/assistant/route.ts:183-190 | one step of the ordered search is one `??` |
| Replies.ReplyFallback | app/api/assistant/route.ts:182-191 | the `??` chain never gives null |
| Replies.ReplyFallbackIsFirstNonNullish | app/api/assistant/route.ts:183-190 | the `??` chain gives the first non-nullish of `output_text`, `output[1].content[0].text`, `output[0].content[0].text`, `choices[0].message.content`, `message.content`, `content`, in that order, else the apology |
| Replies.ReplyOf | app/api/assistant/route.ts:167-191 | the reply is never null; it is the scanned text when there is one, otherwise the first non-nullish alternative or the apology |
| Replies.EmptyOutputTextStopsChain | app/api/assistant/route.ts:182-184 | an empty `output_text` stops the `??` chain, and the reply is the empty string |
| Replies.ReasoningThenMessage | app/api/assistant/route.ts:168-179 | with a reasoning item before a message item, the reply is the message's text |
| Replies.ChatCompletionShape | app/api/assistant/route.ts:187 | a chat-completion body yields its first choice's message content |
| Replies.UnknownShape | app/api/assistant/route.ts:190 | a body of no known shape yields the apology |
| AssistantRoute.ServerError | app/api/assistant/route.ts:194-199 | the catch-all is a 500 whose error is the exception's message, or 'Server error' when that is empty |
| AssistantRoute.UpstreamErrorResponse | app/api/assistant/route.ts:155-162 | the response keeps the provider's status; `upstreamStatus` equals it; `error` is the chosen text and `fullError` the payload |
| AssistantRoute.Plan | app/api/assistant/route.ts:5-121 | every early response is a 500; a body that fails to parse gives the catch-all with the parse error's message, a null body the catch-all with the destructuring error; without the key a parsed non-null body gets the missing-key error; with the key a request is sent exactly when the input assembles, its input is the assembled array, and an assembly that throws gives the catch-all with that message; the request starts with the resolved persona's system message and uses the image model exactly when the image is truthy |
| AssistantRoute.IsOk | app/api/assistant/route.ts:140 | `resp.ok` holds exactly for a status of the 2xx class |
| AssistantRoute.Respond | app/api/assistant/route.ts:140-193 | a rejected call is a 500; a non-OK status is passed through with `upstreamStatus`, error text and payload; an OK body that does not parse is a 500; otherwise the status is 200 with a non-null reply |
| AssistantRoute.HandleResponse | app/api/assistant/route.ts:140-193 | the response side, run with the scan loop, gives the response described above |
| AssistantRoute.Post | app/api/assistant/route.ts:3-200 | the handler sends nothing and gives the early response whenever the request side stops; otherwise it sends exactly the planned request and gives the response to the provider's answer |
| AssistantRoute.MissingKeySendsNothing | app/api/assistant/route.ts:5-12 | without the key, any parsed non-null body stops with `{error:'Missing OPENAI_API_KEY'}` before a request exists |
| AssistantRoute.ModelDependsOnImageOnly | app/api/assistant/route.ts:116 | two sent requests whose bodies carry the same image use the same model, whatever their personas and turns |
| AssistantRoute.QuotaErrorPassedThrough | app/api/assistant/route.ts:140-162 | a 429 JSON body `{error:{message:'insufficient_quota'}}` becomes a 429 with that error text |

The contracts above are written in these definitions, each a direct
transcription of the source expression it names:

- `JsValues.Nullish` (app/api/assistant/route.ts:183-190): the operand test of `??`, null or undefined.
- `JsValues.StartsWith` (app/api/assistant/route.ts:89): `s.startsWith(p)`.
- `JsValues.Contains` (app/api/assistant/route.ts:143): `s.includes(p)`.
- `JsValues.IntText` (app/api/assistant/route.ts:68, 98): the decimal form `String(...)` and `JSON.stringify` give an integer.
- `JsValues.Quote` (app/api/assistant/route.ts:157): the quoted, escaped form `JSON.stringify` gives a string.
- `Assembly.SystemMessage` (app/api/assistant/route.ts:71-74): `{ role: 'system', content: systemPrompt }`.
- `Assembly.HasTurns` (app/api/assistant/route.ts:78): `Array.isArray(messages) && messages.length > 0`.
- `Assembly.IsUserTurn` (app/api/assistant/route.ts:86): `lastMessage.role === 'user'`.
- `Assembly.WantsTextPart` (app/api/assistant/route.ts:101): `textContent && textContent.trim() && textContent !== '[รูปภาพ]'`.
- `Assembly.TextPart` (app/api/assistant/route.ts:102): `{ type: 'input_text', text }`.
- `Assembly.ImagePart` (app/api/assistant/route.ts:104): `{ type: 'input_image', image_url }`.
- `Replies.IsOutputText` (app/api/assistant/route.ts:172): `c?.type === 'output_text'`.
- `Replies.Answers` (app/api/assistant/route.ts:171-173): a message item whose first output text has a truthy `text`, where the scan stops.

## Left out

- The `fetch` to the provider, with its URL, headers and request serialisation. It is the `provider` parameter of `Post`. Timeouts and retries do not exist in the code either.
- Reading and parsing of the request and response bodies. Parse results and parse-error messages are inputs.
- Reading `OPENAI_API_KEY` from the environment. It is the boolean `hasKey`.
- `console.log` and `console.error`: they are diagnostic output only.
- `NextResponse.json` itself. A response is its status and a JSON body. Statuses that a response may not carry with a body (such as 304) are not modelled; the runtime would throw there.
- The verbatim texts of the four system prompts. They are four distinct, non-empty constants.
- Property lookups that reach the object prototype. For example, an assistant type of `'toString'` or `'__proto__'` finds an inherited value at runtime. The model looks up own keys only. No property name the route reads from JSON data is an inherited property of strings, arrays or objects.
- Personas.Resolve: does not model the inherited-property lookups above. It also does not model an assistant type that is an object with its own `toString` field, or an array holding one. Converting it to a property key throws a `TypeError`, so the route answers with the catch-all 500. The model resolves a prompt and sends a request.
- JsValues.JsonText: does not model an object with its own `toString` field, alone or inside an array. A field of parsed JSON can never be called, so for such an object `String(...)` throws a `TypeError`, where the model gives `"[object Object]"`. An own `valueOf` field alone changes nothing.
- Assembly.TurnText: does not model a non-string content that is, or holds, an object with its own `toString` field. The conversion at app/api/assistant/route.ts:98 throws there and the route answers with the catch-all 500. The model gives `"[object Object]"` and sends a request.
- Non-integer numbers. The model's JSON numbers are integers; fractional values such as `0.5` are not represented. `NaN` cannot come from JSON. JavaScript writes integers of magnitude at least 10^21 in exponent form, and above 2^53 loses precision; the model writes every integer in full decimal.
- JsValues.Lookup: the model does not require an object's keys to be distinct. A parsed object never repeats a key, because `JSON.parse` keeps only the last of duplicated keys. A field list with a repeated key is therefore no parse result, and `Lookup` reads its first field of that name.
- JsValues.At: indexes a string by code point, where JavaScript indexes by UTF-16 unit. Every such result is read for a field named `content`, `message` or `text`, which a string lacks, so the difference never reaches a reply.
- JsValues.Stringify: writes object fields in their stored order. JavaScript puts integer-like keys first. Lone surrogates cannot occur in Dafny strings.
- The exact wording of runtime `TypeError` messages. The constants `NullRoleMessage` and `NullBodyMessage` follow the V8 engine's wording.
- The comparison with the placeholder on the non-string branch at app/api/assistant/route.ts:98. It is always false and is not modelled.
- app/assistant/mental-health/page.tsx and app/assistant/page.tsx, the client chat page and the assistant list. They are user-interface code, outside this model.
