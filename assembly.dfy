/** Request assembly of the assistant route: the system message, the earlier
    turns, the last turn (rebuilt with an image when one is attached to a user
    turn), the data-URL shaping of the image and the model choice. */
module Assembly {
  import opened JsValues

  /** The text the client sends in place of an image-only message. */
  const ImagePlaceholder: string := "[รูปภาพ]"

  /** The prefix given to a bare base64 image: a `data:` URL with media type
      `image/jpeg` and the `;base64` marker (RFC 2397, section 3). */
  const JpegDataPrefix: string := "data:image/jpeg;base64,"

  const ImageModel: string := "gpt-4o"
  const TextModel: string := "gpt-5-nano"

  /** Message thrown by `lastMessage.role` when the last turn is null (the
      runtime's wording). */
  const NullRoleMessage: string := "Cannot read properties of null (reading 'role')"

  /** `{ role: 'system', content: prompt }`. */
  function SystemMessage(prompt: string): Json {
    JObj([("role", JStr("system")), ("content", JStr(prompt))])
  }

  /** `{ type: 'input_text', text }`. */
  function TextPart(text: string): Json {
    JObj([("type", JStr("input_text")), ("text", JStr(text))])
  }

  /** `{ type: 'input_image', image_url }`. */
  function ImagePart(url: Json): Json {
    JObj([("type", JStr("input_image")), ("image_url", url)])
  }

  /** `lastMessage.role === 'user'`. */
  predicate IsUserTurn(turn: Json) {
    Get(Some(turn), "role") == Some(JStr("user"))
  }

  /** `Array.isArray(messages) && messages.length > 0`. */
  predicate HasTurns(messages: Value) {
    messages.Some? && messages.value.JArr? && |messages.value.items| > 0
  }

  /** The image URL sent upstream: a string without the `data:` scheme is
      taken as bare base64 and given the JPEG data-URL prefix, so every string
      image becomes a `data:` URL whose payload is the original string; a
      `data:` URL and any non-string value pass through unchanged. */
  function ImageUrl(image: Json): (url: Json)
    ensures image.JStr? ==> url.JStr? && StartsWith(url.s, "data:")
    ensures image.JStr? && StartsWith(image.s, "data:") ==> url == image
    ensures image.JStr? && !StartsWith(image.s, "data:") ==>
      StartsWith(url.s, JpegDataPrefix) && url.s[|JpegDataPrefix|..] == image.s
    ensures !image.JStr? ==> url == image
  {
    if image.JStr? && !StartsWith(image.s, "data:") then JStr(JpegDataPrefix + image.s) else image
  }

  /** Shaping an image URL twice is shaping it once. */
  lemma ImageUrlIdempotent(image: Json)
    ensures ImageUrl(ImageUrl(image)) == ImageUrl(image)
  {
  }

  /** `textContent` of the last turn: its content if that is a string, else
      `String(content)`. (The comparison with the placeholder on the
      non-string branch is always false and is not modelled.) */
  function TurnText(turn: Json): (text: string)
    ensures Get(Some(turn), "content").Some? && Get(Some(turn), "content").value.JStr? ==>
      text == Get(Some(turn), "content").value.s
    ensures Get(Some(turn), "content").None? ==> text == "undefined"
    ensures Get(Some(turn), "content") == Some(JNull) ==> text == "null"
  {
    var content := Get(Some(turn), "content");
    if content.Some? && content.value.JStr? then content.value.s else ToText(content)
  }

  /** `textContent && textContent.trim() && textContent !== '[รูปภาพ]'`. */
  predicate WantsTextPart(text: string) {
    text != "" && Trim(text) != "" && text != ImagePlaceholder
  }

  /** A text part is wanted exactly when the text has a character that is
      not white space and is not the image placeholder. */
  lemma WantsTextPartIff(text: string)
    ensures WantsTextPart(text)
      <==> (exists i :: 0 <= i < |text| && !IsJsSpace(text[i])) && text != ImagePlaceholder
  {
  }

  /** `contentArray`: an optional text part, then the image part. */
  function ContentParts(text: string, image: Json): (parts: seq<Json>)
    ensures 1 <= |parts| <= 2
    ensures parts[|parts| - 1] == ImagePart(ImageUrl(image))
    ensures |parts| == 2 <==> WantsTextPart(text)
    ensures |parts| == 2 ==> parts[0] == TextPart(text)
  {
    (if WantsTextPart(text) then [TextPart(text)] else []) + [ImagePart(ImageUrl(image))]
  }

  /** `{ role: 'user', content: contentArray }` for the last turn. */
  function UserTurnWithImage(turn: Json, image: Json): (rebuilt: Json)
    ensures IsUserTurn(rebuilt)
    ensures Get(Some(rebuilt), "content") == Some(JArr(ContentParts(TurnText(turn), image)))
  {
    var fields := [("role", JStr("user")), ("content", JArr(ContentParts(TurnText(turn), image)))];
    assert Lookup(fields[1..], "content") == Some(fields[1].1);
    JObj(fields)
  }

  /** The `input` array sent upstream, or the exception its assembly throws.
      It starts with the system message; with no turns it is that message
      alone; with no truthy image, or a last turn that is not a user turn, the
      turns follow unchanged; with a truthy image and a user last turn, the
      earlier turns follow unchanged and the last one is rebuilt with the
      image. A null last turn with a truthy image throws. */
  function AssembledInput(prompt: string, messages: Value, image: Value): (r: Result<seq<Json>>)
    ensures r.Throws? <==> (HasTurns(messages) && Truthy(image)
      && messages.value.items[|messages.value.items| - 1] == JNull)
    ensures r.Throws? ==> r.message == NullRoleMessage
    ensures r.Ok? ==> |r.value| >= 1 && r.value[0] == SystemMessage(prompt)
    ensures !HasTurns(messages) ==> r == Ok([SystemMessage(prompt)])
    ensures HasTurns(messages) && r.Ok? ==> |r.value| == |messages.value.items| + 1
    ensures HasTurns(messages) && r.Ok? ==>
      r.value[1..|r.value| - 1] == messages.value.items[..|messages.value.items| - 1]
    ensures HasTurns(messages) ==>
      var turns := messages.value.items;
      var last := turns[|turns| - 1];
      (!Truthy(image) || (last != JNull && !IsUserTurn(last))) ==> r == Ok([SystemMessage(prompt)] + turns)
    ensures HasTurns(messages) ==>
      var turns := messages.value.items;
      var last := turns[|turns| - 1];
      Truthy(image) && IsUserTurn(last) ==> r.Ok? && r.value[|turns|] == UserTurnWithImage(last, image.value)
  {
    var system := SystemMessage(prompt);
    if HasTurns(messages) then
      var turns := messages.value.items;
      var last := turns[|turns| - 1];
      var previous := turns[..|turns| - 1];
      assert turns == previous + [last];
      assert [system] + previous + [last] == [system] + turns;
      if Truthy(image) then
        if last == JNull then Throws(NullRoleMessage)
        else if IsUserTurn(last) then Ok([system] + previous + [UserTurnWithImage(last, image.value)])
        else Ok([system] + previous + [last])
      else Ok([system] + previous + [last])
    else Ok([system])
  }

  /** The assembly as the route performs it: the array starts with the
      system message and grows by `push`. */
  method AssembleInput(prompt: string, messages: Value, image: Value) returns (r: Result<seq<Json>>)
    ensures r == AssembledInput(prompt, messages, image)
  {
    var input := [SystemMessage(prompt)];
    if HasTurns(messages) {
      var turns := messages.value.items;
      var last := turns[|turns| - 1];
      var previous := turns[..|turns| - 1];
      input := input + previous;
      if Truthy(image) {
        if last == JNull {
          return Throws(NullRoleMessage);
        }
        if IsUserTurn(last) {
          var imageUrl := ImageUrl(image.value);
          var text := TurnText(last);
          var contentArray := [];
          if WantsTextPart(text) {
            contentArray := contentArray + [TextPart(text)];
          }
          contentArray := contentArray + [ImagePart(imageUrl)];
          assert contentArray == ContentParts(text, image.value);
          input := input + [JObj([("role", JStr("user")), ("content", JArr(contentArray))])];
          return Ok(input);
        }
      }
      input := input + [last];
    }
    r := Ok(input);
  }

  /** `imageBase64 ? 'gpt-4o' : 'gpt-5-nano'`. */
  function ModelFor(image: Value): (model: string)
    ensures model == ImageModel <==> Truthy(image)
    ensures model == TextModel <==> !Truthy(image)
  {
    if Truthy(image) then ImageModel else TextModel
  }

  /** An empty-string image is falsy: the text model is chosen and no image
      part is built, whatever the last turn. */
  lemma EmptyImageIsNoImage(prompt: string, messages: Value)
    ensures ModelFor(Some(JStr(""))) == TextModel
    ensures HasTurns(messages) ==>
      AssembledInput(prompt, messages, Some(JStr(""))) == Ok([SystemMessage(prompt)] + messages.value.items)
  {
  }

  /** The placeholder alone with an image gives one part, the image. */
  lemma PlaceholderGivesImageOnly(image: Json)
    ensures ContentParts(ImagePlaceholder, image) == [ImagePart(ImageUrl(image))]
  {
  }

  /** A last turn without `content`, rebuilt with an image, carries the text
      part "undefined" followed by the image part. */
  lemma MissingContentGivesUndefinedText(turn: Json, image: Json)
    requires Get(Some(turn), "content").None?
    ensures Get(Some(UserTurnWithImage(turn, image)), "content")
      == Some(JArr([TextPart("undefined"), ImagePart(ImageUrl(image))]))
  {
    assert !IsJsSpace("undefined"[0]);
    WantsTextPartIff("undefined");
    assert ContentParts(TurnText(turn), image) == [TextPart("undefined"), ImagePart(ImageUrl(image))];
  }

  /** A non-blank text with an image gives two parts, the text first. */
  lemma TextAndImageGiveTwoParts(image: Json)
    ensures ContentParts("abc", image) == [TextPart("abc"), ImagePart(ImageUrl(image))]
  {
  }
}
