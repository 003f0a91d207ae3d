/** Reply extraction of the assistant route: a scan of the provider's
    `output` list for the first message with output text, and the `??` chain
    of older response shapes ending in a fixed apology. */
module Replies {
  import opened JsValues

  /** The reply used when no response shape yields one. */
  const ReplyFallbackText: string := "ขออภัย เกิดข้อผิดพลาด กรุณาลองใหม่อีกครั้ง"

  /** `c?.type === 'output_text'`. */
  predicate IsOutputText(c: Json) {
    Get(Some(c), "type") == Some(JStr("output_text"))
  }

  /** `item.content.find(c => c?.type === 'output_text')`. */
  function FindOutputText(content: seq<Json>): (found: Value)
    ensures found.Some? ==> found.value in content && IsOutputText(found.value)
    ensures found.None? <==> forall i :: 0 <= i < |content| ==> !IsOutputText(content[i])
  {
    if content == [] then None
    else if IsOutputText(content[0]) then Some(content[0])
    else
      var rest := FindOutputText(content[1..]);
      assert forall i :: 1 <= i < |content| ==> content[i] == content[1..][i - 1];
      rest
  }

  /** `find` returns the first matching element. */
  lemma {:induction false} FindOutputTextIsFirst(content: seq<Json>, i: nat)
    requires i < |content| && IsOutputText(content[i])
    requires forall j :: 0 <= j < i ==> !IsOutputText(content[j])
    ensures FindOutputText(content) == Some(content[i])
  {
    if i > 0 {
      FindOutputTextIsFirst(content[1..], i - 1);
    }
  }

  /** `item?.type === 'message' && Array.isArray(item?.content)`. */
  predicate IsMessage(item: Json)
    ensures IsMessage(item) ==> item.JObj?
  {
    Get(Some(item), "type") == Some(JStr("message"))
      && Get(Some(item), "content").Some? && Get(Some(item), "content").value.JArr?
  }

  /** `textContent?.text` of a message item; undefined for other items. */
  function MessageText(item: Json): (text: Value)
    ensures text.Some? ==> (IsMessage(item)
      && FindOutputText(Get(Some(item), "content").value.items).Some?
      && Get(FindOutputText(Get(Some(item), "content").value.items), "text") == text)
  {
    if IsMessage(item) then Get(FindOutputText(Get(Some(item), "content").value.items), "text")
    else None
  }

  /** An item the scan stops at: a message whose first output text has a
      truthy `text`. */
  predicate Answers(item: Json) {
    Truthy(MessageText(item))
  }

  /** The text the scan over `output` finds: that of the first item that
      answers; undefined when none does. What it finds is always truthy. */
  function FirstMessageText(output: seq<Json>): (r: Value)
    ensures r.Some? ==> Truthy(r)
  {
    if output == [] then None
    else if Answers(output[0]) then MessageText(output[0])
    else FirstMessageText(output[1..])
  }

  /** The scan finds the text of the first item that answers. */
  lemma {:induction false} FirstMessageTextAt(output: seq<Json>, i: nat)
    requires i < |output| && Answers(output[i])
    requires forall j :: 0 <= j < i ==> !Answers(output[j])
    ensures FirstMessageText(output) == MessageText(output[i])
  {
    if i > 0 {
      FirstMessageTextAt(output[1..], i - 1);
    }
  }

  /** The scan finds nothing exactly when no item answers. */
  lemma {:induction false} FirstMessageTextNone(output: seq<Json>)
    ensures FirstMessageText(output).None? <==> forall i :: 0 <= i < |output| ==> !Answers(output[i])
  {
    if output != [] {
      FirstMessageTextNone(output[1..]);
      assert forall i :: 1 <= i < |output| ==> output[i] == output[1..][i - 1];
    }
  }

  /** Only message items are read: an item of any other type, such as
      `reasoning`, never answers. */
  lemma OnlyMessagesAnswer(item: Json)
    requires Get(Some(item), "type") != Some(JStr("message"))
    ensures !Answers(item)
  {
  }

  /** The scan's result on a whole response: the first message text when
      `data.output` is an array, undefined otherwise. */
  function ScannedReply(data: Json): (r: Value)
    ensures r.Some? ==> Truthy(r)
    ensures var o := Get(Some(data), "output");
      o.Some? && o.value.JArr? ==> r == FirstMessageText(o.value.items)
    ensures var o := Get(Some(data), "output");
      !(o.Some? && o.value.JArr?) ==> r.None?
  {
    var output := Get(Some(data), "output");
    if output.Some? && output.value.JArr? then FirstMessageText(output.value.items) else None
  }

  /** The scan as the route performs it: `reply` starts as null and the loop
      over `data.output` stops at the first item that answers. */
  method ScanReply(data: Json) returns (reply: Json)
    ensures ScannedReply(data).Some? ==> reply == ScannedReply(data).value
    ensures ScannedReply(data).None? ==> reply == JNull
  {
    reply := JNull;
    var output := Get(Some(data), "output");
    if output.Some? && output.value.JArr? {
      var items := output.value.items;
      var i := 0;
      while i < |items|
        invariant 0 <= i <= |items|
        invariant reply == JNull
        invariant FirstMessageText(items) == FirstMessageText(items[i..])
      {
        var item := items[i];
        if IsMessage(item) {
          var textContent := FindOutputText(Get(Some(item), "content").value.items);
          var text := Get(textContent, "text");
          if Truthy(text) {
            reply := text.value;
            break;
          }
        }
        assert items[i..][1..] == items[i + 1..];
        i := i + 1;
      }
    }
  }

  /** The alternatives the fallback chain tries, in order: `output_text`,
      `output[1].content[0].text`, `output[0].content[0].text`,
      `choices[0].message.content`, `message.content`, `content`. */
  function FallbackCandidates(data: Json): (c: seq<Value>)
    ensures |c| == 6
  {
    var d := Some(data);
    [ Get(d, "output_text"),
      Get(At(Get(At(Get(d, "output"), 1), "content"), 0), "text"),
      Get(At(Get(At(Get(d, "output"), 0), "content"), 0), "text"),
      Get(Get(At(Get(d, "choices"), 0), "message"), "content"),
      Get(Get(d, "message"), "content"),
      Get(d, "content") ]
  }

  /** The first candidate that is neither null nor undefined, else `last`. */
  function FirstNonNullish(candidates: seq<Value>, last: Json): (r: Json)
    ensures r == last || exists i :: 0 <= i < |candidates| && candidates[i] == Some(r) && !Nullish(candidates[i])
  {
    if candidates == [] then last
    else if !Nullish(candidates[0]) then candidates[0].value
    else
      var r := FirstNonNullish(candidates[1..], last);
      assert forall i :: 1 <= i < |candidates| ==> candidates[i] == candidates[1..][i - 1];
      r
  }

  /** The search returns the first candidate that is neither null nor
      undefined. */
  lemma {:induction false} FirstNonNullishAt(candidates: seq<Value>, i: nat, last: Json)
    requires i < |candidates| && !Nullish(candidates[i])
    requires forall j :: 0 <= j < i ==> Nullish(candidates[j])
    ensures FirstNonNullish(candidates, last) == candidates[i].value
  {
    if i > 0 {
      FirstNonNullishAt(candidates[1..], i - 1, last);
    }
  }

  /** The search falls back to `last` when every candidate is null or
      undefined. */
  lemma {:induction false} FirstNonNullishNone(candidates: seq<Value>, last: Json)
    requires forall j :: 0 <= j < |candidates| ==> Nullish(candidates[j])
    ensures FirstNonNullish(candidates, last) == last
  {
    if candidates != [] {
      FirstNonNullishNone(candidates[1..], last);
    }
  }

  /** The `??` chain of the route, ending in the fixed apology. */
  function ReplyFallback(data: Json): (r: Json)
    ensures r != JNull
  {
    var d := Some(data);
    var chosen :=
      Coalesce(Get(d, "output_text"),
      Coalesce(Get(At(Get(At(Get(d, "output"), 1), "content"), 0), "text"),
      Coalesce(Get(At(Get(At(Get(d, "output"), 0), "content"), 0), "text"),
      Coalesce(Get(Get(At(Get(d, "choices"), 0), "message"), "content"),
      Coalesce(Get(Get(d, "message"), "content"),
      Coalesce(Get(d, "content"),
      Some(JStr(ReplyFallbackText))))))));
    chosen.value
  }

  /** One step of the search is one `??`. */
  lemma FirstNonNullishStep(candidates: seq<Value>, k: nat, last: Json)
    requires k < |candidates|
    ensures Some(FirstNonNullish(candidates[k..], last))
      == Coalesce(candidates[k], Some(FirstNonNullish(candidates[k + 1..], last)))
  {
  }

  /** The chain picks the first candidate, in the listed order, that is
      neither null nor undefined, and the apology when there is none. */
  lemma ReplyFallbackIsFirstNonNullish(data: Json)
    ensures ReplyFallback(data) == FirstNonNullish(FallbackCandidates(data), JStr(ReplyFallbackText))
  {
    var c := FallbackCandidates(data);
    var last := JStr(ReplyFallbackText);
    assert c[6..] == [];
    assert c[0..] == c;
    FirstNonNullishStep(c, 5, last);
    FirstNonNullishStep(c, 4, last);
    FirstNonNullishStep(c, 3, last);
    FirstNonNullishStep(c, 2, last);
    FirstNonNullishStep(c, 1, last);
    FirstNonNullishStep(c, 0, last);
  }

  /** `reply`: the scanned text if there is one, otherwise the `??` chain.
      It is never null or undefined. */
  function ReplyOf(data: Json): (r: Json)
    ensures r != JNull
    ensures ScannedReply(data).Some? ==> r == ScannedReply(data).value
    ensures ScannedReply(data).None? ==> r == FirstNonNullish(FallbackCandidates(data), JStr(ReplyFallbackText))
  {
    ReplyFallbackIsFirstNonNullish(data);
    var scanned := ScannedReply(data);
    if Truthy(scanned) then scanned.value else ReplyFallback(data)
  }

  /** An empty `output_text` is not nullish: it stops the chain and becomes
      the reply, although a later shape holds a text. */
  lemma EmptyOutputTextStopsChain()
    ensures ReplyOf(JObj([("output_text", JStr("")), ("content", JStr("hi"))])) == JStr("")
  {
  }

  /** A reasoning item before a message item: the message's text is the
      reply. */
  lemma ReasoningThenMessage()
    ensures ReplyOf(JObj([("output", JArr([
        JObj([("type", JStr("reasoning")), ("content", JArr([
          JObj([("type", JStr("output_text")), ("text", JStr("thinking"))])]))]),
        JObj([("type", JStr("message")), ("content", JArr([
          JObj([("type", JStr("output_text")), ("text", JStr("hello"))])]))])
      ]))])) == JStr("hello")
  {
  }

  /** The chat-completion shape: the first choice's message content is the
      reply. */
  lemma ChatCompletionShape()
    ensures ReplyOf(JObj([("choices", JArr([
        JObj([("message", JObj([("content", JStr("hello"))]))])]))])) == JStr("hello")
  {
  }

  /** A body of no known shape gets the apology. */
  lemma UnknownShape()
    ensures ReplyOf(JObj([("unexpected", JNum(1))])) == JStr(ReplyFallbackText)
  {
  }
}
