/**
 * What the three chat endpoints (`server.ts`, `netlify/functions/chat.ts`,
 * `src/app/api/chat/route.ts`) have in common: the HTTP response, the
 * request-shape checks the first two run in the same order, and the
 * upstream request those two send for a body that passes.
 */
module ChatApi {
  import opened Js
  import opened Upstream

  datatype Body =
    | NoBody
    | Assistant(content: Option<Json>)                  // `{ role: 'assistant', content }`
    | Failure(error: string, details: Option<string>)   // `{ error, details? }`

  datatype Response = Response(status: nat, headers: map<string, string>, body: Body)

  /** A request body after JSON parsing, or the parser's complaint. */
  datatype Parsed = Parsed(value: Json) | Unparsable(message: string)

  /** `!messages || !Array.isArray(messages) || messages.length === 0` fails this. */
  predicate MessagesOk(messages: Option<Json>)
  {
    Truthy(messages) && messages.value.JArr? && |messages.value.items| > 0
  }

  /** `msg && typeof msg === 'object' && typeof msg.role === 'string' && typeof msg.content === 'string'` */
  predicate MessageOk(msg: Json)
  {
    Truthy(Some(msg)) && IsObject(msg) && IsString(Get(msg, "role")) && IsString(Get(msg, "content"))
  }

  /** `messages.every(isValid)` */
  predicate EveryMessageOk(msgs: seq<Json>)
  {
    forall i :: 0 <= i < |msgs| ==> MessageOk(msgs[i])
  }

  /** `!model || typeof model !== 'string'` fails this. */
  predicate ModelOk(model: Option<Json>)
  {
    Truthy(model) && IsString(model)
  }

  const InvalidMessagesFormat: Body :=
    Failure("Invalid messages format", Some("Messages must be a non-empty array of message objects"))
  const InvalidMessageFormat: Body :=
    Failure("Invalid message format", Some("Each message must have a role (string) and content (string)"))
  const ModelRequired: Body :=
    Failure("Model parameter is required", Some("Model must be a valid string identifier"))

  function UnknownModel(modelId: string): Body
  {
    Failure("Invalid model ID", Some("Model '" + modelId + "' is not supported"))
  }

  /** The catch-all error body: `{ error: 'Failed to process request', details: error.message }`. */
  function ProcessingFailure(e: Error): Body
  {
    Failure("Failed to process request", Some(MessageOf(e)))
  }

  /** The three shape checks, in source order; the first that fails names
      the 400 body. `None` means the body passed all three. */
  function CheckShape(body: Json): (r: Option<Body>)
    ensures !MessagesOk(Get(body, "messages")) ==> r == Some(InvalidMessagesFormat)
    ensures MessagesOk(Get(body, "messages")) && !EveryMessageOk(Get(body, "messages").value.items) ==>
      r == Some(InvalidMessageFormat)
    ensures (MessagesOk(Get(body, "messages")) && EveryMessageOk(Get(body, "messages").value.items)
             && !ModelOk(Get(body, "model"))) ==> r == Some(ModelRequired)
    ensures r.None? <==> ShapeOk(body)
  {
    var messages := Get(body, "messages");
    if !MessagesOk(messages) then Some(InvalidMessagesFormat)
    else if !EveryMessageOk(messages.value.items) then Some(InvalidMessageFormat)
    else if !ModelOk(Get(body, "model")) then Some(ModelRequired)
    else None
  }

  predicate ShapeOk(body: Json)
  {
    && MessagesOk(Get(body, "messages"))
    && EveryMessageOk(Get(body, "messages").value.items)
    && ModelOk(Get(body, "model"))
  }

  /** The same acceptance in plain structural terms: a plain object whose
      `messages` is a non-empty array of plain objects with string `role`
      and `content`, and whose `model` is a non-empty string. Arrays pass
      `typeof === 'object'` but have no `role`, so they are rejected too. */
  lemma ShapeOkIffWellFormed(body: Json)
    ensures ShapeOk(body) <==>
      && body.JObj?
      && "messages" in body.fields && body.fields["messages"].JArr?
      && |body.fields["messages"].items| > 0
      && (forall m :: m in body.fields["messages"].items ==>
            m.JObj? && "role" in m.fields && m.fields["role"].JStr?
            && "content" in m.fields && m.fields["content"].JStr?)
      && "model" in body.fields && body.fields["model"].JStr? && body.fields["model"].s != ""
  {
    if body.JObj? && "messages" in body.fields && body.fields["messages"].JArr? {
      var items := body.fields["messages"].items;
      forall i | 0 <= i < |items|
        ensures MessageOk(items[i]) <==>
          items[i].JObj? && "role" in items[i].fields && items[i].fields["role"].JStr?
          && "content" in items[i].fields && items[i].fields["content"].JStr?
      {
      }
      if forall m :: m in items ==>
            m.JObj? && "role" in m.fields && m.fields["role"].JStr?
            && "content" in m.fields && m.fields["content"].JStr?
      {
        forall i | 0 <= i < |items| ensures MessageOk(items[i]) {
          assert items[i] in items;
        }
      }
      if EveryMessageOk(items) {
        forall m | m in items
          ensures m.JObj? && "role" in m.fields && m.fields["role"].JStr?
            && "content" in m.fields && m.fields["content"].JStr?
        {
          var i :| 0 <= i < |items| && items[i] == m;
          assert MessageOk(items[i]);
        }
      }
    }
  }

  /** The model id of a body that passed the shape checks. */
  function ModelId(body: Json): string
    requires ShapeOk(body)
  {
    Get(body, "model").value.s
  }

  /** The messages of a body that passed the shape checks. */
  function Messages(body: Json): seq<Json>
    requires ShapeOk(body)
  {
    Get(body, "messages").value.items
  }

  /** The upstream request of both server routes: the messages exactly as
      received, the registry's model string, temperature 0.7 and at most
      1000 tokens. */
  function ForwardedRequest(model: string, messages: seq<Json>): Request
  {
    Request(ChatCompletions, model, messages, None, Some(1000), Some(0.7), None)
  }
}
