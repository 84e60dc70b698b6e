/**
 * The conversation session of `src/services/chatService.js`: it holds the
 * history, prefixes a fixed system turn, encodes image attachments for
 * vision models, shapes the request for the client's provider family, and
 * appends the exchange to the history only when the upstream call succeeds.
 *
 * A method that throws still keeps the assignments it made before the
 * throw, so the mutating operations return the new session together with
 * the error, if any.
 */
module LegacyChatService {
  import opened Js
  import opened Upstream
  import opened LegacyRegistry

  const SystemPrompt: string := "You are an AI assistant who knows everything."

  /** An uploaded file: its MIME type and the base64 payload that
      `fileToBase64` reads from it. */
  datatype File = File(mimeType: string, base64: string)

  datatype Session = Session(
    modelConfig: Option<LegacyConfig>,
    client: LegacyClient,
    history: seq<Json>)

  /** The session after a mutating call, and the error that call threw. */
  datatype Step = Step(session: Session, error: Option<Error>)

  /** The session after `sendMessage`, and what it returned or threw. */
  datatype Sent = Sent(session: Session, reply: Result<Option<Json>>)

  /** What every session built by this module satisfies: the client type
      is one the dispatch knows, and the history holds only user and
      assistant message objects. */
  predicate Valid(s: Session)
  {
    && s.client.clientType in KnownApiTypes
    && forall i :: 0 <= i < |s.history| ==> HistoryTurn(s.history[i])
  }

  predicate HistoryTurn(m: Json)
  {
    IsTurn(m) && RoleOf(m) in {"user", "assistant"}
  }

  /** `setModel(modelId)`: `modelConfig` is assigned before `createClient`
      runs, so when it throws the session keeps the old client but not the
      old configuration. */
  function SetModel(s: Session, modelId: string, scope: Scope): (r: Step)
    ensures r.session.history == s.history
    ensures r.session.modelConfig == Lookup(modelId)
    ensures r.error.None? <==> CreateClient(modelId, scope).Ok?
    ensures r.error.Some? ==> r.session.client == s.client
    ensures r.error.None? ==> r.session.client == CreateClient(modelId, scope).value
    ensures Valid(s) ==> Valid(r.session)
  {
    var s1 := s.(modelConfig := Lookup(modelId));
    match CreateClient(modelId, scope)
    case Err(e) => Step(s1, Some(e))
    case Ok(c) => Step(s1.(client := c), None)
  }

  /** `new ChatService(modelId)`: a constructor that throws yields no session. */
  function New(modelId: string, scope: Scope): (r: Result<Session>)
    ensures r.Ok? <==> CreateClient(modelId, scope).Ok?
    ensures r.Ok? ==>
      && r.value.history == []
      && r.value.modelConfig == Some(ModelConfigs[modelId])
      && r.value.client.clientType == ModelConfigs[modelId].apiType
      && Valid(r.value)
  {
    match CreateClient(modelId, scope)
    case Err(e) => Err(e)
    case Ok(c) => Ok(Session(Lookup(modelId), c, []))
  }

  predicate IsImage(f: File)
  {
    StartsWith(f.mimeType, "image/")
  }

  function TextPart(text: string): Json
  {
    JObj(map["type" := JStr("text"), "text" := JStr(text)])
  }

  function DataUrl(f: File): string
  {
    "data:" + f.mimeType + ";base64," + f.base64
  }

  function ImagePart(f: File): Json
  {
    JObj(map["type" := JStr("image_url"), "image_url" := JObj(map["url" := JStr(DataUrl(f))])])
  }

  /** The image parts of `prepareMultiModalContent`: one per image
      file, in file order; other files contribute nothing. */
  function ImageParts(files: seq<File>): (r: seq<Json>)
    ensures |r| <= |files|
    ensures forall p :: p in r ==> exists f :: f in files && IsImage(f) && p == ImagePart(f)
  {
    if files == [] then []
    else (if IsImage(files[0]) then [ImagePart(files[0])] else []) + ImageParts(files[1..])
  }

  function CountImages(files: seq<File>): nat
  {
    if files == [] then 0 else (if IsImage(files[0]) then 1 else 0) + CountImages(files[1..])
  }

  /** Image parts of a concatenation are the concatenation of image parts. */
  lemma {:induction false} ImagePartsAppend(a: seq<File>, b: seq<File>)
    ensures ImageParts(a + b) == ImageParts(a) + ImageParts(b)
  {
    if a == [] {
      assert a + b == b;
    } else {
      var head := if IsImage(a[0]) then [ImagePart(a[0])] else [];
      assert (a + b)[0] == a[0] && (a + b)[1..] == a[1..] + b;
      assert ImageParts(a + b) == head + ImageParts(a[1..] + b);
      ImagePartsAppend(a[1..], b);
      assert ImageParts(a) == head + ImageParts(a[1..]);
    }
  }

  /** One part per image file, and only image files count. */
  lemma {:induction false} ImagePartsCount(files: seq<File>)
    ensures |ImageParts(files)| == CountImages(files)
  {
    if files != [] {
      ImagePartsCount(files[1..]);
    }
  }

  /** A non-image file never changes the encoded parts: it is dropped. */
  lemma NonImageDropped(before: seq<File>, f: File, after: seq<File>)
    requires !IsImage(f)
    ensures ImageParts(before + [f] + after) == ImageParts(before + after)
  {
    ImagePartsAppend(before + [f], after);
    ImagePartsAppend(before, [f]);
    ImagePartsAppend(before, after);
    assert ImageParts([f]) == [] by {
      assert [f][1..] == [];
    }
  }

  /** `prepareMultiModalContent(message, files)` */
  function MultiModalContent(message: string, files: seq<File>): (r: Json)
    ensures |files| == 0 ==> r == JStr(message)
    ensures |files| > 0 ==>
      && r.JArr?
      && |r.items| == 1 + CountImages(files)
      && r.items[0] == TextPart(message)
      && r.items[1..] == ImageParts(files)
  {
    ImagePartsCount(files);
    if |files| == 0 then JStr(message)
    else JArr([TextPart(message)] + ImageParts(files))
  }

  /** `prepareMessages(message, files)`: the system turn, the history, and
      the new user turn. Reading `supportsVision` of a missing configuration
      throws. */
  function PrepareMessages(s: Session, message: string, files: seq<File>): (r: Result<seq<Json>>)
    ensures r.Err? <==> s.modelConfig.None?
    ensures r.Ok? ==>
      && |r.value| == |s.history| + 2
      && r.value[0] == Turn("system", Some(JStr(SystemPrompt)))
      && r.value[1..|r.value| - 1] == s.history
      && r.value[|r.value| - 1] == Turn("user", Some(UserContent(s.modelConfig.value, message, files)))
  {
    if s.modelConfig.None? then
      Err(TypeError("Cannot read properties of undefined (reading 'supportsVision')"))
    else
      var user := Turn("user", Some(UserContent(s.modelConfig.value, message, files)));
      var r := [Turn("system", Some(JStr(SystemPrompt)))] + s.history + [user];
      assert r[1..|r| - 1] == s.history;
      Ok(r)
  }

  /** The content of the new user turn. */
  function UserContent(config: LegacyConfig, message: string, files: seq<File>): (r: Json)
    ensures !config.supportsVision ==> r == JStr(message)
    ensures config.supportsVision ==> r == MultiModalContent(message, files)
  {
    if config.supportsVision then MultiModalContent(message, files) else JStr(message)
  }

  /** The `max_tokens` budget `sendMessage` uses for each known client type. */
  function MaxTokens(clientType: string): nat
    requires clientType in KnownApiTypes
  {
    if clientType == "openai" then 1000
    else if clientType == "anthropic" then 2048
    else 1024
  }

  /** `handleAnthropicRequest`: the first message's content becomes `system`,
      and the rest are sent projected to `role` and `content`. */
  function AnthropicRequest(config: LegacyConfig, messages: seq<Json>): (r: Result<Request>)
    ensures |messages| > 0 && !messages[0].JNull? && ProjectAll(messages[1..]).Ok? ==>
      && r.Ok?
      && r.value.endpoint == AnthropicMessages
      && r.value.system == Get(messages[0], "content")
      && r.value.messages == ProjectAll(messages[1..]).value
      && r.value.maxTokens == Some(2048)
  {
    if |messages| == 0 then Err(TypeError("Cannot read properties of undefined (reading 'content')"))
    else if messages[0].JNull? then Err(TypeError("Cannot read properties of null (reading 'content')"))
    else
      match ProjectAll(messages[1..])
      case Err(e) => Err(e)
      case Ok(rest) => Ok(Request(AnthropicMessages, config.model, rest, Get(messages[0], "content"), Some(2048), None, None))
  }

  /** `handleOpenAIRequest` and `handleTogetherRequest`: the messages as they are. */
  function CompletionsRequest(config: LegacyConfig, messages: seq<Json>, maxTokens: nat): Request
  {
    Request(ChatCompletions, config.model, messages, None, Some(maxTokens), None, None)
  }

  /** The request `sendMessage` hands to the client: message preparation
      followed by the switch on `clientType`. */
  function RequestFor(s: Session, message: string, files: seq<File>): (r: Result<Request>)
    ensures s.modelConfig.None? ==> r.Err? && r.error.TypeError?
    ensures s.modelConfig.Some? && s.client.clientType !in KnownApiTypes ==>
      r == Err(UnsupportedClientType(s.client.clientType))
    ensures r.Ok? ==>
      && s.modelConfig.Some?
      && s.client.clientType in KnownApiTypes
      && r.value.model == s.modelConfig.value.model
      && r.value.maxTokens == Some(MaxTokens(s.client.clientType))
      && (r.value.endpoint == AnthropicMessages <==> s.client.clientType == "anthropic")
  {
    match PrepareMessages(s, message, files)
    case Err(e) => Err(e)
    case Ok(messages) =>
      var config := s.modelConfig.value;
      if s.client.clientType == "openai" then Ok(CompletionsRequest(config, messages, 1000))
      else if s.client.clientType == "anthropic" then AnthropicRequest(config, messages)
      else if s.client.clientType == "together" then Ok(CompletionsRequest(config, messages, 1024))
      else Err(UnsupportedClientType(s.client.clientType))
  }

  /** `sendMessage(message, files)`: the history gains the user's plain text
      and the reply only when the upstream call returns. */
  function SendMessage(s: Session, message: string, files: seq<File>, call: Request -> Answer): (r: Sent)
    ensures r.session.modelConfig == s.modelConfig && r.session.client == s.client
    ensures r.reply.Err? ==> r.session == s
    ensures r.reply.Ok? ==>
      r.session.history == s.history + [Turn("user", Some(JStr(message))), Turn("assistant", r.reply.value)]
    ensures r.reply.Ok? <==> RequestFor(s, message, files).Ok? && call(RequestFor(s, message, files).value).Answered?
    ensures r.reply.Ok? ==> r.reply.value == call(RequestFor(s, message, files).value).content
    ensures RequestFor(s, message, files).Err? ==> r.reply == Err(RequestFor(s, message, files).error)
    ensures RequestFor(s, message, files).Ok? && call(RequestFor(s, message, files).value).Failed? ==>
      var a := call(RequestFor(s, message, files).value);
      r.reply == Err(UpstreamFailure(a.responseStatus, a.message))
    ensures Valid(s) ==> Valid(r.session)
  {
    match RequestFor(s, message, files)
    case Err(e) => Sent(s, Err(e))
    case Ok(request) =>
      match call(request)
      case Failed(_, _) => Sent(s, Err(Thrown(call(request))))
      case Answered(content) =>
        var s' := s.(history := s.history + [Turn("user", Some(JStr(message))), Turn("assistant", content)]);
        ExchangeKeepsValid(s, message, content);
        Sent(s', Ok(content))
  }

  /** Appending a user turn and an assistant turn keeps the history made of
      user and assistant turns. */
  lemma ExchangeKeepsValid(s: Session, message: string, content: Option<Json>)
    ensures Valid(s) ==> Valid(s.(history := s.history + [Turn("user", Some(JStr(message))), Turn("assistant", content)]))
  {
    var h := s.history + [Turn("user", Some(JStr(message))), Turn("assistant", content)];
    assert HistoryTurn(h[|h| - 2]) && HistoryTurn(h[|h| - 1]);
    assert forall i :: 0 <= i < |s.history| ==> h[i] == s.history[i];
  }

  /** For a session this module built, the request always has the system
      turn exactly once: openai and together send the prepared messages
      unchanged; anthropic moves the system prompt to `system` and sends
      the history and the new user turn, none of them a system turn. */
  lemma {:induction false} RequestShape(s: Session, message: string, files: seq<File>)
    requires Valid(s) && s.modelConfig.Some?
    ensures RequestFor(s, message, files).Ok?
    ensures s.client.clientType != "anthropic" ==>
      && RequestFor(s, message, files).value.messages == PrepareMessages(s, message, files).value
      && RequestFor(s, message, files).value.system.None?
    ensures s.client.clientType == "anthropic" ==>
      && RequestFor(s, message, files).value.system == Some(JStr(SystemPrompt))
      && RequestFor(s, message, files).value.messages
         == s.history + [Turn("user", Some(UserContent(s.modelConfig.value, message, files)))]
      && forall m :: m in RequestFor(s, message, files).value.messages ==> IsTurn(m) && RoleOf(m) != "system"
  {
    var prepared := PrepareMessages(s, message, files).value;
    var config := s.modelConfig.value;
    var user := Turn("user", Some(UserContent(config, message, files)));
    assert prepared[1..] == s.history + [user];
    if s.client.clientType == "anthropic" {
      ConversationTurns(s.history, user);
      assert RequestFor(s, message, files) == AnthropicRequest(config, prepared);
    }
  }

  /** The stored history followed by a user turn holds only message
      objects, none of them a system turn, so projection keeps it as is. */
  lemma ConversationTurns(history: seq<Json>, user: Json)
    requires forall i :: 0 <= i < |history| ==> HistoryTurn(history[i])
    requires IsTurn(user) && RoleOf(user) == "user"
    ensures ProjectAll(history + [user]) == Ok(history + [user])
    ensures forall m :: m in history + [user] ==> IsTurn(m) && RoleOf(m) != "system"
  {
    var all := history + [user];
    assert forall i :: 0 <= i < |all| ==> IsTurn(all[i]);
    ProjectAllTurns(all);
  }

  /** After a failed `setModel`, the configuration is gone: every send
      throws before any request is built, and the history stays as it was. */
  lemma FailedSetModelBreaksSend(s: Session, modelId: string, scope: Scope, message: string, files: seq<File>, call: Request -> Answer)
    requires modelId !in ModelConfigs
    ensures SetModel(s, modelId, scope).error.Some?
    ensures SendMessage(SetModel(s, modelId, scope).session, message, files, call).reply.Err?
    ensures SendMessage(SetModel(s, modelId, scope).session, message, files, call).session.history == s.history
  {
  }

  /** Sending twice with successful answers grows the history by four
      entries, in send order. */
  lemma {:induction false} TwoExchanges(s: Session, m1: string, m2: string, files: seq<File>, call: Request -> Answer)
    requires SendMessage(s, m1, files, call).reply.Ok?
    requires SendMessage(SendMessage(s, m1, files, call).session, m2, files, call).reply.Ok?
    ensures |SendMessage(SendMessage(s, m1, files, call).session, m2, files, call).session.history| == |s.history| + 4
    ensures SendMessage(SendMessage(s, m1, files, call).session, m2, files, call).session.history[..|s.history|] == s.history
  {
    var s1 := SendMessage(s, m1, files, call).session;
    var s2 := SendMessage(s1, m2, files, call).session;
    assert s2.history[..|s.history|] == s1.history[..|s.history|];
  }
}
