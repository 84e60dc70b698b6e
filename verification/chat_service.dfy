/**
 * The single-turn chat service of `src/services/chatService.ts`. It keeps
 * only the current model id; every send builds a fresh client from the
 * registry and sends one user message with no system turn and no history.
 */
module ChatService {
  import opened Js
  import opened Upstream
  import opened Registry

  const DefaultModelId: string := "claude-3-sonnet"

  datatype Service = Service(currentModelId: string, client: Client)

  /** The service after a mutating call, and the error that call threw. */
  datatype Step = Step(service: Service, error: Option<Error>)

  /** `new ChatService(initialModelId?)`: the default applies only when the
      argument is `undefined`. */
  function New(initialModelId: Option<string>, rt: Runtime): (r: Result<Service>)
    ensures initialModelId.None? && HeadersResolvable(rt) ==> r.Ok? && r.value.currentModelId == DefaultModelId
    ensures initialModelId.Some? ==> (r.Ok? <==> CreateClient(initialModelId.value, rt).Ok?)
    ensures r.Ok? ==> r.value.currentModelId == (if initialModelId.Some? then initialModelId.value else DefaultModelId)
    ensures r.Ok? ==> CreateClient(r.value.currentModelId, rt) == Ok(r.value.client)
  {
    var id := if initialModelId.Some? then initialModelId.value else DefaultModelId;
    match CreateClient(id, rt)
    case Err(e) => Err(e)
    case Ok(c) => Ok(Service(id, c))
  }

  /** The default id names a registry entry, so the default construction
      fails only when the runtime cannot supply the headers. */
  lemma DefaultIsRegistered()
    ensures DefaultModelId in ModelConfigs
  {
  }

  /** `setModel(modelId)`: the id is stored before the client is rebuilt, so
      an id that makes `createClient` throw stays in place. */
  function SetModel(s: Service, modelId: string, rt: Runtime): (r: Step)
    ensures r.service.currentModelId == modelId
    ensures r.error.None? <==> CreateClient(modelId, rt).Ok?
    ensures r.error.Some? ==> r.service.client == s.client && r.error == Some(CreateClient(modelId, rt).error)
    ensures r.error.None? ==> r.service.client == CreateClient(modelId, rt).value
    ensures modelId !in ModelConfigs ==> r.error == Some(InvalidModelId(modelId))
  {
    match CreateClient(modelId, rt)
    case Err(e) => Step(s.(currentModelId := modelId), Some(e))
    case Ok(c) => Step(Service(modelId, c), None)
  }

  /** The request of `sendMessage`: one user message, the registry's model
      string, `stream: false`, and no other options. */
  function RequestFor(s: Service, message: string, rt: Runtime): (r: Result<Request>)
    ensures r.Ok? <==> CreateClient(s.currentModelId, rt).Ok?
    ensures s.currentModelId !in ModelConfigs ==> r == Err(InvalidModelId(s.currentModelId))
    ensures r.Ok? ==>
      && r.value.endpoint == ChatCompletions
      && r.value.model == ModelConfigs[s.currentModelId].model
      && r.value.messages == [Turn("user", Some(JStr(message)))]
      && r.value.system.None? && r.value.maxTokens.None? && r.value.temperature.None?
      && r.value.stream == Some(false)
  {
    match CreateClient(s.currentModelId, rt)
    case Err(e) => Err(e)
    case Ok(c) => Ok(Request(ChatCompletions, c.model, [Turn("user", Some(JStr(message)))], None, None, None, Some(false)))
  }

  /** `sendMessage(message)`: a missing or falsy content throws
      `No response from model`; otherwise the content is returned. */
  function SendMessage(s: Service, message: string, rt: Runtime, call: Request -> Answer): (r: Result<Json>)
    ensures RequestFor(s, message, rt).Err? ==> r == Err(RequestFor(s, message, rt).error)
    ensures RequestFor(s, message, rt).Ok? ==>
      var a := call(RequestFor(s, message, rt).value);
      && (a.Failed? ==> r == Err(UpstreamFailure(a.responseStatus, a.message)))
      && (a.Answered? && !Truthy(a.content) ==> r == Err(NoResponse))
      && (a.Answered? && Truthy(a.content) ==> r == Ok(a.content.value))
    ensures r.Ok? ==> Truthy(Some(r.value))
  {
    match RequestFor(s, message, rt)
    case Err(e) => Err(e)
    case Ok(request) =>
      var a := call(request);
      if a.Failed? then Err(Thrown(a))
      else if !Truthy(a.content) then Err(NoResponse)
      else Ok(a.content.value)
  }

  /** No state carries over between sends: the request depends only on the
      current model id and the text, so the same text gives the same
      request, whatever was sent before and whatever client is cached. */
  lemma SameTextSameRequest(s1: Service, s2: Service, message: string, rt: Runtime)
    requires s1.currentModelId == s2.currentModelId
    ensures RequestFor(s1, message, rt) == RequestFor(s2, message, rt)
  {
  }

  /** After `setModel` with an unknown id, every send fails with
      `Invalid model ID` naming that id, until the next `setModel`. */
  lemma BadIdSticks(s: Service, modelId: string, message: string, rt: Runtime, call: Request -> Answer)
    requires modelId !in ModelConfigs
    ensures SendMessage(SetModel(s, modelId, rt).service, message, rt, call) == Err(InvalidModelId(modelId))
  {
  }

  /** Setting the same model twice leaves the same id and the same client
      as setting it once. */
  lemma SetModelIdempotent(s: Service, modelId: string, rt: Runtime)
    requires CreateClient(modelId, rt).Ok?
    ensures SetModel(SetModel(s, modelId, rt).service, modelId, rt) == SetModel(s, modelId, rt)
  {
  }
}
