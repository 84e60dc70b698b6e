/**
 * The Next.js handler `POST` of `src/app/api/chat/route.ts`: it resolves a
 * client for the id, forwards the messages projected to `role` and
 * `content`, and sends the raw id as the upstream model. It has no
 * validation: every failure is a 500 with a fixed body.
 */
module NextChatRoute {
  import opened Js
  import opened Upstream
  import opened ChatApi
  import Registry

  const JsonHeaders: map<string, string> := map["Content-Type" := "application/json"]
  const Failed500: Response := Response(500, JsonHeaders, Failure("Failed to process request", None))

  /** The upstream request: the id as given and the projected messages,
      with no token budget or temperature. */
  function RouteRequest(modelId: string, messages: seq<Json>): Request
  {
    Request(ChatCompletions, modelId, messages, None, None, None, None)
  }

  /** A parsed body the route sends upstream: its `model` is a registered
      string id, a client can be built, and `messages` is an array without
      `null` elements. A non-string `model` is taken never to name an entry. */
  predicate Forwardable(v: Json, rt: Registry.Runtime)
  {
    && IsString(Get(v, "model"))
    && Get(v, "model").value.s in Registry.ModelConfigs
    && Registry.HeadersResolvable(rt)
    && Get(v, "messages").Some? && Get(v, "messages").value.JArr?
    && ProjectAll(Get(v, "messages").value.items).Ok?
  }

  /** The upstream request for such a body: the raw id as the model, and
      each message in order cut down to `role` and `content`. */
  function Forwarded(v: Json, rt: Registry.Runtime): (r: Request)
    requires Forwardable(v, rt)
    ensures r.model == Get(v, "model").value.s
    ensures |r.messages| == |Get(v, "messages").value.items|
    ensures forall i :: 0 <= i < |r.messages| ==>
      && r.messages[i].JObj? && r.messages[i].fields.Keys <= {"role", "content"}
      && Get(r.messages[i], "role") == Get(Get(v, "messages").value.items[i], "role")
      && Get(r.messages[i], "content") == Get(Get(v, "messages").value.items[i], "content")
    ensures r.endpoint == ChatCompletions
    ensures r.maxTokens.None? && r.temperature.None? && r.system.None? && r.stream.None?
  {
    var items := Get(v, "messages").value.items;
    var projected := ProjectAll(items).value;
    assert forall i :: 0 <= i < |items| ==> Project(items[i]) == Ok(projected[i]);
    RouteRequest(Get(v, "model").value.s, projected)
  }

  /** `POST(request)`. `body` is what `request.json()` yields. */
  function Post(body: Parsed, rt: Registry.Runtime, call: Request -> Answer): (r: Response)
    ensures r.headers == JsonHeaders
    ensures r.status in {200, 500}
    ensures r.status == 500 ==> r == Failed500
    ensures (body.Parsed? && IsString(Get(body.value, "model"))
             && Get(body.value, "model").value.s !in Registry.ModelConfigs) ==> r == Failed500
    ensures (body.Parsed? && !Get(body.value, "messages").Some?) ==> r == Failed500
    ensures (body.Parsed? && Get(body.value, "messages").Some? && !Get(body.value, "messages").value.JArr?) ==> r == Failed500
    ensures r.status == 200 ==> body.Parsed? && Forwardable(body.value, rt)
    ensures body.Parsed? && Forwardable(body.value, rt) ==>
      var a := call(Forwarded(body.value, rt));
      && (r.status == 200 <==> a.Answered?)
      && (a.Answered? ==> r.body == Assistant(a.content))
  {
    match body
    case Unparsable(_) => Failed500
    case Parsed(v) =>
      var model := Get(v, "model");
      if !IsString(model) then Failed500
      else
        match Registry.CreateClient(model.value.s, rt)
        case Err(_) => Failed500
        case Ok(_) =>
          var messages := Get(v, "messages");
          if !(messages.Some? && messages.value.JArr?) then Failed500
          else
            match ProjectAll(messages.value.items)
            case Err(_) => Failed500
            case Ok(projected) =>
              var a := call(RouteRequest(model.value.s, projected));
              if a.Failed? then Failed500
              else Response(200, JsonHeaders, Assistant(a.content))
  }

  /** The route never answers 400: a body the other endpoints reject with
      400 gets either a 500 or, when it still names a model and carries an
      array, is sent upstream. Shown on the empty object. */
  lemma EmptyObjectIs500(rt: Registry.Runtime, call: Request -> Answer)
    ensures Post(Parsed(JObj(map[])), rt, call) == Failed500
  {
  }

  /** For every registered id the route asks the upstream for a different
      model than the Express route: the id instead of the registry's model
      string. */
  lemma {:induction false} SendsIdNotUpstreamModel(modelId: string, msgs: seq<Json>, projected: seq<Json>)
    requires modelId in Registry.ModelConfigs
    ensures RouteRequest(modelId, projected).model != ForwardedRequest(Registry.ModelConfigs[modelId].model, msgs).model
  {
    Registry.UpstreamModelIsNeverTheId();
  }

  /** A reply with no content is still a success: the route does not check it. */
  lemma MissingContentIsSuccess(v: Json, rt: Registry.Runtime, call: Request -> Answer)
    requires IsString(Get(v, "model")) && Get(v, "model").value.s in Registry.ModelConfigs
    requires Registry.HeadersResolvable(rt)
    requires Get(v, "messages").Some? && Get(v, "messages").value.JArr?
    requires ProjectAll(Get(v, "messages").value.items).Ok?
    requires call(RouteRequest(Get(v, "model").value.s, ProjectAll(Get(v, "messages").value.items).value)) == Answered(None)
    ensures Post(Parsed(v), rt, call) == Response(200, JsonHeaders, Assistant(None))
  {
  }
}
