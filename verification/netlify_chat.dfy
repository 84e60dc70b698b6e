/**
 * The Netlify function `handler` of `netlify/functions/chat.ts`: a method
 * gate, the same shape checks as the Express route (without the API-key
 * check), the same upstream request, and a single 500 for every error.
 * Every response carries the three CORS headers.
 */
module NetlifyChat {
  import opened Js
  import opened Upstream
  import opened ChatApi
  import Registry
  import ExpressChat

  /** The fields of the Netlify event the handler reads; `body` is `None`
      when the platform passes `null`. */
  datatype Event = Event(httpMethod: string, body: Option<string>)

  const Cors: map<string, string> := map[
    "Access-Control-Allow-Origin" := "*",
    "Access-Control-Allow-Headers" := "Content-Type",
    "Access-Control-Allow-Methods" := "POST, OPTIONS"
  ]

  /** `Cors` plus `Content-Type: application/json`, on success only. */
  const SuccessHeaders: map<string, string> := Cors["Content-Type" := "application/json"]

  /** What destructuring a body that parsed to `null` throws. */
  const NullBody: Error := TypeError("Cannot destructure property 'messages' of 'JSON.parse(...)' as it is null.")

  function Fail(e: Error): Response
  {
    Response(500, Cors, ProcessingFailure(e))
  }

  /** The body text the handler parses: `event.body || '{}'`. An absent or
      empty body parses as the empty object without calling the parser. */
  function ParseBody(body: Option<string>, parse: string -> Parsed): (r: Parsed)
    ensures body.None? || body == Some("") ==> r == Parsed(JObj(map[]))
    ensures body.Some? && body.value != "" ==> r == parse(body.value)
  {
    if body.None? || body.value == "" then Parsed(JObj(map[])) else parse(body.value)
  }

  /** Lines 98-107: a falsy content is an error like any other. */
  function Reply(a: Answer): (r: Response)
    ensures r.status == 200 <==> a.Answered? && Truthy(a.content)
    ensures r.status == 200 ==> r == Response(200, SuccessHeaders, Assistant(a.content))
    ensures r.status != 200 ==> r.status == 500 && r.headers == Cors
  {
    if a.Failed? then Fail(Thrown(a))
    else if !Truthy(a.content) then Fail(InvalidResponse)
    else Response(200, SuccessHeaders, Assistant(a.content))
  }

  /** `handler(event)`. `parse` is `JSON.parse`. */
  function Handler(ev: Event, parse: string -> Parsed, rt: Registry.Runtime, call: Request -> Answer): (r: Response)
    ensures r.headers == (if r.status == 200 then SuccessHeaders else Cors)
    ensures r.status in {200, 204, 400, 405, 500}
    ensures ev.httpMethod == "OPTIONS" ==> r == Response(204, Cors, NoBody)
    ensures ev.httpMethod != "OPTIONS" && ev.httpMethod != "POST" ==>
      r == Response(405, Cors, Failure("Method not allowed", None))
    ensures ev.httpMethod == "POST" && ParseBody(ev.body, parse).Unparsable? ==>
      r == Fail(SyntaxError(ParseBody(ev.body, parse).message))
    ensures ev.httpMethod == "POST" && ParseBody(ev.body, parse).Parsed? ==>
      r == HandleParsed(ParseBody(ev.body, parse).value, rt, call)
  {
    if ev.httpMethod == "OPTIONS" then Response(204, Cors, NoBody)
    else if ev.httpMethod != "POST" then Response(405, Cors, Failure("Method not allowed", None))
    else
      match ParseBody(ev.body, parse)
      case Unparsable(message) => Fail(SyntaxError(message))
      case Parsed(v) => HandleParsed(v, rt, call)
  }

  /** The ladder over a parsed body: shape checks, then the rest of the
      handler. Destructuring `null` throws before any check. */
  function HandleParsed(v: Json, rt: Registry.Runtime, call: Request -> Answer): (r: Response)
    ensures r.headers == (if r.status == 200 then SuccessHeaders else Cors)
    ensures r.status in {200, 400, 500}
    ensures v.JNull? ==> r.status == 500
    ensures !v.JNull? && CheckShape(v).Some? ==> r == Response(400, Cors, CheckShape(v).value)
    ensures !v.JNull? && ShapeOk(v) ==> r == Forward(ModelId(v), Messages(v), rt, call)
    ensures !v.JNull? && ShapeOk(v) && ModelId(v) !in Registry.ModelConfigs ==>
      r == Response(400, Cors, UnknownModel(ModelId(v)))
    ensures (!v.JNull? && ShapeOk(v) && ModelId(v) in Registry.ModelConfigs && Registry.HeadersResolvable(rt)) ==>
      r == Reply(call(ForwardedRequest(Registry.ModelConfigs[ModelId(v)].model, Messages(v))))
  {
    if v.JNull? then
      Fail(NullBody)
    else
      match CheckShape(v)
      case Some(rejection) => Response(400, Cors, rejection)
      case None => Forward(ModelId(v), Messages(v), rt, call)
  }

  /** Lines 75-112 and the catch: registry membership, the client, the
      upstream request with the entry's model string, and its reply. */
  function Forward(modelId: string, messages: seq<Json>, rt: Registry.Runtime, call: Request -> Answer): (r: Response)
    ensures r.headers == (if r.status == 200 then SuccessHeaders else Cors)
    ensures r.status in {200, 400, 500}
    ensures modelId !in Registry.ModelConfigs ==> r == Response(400, Cors, UnknownModel(modelId))
    ensures modelId in Registry.ModelConfigs && Registry.HeadersResolvable(rt) ==>
      r == Reply(call(ForwardedRequest(Registry.ModelConfigs[modelId].model, messages)))
    ensures modelId in Registry.ModelConfigs && !Registry.HeadersResolvable(rt) ==>
      r == Fail(Registry.CreateClient(modelId, rt).error)
  {
    if modelId !in Registry.ModelConfigs then Response(400, Cors, UnknownModel(modelId))
    else
      match Registry.CreateClient(modelId, rt)
      case Err(e) => Fail(e)
      case Ok(_) => Reply(call(ForwardedRequest(Registry.ModelConfigs[modelId].model, messages)))
  }

  /** Every response carries the CORS headers; `Content-Type` is added
      exactly on success; no status other than these five occurs, so an
      upstream 401 or 429 surfaces as 500. */
  lemma ResponseHeadersAndCodes(ev: Event, parse: string -> Parsed, rt: Registry.Runtime, call: Request -> Answer)
    ensures var r := Handler(ev, parse, rt, call);
      && r.status in {200, 204, 400, 405, 500}
      && (forall k :: k in Cors ==> k in r.headers && r.headers[k] == Cors[k])
      && ("Content-Type" in r.headers <==> r.status == 200)
  {
    assert "Content-Type" !in Cors;
  }

  /** A POST without a body is parsed as `{}` and fails the first shape check. */
  lemma AbsentBodyIsBadRequest(parse: string -> Parsed, rt: Registry.Runtime, call: Request -> Answer)
    ensures Handler(Event("POST", None), parse, rt, call) == Response(400, Cors, InvalidMessagesFormat)
  {
  }

  /** The Netlify function and the Express route agree on every JSON object
      body (same status and same body) with two exceptions. An upstream 401
      or 429 that the Express route reports is a 500 here. A reply that is
      truthy but not a string is a 200 here, where the Express route throws
      while logging it and answers 500; that is the only case in which the
      function succeeds and the route does not. */
  lemma {:induction false} AgreesWithExpress(v: Json, rt: Registry.Runtime, call: Request -> Answer)
    requires v.JObj?
    ensures var e := ExpressChat.HandleChat(Some(v), true, rt, call);
      var n := HandleParsed(v, rt, call);
      && (e.status in {401, 429} ==> n.status == 500)
      && (e.status == 200 ==> n.status == 200 && e.body == n.body)
      && (e.status !in {200, 401, 429} && n.status != 200 ==> e.status == n.status && e.body == n.body)
      && (e.status != 200 && n.status == 200 <==>
            && ShapeOk(v) && ModelId(v) in Registry.ModelConfigs && Registry.HeadersResolvable(rt)
            && var a := call(ForwardedRequest(Registry.ModelConfigs[ModelId(v)].model, Messages(v)));
               a.Answered? && Truthy(a.content) && !a.content.value.JStr?)
  {
    assert ExpressChat.HandleChat(Some(v), true, rt, call) == ExpressChat.Validated(v, true, rt, call);
    if ShapeOk(v) {
      ForwardsAgree(ModelId(v), Messages(v), rt, call);
    }
  }

  /** The part of `AgreesWithExpress` after the shape checks. */
  lemma ForwardsAgree(modelId: string, messages: seq<Json>, rt: Registry.Runtime, call: Request -> Answer)
    ensures var e := ExpressChat.Forward(modelId, messages, rt, call);
      var n := Forward(modelId, messages, rt, call);
      && (e.status in {401, 429} ==> n.status == 500)
      && (e.status == 200 ==> n.status == 200 && e.body == n.body)
      && (e.status !in {200, 401, 429} && n.status != 200 ==> e.status == n.status && e.body == n.body)
      && (e.status != 200 && n.status == 200 <==>
            && modelId in Registry.ModelConfigs && Registry.HeadersResolvable(rt)
            && var a := call(ForwardedRequest(Registry.ModelConfigs[modelId].model, messages));
               a.Answered? && Truthy(a.content) && !a.content.value.JStr?)
  {
    if modelId in Registry.ModelConfigs && Registry.HeadersResolvable(rt) {
      var a := call(ForwardedRequest(Registry.ModelConfigs[modelId].model, messages));
      assert ExpressChat.Forward(modelId, messages, rt, call) == ExpressChat.Reply(a);
      assert Forward(modelId, messages, rt, call) == Reply(a);
    }
  }

  /** A concrete witness of the disagreement: the reply `1`. */
  lemma NumericReplyDisagrees(v: Json, rt: Registry.Runtime, call: Request -> Answer)
    requires v.JObj? && ShapeOk(v) && ModelId(v) in Registry.ModelConfigs && Registry.HeadersResolvable(rt)
    requires call(ForwardedRequest(Registry.ModelConfigs[ModelId(v)].model, Messages(v))) == Answered(Some(JNum(1.0)))
    ensures ExpressChat.HandleChat(Some(v), true, rt, call).status == 500
    ensures HandleParsed(v, rt, call) == Response(200, SuccessHeaders, Assistant(Some(JNum(1.0))))
  {
  }
}
