/**
 * The `/chat` route of `server.ts` (lines 69-186): destructure the body,
 * run the validation ladder, build one chat-completions request, and map
 * the outcome to a status code. Headers added by the CORS middleware and
 * by `res.json` are outside the route, so every response here has none.
 */
module ExpressChat {
  import opened Js
  import opened Upstream
  import opened ChatApi
  import Registry

  const MissingRequestBody: Body := Failure("Missing request body", Some("Request body is required"))
  const ApiKeyNotConfigured: Body := Failure("API key not configured", Some("Server configuration error"))

  /** The catch block: upstream 401 and 429 keep their codes, every other
      error becomes 500 with the error's message as details. */
  function Catch(e: Error): (r: Response)
    ensures ResponseStatus(e) == Some(401) ==> r.status == 401
    ensures ResponseStatus(e) == Some(429) ==> r.status == 429
    ensures ResponseStatus(e) != Some(401) && ResponseStatus(e) != Some(429) ==>
      r == Response(500, map[], ProcessingFailure(e))
    ensures r.body != MissingRequestBody
  {
    if ResponseStatus(e) == Some(401) then
      Response(401, map[], Failure("Authentication failed", Some("Invalid API key or authentication error")))
    else if ResponseStatus(e) == Some(429) then
      Response(429, map[], Failure("Rate limit exceeded", Some("Too many requests, please try again later")))
    else
      Response(500, map[], ProcessingFailure(e))
  }

  /** What destructuring an undefined `req.body` throws. */
  const UndefinedBody: Error := TypeError("Cannot destructure property 'messages' of 'req.body' as it is undefined.")

  /** The content test of line 149 lets any truthy value through, but
      line 155 then calls `.substring` on it, which only a string has: a
      truthy number, `true`, an array or an object throws a `TypeError`
      there and reaches the catch. */
  const NotAString: Error := TypeError("completion.choices[0].message.content?.substring is not a function")

  /** The reply is a non-empty string: the one content the route answers 200 for. */
  predicate TextAnswer(a: Answer)
  {
    a.Answered? && a.content.Some? && a.content.value.JStr? && a.content.value.s != ""
  }

  /** Lines 149-161 and the catch: an empty or missing content is an error,
      a non-empty string is the assistant reply, and any other truthy
      content throws at the log statement of line 155. */
  function Reply(a: Answer): (r: Response)
    ensures r.status == 200 <==> TextAnswer(a)
    ensures r.status == 200 ==> r.body == Assistant(a.content)
    ensures a.Answered? && !Truthy(a.content) ==> r == Response(500, map[], ProcessingFailure(InvalidResponse))
    ensures a.Answered? && Truthy(a.content) && !a.content.value.JStr? ==>
      r == Response(500, map[], ProcessingFailure(NotAString))
    ensures a.Failed? ==> (r.status == 401 <==> a.responseStatus == Some(401))
    ensures a.Failed? ==> (r.status == 429 <==> a.responseStatus == Some(429))
    ensures a.Failed? ==> r.status in {401, 429, 500}
    ensures r.body != MissingRequestBody
  {
    if a.Failed? then Catch(Thrown(a))
    else if !Truthy(a.content) then Catch(InvalidResponse)
    else if !a.content.value.JStr? then Catch(NotAString)
    else Response(200, map[], Assistant(a.content))
  }

  /** The route handler. `body` is `req.body` (`None` when no body parser
      set it); `apiKeyConfigured` is whether `OPENROUTER_API_KEY` is set. */
  function HandleChat(body: Option<Json>, apiKeyConfigured: bool, rt: Registry.Runtime, call: Request -> Answer): (r: Response)
    // destructuring comes first, so a missing body never reaches the `!req.body` check
    ensures !Destructurable(body) ==> r.status == 500 && r.body.Failure? && r.body.error == "Failed to process request"
    ensures Destructurable(body) && !Truthy(body) ==> r == Response(400, map[], MissingRequestBody)
    ensures Truthy(body) ==> r == Validated(body.value, apiKeyConfigured, rt, call)
    ensures Truthy(body) && CheckShape(body.value).Some? ==> r == Response(400, map[], CheckShape(body.value).value)
    ensures Truthy(body) && ShapeOk(body.value) && !apiKeyConfigured ==> r == Response(500, map[], ApiKeyNotConfigured)
    ensures Truthy(body) && ShapeOk(body.value) && apiKeyConfigured && ModelId(body.value) !in Registry.ModelConfigs ==>
      r == Response(400, map[], UnknownModel(ModelId(body.value)))
    ensures (Truthy(body) && ShapeOk(body.value) && apiKeyConfigured && ModelId(body.value) in Registry.ModelConfigs
             && Registry.HeadersResolvable(rt)) ==>
      r == Reply(call(ForwardedRequest(Registry.ModelConfigs[ModelId(body.value)].model, Messages(body.value))))
  {
    if !Destructurable(body) then
      Catch(UndefinedBody)
    else if !Truthy(body) then
      Response(400, map[], MissingRequestBody)
    else
      Validated(body.value, apiKeyConfigured, rt, call)
  }

  /** Lines 89-125: the shape checks of a truthy body, then the API-key
      check, then the rest of the route. */
  function Validated(v: Json, apiKeyConfigured: bool, rt: Registry.Runtime, call: Request -> Answer): (r: Response)
    ensures r.status in {200, 400, 401, 429, 500}
    ensures r.body != MissingRequestBody
    ensures CheckShape(v).Some? ==> r == Response(400, map[], CheckShape(v).value)
    ensures ShapeOk(v) && !apiKeyConfigured ==> r == Response(500, map[], ApiKeyNotConfigured)
    ensures ShapeOk(v) && apiKeyConfigured ==> r == Forward(ModelId(v), Messages(v), rt, call)
  {
    match CheckShape(v)
    case Some(rejection) => Response(400, map[], rejection)
    case None =>
      if !apiKeyConfigured then Response(500, map[], ApiKeyNotConfigured)
      else Forward(ModelId(v), Messages(v), rt, call)
  }

  /** Lines 128-161 and the catch: registry membership, the client, the
      upstream request with the entry's model string, and its reply. */
  function Forward(modelId: string, messages: seq<Json>, rt: Registry.Runtime, call: Request -> Answer): (r: Response)
    ensures r.status in {200, 400, 401, 429, 500}
    ensures r.body != MissingRequestBody
    ensures modelId !in Registry.ModelConfigs ==> r == Response(400, map[], UnknownModel(modelId))
    ensures modelId in Registry.ModelConfigs && Registry.HeadersResolvable(rt) ==>
      r == Reply(call(ForwardedRequest(Registry.ModelConfigs[modelId].model, messages)))
    ensures modelId in Registry.ModelConfigs && !Registry.HeadersResolvable(rt) ==>
      r == Response(500, map[], ProcessingFailure(Registry.CreateClient(modelId, rt).error))
  {
    if modelId !in Registry.ModelConfigs then Response(400, map[], UnknownModel(modelId))
    else
      match Registry.CreateClient(modelId, rt)
      case Err(e) => Catch(e)
      case Ok(_) => Reply(call(ForwardedRequest(Registry.ModelConfigs[modelId].model, messages)))
  }

  /** Every response has one of five status codes. */
  lemma StatusCodes(body: Option<Json>, apiKeyConfigured: bool, rt: Registry.Runtime, call: Request -> Answer)
    ensures HandleChat(body, apiKeyConfigured, rt, call).status in {200, 400, 401, 429, 500}
  {
  }

  /** `Missing request body` is reported only for the falsy values that can
      be destructured (`false`, `0`, `""`); an absent or `null` body throws
      while being destructured and gets a 500 instead. */
  lemma MissingBodyReportedOnlyForFalsyValues(body: Option<Json>, apiKeyConfigured: bool, rt: Registry.Runtime, call: Request -> Answer)
    ensures HandleChat(body, apiKeyConfigured, rt, call).body == MissingRequestBody <==>
      body in {Some(JBool(false)), Some(JNum(0.0)), Some(JStr(""))}
  {
    var r := HandleChat(body, apiKeyConfigured, rt, call);
    if !Destructurable(body) {
      assert r.body.error != MissingRequestBody.error;
    } else if !Truthy(body) {
      assert body.value.JBool? || body.value.JNum? || body.value.JStr?;
    } else {
      assert r.body != MissingRequestBody;
      assert body !in {Some(JBool(false)), Some(JNum(0.0)), Some(JStr(""))};
    }
  }

  /** A rejected request never reaches the upstream: the response does not
      depend on what the upstream would have answered. */
  lemma RejectionsSkipUpstream(body: Option<Json>, apiKeyConfigured: bool, rt: Registry.Runtime,
                                 call1: Request -> Answer, call2: Request -> Answer)
    requires HandleChat(body, apiKeyConfigured, rt, call1).status == 400
    ensures HandleChat(body, apiKeyConfigured, rt, call2) == HandleChat(body, apiKeyConfigured, rt, call1)
  {
  }

  /** Where `import.meta.env` does not exist, as under Node, `createClient`
      throws for every registered id, so no request is ever forwarded and a
      request that passes validation always gets a 500. */
  lemma WithoutViteEnvValidRequestsFail(body: Option<Json>, rt: Registry.Runtime, call: Request -> Answer)
    requires rt.env.None?
    requires Truthy(body) && ShapeOk(body.value) && ModelId(body.value) in Registry.ModelConfigs
    ensures HandleChat(body, true, rt, call).status == 500
  {
  }
}
