/**
 * The boundary between the adapters and the provider SDKs: the request
 * bodies the adapters build, the message objects inside them, and the
 * outcome of one upstream call. The SDK call itself is not modelled; every
 * adapter receives it as a function `call: Request -> Answer`.
 */
module Upstream {
  import opened Js

  /** Which SDK call carries the request: `client.chat.completions.create`
      (the OpenAI chat-completions shape) or `client.messages.create` (the
      Anthropic messages shape, with a separate `system` field). */
  datatype Endpoint = ChatCompletions | AnthropicMessages

  /** A request body; `None` marks a field the adapter leaves out. */
  datatype Request = Request(
    endpoint: Endpoint,
    model: string,
    messages: seq<Json>,
    system: Option<Json>,
    maxTokens: Option<nat>,
    temperature: Option<real>,
    stream: Option<bool>)

  /** One upstream call: either the value at the provider's content path
      (`choices[0].message.content` for chat completions, `content` for the
      messages API; `None` when it is `undefined`), or the error the SDK
      throws with its `response.status`, if any. */
  datatype Answer =
    | Answered(content: Option<Json>)
    | Failed(responseStatus: Option<int>, message: string)

  /** The error an SDK failure raises in the adapter. */
  function Thrown(a: Answer): Error
    requires a.Failed?
  {
    UpstreamFailure(a.responseStatus, a.message)
  }

  /** The message object `{ role, content }`. */
  function Turn(role: string, content: Option<Json>): Json
  {
    Object2("role", Some(JStr(role)), "content", content)
  }

  /** A message object as the adapters build it: a plain object whose only
      keys are a string `role` and possibly `content`. */
  predicate IsTurn(m: Json)
  {
    && m.JObj?
    && m.fields.Keys <= {"role", "content"}
    && "role" in m.fields
    && m.fields["role"].JStr?
  }

  function RoleOf(m: Json): string
    requires IsTurn(m)
  {
    m.fields["role"].s
  }

  /** `msg => ({ role: msg.role, content: msg.content })`: a copy holding
      only those two properties. Reading a property of `null` throws. */
  function Project(msg: Json): (r: Result<Json>)
    ensures r.Err? <==> msg.JNull?
    ensures r.Ok? ==>
      && r.value.JObj?
      && r.value.fields.Keys <= {"role", "content"}
      && Get(r.value, "role") == Get(msg, "role")
      && Get(r.value, "content") == Get(msg, "content")
  {
    if msg.JNull? then Err(TypeError("Cannot read properties of null (reading 'role')"))
    else Ok(Object2("role", Get(msg, "role"), "content", Get(msg, "content")))
  }

  /** `messages.map(Project)`: the first `null` element throws. */
  function ProjectAll(msgs: seq<Json>): (r: Result<seq<Json>>)
    ensures r.Ok? <==> forall i :: 0 <= i < |msgs| ==> !msgs[i].JNull?
    ensures r.Ok? ==> |r.value| == |msgs|
    ensures r.Ok? ==> forall i :: 0 <= i < |msgs| ==> Project(msgs[i]) == Ok(r.value[i])
    ensures r.Err? ==> r.error.TypeError?
  {
    if msgs == [] then Ok([])
    else
      match Project(msgs[0])
      case Err(e) => Err(e)
      case Ok(head) =>
        match ProjectAll(msgs[1..])
        case Err(e) => Err(e)
        case Ok(tail) => Ok([head] + tail)
  }

  /** Projection leaves a message object built by the adapters as it is. */
  lemma ProjectTurn(m: Json)
    requires IsTurn(m)
    ensures Project(m) == Ok(m)
  {
    var p := Project(m).value;
    assert p.fields.Keys == m.fields.Keys;
    assert forall k | k in p.fields :: p.fields[k] == m.fields[k];
    assert p.fields == m.fields;
  }

  /** Projecting a sequence of such objects returns it unchanged. */
  lemma {:induction false} ProjectAllTurns(msgs: seq<Json>)
    requires forall i :: 0 <= i < |msgs| ==> IsTurn(msgs[i])
    ensures ProjectAll(msgs) == Ok(msgs)
  {
    var r := ProjectAll(msgs);
    forall i | 0 <= i < |msgs|
      ensures r.Ok? && r.value[i] == msgs[i]
    {
      ProjectTurn(msgs[i]);
    }
    assert r.value == msgs;
  }

  /** Projection is idempotent: a projected message projects to itself. */
  lemma ProjectIdempotent(msg: Json)
    requires !msg.JNull?
    ensures Project(Project(msg).value) == Project(msg)
  {
    var p := Project(msg).value;
    var q := Project(p).value;
    assert q.fields.Keys == p.fields.Keys;
    assert forall k | k in q.fields :: q.fields[k] == p.fields[k];
    assert q.fields == p.fields;
  }
}
