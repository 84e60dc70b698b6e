/**
 * JavaScript values as the chat adapters handle them: parsed JSON request
 * bodies, message objects, and the errors the adapters throw.
 *
 * A property read that finds nothing yields `undefined`; the model writes
 * that as `None`, so a read has type `Option<Json>`.
 */
module Js {

  datatype Option<+T> = None | Some(value: T)

  /** A JSON value. Objects are maps: key order never matters to the adapters. */
  datatype Json =
    | JNull
    | JBool(b: bool)
    | JNum(n: real)
    | JStr(s: string)
    | JArr(items: seq<Json>)
    | JObj(fields: map<string, Json>)

  /** `v.key`. The adapters only read `messages`, `model`, `role` and
      `content`, which no array, string, number or boolean carries. */
  function Get(v: Json, key: string): Option<Json>
  {
    if v.JObj? && key in v.fields then Some(v.fields[key]) else None
  }

  /** `v.key` on a value that may itself be `undefined`, as `v?.key` reads it. */
  function GetOpt(v: Option<Json>, key: string): Option<Json>
  {
    if v.Some? then Get(v.value, key) else None
  }

  /** JavaScript truthiness (`!!v`). JSON has no NaN, so 0 is the only falsy number. */
  predicate Truthy(v: Option<Json>)
  {
    match v
    case None => false
    case Some(JNull) => false
    case Some(JBool(b)) => b
    case Some(JNum(n)) => n != 0.0
    case Some(JStr(s)) => s != ""
    case Some(_) => true
  }

  /** `typeof v === 'string'` */
  predicate IsString(v: Option<Json>)
  {
    v.Some? && v.value.JStr?
  }

  /** `typeof v === 'object'`: null, arrays and plain objects. */
  predicate IsObject(v: Json)
  {
    v.JNull? || v.JArr? || v.JObj?
  }

  /** Object destructuring `const {a, b} = v` throws on `undefined` and `null` only. */
  predicate Destructurable(v: Option<Json>)
  {
    v.Some? && !v.value.JNull?
  }

  /** Builds an object literal, leaving out the properties whose value is
      `undefined` (they do not survive `JSON.stringify`). */
  function Object2(k1: string, v1: Option<Json>, k2: string, v2: Option<Json>): Json
    requires k1 != k2
  {
    JObj((if v1.Some? then map[k1 := v1.value] else map[])
       + (if v2.Some? then map[k2 := v2.value] else map[]))
  }

  /** The values the adapters throw. Engine-worded messages (TypeError,
      ReferenceError, SyntaxError) are carried as opaque text. */
  datatype Error =
    | TypeError(what: string)
    | ReferenceError(name: string)
    | SyntaxError(message: string)
    | InvalidModelId(id: string)
    | UnknownApiType(apiType: string)
    | UnsupportedClientType(clientType: string)
    | NoResponse
    | InvalidResponse
    | UpstreamFailure(responseStatus: Option<int>, message: string)

  /** `error.message` */
  function MessageOf(e: Error): string
  {
    match e
    case TypeError(what) => what
    case ReferenceError(name) => name + " is not defined"
    case SyntaxError(message) => message
    case InvalidModelId(id) => "Invalid model ID: " + id
    case UnknownApiType(t) => "Unknown API type: " + t
    case UnsupportedClientType(t) => "Unsupported client type: " + t
    case NoResponse => "No response from model"
    case InvalidResponse => "Invalid response from model"
    case UpstreamFailure(_, message) => message
  }

  /** `error.response?.status`: only errors raised by an upstream HTTP call carry one. */
  function ResponseStatus(e: Error): Option<int>
  {
    if e.UpstreamFailure? then e.responseStatus else None
  }

  datatype Result<+T> = Ok(value: T) | Err(error: Error)

  predicate StartsWith(s: string, prefix: string)
  {
    |prefix| <= |s| && s[..|prefix|] == prefix
  }

  /** `s.includes(sub)` */
  predicate Includes(s: string, sub: string)
  {
    exists i :: 0 <= i <= |s| && StartsWith(s[i..], sub)
  }
}
