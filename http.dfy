/** What a `fetch` call hands back to the script, with the network itself left
    out: either a response with a status and a body, or a rejected promise. */
module Http {
  import opened Wrappers
  import opened Js

  /** What `await res.json()` makes of a response body. */
  datatype Body =
    | NotJson                                  // `res.json()` rejects
    | JsonNull                                 // the body is the JSON literal null
    | JsonObject(fields: map<string, JsValue>)
    | JsonOther                                // an array, string, number or boolean

  datatype Reply =
    | Response(status: int, body: Body)
    | NetworkError                             // `fetch` itself rejects

  /** `res.ok`: the status lies in the range 200 to 299. */
  function IsOk(status: int): (ok: bool)
    ensures ok <==> 200 <= status <= 299
    ensures ok ==> status != 404
  {
    200 <= status <= 299
  }

  /** A response whose `res.ok` holds; a rejected `fetch` never is. */
  function Accepted(reply: Reply): (ok: bool)
    ensures ok <==> reply.Response? && 200 <= reply.status <= 299
    ensures reply.NetworkError? ==> !ok
  {
    reply.Response? && IsOk(reply.status)
  }

  /** `(await res.json()).name`: `None` when that expression throws (the body
      is not JSON, or is `null`), otherwise the property's value, `undefined`
      when the parsed body has no such property. Only the two names the
      script reads are covered: neither is inherited from `Object.prototype`,
      `String.prototype` or `Array.prototype`. */
  function Property(body: Body, name: string): (r: Option<JsValue>)
    requires name == "detail" || name == "access_token"
    ensures r.None? <==> body.NotJson? || body.JsonNull?
    ensures body.JsonObject? && name in body.fields ==> r == Some(body.fields[name])
    ensures r.Some? && !(body.JsonObject? && name in body.fields) ==> !Truthy(r.value)
  {
    match body
    case NotJson => None
    case JsonNull => None
    case JsonObject(fields) => Some(if name in fields then fields[name] else Undefined)
    case JsonOther => Some(Undefined)
  }
}
