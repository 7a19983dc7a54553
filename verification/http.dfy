/** The HTTP vocabulary of the Next.js route handlers: what a handler
    receives (cookie, body), what it sends to the back end, what the back
    end answered, and what the handler responds. Every network exchange is
    an input; whether a request was sent is part of the output. */
module Http {
  import opened Wrappers
  import opened Json
  import Text

  /** The outcome of `await fetch(...)` followed by `await response.json()`:
      either a status with a decoded body, or the message of whatever threw
      (network failure, a body that is not JSON). */
  datatype Reply = Answered(status: int, body: Json) | Threw(message: string) {
    /** `response.ok`. */
    predicate Ok() { Answered? && 200 <= status <= 299 }
  }

  /** The outcome of `await request.json()` on the incoming request. */
  datatype RequestBody = Parsed(json: Json) | Unparsable(message: string)

  datatype Method = GET | POST

  datatype Outbound = Outbound(verb: Method, url: string, headers: seq<(string, string)>, body: Option<Json>)

  datatype Response = Response(status: int, body: Json)

  /** What a handler did: the back-end request it sent, if any, and its response. */
  datatype Exchange = Exchange(sent: Option<Outbound>, response: Response)

  const Backend := "http://127.0.0.1:8000"
  const JsonContent := ("Content-Type", "application/json")

  /** `request.cookies.get('access_token')?.value` is truthy. */
  predicate HasToken(cookie: Option<string>) {
    cookie.Some? && cookie.value != ""
  }

  function Bearer(token: string): string {
    "Bearer " + token
  }

  /** The headers of a request forwarded on behalf of the cookie's holder. */
  function AuthorizedHeaders(token: string): seq<(string, string)> {
    [("Authorization", Bearer(token)), JsonContent]
  }

  /** `{ error: message }` with the given status. */
  function ErrorResponse(status: int, message: string): Response {
    Response(status, Obj([("error", Str(message))]))
  }

  /** The value of a header, if sent. */
  function Header(headers: seq<(string, string)>, name: string): Option<string> {
    if |headers| == 0 then None
    else if headers[0].0 == name then Some(headers[0].1)
    else Header(headers[1..], name)
  }

  /** Every member of the object is named in `keys`. */
  predicate OnlyKeys(j: Json, keys: set<string>) {
    j.Obj? && forall i :: 0 <= i < |j.members| ==> j.members[i].0 in keys
  }

  /** The incoming body followed by a destructuring read of `key`. */
  function ReadField(body: RequestBody, key: string): (r: Result<Json, string>)
    ensures r.Success? <==> body.Parsed? && !body.json.Null?
    ensures r.Success? ==> r.value == body.json
  {
    match body
    case Unparsable(m) => Failure(m)
    case Parsed(j) => if j.Null? then Failure(NullDestructureMessage(key)) else Success(j)
  }

  /** The message a failed back-end exchange leaves in the catch block:
      `throw new Error(data.message || fallback)` for a non-OK answer,
      the thrown error otherwise, and then `error.message || fallback`. */
  function FailureText(reply: Reply, fallback: string): (r: string)
    requires fallback != ""
    ensures r != ""
    ensures reply.Answered? && reply.body.Obj? && !JsTruthy(Lookup(reply.body.members, "message"))
            ==> r == fallback
    ensures reply.Answered? && reply.body.Obj? && Lookup(reply.body.members, "message").Some?
            && Lookup(reply.body.members, "message").value.Str?
            && Lookup(reply.body.members, "message").value.s != ""
            ==> r == Lookup(reply.body.members, "message").value.s
    ensures reply.Threw? ==> r == Text.OrElse(reply.message, fallback)
  {
    match reply
    case Threw(m) => Text.OrElse(m, fallback)
    case Answered(_, data) =>
      match Get(data, "message")
      case Failure(m) => Text.OrElse(m, fallback)
      case Success(v) => Text.OrElse(ErrorMessage(v, fallback), fallback)
  }

  /** How a protected handler settles a back-end exchange: an OK answer is
      passed through with 200, anything else becomes 400 with a message. */
  function Settle(reply: Reply, fallback: string): (r: Response)
    requires fallback != ""
    ensures r.status == 200 || r.status == 400
    ensures r.status == 200 <==> reply.Ok()
    ensures reply.Ok() ==> r.body == reply.body
    ensures !reply.Ok() ==> r == ErrorResponse(400, FailureText(reply, fallback))
  {
    if reply.Ok() then Response(200, reply.body) else ErrorResponse(400, FailureText(reply, fallback))
  }

  /** FastAPI reports errors as `{"detail": ...}`, never under `message`,
      so every back-end error reaches the client as the fixed fallback. */
  lemma FastApiErrorsShowFallback(status: int, detail: Json, fallback: string)
    requires fallback != ""
    requires !(200 <= status <= 299)
    ensures Settle(Answered(status, Obj([("detail", detail)])), fallback) == ErrorResponse(400, fallback)
  {
  }

  /** The back end's status reaches the client only through `response.ok`. */
  lemma StatusNotPropagated(s1: int, s2: int, body: Json, fallback: string)
    requires fallback != ""
    requires (200 <= s1 <= 299) == (200 <= s2 <= 299)
    ensures Settle(Answered(s1, body), fallback) == Settle(Answered(s2, body), fallback)
  {
  }
}
