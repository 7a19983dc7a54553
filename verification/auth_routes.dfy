/** The unprotected route handlers of the front end: token presence check
    (`/api/auth/verify`), the HTTP-only cookie setter (`/api/auth/set-token`)
    and the two forwarders to the back end's user routes (`/api/login`,
    `/api/register`). */
module AuthRoutes {
  import opened Wrappers
  import opened Json
  import opened Http
  import Text

  const LoginFallback := "Login failed"
  const RegisterFallback := "Registration failed"
  const SetTokenFallback := "Failed to set token"

  /** `GET /api/auth/verify`: a presence check only. */
  function VerifyRoute(token: Option<string>): (r: Response)
    ensures !HasToken(token) ==>
      r == Response(401, Obj([("verified", Bool(false)), ("error", Str("No token found"))]))
    ensures HasToken(token) ==>
      r == Response(200, Obj([("verified", Bool(true)), ("user", Obj([]))]))
  {
    if !HasToken(token) then Response(401, Obj([("verified", Bool(false)), ("error", Str("No token found"))]))
    else Response(200, Obj([("verified", Bool(true)), ("user", Obj([]))]))
  }

  /** Any two tokens are "verified" alike: the value is never inspected. */
  lemma VerifyIgnoresTokenValue(t1: string, t2: string)
    requires t1 != "" && t2 != ""
    ensures VerifyRoute(Some(t1)) == VerifyRoute(Some(t2))
    ensures VerifyRoute(Some(t1)).status == 200
  {
  }

  datatype CookieOptions = CookieOptions(httpOnly: bool, secure: bool, sameSite: string, maxAge: int, path: string)

  /** A `Set-Cookie` the handler attaches to its response; the value is the
      body's `token` as given, `undefined` when absent. */
  datatype SetCookie = SetCookie(name: string, value: Option<Json>, options: CookieOptions)

  datatype TokenSet = TokenSet(response: Response, cookie: Option<SetCookie>)

  /** The options of the `access_token` cookie; `nodeEnv` is `process.env.NODE_ENV`. */
  function TokenCookieOptions(nodeEnv: Option<string>): (o: CookieOptions)
    ensures o.httpOnly && o.sameSite == "strict" && o.path == "/"
    ensures o.maxAge == 86400
    ensures o.secure <==> nodeEnv == Some("production")
  {
    CookieOptions(true, nodeEnv == Some("production"), "strict", 60 * 60 * 24, "/")
  }

  /** `POST /api/auth/set-token`. */
  function SetTokenRoute(body: RequestBody, nodeEnv: Option<string>): (t: TokenSet)
    ensures t.cookie.Some? <==> body.Parsed? && !body.json.Null?
    ensures t.cookie.Some? ==>
      && t.response == Response(200, Obj([("success", Bool(true))]))
      && t.cookie.value == SetCookie("access_token", Member(body.json, "token"), TokenCookieOptions(nodeEnv))
    ensures t.cookie.None? ==> t.response.status == 400
    ensures body.Unparsable? ==>
      t.response == ErrorResponse(400, Text.OrElse(body.message, SetTokenFallback))
  {
    match ReadField(body, "token")
    case Failure(m) => TokenSet(ErrorResponse(400, Text.OrElse(m, SetTokenFallback)), None)
    case Success(j) =>
      TokenSet(Response(200, Obj([("success", Bool(true))])),
               Some(SetCookie("access_token", Member(j, "token"), TokenCookieOptions(nodeEnv))))
  }

  function PickFields(data: Json, keys: seq<string>): seq<(string, Option<Json>)> {
    seq(|keys|, i requires 0 <= i < |keys| => (keys[i], Member(data, keys[i])))
  }

  lemma {:induction false} PickFieldsLookup(data: Json, keys: seq<string>, k: string)
    ensures LookupField(PickFields(data, keys), k) == (if k in keys then Member(data, k) else None)
  {
    if |keys| > 0 {
      assert PickFields(data, keys)[1..] == PickFields(data, keys[1..]);
      PickFieldsLookup(data, keys[1..], k);
    }
  }

  /** The object literal `{ k1: data.k1, ... }` after `JSON.stringify`:
      the named members that `data` defines, and nothing else. */
  function Pick(data: Json, keys: seq<string>): (r: Json)
    ensures r.Obj? && forall i :: 0 <= i < |r.members| ==> r.members[i].0 in keys
    ensures forall k :: Lookup(r.members, k) == (if k in keys then Member(data, k) else None)
  {
    var fields := PickFields(data, keys);
    assert forall i :: 0 <= i < |fields| ==> fields[i].0 == keys[i];
    forall x | x in FieldNames(fields) ensures x in keys {
      var t :| 0 <= t < |fields| && x == fields[t].0;
      assert x == keys[t];
    }
    forall k ensures LookupField(fields, k) == (if k in keys then Member(data, k) else None) {
      PickFieldsLookup(data, keys, k);
    }
    ObjectOf(fields)
  }

  lemma {:induction false} LookupDistinct(members: seq<(string, Json)>, i: int)
    requires 0 <= i < |members|
    requires forall a, b :: 0 <= a < b < |members| ==> members[a].0 != members[b].0
    ensures Lookup(members, members[i].0) == Some(members[i].1)
    decreases i
  {
    if i > 0 {
      assert members[0].0 != members[i].0;
      assert members[1..][i - 1] == members[i];
      LookupDistinct(members[1..], i - 1);
    }
  }

  lemma {:induction false} PresentAllDefined(fields: seq<(string, Option<Json>)>, members: seq<(string, Json)>)
    requires |fields| == |members|
    requires forall i :: 0 <= i < |fields| ==> fields[i] == (members[i].0, Some(members[i].1))
    ensures Present(fields) == members
    decreases |fields|
  {
    if |fields| > 0 {
      PresentAllDefined(fields[1..], members[1..]);
      assert members == [members[0]] + members[1..];
    }
  }

  /** Picking every key of an object whose keys are distinct, in their own
      order, gives the object back. */
  lemma PickWhole(members: seq<(string, Json)>, keys: seq<string>)
    requires |keys| == |members| && forall i :: 0 <= i < |keys| ==> keys[i] == members[i].0
    requires forall a, b :: 0 <= a < b < |members| ==> members[a].0 != members[b].0
    ensures Pick(Obj(members), keys) == Obj(members)
  {
    var fields := PickFields(Obj(members), keys);
    forall i | 0 <= i < |fields| ensures fields[i] == (members[i].0, Some(members[i].1)) {
      LookupDistinct(members, i);
    }
    PresentAllDefined(fields, members);
  }

  /** How the login and register forwarders answer: an OK reply is
      projected onto `keys` with `okStatus`, everything else is 400. */
  function Project(reply: Reply, keys: seq<string>, okStatus: int, fallback: string): (r: Response)
    requires |keys| >= 1 && fallback != ""
    ensures r.status == okStatus || r.status == 400
    ensures reply.Ok() && !reply.body.Null? ==> r == Response(okStatus, Pick(reply.body, keys))
    ensures !reply.Ok() ==> r == ErrorResponse(400, FailureText(reply, fallback))
    ensures reply.Ok() && reply.body.Null? ==>
      r == ErrorResponse(400, NullPropertyMessage(keys[0]))
  {
    if !reply.Ok() then ErrorResponse(400, FailureText(reply, fallback))
    else
      match Get(reply.body, keys[0])
      case Failure(m) => ErrorResponse(400, Text.OrElse(m, fallback))
      case Success(_) => Response(okStatus, Pick(reply.body, keys))
  }

  /** `POST /api/login`: forwards `email` and `password`, answers `{access_token, user}`. */
  function LoginRoute(body: RequestBody, backend: Reply): (x: Exchange)
    ensures body.Unparsable? ==>
      x == Exchange(None, ErrorResponse(400, Text.OrElse(body.message, LoginFallback)))
    ensures x.sent.Some? <==> body.Parsed? && !body.json.Null?
    ensures x.sent.Some? ==>
      && x.sent.value == Outbound(POST, Backend + "/users/login", [JsonContent], x.sent.value.body)
      && Header(x.sent.value.headers, "Authorization").None?
      && x.sent.value.body.Some?
      && OnlyKeys(x.sent.value.body.value, {"email", "password"})
      && Lookup(x.sent.value.body.value.members, "email") == Member(body.json, "email")
      && Lookup(x.sent.value.body.value.members, "password") == Member(body.json, "password")
    ensures x.response.status == 200 || x.response.status == 400
    ensures x.response.status == 200 ==>
      && x.sent.Some? && backend.Ok()
      && OnlyKeys(x.response.body, {"access_token", "user"})
      && Lookup(x.response.body.members, "access_token") == Member(backend.body, "access_token")
      && Lookup(x.response.body.members, "user") == Member(backend.body, "user")
    ensures x.sent.Some? && backend.Ok() && !backend.body.Null? ==> x.response.status == 200
    ensures x.sent.Some? && backend.Ok() && backend.body.Null? ==>
      x.response == ErrorResponse(400, NullPropertyMessage("access_token"))
    ensures x.sent.Some? && !backend.Ok() ==>
      x.response == ErrorResponse(400, FailureText(backend, LoginFallback))
  {
    match ReadField(body, "email")
    case Failure(m) => Exchange(None, ErrorResponse(400, Text.OrElse(m, LoginFallback)))
    case Success(j) =>
      var out := Outbound(POST, Backend + "/users/login", [JsonContent], Some(Pick(j, ["email", "password"])));
      Exchange(Some(out), Project(backend, ["access_token", "user"], 200, LoginFallback))
  }

  /** The body sent to `/users/signup`: the four sign-up fields of `j`. */
  function SignupBody(j: Json): (r: Json)
    ensures OnlyKeys(r, {"email", "password", "name", "gender"})
    ensures Lookup(r.members, "email") == Member(j, "email")
    ensures Lookup(r.members, "password") == Member(j, "password")
    ensures Lookup(r.members, "name") == Member(j, "name")
    ensures Lookup(r.members, "gender") == Member(j, "gender")
  {
    var fields := ["email", "password", "name", "gender"];
    var r := Pick(j, fields);
    assert fields[0] == "email" && fields[1] == "password" && fields[2] == "name" && fields[3] == "gender";
    forall i | 0 <= i < |r.members| ensures r.members[i].0 in {"email", "password", "name", "gender"} {
      assert r.members[i].0 in fields;
    }
    r
  }

  /** The register forwarder's answer: the public profile with 201. */
  function RegisterAnswer(backend: Reply): (r: Response)
    ensures r.status == 201 || r.status == 400
    ensures r.status == 201 ==>
      && backend.Ok() && !backend.body.Null?
      && OnlyKeys(r.body, {"id", "email", "name", "gender"})
      && Lookup(r.body.members, "password").None?
      && Lookup(r.body.members, "id") == Member(backend.body, "id")
      && Lookup(r.body.members, "email") == Member(backend.body, "email")
      && Lookup(r.body.members, "name") == Member(backend.body, "name")
      && Lookup(r.body.members, "gender") == Member(backend.body, "gender")
    ensures backend.Ok() && !backend.body.Null? ==> r.status == 201
    ensures backend.Ok() && backend.body.Null? ==> r == ErrorResponse(400, NullPropertyMessage("id"))
    ensures !backend.Ok() ==> r == ErrorResponse(400, FailureText(backend, RegisterFallback))
  {
    var keys := ["id", "email", "name", "gender"];
    Project(backend, keys, 201, RegisterFallback)
  }

  /** `POST /api/register`: forwards the four sign-up fields, answers the
      public profile with 201. */
  function RegisterRoute(body: RequestBody, backend: Reply): (x: Exchange)
    ensures body.Unparsable? ==>
      x == Exchange(None, ErrorResponse(400, Text.OrElse(body.message, RegisterFallback)))
    ensures x.sent.Some? <==> body.Parsed? && !body.json.Null?
    ensures x.sent.Some? ==>
      && x.sent.value == Outbound(POST, Backend + "/users/signup", [JsonContent], x.sent.value.body)
      && x.sent.value.body.Some?
      && OnlyKeys(x.sent.value.body.value, {"email", "password", "name", "gender"})
      && Lookup(x.sent.value.body.value.members, "email") == Member(body.json, "email")
      && Lookup(x.sent.value.body.value.members, "password") == Member(body.json, "password")
      && Lookup(x.sent.value.body.value.members, "name") == Member(body.json, "name")
      && Lookup(x.sent.value.body.value.members, "gender") == Member(body.json, "gender")
    ensures x.response.status == 201 || x.response.status == 400
    ensures x.response.status == 201 ==>
      && x.sent.Some? && backend.Ok()
      && OnlyKeys(x.response.body, {"id", "email", "name", "gender"})
      && Lookup(x.response.body.members, "password").None?
      && Lookup(x.response.body.members, "id") == Member(backend.body, "id")
      && Lookup(x.response.body.members, "email") == Member(backend.body, "email")
      && Lookup(x.response.body.members, "name") == Member(backend.body, "name")
      && Lookup(x.response.body.members, "gender") == Member(backend.body, "gender")
    ensures x.sent.Some? && backend.Ok() && !backend.body.Null? ==> x.response.status == 201
    ensures x.sent.Some? && backend.Ok() && backend.body.Null? ==>
      x.response == ErrorResponse(400, NullPropertyMessage("id"))
    ensures x.sent.Some? && !backend.Ok() ==>
      x.response == ErrorResponse(400, FailureText(backend, RegisterFallback))
  {
    match ReadField(body, "email")
    case Failure(m) => Exchange(None, ErrorResponse(400, Text.OrElse(m, RegisterFallback)))
    case Success(j) =>
      Exchange(Some(Outbound(POST, Backend + "/users/signup", [JsonContent], Some(SignupBody(j)))),
               RegisterAnswer(backend))
  }
}
