/** The client-side session of `AuthContext`: the signed-in `user`, the
    `loading` flag and the readable `user` cookie that mirrors the user
    across page loads (the HTTP-only `access_token` cookie is invisible to
    this code). Every operation is a step of a state machine whose network
    outcome is an input. */
module Session {
  import opened Wrappers
  import opened Json
  import opened Http
  import AuthRoutes

  /** What the readable `user` cookie holds. */
  datatype MirrorCookie =
    /** `JSON.stringify(v)` of a defined value, written by this code. */
    | Encoded(value: Json)
    /** The text `undefined`: what writing `JSON.stringify(undefined)` leaves. */
    | UndefinedText
    /** Any other text, with the outcome of `JSON.parse` on it. */
    | Foreign(raw: string, parsed: Result<Json, string>)

  /** The cookie written for `JSON.stringify(v)`. */
  function MirrorOf(v: Option<Json>): MirrorCookie {
    match v
    case None => UndefinedText
    case Some(j) => Encoded(j)
  }

  /** `if (userData)`: the cookie exists and its text is not empty; the
      text of a stringified value is never empty. */
  predicate MirrorSet(c: Option<MirrorCookie>) {
    c.Some? && (c.value.Foreign? ==> c.value.raw != "")
  }

  /** V8's message for `JSON.parse("undefined")`. */
  const UndefinedParseMessage := "\"undefined\" is not valid JSON"

  /** `JSON.parse` of the cookie's text. */
  function ParseMirror(c: MirrorCookie): (r: Result<Json, string>)
    ensures c.Encoded? ==> r == Success(c.value)
    ensures c.UndefinedText? ==> r.Failure?
  {
    match c
    case Encoded(j) => Success(j)
    case UndefinedText => Failure(UndefinedParseMessage)
    case Foreign(_, p) => p
  }

  /** `user` is JavaScript `null` or `undefined` when it is `Null`. */
  datatype Session = Session(user: Json, loading: bool, mirror: Option<MirrorCookie>) {
    /** The user is truthy, which is all the pages test. */
    predicate SignedIn() { JsTruthy(Some(user)) }
  }

  /** The provider's state on mount, with whatever `user` cookie the browser holds. */
  function Mounted(mirror: Option<MirrorCookie>): (s: Session)
    ensures s.loading && !s.SignedIn() && s.mirror == mirror
  {
    Session(Null, true, mirror)
  }

  /** The outcome of `checkAuth`: the new session, the returned boolean and
      whether `/api/auth/verify` was requested. */
  datatype Checked = Checked(session: Session, authenticated: bool, verifyCalled: bool)

  /** `checkAuth`, with `verify` the outcome of requesting `/api/auth/verify`
      and reading its JSON body. */
  function CheckAuth(s: Session, verify: Reply): (c: Checked)
    ensures !c.session.loading
    ensures MirrorSet(s.mirror) ==> !c.verifyCalled && c.session.mirror == s.mirror
    ensures MirrorSet(s.mirror) && ParseMirror(s.mirror.value).Success? ==>
      c.authenticated && c.session.user == ParseMirror(s.mirror.value).value
    ensures MirrorSet(s.mirror) && ParseMirror(s.mirror.value).Failure? ==>
      !c.authenticated && c.session.user == s.user
    ensures !MirrorSet(s.mirror) ==> c.verifyCalled
    ensures !MirrorSet(s.mirror) && verify.Ok() && !verify.body.Null? ==>
      && c.authenticated
      && c.session.user == Member(verify.body, "user").GetOr(Null)
      && c.session.mirror == Some(MirrorOf(Member(verify.body, "user")))
    ensures !MirrorSet(s.mirror) && !(verify.Ok() && !verify.body.Null?) ==>
      !c.authenticated && c.session == s.(loading := false)
  {
    if MirrorSet(s.mirror) then
      match ParseMirror(s.mirror.value)
      case Success(u) => Checked(s.(user := u, loading := false), true, false)
      case Failure(_) => Checked(s.(loading := false), false, false)
    else if !verify.Ok() then Checked(s.(loading := false), false, true)
    else
      match Get(verify.body, "user")
      case Failure(_) => Checked(s.(loading := false), false, true)
      case Success(u) =>
        Checked(Session(u.GetOr(Null), false, Some(MirrorOf(u))), true, true)
  }

  /** The request `login` sends to set the HTTP-only cookie. */
  function SetTokenRequest(token: Option<Json>): (o: Outbound)
    ensures o.verb == POST && o.url == "/api/auth/set-token" && o.headers == [JsonContent]
    ensures o.body.Some? && o.body.value.Obj? && Member(o.body.value, "token") == token
    ensures token.None? ==> o.body == Some(Obj([]))
  {
    Outbound(POST, "/api/auth/set-token", [JsonContent], Some(ObjectOf([("token", token)])))
  }

  datatype LoginOutcome = LoginOutcome(request: Outbound, session: Session, success: bool)

  /** `login(token, userData)`; `reply` is the outcome of the set-token
      request, whose body is not read. */
  function Login(s: Session, token: Option<Json>, userData: Option<Json>, reply: Reply): (o: LoginOutcome)
    ensures o.request == SetTokenRequest(token)
    ensures o.success <==> reply.Ok()
    ensures reply.Ok() ==>
      o.session == s.(user := userData.GetOr(Null), mirror := Some(MirrorOf(userData)))
    ensures !reply.Ok() ==> o.session == s
  {
    var request := SetTokenRequest(token);
    if reply.Ok() then
      LoginOutcome(request, s.(user := userData.GetOr(Null), mirror := Some(MirrorOf(userData))), true)
    else LoginOutcome(request, s, false)
  }

  const LoginPath := "/login"

  datatype Navigated = Navigated(session: Session, navigate: Option<string>)

  /** `logout()`; `reply` is the outcome of the logout request, whose
      status is ignored. */
  function Logout(s: Session, reply: Reply): (n: Navigated)
    ensures reply.Answered? ==>
      n.session == s.(user := Null, mirror := None) && n.navigate == Some(LoginPath)
    ensures reply.Threw? ==> n.session == s && n.navigate.None?
    ensures reply.Answered? ==> !n.session.SignedIn() && !MirrorSet(n.session.mirror)
  {
    match reply
    case Answered(_, _) => Navigated(s.(user := Null, mirror := None), Some(LoginPath))
    case Threw(_) => Navigated(s, None)
  }

  /** The provider's mount effect: `checkAuth`, then `/login` unless it
      answered true. */
  function Initialize(mirror: Option<MirrorCookie>, verify: Reply): (n: Navigated)
    ensures n.navigate == Some(LoginPath) <==> !CheckAuth(Mounted(mirror), verify).authenticated
    ensures n.navigate.None? || n.navigate == Some(LoginPath)
    ensures n.session == CheckAuth(Mounted(mirror), verify).session
    ensures !n.session.loading
  {
    var c := CheckAuth(Mounted(mirror), verify);
    Navigated(c.session, if c.authenticated then None else Some(LoginPath))
  }

  /** A successful login is remembered: the next `checkAuth` restores the
      same user from the cookie without asking the server. */
  lemma LoginThenCheck(s: Session, token: Option<Json>, u: Json, reply: Reply, verify: Reply)
    requires reply.Ok()
    ensures var c := CheckAuth(Login(s, token, Some(u), reply).session, verify);
      c.authenticated && !c.verifyCalled && c.session.user == u
  {
  }

  /** A login without user data writes the text `undefined`, which the
      next `checkAuth` cannot parse: it answers false without asking the
      server. */
  lemma LoginWithoutUserDataFailsNextCheck(s: Session, token: Option<Json>, reply: Reply, verify: Reply)
    requires reply.Ok()
    ensures var c := CheckAuth(Login(s, token, None, reply).session, verify);
      !c.authenticated && !c.verifyCalled && !c.session.SignedIn()
  {
  }

  /** What the verify path stores is what the fast path restores. */
  lemma VerifiedUserRestored(s: Session, verify: Reply, other: Reply, u: Json)
    requires !MirrorSet(s.mirror) && verify.Ok() && Member(verify.body, "user") == Some(u)
    ensures var c1 := CheckAuth(s, verify);
      var c2 := CheckAuth(c1.session, other);
      c1.authenticated && c2.authenticated && !c2.verifyCalled && c2.session == c1.session
  {
  }

  /** After a completed logout the next `checkAuth` has to ask the server. */
  lemma LogoutForcesVerify(s: Session, reply: Reply, verify: Reply)
    requires reply.Answered?
    ensures CheckAuth(Logout(s, reply).session, verify).verifyCalled
  {
  }

  /** Against the actual verify handler: with the HTTP-only cookie the
      session becomes the empty object `{}` (truthy) and is mirrored;
      without it `checkAuth` answers false. */
  lemma CheckAgainstVerifyRoute(s: Session, token: Option<string>)
    requires !MirrorSet(s.mirror)
    ensures var v := AuthRoutes.VerifyRoute(token);
      var c := CheckAuth(s, Answered(v.status, v.body));
      && (c.authenticated <==> HasToken(token))
      && (HasToken(token) ==> c.session.user == Obj([]) && c.session.SignedIn()
                              && c.session.mirror == Some(Encoded(Obj([]))))
  {
  }

  /** Against the actual set-token handler: the request `login` sends sets
      the HTTP-only cookie to exactly the token passed in, and is answered OK. */
  lemma LoginRequestSetsCookie(token: Option<Json>, nodeEnv: Option<string>)
    ensures var t := AuthRoutes.SetTokenRoute(Parsed(SetTokenRequest(token).body.value), nodeEnv);
      && t.cookie.Some? && t.cookie.value.value == token
      && Answered(t.response.status, t.response.body).Ok()
  {
    var fields := [("token", token)];
    assert Lookup(Present(fields), "token") == LookupField(fields, "token");
  }
}
