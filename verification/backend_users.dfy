/** `POST /users/signup` and `POST /users/login`. The `users` table is a
    sequence of rows; password hashing and checking are opaque functions;
    a database failure is given by where it happens and its text. */
module BackendUsers {
  import opened Wrappers
  import opened Json
  import Text
  import Models
  import Fastapi
  import BackendAuth

  /** The `UserCreate` request schema. */
  datatype UserCreate = UserCreate(email: string, password: string, name: string, gender: Option<string>)

  /** The `UserLogin` request schema. */
  datatype UserLogin = UserLogin(email: string, password: string)

  /** `.filter(User.email == email).first()`. */
  function FindByEmail(users: seq<Models.User>, email: string): (r: Option<Models.User>)
    ensures r.None? <==> forall i :: 0 <= i < |users| ==> users[i].email != email
    ensures r.Some? ==> r.value in users && r.value.email == email
    decreases |users|
  {
    if |users| == 0 then None
    else if users[0].email == email then Some(users[0])
    else FindByEmail(users[1..], email)
  }

  /** Where a signup's `SQLAlchemyError` is raised, if anywhere. */
  datatype DbFault = NoFault | QueryFault(text: string) | CommitFault(text: string)

  /** The signup's response and the table it leaves. */
  datatype Signed = Signed(response: Result<Json, Fastapi.HttpError>, users: seq<Models.User>)

  const EmailTakenDetail := "Email already registered"
  const UnexpectedPrefix := "Unexpected error: "

  /** The 400 for a taken e-mail, as the generic handler rewraps it. */
  const EmailTakenText := UnexpectedPrefix + "400: " + EmailTakenDetail

  lemma EmailTakenRewrapped()
    ensures Fastapi.Rewrap(UnexpectedPrefix, Fastapi.Http(Fastapi.HttpError(400, EmailTakenDetail)))
         == Fastapi.HttpError(500, EmailTakenText)
  {
    Fastapi.StatusText(400);
    assert Text.IntToString(400) == "400";
    var d := Fastapi.Describe(Fastapi.Http(Fastapi.HttpError(400, EmailTakenDetail)));
    assert d == "400: " + EmailTakenDetail;
  }

  /** The row a successful signup stores: the request's e-mail, name and
      gender with the hash of its password, under the id the database
      assigns. */
  function NewUser(req: UserCreate, hash: string -> string, newId: int): Models.User {
    Models.User(newId, req.email, hash(req.password), req.name, req.gender)
  }

  /** `signup`: a taken e-mail is refused, but its 400 is caught by the
      generic handler and answered as 500; a database failure rolls back
      and answers 500; otherwise the new row is stored and returned
      through `UserOut`. */
  function Signup(users: seq<Models.User>, req: UserCreate, hash: string -> string, newId: int, fault: DbFault)
    : (s: Signed)
    ensures fault.QueryFault? ==>
      s == Signed(Failure(Fastapi.HttpError(500, BackendAuth.DatabasePrefix + fault.text)), users)
    ensures !fault.QueryFault? && FindByEmail(users, req.email).Some? ==>
      s == Signed(Failure(Fastapi.HttpError(500, EmailTakenText)), users)
    ensures fault.CommitFault? && FindByEmail(users, req.email).None? ==>
      s == Signed(Failure(Fastapi.HttpError(500, BackendAuth.DatabasePrefix + fault.text)), users)
    ensures s.response.Success? <==> fault.NoFault? && FindByEmail(users, req.email).None?
    ensures s.response.Success? ==>
      && s.users == users + [NewUser(req, hash, newId)]
      && s.response.value == Models.UserOut(NewUser(req, hash, newId))
    ensures s.response.Failure? ==> s.users == users && s.response.error.status == 500
  {
    if fault.QueryFault? then
      Signed(Failure(Fastapi.HttpError(500, BackendAuth.DatabasePrefix + fault.text)), users)
    else if FindByEmail(users, req.email).Some? then
      EmailTakenRewrapped();
      Signed(Failure(Fastapi.Rewrap(UnexpectedPrefix, Fastapi.Http(Fastapi.HttpError(400, EmailTakenDetail)))), users)
    else
      match fault
      case CommitFault(m) => Signed(Failure(Fastapi.HttpError(500, BackendAuth.DatabasePrefix + m)), users)
      case _ =>
        var u := NewUser(req, hash, newId);
        Signed(Success(Models.UserOut(u)), users + [u])
  }

  const InvalidCredentialsDetail := "Invalid credentials"

  /** The 401 for bad credentials, as the generic handler rewraps it. */
  const InvalidCredentialsText := UnexpectedPrefix + "401: " + InvalidCredentialsDetail

  lemma InvalidCredentialsRewrapped()
    ensures Fastapi.Rewrap(UnexpectedPrefix, Fastapi.Http(Fastapi.HttpError(401, InvalidCredentialsDetail)))
         == Fastapi.HttpError(500, InvalidCredentialsText)
  {
    Fastapi.StatusText(401);
    assert Text.IntToString(401) == "401";
    var d := Fastapi.Describe(Fastapi.Http(Fastapi.HttpError(401, InvalidCredentialsDetail)));
    assert d == "401: " + InvalidCredentialsDetail;
  }

  /** The claims a login token carries before `exp` is added. */
  function LoginClaims(u: Models.User): BackendAuth.Claims {
    [("user_id", Num(u.id))]
  }

  /** The `LoginResponse` body. */
  function LoginBody(token: string, u: Models.User): (b: Json)
    ensures Member(b, "access_token") == Some(Str(token))
    ensures Member(b, "user") == Some(Models.UserOut(u))
  {
    var m := [("access_token", Str(token)), ("user", Models.UserOut(u))];
    assert Lookup(m, "user") == Lookup(m[1..], "user");
    Obj(m)
  }

  /** `login`, given the table as the query sees it or the query's
      `SQLAlchemyError`: an unknown e-mail and a wrong password are
      refused alike, and both refusals end as the same 500. */
  function Login(users: Result<seq<Models.User>, string>, req: UserLogin, verify: (string, string) -> bool,
                 now: int, minutes: int, encode: BackendAuth.Claims -> Result<string, string>)
    : (r: Result<Json, Fastapi.HttpError>)
    ensures users.Failure? ==> r == Failure(Fastapi.HttpError(500, BackendAuth.DatabasePrefix + users.error))
    ensures users.Success? && FindByEmail(users.value, req.email).None? ==>
      r == Failure(Fastapi.HttpError(500, InvalidCredentialsText))
    ensures users.Success? && FindByEmail(users.value, req.email).Some?
            && !verify(req.password, FindByEmail(users.value, req.email).value.hashedPassword) ==>
      r == Failure(Fastapi.HttpError(500, InvalidCredentialsText))
    ensures r.Success? ==>
      && users.Success? && FindByEmail(users.value, req.email).Some?
      && var u := FindByEmail(users.value, req.email).value;
      && verify(req.password, u.hashedPassword)
      && var out := encode(BackendAuth.TokenClaims(LoginClaims(u), BackendAuth.ExpiryOf(now, minutes)));
      && out.Success? && r.value == LoginBody(out.value, u)
    ensures r.Failure? ==> r.error.status == 500
  {
    match users
    case Failure(m) => Failure(Fastapi.HttpError(500, BackendAuth.DatabasePrefix + m))
    case Success(table) =>
      match FindByEmail(table, req.email)
      case None =>
        InvalidCredentialsRewrapped();
        Failure(Fastapi.Rewrap(UnexpectedPrefix, Fastapi.Http(Fastapi.HttpError(401, InvalidCredentialsDetail))))
      case Some(u) =>
        if !verify(req.password, u.hashedPassword) then
          InvalidCredentialsRewrapped();
          Failure(Fastapi.Rewrap(UnexpectedPrefix, Fastapi.Http(Fastapi.HttpError(401, InvalidCredentialsDetail))))
        else
          match BackendAuth.CreateAccessToken(LoginClaims(u), now, minutes, encode)
          case Failure(e) => Failure(Fastapi.Rewrap(UnexpectedPrefix, Fastapi.Http(e)))
          case Success(token) => Success(LoginBody(token, u))
  }

  /** A new row's e-mail is found again once it is stored. */
  lemma {:induction false} FindAppended(users: seq<Models.User>, u: Models.User)
    requires FindByEmail(users, u.email).None?
    ensures FindByEmail(users + [u], u.email) == Some(u)
    decreases |users|
  {
    if |users| > 0 {
      assert (users + [u])[1..] == users[1..] + [u];
      FindAppended(users[1..], u);
    } else {
      assert users + [u] == [u];
    }
  }

  /** Signing up and then logging in with the same e-mail and password
      yields a token for the new user's id, provided the password checks
      against its own hash and the token can be encoded. */
  lemma SignupThenLogin(users: seq<Models.User>, req: UserCreate, hash: string -> string, newId: int,
                        verify: (string, string) -> bool, now: int, minutes: int,
                        encode: BackendAuth.Claims -> Result<string, string>)
    requires Signup(users, req, hash, newId, NoFault).response.Success?
    requires verify(req.password, hash(req.password))
    requires encode(BackendAuth.TokenClaims([("user_id", Num(newId))], BackendAuth.ExpiryOf(now, minutes))).Success?
    ensures var s := Signup(users, req, hash, newId, NoFault);
      var r := Login(Success(s.users), UserLogin(req.email, req.password), verify, now, minutes, encode);
      && r.Success?
      && r.value == LoginBody(encode(BackendAuth.TokenClaims([("user_id", Num(newId))],
                                                            BackendAuth.ExpiryOf(now, minutes))).value,
                              NewUser(req, hash, newId))
  {
    FindAppended(users, NewUser(req, hash, newId));
  }

  /** The token a login returns resolves, through `get_current_user`, to
      the user who logged in, once the decoder gives back the claims the
      encoder was handed. */
  lemma LoginTokenResolvesUser(users: seq<Models.User>, req: UserLogin, verify: (string, string) -> bool,
                               now: int, minutes: int, encode: BackendAuth.Claims -> Result<string, string>,
                               decode: string -> Result<BackendAuth.Claims, string>)
    requires BackendAuth.UniqueIds(users)
    requires Login(Success(users), req, verify, now, minutes, encode).Success?
    requires var u := FindByEmail(users, req.email).value;
      var c := BackendAuth.TokenClaims(LoginClaims(u), BackendAuth.ExpiryOf(now, minutes));
      decode(encode(c).value) == Success(c)
    ensures var u := FindByEmail(users, req.email).value;
      var c := BackendAuth.TokenClaims(LoginClaims(u), BackendAuth.ExpiryOf(now, minutes));
      BackendAuth.GetCurrentUser(encode(c).value, decode, Success(users)) == Success(u)
  {
    var u := FindByEmail(users, req.email).value;
    var c := BackendAuth.TokenClaims(LoginClaims(u), BackendAuth.ExpiryOf(now, minutes));
    assert Lookup(c, "user_id") == Lookup(LoginClaims(u), "user_id") == Some(Num(u.id));
    BackendAuth.ClaimResolvesUser(encode(c).value, decode, users, u);
  }
}
