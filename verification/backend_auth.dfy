/** Access tokens and the resolution of the current user from a token.
    Signing and verifying a JWT are opaque: `encode` and `decode` are
    the outcomes `jwt.encode` and `jwt.decode` give, with a failure
    standing for any exception they raise. */
module BackendAuth {
  import opened Wrappers
  import opened Json
  import Text
  import Models
  import Fastapi

  /** A JWT payload: a dictionary in insertion order. */
  type Claims = seq<(string, Json)>

  /** The `exp` claim: the current time (in seconds) plus the configured
      number of minutes. */
  function ExpiryOf(now: int, minutes: int): int {
    now + 60 * minutes
  }

  /** `to_encode = data.copy(); to_encode.update({"exp": expire})`: the
      caller's claims plus `exp`, an existing `exp` overwritten in place. */
  function TokenClaims(data: Claims, expire: int): (c: Claims)
    ensures Lookup(c, "exp") == Some(Num(expire))
    ensures forall k :: k != "exp" ==> Lookup(c, k) == Lookup(data, k)
    ensures Lookup(data, "exp").Some? ==> |c| == |data|
    ensures Lookup(data, "exp").None? ==> c == data + [("exp", Num(expire))]
  {
    AssignNew(data, "exp", Num(expire));
    Assign(data, "exp", Num(expire))
  }

  /** Assigning a key the members lack appends it. */
  lemma {:induction false} AssignNew(members: seq<(string, Json)>, key: string, value: Json)
    ensures Lookup(members, key).None? ==> Assign(members, key, value) == members + [(key, value)]
  {
    if |members| > 0 && members[0].0 != key {
      AssignNew(members[1..], key, value);
      assert members == [members[0]] + members[1..];
    }
  }

  const TokenFailurePrefix := "Token creation failed: "

  /** `create_access_token`: the encoder's token for the claims, or a 500
      when the encoder raises. */
  function CreateAccessToken(data: Claims, now: int, minutes: int, encode: Claims -> Result<string, string>)
    : (r: Result<string, Fastapi.HttpError>)
    ensures var out := encode(TokenClaims(data, ExpiryOf(now, minutes)));
      && (out.Success? ==> r == Success(out.value))
      && (out.Failure? ==> r == Failure(Fastapi.HttpError(500, TokenFailurePrefix + out.error)))
  {
    match encode(TokenClaims(data, ExpiryOf(now, minutes)))
    case Success(t) => Success(t)
    case Failure(m) => Failure(Fastapi.Rewrap(TokenFailurePrefix, Fastapi.Other(m)))
  }

  /** `decode_access_token`: every decoding failure is swallowed into
      `None`. */
  function DecodeAccessToken(token: string, decode: string -> Result<Claims, string>): (r: Option<Claims>)
    ensures r.None? <==> decode(token).Failure?
    ensures r.Some? ==> r.value == decode(token).value
  {
    match decode(token)
    case Success(c) => Some(c)
    case Failure(_) => None
  }

  /** `payload.get("user_id")` when it is not `None`. */
  function UserClaim(payload: Option<Claims>): (r: Option<Json>)
    ensures r.Some? <==> payload.Some? && Lookup(payload.value, "user_id").Some?
                         && !Lookup(payload.value, "user_id").value.Null?
    ensures r.Some? ==> r == Lookup(payload.value, "user_id")
  {
    if payload.None? then None
    else match Lookup(payload.value, "user_id")
      case None => None
      case Some(v) => if v.Null? then None else Some(v)
  }

  /** `.filter(User.id == id).first()`. */
  function FindById(users: seq<Models.User>, id: int): (r: Option<Models.User>)
    ensures r.None? <==> forall i :: 0 <= i < |users| ==> users[i].id != id
    ensures r.Some? ==> r.value in users && r.value.id == id
    ensures r.Some? ==> exists i :: 0 <= i < |users| && users[i] == r.value
                          && forall j :: 0 <= j < i ==> users[j].id != id
    decreases |users|
  {
    if |users| == 0 then None
    else if users[0].id == id then Some(users[0])
    else
      var r := FindById(users[1..], id);
      assert r.Some? ==> exists i :: 0 <= i < |users[1..]| && users[1..][i] == r.value
                          && forall j :: 0 <= j < i ==> users[1..][j].id != id;
      r
  }

  /** The user a claim names: only an integer claim can equal an id. */
  function ClaimedUser(users: seq<Models.User>, claim: Json): (r: Option<Models.User>)
    ensures !claim.Num? ==> r.None?
    ensures claim.Num? ==> r == FindById(users, claim.n)
  {
    if claim.Num? then FindById(users, claim.n) else None
  }

  const InvalidTokenDetail := "Invalid or expired token"
  const UserNotFoundDetail := "User not found"
  const DatabasePrefix := "Database error: "

  /** Ids are unique, as the primary key guarantees. */
  predicate UniqueIds(users: seq<Models.User>) {
    forall i, j :: 0 <= i < j < |users| ==> users[i].id != users[j].id
  }

  /** `get_current_user`, given the `users` table as the query sees it or
      the text of the `SQLAlchemyError` it raises. Its own
      `HTTPException`s propagate unchanged. */
  function GetCurrentUser(token: string, decode: string -> Result<Claims, string>,
                          users: Result<seq<Models.User>, string>)
    : (r: Result<Models.User, Fastapi.HttpError>)
    ensures UserClaim(DecodeAccessToken(token, decode)).None? ==>
      r == Failure(Fastapi.HttpError(401, InvalidTokenDetail))
    ensures UserClaim(DecodeAccessToken(token, decode)).Some? && users.Failure? ==>
      r == Failure(Fastapi.HttpError(500, DatabasePrefix + users.error))
    ensures UserClaim(DecodeAccessToken(token, decode)).Some? && users.Success?
            && ClaimedUser(users.value, UserClaim(DecodeAccessToken(token, decode)).value).None? ==>
      r == Failure(Fastapi.HttpError(404, UserNotFoundDetail))
    ensures r.Success? ==>
      && users.Success? && r.value in users.value
      && UserClaim(DecodeAccessToken(token, decode)) == Some(Num(r.value.id))
    ensures r.Success? <==> UserClaim(DecodeAccessToken(token, decode)).Some? && users.Success?
                            && ClaimedUser(users.value, UserClaim(DecodeAccessToken(token, decode)).value).Some?
    ensures r.Failure? ==> r.error.status == 401 || r.error.status == 404 || r.error.status == 500
  {
    match UserClaim(DecodeAccessToken(token, decode))
    case None => Failure(Fastapi.HttpError(401, InvalidTokenDetail))
    case Some(claim) =>
      match users
      case Failure(m) => Failure(Fastapi.HttpError(500, DatabasePrefix + m))
      case Success(table) =>
        match ClaimedUser(table, claim)
        case None => Failure(Fastapi.HttpError(404, UserNotFoundDetail))
        case Some(u) => Success(u)
  }

  /** With unique ids, a token claiming a user's id resolves to exactly
      that user, whatever else the token carries. */
  lemma ClaimResolvesUser(token: string, decode: string -> Result<Claims, string>,
                          users: seq<Models.User>, u: Models.User)
    requires UniqueIds(users) && u in users
    requires decode(token).Success? && Lookup(decode(token).value, "user_id") == Some(Num(u.id))
    ensures GetCurrentUser(token, decode, Success(users)) == Success(u)
  {
    var f := FindById(users, u.id);
    assert f.Some?;
    var a :| 0 <= a < |users| && users[a] == f.value;
    var k :| 0 <= k < |users| && users[k] == u;
    assert users[a].id == users[k].id;
    assert a == k;
  }
}
