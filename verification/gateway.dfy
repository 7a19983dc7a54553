/** The protected route handlers of the front end (`/api/inventory`,
    `/api/recipe`, `/api/save-recipe`, `/api/get-saved-recipes`): each
    checks for the `access_token` cookie, forwards to the back end with a
    bearer header, and normalises the answer to 200, 400 or 401. */
module Gateway {
  import opened Wrappers
  import opened Json
  import opened Http

  const NoTokenMessage := "No access token found"
  const InventoryFallback := "Failed to fetch inventory"
  const GenerateFallback := "Failed to generate recipes"
  const SaveFallback := "Failed to save recipe"
  const SavedFallback := "Failed to fetch saved recipes"

  /** The 401 answer given without contacting the back end. */
  function NoToken(): Exchange {
    Exchange(None, ErrorResponse(401, NoTokenMessage))
  }

  /** `GET /api/inventory`. */
  function InventoryRoute(token: Option<string>, backend: Reply): (x: Exchange)
    ensures !HasToken(token) ==> x == NoToken()
    ensures HasToken(token) ==>
      x.sent == Some(Outbound(GET, Backend + "/inventory", AuthorizedHeaders(token.value), None))
    ensures x.sent.Some? ==> Header(x.sent.value.headers, "Authorization") == Some("Bearer " + token.value)
    ensures x.response.status in {200, 400, 401}
    ensures x.response.status == 200 <==> HasToken(token) && backend.Ok()
    ensures HasToken(token) && backend.Ok() ==> x.response.body == backend.body
    ensures HasToken(token) && !backend.Ok() ==>
      x.response == ErrorResponse(400, FailureText(backend, InventoryFallback))
  {
    if !HasToken(token) then NoToken()
    else
      var out := Outbound(GET, Backend + "/inventory", AuthorizedHeaders(token.value), None);
      Exchange(Some(out), Settle(backend, InventoryFallback))
  }

  /** `GET /api/get-saved-recipes`. */
  function SavedRecipesRoute(token: Option<string>, backend: Reply): (x: Exchange)
    ensures !HasToken(token) ==> x == NoToken()
    ensures HasToken(token) ==>
      x.sent == Some(Outbound(GET, Backend + "/recipes/saved", AuthorizedHeaders(token.value), None))
    ensures x.sent.Some? ==> Header(x.sent.value.headers, "Authorization") == Some("Bearer " + token.value)
    ensures x.response.status in {200, 400, 401}
    ensures x.response.status == 200 <==> HasToken(token) && backend.Ok()
    ensures HasToken(token) && backend.Ok() ==> x.response.body == backend.body
    ensures HasToken(token) && !backend.Ok() ==>
      x.response == ErrorResponse(400, FailureText(backend, SavedFallback))
  {
    if !HasToken(token) then NoToken()
    else
      var out := Outbound(GET, Backend + "/recipes/saved", AuthorizedHeaders(token.value), None);
      Exchange(Some(out), Settle(backend, SavedFallback))
  }

  /** `POST /api/recipe`: the body is read before the cookie is checked,
      and only `ingredients` is forwarded. */
  function RecipeRoute(token: Option<string>, body: RequestBody, backend: Reply): (x: Exchange)
    ensures body.Unparsable? ==>
      x == Exchange(None, ErrorResponse(400, Text.OrElse(body.message, GenerateFallback)))
    ensures body.Parsed? && body.json.Null? ==> x.sent.None? && x.response.status == 400
    ensures body.Parsed? && !body.json.Null? && !HasToken(token) ==> x == NoToken()
    ensures x.sent.Some? ==>
      && HasToken(token)
      && x.sent.value.verb == POST
      && x.sent.value.url == Backend + "/recipes/generate"
      && x.sent.value.headers == AuthorizedHeaders(token.value)
      && x.sent.value.body.Some?
      && OnlyKeys(x.sent.value.body.value, {"ingredients"})
      && Lookup(x.sent.value.body.value.members, "ingredients") == Member(body.json, "ingredients")
    ensures x.sent.Some? <==> body.Parsed? && !body.json.Null? && HasToken(token)
    ensures x.response.status in {200, 400, 401}
    ensures x.sent.Some? ==> x.response == Settle(backend, GenerateFallback)
  {
    match ReadField(body, "ingredients")
    case Failure(m) => Exchange(None, ErrorResponse(400, Text.OrElse(m, GenerateFallback)))
    case Success(j) =>
      if !HasToken(token) then NoToken()
      else
        var forwarded := ObjectOf([("ingredients", Member(j, "ingredients"))]);
        var out := Outbound(POST, Backend + "/recipes/generate", AuthorizedHeaders(token.value), Some(forwarded));
        Exchange(Some(out), Settle(backend, GenerateFallback))
  }

  /** The save payload: the incoming members, with `youtube_videos`
      replaced by `[]` when missing or falsy. */
  function SavePayload(recipe: Json): (p: Json)
    requires !recipe.Null?
    ensures p.Obj?
    ensures JsTruthy(Member(recipe, "youtube_videos")) ==>
      Lookup(p.members, "youtube_videos") == Member(recipe, "youtube_videos")
    ensures !JsTruthy(Member(recipe, "youtube_videos")) ==>
      Lookup(p.members, "youtube_videos") == Some(Arr([]))
    ensures forall k :: k != "youtube_videos" ==> Lookup(p.members, k) == Lookup(Spread(recipe), k)
    ensures recipe.Obj? ==> forall k :: k != "youtube_videos" ==> Lookup(p.members, k) == Member(recipe, k)
  {
    var videos := Member(recipe, "youtube_videos");
    Obj(Assign(Spread(recipe), "youtube_videos", if JsTruthy(videos) then videos.value else Arr([])))
  }

  /** `POST /api/save-recipe`: the body is read before the cookie is
      checked; reading `youtube_videos` of a `null` body throws after it. */
  function SaveRecipeRoute(token: Option<string>, body: RequestBody, backend: Reply): (x: Exchange)
    ensures body.Unparsable? ==>
      x == Exchange(None, ErrorResponse(400, Text.OrElse(body.message, SaveFallback)))
    ensures body.Parsed? && !HasToken(token) ==> x == NoToken()
    ensures body.Parsed? && body.json.Null? && HasToken(token) ==>
      x == Exchange(None, ErrorResponse(400, NullPropertyMessage("youtube_videos")))
    ensures x.sent.Some? <==> body.Parsed? && !body.json.Null? && HasToken(token)
    ensures x.sent.Some? ==>
      x.sent == Some(Outbound(POST, Backend + "/recipes/save", AuthorizedHeaders(token.value),
                              Some(SavePayload(body.json))))
      && x.response == Settle(backend, SaveFallback)
    ensures x.response.status in {200, 400, 401}
  {
    match body
    case Unparsable(m) => Exchange(None, ErrorResponse(400, Text.OrElse(m, SaveFallback)))
    case Parsed(recipe) =>
      if !HasToken(token) then NoToken()
      else if recipe.Null? then Exchange(None, ErrorResponse(400, NullPropertyMessage("youtube_videos")))
      else
        var out := Outbound(POST, Backend + "/recipes/save", AuthorizedHeaders(token.value), Some(SavePayload(recipe)));
        Exchange(Some(out), Settle(backend, SaveFallback))
  }

  /** Without a token no protected handler depends on the back end's answer. */
  lemma NoTokenIgnoresBackend(token: Option<string>, body: RequestBody, r1: Reply, r2: Reply)
    requires !HasToken(token)
    ensures InventoryRoute(token, r1) == InventoryRoute(token, r2)
    ensures SavedRecipesRoute(token, r1) == SavedRecipesRoute(token, r2)
    ensures RecipeRoute(token, body, r1) == RecipeRoute(token, body, r2)
    ensures SaveRecipeRoute(token, body, r1) == SaveRecipeRoute(token, body, r2)
  {
  }

  /** A provided, truthy `youtube_videos` is forwarded unchanged, and an
      object payload keeps every other member it had. */
  lemma SavePayloadKeepsObject(members: seq<(string, Json)>, videos: Json)
    requires Lookup(members, "youtube_videos") == Some(videos)
    requires JsTruthy(Some(videos))
    ensures SavePayload(Obj(members)) == Obj(members)
  {
    AssignExisting(members, "youtube_videos", videos);
  }

  /** Assigning a member its current value leaves the members as they are. */
  lemma {:induction false} AssignExisting(members: seq<(string, Json)>, key: string, value: Json)
    requires Lookup(members, key) == Some(value)
    ensures Assign(members, key, value) == members
  {
    if members[0].0 != key {
      AssignExisting(members[1..], key, value);
      assert [members[0]] + members[1..] == members;
    } else {
      assert [(key, value)] + members[1..] == members;
    }
  }
}
