/** How the back end's answers reach the pages: a request goes from the
    page through the front end's route handler (which forwards the
    `access_token` cookie as a bearer token) to the FastAPI handler, and
    the answer comes back the same way. */
module EndToEnd {
  import opened Wrappers
  import opened Json
  import opened Http
  import Models
  import Fastapi
  import Gateway
  import InventoryPage
  import SavedRecipesPage
  import BackendAuth
  import BackendInventory
  import BackendApp
  import BackendUsers
  import AuthRoutes

  /** What the inventory page makes of `GET /inventory/` answering
      `outcome` for the bearer token `token`. */
  function InventoryPageAfter(token: string, outcome: Result<Json, Fastapi.HttpError>): InventoryPage.Loaded {
    var r := Gateway.InventoryRoute(Some(token), Fastapi.Respond(outcome)).response;
    InventoryPage.LoadInventory(Answered(r.status, r.body))
  }

  /** Every failure of the inventory request (an unresolved token, a
      database error, an empty table) reaches the page as the same fixed
      text, never as the back end's `detail`. */
  lemma InventoryErrorsShowFallback(token: string, decode: string -> Result<BackendAuth.Claims, string>,
                                    users: Result<seq<Models.User>, string>,
                                    query: Result<seq<Models.InventoryRow>, string>)
    requires token != ""
    requires BackendInventory.GetInventoryGrouped(BackendAuth.GetCurrentUser(token, decode, users), query).Failure?
    ensures InventoryPage.View(InventoryPageAfter(token,
              BackendInventory.GetInventoryGrouped(BackendAuth.GetCurrentUser(token, decode, users), query)))
         == InventoryPage.ErrorBanner(Gateway.InventoryFallback)
  {
    var e := BackendInventory.GetInventoryGrouped(BackendAuth.GetCurrentUser(token, decode, users), query).error;
    assert e.status in {401, 404, 500};
    InventoryPage.PageShowsFallbackForBackendErrors(token, e.status, Str(e.detail));
  }

  /** The entries grouped under `c` are those of the rows in `c`. */
  lemma {:induction false} EntriesOfCategory(rows: seq<Models.InventoryRow>, c: string, x: Json)
    ensures x in BackendInventory.Entries(rows, c) <==>
      exists k :: 0 <= k < |rows| && rows[k].category == c && x == BackendInventory.Entry(rows[k])
    decreases |rows|
  {
    if |rows| > 0 {
      var init := rows[..|rows| - 1];
      var row := rows[|rows| - 1];
      EntriesOfCategory(init, c, x);
      var tail := if row.category == c then [BackendInventory.Entry(row)] else [];
      assert BackendInventory.Entries(rows, c) == BackendInventory.Entries(init, c) + tail;
      if x in BackendInventory.Entries(rows, c) {
        if x in BackendInventory.Entries(init, c) {
          var k :| 0 <= k < |init| && init[k].category == c && x == BackendInventory.Entry(init[k]);
          assert rows[k] == init[k];
        } else {
          assert x in tail;
          assert rows[|rows| - 1].category == c && x == BackendInventory.Entry(rows[|rows| - 1]);
        }
      }
      if exists k :: 0 <= k < |rows| && rows[k].category == c && x == BackendInventory.Entry(rows[k]) {
        var k :| 0 <= k < |rows| && rows[k].category == c && x == BackendInventory.Entry(rows[k]);
        if k < |init| {
          assert init[k] == rows[k];
        } else {
          assert x in tail;
        }
      }
    }
  }

  /** Every entry listed under a category is an object. */
  lemma {:induction false} EntriesAreObjects(rows: seq<Models.InventoryRow>, c: string)
    ensures forall x :: x in BackendInventory.Entries(rows, c) ==> x.Obj?
    decreases |rows|
  {
    if |rows| > 0 {
      var init := rows[..|rows| - 1];
      var row := rows[|rows| - 1];
      EntriesAreObjects(init, c);
      var last := if row.category == c then [BackendInventory.Entry(row)] else [];
      assert forall x :: x in last ==> x.Obj?;
      assert BackendInventory.Entries(rows, c) == BackendInventory.Entries(init, c) + last;
    }
  }

  /** A name is on the shelf of category `c` exactly when a row of that
      category carries it. */
  lemma ShelfNames(rows: seq<Models.InventoryRow>, c: string, x: string)
    ensures x in InventoryPage.ItemNames(BackendInventory.Entries(rows, c)) <==>
      exists k :: 0 <= k < |rows| && rows[k].category == c && rows[k].name == x
  {
    var items := BackendInventory.Entries(rows, c);
    if x in InventoryPage.ItemNames(items) {
      var i :| 0 <= i < |items| && Member(items[i], "name") == Some(Str(x));
      EntriesOfCategory(rows, c, items[i]);
      var k :| 0 <= k < |rows| && rows[k].category == c && items[i] == BackendInventory.Entry(rows[k]);
      BackendInventory.EntryValues(rows[k]);
    }
    if exists k :: 0 <= k < |rows| && rows[k].category == c && rows[k].name == x {
      var k :| 0 <= k < |rows| && rows[k].category == c && rows[k].name == x;
      EntriesOfCategory(rows, c, BackendInventory.Entry(rows[k]));
      var i :| 0 <= i < |items| && items[i] == BackendInventory.Entry(rows[k]);
      BackendInventory.EntryValues(rows[k]);
      assert Member(items[i], "name") == Some(Str(x));
    }
  }

  /** The grouped inventory lists under each category exactly that
      category's entries. */
  lemma GroupedLists(rows: seq<Models.InventoryRow>)
    ensures var g := BackendInventory.Group(rows);
      forall i :: 0 <= i < |g| ==> g[i].1 == BackendInventory.Entries(rows, g[i].0)
  {
    var g := BackendInventory.Group(rows);
    forall i | 0 <= i < |g| ensures g[i].1 == BackendInventory.Entries(rows, g[i].0) {
      GroupedListAt(rows, i);
    }
  }

  /** The `i`-th group lists exactly its category's entries. */
  lemma GroupedListAt(rows: seq<Models.InventoryRow>, i: int)
    requires 0 <= i < |BackendInventory.Group(rows)|
    ensures var g := BackendInventory.Group(rows);
      g[i].1 == BackendInventory.Entries(rows, g[i].0)
  {
    var g := BackendInventory.Group(rows);
    BackendInventory.GroupLists(rows);
    assert forall j :: 0 <= j < |g| ==> BackendInventory.Categories(g)[j] == g[j].0;
    ListOfAt(g, i);
    assert BackendInventory.ListOf(g, g[i].0) == BackendInventory.Entries(rows, g[i].0);
  }

  /** The page can render the grouped inventory. */
  lemma GroupedRenderable(rows: seq<Models.InventoryRow>)
    ensures InventoryPage.Renderable(BackendInventory.GroupedJson(BackendInventory.Group(rows)))
  {
    var g := BackendInventory.Group(rows);
    var j := BackendInventory.GroupedJson(g);
    GroupedLists(rows);
    assert forall i :: 0 <= i < |g| ==> j.members[i].1.items == g[i].1;
    forall i, k | 0 <= i < |g| && 0 <= k < |g[i].1| ensures !g[i].1[k].Null? {
      var c := g[i].0;
      GroupedListAt(rows, i);
      EntriesAreObjects(rows, c);
      assert g[i].1[k] in BackendInventory.Entries(rows, c);
    }
  }

  /** The shelves the page shows for the grouped inventory. */
  function InventoryShelves(rows: seq<Models.InventoryRow>): (shelves: seq<InventoryPage.Shelf>)
    ensures var g := BackendInventory.Group(rows);
      && |shelves| == |g|
      && forall i :: 0 <= i < |g| ==> shelves[i] == InventoryPage.Shelf(g[i].0, InventoryPage.ItemNames(g[i].1))
  {
    GroupedRenderable(rows);
    InventoryPage.Shelves(BackendInventory.GroupedJson(BackendInventory.Group(rows)))
  }

  /** There is one shelf per category of the rows. */
  lemma ShelfCategories(rows: seq<Models.InventoryRow>)
    ensures var shelves := InventoryShelves(rows);
      forall c :: (exists i :: 0 <= i < |shelves| && shelves[i].category == c) <==> c in BackendInventory.RowCategories(rows)
  {
    var g := BackendInventory.Group(rows);
    var shelves := InventoryShelves(rows);
    BackendInventory.GroupCategories(rows);
    assert forall i :: 0 <= i < |shelves| ==> shelves[i].category == BackendInventory.Categories(g)[i];
  }

  /** No two shelves share a category. */
  lemma ShelvesDistinct(rows: seq<Models.InventoryRow>)
    ensures var shelves := InventoryShelves(rows);
      forall i, j :: 0 <= i < j < |shelves| ==> shelves[i].category != shelves[j].category
  {
    var g := BackendInventory.Group(rows);
    var shelves := InventoryShelves(rows);
    assert forall i :: 0 <= i < |shelves| ==> shelves[i].category == BackendInventory.Categories(g)[i];
  }

  /** Each shelf holds exactly the names of the rows in its category. */
  lemma ShelfContents(rows: seq<Models.InventoryRow>, i: int, x: string)
    requires 0 <= i < |BackendInventory.Group(rows)|
    ensures var group := BackendInventory.Group(rows)[i];
      x in InventoryPage.ItemNames(group.1) <==> exists k :: 0 <= k < |rows| && rows[k].category == group.0 && rows[k].name == x
  {
    GroupedLists(rows);
    ShelfNames(rows, BackendInventory.Group(rows)[i].0, x);
  }

  /** The same, read off the page's shelves. */
  lemma ShelfHolds(rows: seq<Models.InventoryRow>, i: int, x: string)
    requires 0 <= i < |InventoryShelves(rows)|
    ensures var shelf := InventoryShelves(rows)[i];
      x in shelf.names <==> exists k :: 0 <= k < |rows| && rows[k].category == shelf.category && rows[k].name == x
  {
    ShelfContents(rows, i, x);
  }

  /** An object the handler returns opens the page on its first key. */
  lemma LoadsObject(token: string, j: Json)
    requires token != "" && j.Obj? && |j.members| > 0
    ensures var l := InventoryPageAfter(token, Success(j));
      && l.error.None? && InventoryPage.View(l) == InventoryPage.Browse
      && l.inventory == j && l.activeTab == Some(j.members[0].0)
  {
    assert Fastapi.Respond(Success(j)) == Answered(200, j);
  }

  /** A signed-in user with a non-empty table sees the grouped inventory,
      with no error and the first row's category as the open tab. */
  lemma InventoryOpensOnFirstCategory(token: string, user: Models.User, rows: seq<Models.InventoryRow>)
    requires token != "" && |rows| > 0
    ensures var l := InventoryPageAfter(token, BackendInventory.GetInventoryGrouped(Success(user), Success(rows)));
      && l.error.None? && InventoryPage.View(l) == InventoryPage.Browse
      && l.inventory == BackendInventory.GroupedJson(BackendInventory.Group(rows))
      && l.activeTab == Some(rows[0].category)
  {
    var j := BackendInventory.GroupedJson(BackendInventory.Group(rows));
    FirstGroup(rows);
    HandlerReturnsGroups(user, rows);
    LoadsObject(token, j);
  }

  lemma FirstGroup(rows: seq<Models.InventoryRow>)
    requires |rows| > 0
    ensures var j := BackendInventory.GroupedJson(BackendInventory.Group(rows));
      j.Obj? && |j.members| > 0 && j.members[0].0 == rows[0].category
  {
  }

  lemma HandlerReturnsGroups(user: Models.User, rows: seq<Models.InventoryRow>)
    requires |rows| > 0
    ensures BackendInventory.GetInventoryGrouped(Success(user), Success(rows))
         == Success(BackendInventory.GroupedJson(BackendInventory.Group(rows)))
  {
  }

  /** In groups with distinct categories, reading a group's category gives
      its own list. */
  lemma {:induction false} ListOfAt(g: BackendInventory.Groups, i: int)
    requires 0 <= i < |g|
    requires forall a, b :: 0 <= a < b < |g| ==> g[a].0 != g[b].0
    ensures BackendInventory.ListOf(g, g[i].0) == g[i].1
    decreases i
  {
    if i > 0 {
      assert g[0].0 != g[i].0;
      ListOfAt(g[1..], i - 1);
    }
  }

  /** As written, the saved-recipes page never lists anything: the back
      end has no `/recipes/saved`, and its 404 reaches the page as the
      fixed fetch failure. */
  lemma SavedRecipesNeverLoad(token: string)
    requires token != ""
    ensures var d := BackendApp.Dispatched(BackendApp.RouteTable(BackendApp.MountedAsWritten), GET, BackendApp.SavedPath);
      && d == BackendApp.NotFound
      && var x := Gateway.SavedRecipesRoute(Some(token), BackendApp.Unhandled(d));
      && x.sent.value.url == Backend + BackendApp.Render(BackendApp.SavedPath)
      && SavedRecipesPage.LoadSaved(SavedRecipesPage.Initial, Answered(x.response.status, x.response.body))
         == SavedRecipesPage.Listing(Arr([]), false, Some(Gateway.SavedFallback))
  {
    BackendApp.RecipeCallsNotFound();
    BackendApp.SavedText();
    FastApiErrorsShowFallback(404, Str("Not Found"), Gateway.SavedFallback);
  }

  /** As written, every recipe generation the front end forwards fails
      with the fixed text: the back end has no `/recipes/generate`. */
  lemma GenerationNeverSucceeds(token: string, body: RequestBody)
    requires token != "" && body.Parsed? && !body.json.Null?
    ensures var d := BackendApp.Dispatched(BackendApp.RouteTable(BackendApp.MountedAsWritten), POST, BackendApp.GeneratePath);
      && d == BackendApp.NotFound
      && var x := Gateway.RecipeRoute(Some(token), body, BackendApp.Unhandled(d));
      && x.sent.value.url == Backend + BackendApp.Render(BackendApp.GeneratePath)
      && x.response == ErrorResponse(400, Gateway.GenerateFallback)
  {
    BackendApp.RecipeCallsNotFound();
    BackendApp.GenerateText();
    FastApiErrorsShowFallback(404, Str("Not Found"), Gateway.GenerateFallback);
  }

  /** A successful back-end login reaches the page unchanged: the login
      handler's projection onto `access_token` and `user` is exactly the
      `LoginResponse` body. */
  lemma LoginRelaysToken(j: Json, token: string, u: Models.User)
    requires !j.Null?
    ensures var b := BackendUsers.LoginBody(token, u);
      AuthRoutes.LoginRoute(Parsed(j), Fastapi.Respond(Success(b))).response == Response(200, b)
  {
    var b := BackendUsers.LoginBody(token, u);
    AuthRoutes.PickWhole(b.members, ["access_token", "user"]);
  }

  /** A successful back-end sign-up reaches the page unchanged: the
      register handler's projection is exactly the `UserOut` body, now
      with status 201. */
  lemma RegisterRelaysProfile(j: Json, u: Models.User)
    requires !j.Null?
    ensures var b := Models.UserOut(u);
      AuthRoutes.RegisterRoute(Parsed(j), Fastapi.Respond(Success(b))).response == Response(201, b)
  {
    var b := Models.UserOut(u);
    AuthRoutes.PickWhole(b.members, ["id", "email", "name", "gender"]);
  }

  /** A refused login never shows the back end's `detail`: FastAPI's error
      body has no `message`, so the page always reads "Login failed". */
  lemma LoginRefusalHidden(j: Json, e: Fastapi.HttpError)
    requires !j.Null? && !(200 <= e.status <= 299)
    ensures AuthRoutes.LoginRoute(Parsed(j), Fastapi.Respond(Failure(e))).response
         == ErrorResponse(400, AuthRoutes.LoginFallback)
  {
  }

  /** Likewise a refused sign-up always reads "Registration failed". */
  lemma RegisterRefusalHidden(j: Json, e: Fastapi.HttpError)
    requires !j.Null? && !(200 <= e.status <= 299)
    ensures AuthRoutes.RegisterRoute(Parsed(j), Fastapi.Respond(Failure(e))).response
         == ErrorResponse(400, AuthRoutes.RegisterFallback)
  {
  }
}
