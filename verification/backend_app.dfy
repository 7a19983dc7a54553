/** The FastAPI application: the routers `main.py` includes and how a
    request's method and path select an endpoint, including FastAPI's
    answers when none matches. A path is its list of segments and whether
    it ends in a slash; `Render` gives its text. */
module BackendApp {
  import opened Json
  import Http

  /** The path segments the application's routes use. */
  datatype Segment =
    | Users | Signup | Login | Inventory | Recipes | Generate | YoutubeSearch | Save | Saved
    | OpenapiJson | Docs | Oauth2Redirect | Redoc

  function SegmentText(s: Segment): string {
    match s
    case Users => "users"
    case Signup => "signup"
    case Login => "login"
    case Inventory => "inventory"
    case Recipes => "recipes"
    case Generate => "generate"
    case YoutubeSearch => "youtube-search"
    case Save => "save"
    case Saved => "saved"
    case OpenapiJson => "openapi.json"
    case Docs => "docs"
    case Oauth2Redirect => "oauth2-redirect"
    case Redoc => "redoc"
  }

  /** A URL path: `/` followed by the segments joined with `/`, and a
      final `/` when `slash` holds. The root `/` has no segments. */
  datatype Path = Path(segments: seq<Segment>, slash: bool)

  function Render(p: Path): string
    decreases |p.segments|
  {
    if |p.segments| == 0 then "/"
    else if |p.segments| == 1 && !p.slash then "/" + SegmentText(p.segments[0])
    else "/" + SegmentText(p.segments[0]) + Render(Path(p.segments[1..], p.slash))
  }

  /** The handlers the routers declare, the root route, and the schema and
      documentation pages `FastAPI()` adds on its own. */
  datatype Endpoint =
    | Welcome | SignupUser | LoginUser | GroupInventory
    | GenerateRecipes | SearchVideos | SaveRecipe | ListSavedRecipes
    | OpenApiSchema | SwaggerUi | SwaggerRedirect | RedocUi

  /** One route: a method, a path and its handler. */
  datatype Route = Route(verb: Http.Method, path: Path, endpoint: Endpoint)

  /** An `APIRouter`: its prefix and its routes, their paths under it. */
  datatype Router = Router(prefix: seq<Segment>, routes: seq<Route>)

  const UserRouter := Router([Users], [
    Route(Http.POST, Path([Signup], false), SignupUser), Route(Http.POST, Path([Login], false), LoginUser)])
  /** The inventory router's one route is `/` under its prefix. */
  const InventoryRouter := Router([Inventory], [Route(Http.GET, Path([], true), GroupInventory)])
  const RecipeRouter := Router([Recipes], [
    Route(Http.POST, Path([Generate], false), GenerateRecipes),
    Route(Http.POST, Path([YoutubeSearch], false), SearchVideos),
    Route(Http.POST, Path([Save], false), SaveRecipe),
    Route(Http.GET, Path([Saved], false), ListSavedRecipes)])

  /** The routes `FastAPI()` registers while it is constructed, before
      `main.py` adds any: the OpenAPI schema, Swagger UI with its OAuth2
      redirect, and ReDoc. */
  const DocsRoutes := [
    Route(Http.GET, Path([OpenapiJson], false), OpenApiSchema),
    Route(Http.GET, Path([Docs], false), SwaggerUi),
    Route(Http.GET, Path([Docs, Oauth2Redirect], false), SwaggerRedirect),
    Route(Http.GET, Path([Redoc], false), RedocUi)]

  /** The routers `main.py` includes: the recipe router is not among them. */
  const MountedAsWritten := [UserRouter, InventoryRouter]

  /** The application with the recipe router included as well. */
  const Mounted := [UserRouter, InventoryRouter, RecipeRouter]

  /** The route under a prefix. */
  function Under(prefix: seq<Segment>, route: Route): (r: Route)
  {
    route.(path := Path(prefix + route.path.segments, route.path.slash))
  }

  /** The routes of a router, their paths under its prefix. */
  function Prefixed(r: Router): (table: seq<Route>)
    ensures |table| == |r.routes|
    ensures forall i :: 0 <= i < |table| ==> table[i] == Under(r.prefix, r.routes[i])
  {
    seq(|r.routes|, i requires 0 <= i < |r.routes| => Under(r.prefix, r.routes[i]))
  }

  /** The routes of the included routers, in the order of inclusion. */
  function Included(routers: seq<Router>): (table: seq<Route>)
    decreases |routers|
  {
    if |routers| == 0 then [] else Prefixed(routers[0]) + Included(routers[1..])
  }

  /** A route is included exactly when one of the routers declares it. */
  lemma {:induction false} IncludedRoutes(routers: seq<Router>, route: Route)
    ensures route in Included(routers) <==> exists k :: 0 <= k < |routers| && route in Prefixed(routers[k])
    decreases |routers|
  {
    if |routers| > 0 {
      IncludedRoutes(routers[1..], route);
      assert forall k :: 1 <= k < |routers| ==> routers[k] == routers[1..][k - 1];
      if route in Included(routers[1..]) {
        var k :| 0 <= k < |routers[1..]| && route in Prefixed(routers[1..][k]);
        assert route in Prefixed(routers[k + 1]);
      }
    }
  }

  const RootPath := Path([], true)

  const RootRoute := Route(Http.GET, RootPath, Welcome)

  /** The application's route table in registration order: the
      documentation routes, then the included routers' routes, then
      `GET /`, which `main.py` declares after including the routers. */
  function RouteTable(routers: seq<Router>): (table: seq<Route>)
    ensures |table| == |DocsRoutes| + |Included(routers)| + 1
    ensures table[..|DocsRoutes|] == DocsRoutes
    ensures table[|DocsRoutes|..|table| - 1] == Included(routers)
    ensures table[|table| - 1] == RootRoute
  {
    var t := DocsRoutes + Included(routers) + [RootRoute];
    assert t[..|DocsRoutes|] == DocsRoutes;
    assert t[|DocsRoutes|..|t| - 1] == Included(routers);
    t
  }

  /** The table holds exactly the documentation routes, the root route and
      the routes some included router declares. */
  lemma TableRoutes(routers: seq<Router>, route: Route)
    ensures route in RouteTable(routers) <==>
      || route in DocsRoutes
      || route == RootRoute
      || exists k :: 0 <= k < |routers| && route in Prefixed(routers[k])
  {
    IncludedRoutes(routers, route);
    var t := RouteTable(routers);
    assert t == DocsRoutes + Included(routers) + [RootRoute];
  }

  lemma UserRoutes()
    ensures Prefixed(UserRouter) == [
      Route(Http.POST, Path([Users, Signup], false), SignupUser),
      Route(Http.POST, Path([Users, Login], false), LoginUser)]
  {
    var t := Prefixed(UserRouter);
    assert [Users] + [Signup] == [Users, Signup];
    assert [Users] + [Login] == [Users, Login];
    assert t[0] == Under([Users], UserRouter.routes[0]);
    assert t[1] == Under([Users], UserRouter.routes[1]);
  }

  lemma InventoryRoutes()
    ensures Prefixed(InventoryRouter) == [Route(Http.GET, Path([Inventory], true), GroupInventory)]
  {
    var t := Prefixed(InventoryRouter);
    assert [Inventory] + [] == [Inventory];
    assert t[0] == Under([Inventory], InventoryRouter.routes[0]);
  }

  lemma RecipeRoutes()
    ensures Prefixed(RecipeRouter) == [
      Route(Http.POST, Path([Recipes, Generate], false), GenerateRecipes),
      Route(Http.POST, Path([Recipes, YoutubeSearch], false), SearchVideos),
      Route(Http.POST, Path([Recipes, Save], false), SaveRecipe),
      Route(Http.GET, Path([Recipes, Saved], false), ListSavedRecipes)]
  {
    var t := Prefixed(RecipeRouter);
    assert [Recipes] + [Generate] == [Recipes, Generate];
    assert [Recipes] + [YoutubeSearch] == [Recipes, YoutubeSearch];
    assert [Recipes] + [Save] == [Recipes, Save];
    assert [Recipes] + [Saved] == [Recipes, Saved];
    assert t[0] == Under([Recipes], RecipeRouter.routes[0]);
    assert t[1] == Under([Recipes], RecipeRouter.routes[1]);
    assert t[2] == Under([Recipes], RecipeRouter.routes[2]);
    assert t[3] == Under([Recipes], RecipeRouter.routes[3]);
  }

  /** The table `main.py` builds. */
  lemma TableAsWritten()
    ensures RouteTable(MountedAsWritten) == DocsRoutes + [
      Route(Http.POST, Path([Users, Signup], false), SignupUser),
      Route(Http.POST, Path([Users, Login], false), LoginUser),
      Route(Http.GET, Path([Inventory], true), GroupInventory),
      RootRoute]
  {
    assert RouteTable(MountedAsWritten) == DocsRoutes + Included(MountedAsWritten) + [RootRoute];
    UserRoutes();
    InventoryRoutes();
    assert MountedAsWritten[1..] == [InventoryRouter];
    assert MountedAsWritten[1..][1..] == [];
    assert Included(MountedAsWritten[1..]) == Prefixed(InventoryRouter);
  }

  /** Including the recipe router puts its routes after the inventory
      route and before `GET /`. */
  lemma TableMounted()
    ensures RouteTable(Mounted) == DocsRoutes + [
      Route(Http.POST, Path([Users, Signup], false), SignupUser),
      Route(Http.POST, Path([Users, Login], false), LoginUser),
      Route(Http.GET, Path([Inventory], true), GroupInventory),
      Route(Http.POST, Path([Recipes, Generate], false), GenerateRecipes),
      Route(Http.POST, Path([Recipes, YoutubeSearch], false), SearchVideos),
      Route(Http.POST, Path([Recipes, Save], false), SaveRecipe),
      Route(Http.GET, Path([Recipes, Saved], false), ListSavedRecipes),
      RootRoute]
  {
    UserRoutes();
    InventoryRoutes();
    assert RouteTable(Mounted) == DocsRoutes + Included(Mounted) + [RootRoute];
    RecipeRoutes();
    assert Mounted[1..] == [InventoryRouter, RecipeRouter];
    assert Mounted[1..][1..] == [RecipeRouter];
    assert Mounted[1..][1..][1..] == [];
    assert MountedAsWritten[1..] == [InventoryRouter];
    assert MountedAsWritten[1..][1..] == [];
    var c := Included(Mounted[1..][1..]);
    assert Included(Mounted[1..][1..][1..]) == [];
    assert c == Prefixed(RecipeRouter) + [];
    var b := Included(Mounted[1..]);
    assert b == Prefixed(InventoryRouter) + c;
    assert Included(Mounted) == Prefixed(UserRouter) + b;
    assert Included(MountedAsWritten) == Prefixed(UserRouter) + Prefixed(InventoryRouter);
  }

  /** The outcome of dispatching one request. */
  datatype Dispatch = Handled(endpoint: Endpoint) | MethodNotAllowed | NotFound

  /** Starlette's scan of the table for one path: the first route that
      matches both path and method handles it; a path match with another
      method gives 405; no path match, 404. */
  function Match(table: seq<Route>, verb: Http.Method, path: Path): (d: Dispatch)
    ensures d.Handled? ==> Route(verb, path, d.endpoint) in table
    decreases |table|
  {
    if |table| == 0 then NotFound
    else if table[0].verb == verb && table[0].path == path then Handled(table[0].endpoint)
    else
      var d := Match(table[1..], verb, path);
      if d.Handled? then d
      else if table[0].path == path then MethodNotAllowed
      else d
  }

  /** The scan, against its reference reading: a request is handled
      exactly when some route has its method and path, and then by the
      first such route; it is not found exactly when no route has its
      path. */
  lemma {:induction false} MatchSpec(table: seq<Route>, verb: Http.Method, path: Path)
    ensures Match(table, verb, path).Handled? <==>
      exists i :: 0 <= i < |table| && table[i].verb == verb && table[i].path == path
    ensures Match(table, verb, path).Handled? ==>
      exists i :: 0 <= i < |table| && table[i] == Route(verb, path, Match(table, verb, path).endpoint)
        && forall j :: 0 <= j < i ==> !(table[j].verb == verb && table[j].path == path)
    ensures Match(table, verb, path) == NotFound <==> forall i :: 0 <= i < |table| ==> table[i].path != path
    decreases |table|
  {
    if |table| > 0 {
      MatchSpec(table[1..], verb, path);
      assert forall i :: 1 <= i < |table| ==> table[i] == table[1..][i - 1];
      var d := Match(table, verb, path);
      if !(table[0].verb == verb && table[0].path == path) && d.Handled? {
        var i :| 0 <= i < |table[1..]| && table[1..][i] == Route(verb, path, d.endpoint)
          && forall j :: 0 <= j < i ==> !(table[1..][j].verb == verb && table[1..][j].path == path);
        assert table[i + 1] == Route(verb, path, d.endpoint);
      }
    }
  }

  /** The same path with its trailing slash removed, or with one added. */
  function ToggleSlash(p: Path): (t: Path)
    ensures t.segments == p.segments && t.slash != p.slash
  {
    p.(slash := !p.slash)
  }

  /** The application's dispatch. A path no route knows, other than `/`,
      is retried with its trailing slash toggled: FastAPI answers that
      with a 307 redirect, which `fetch` follows with the same method,
      headers and body. */
  function Dispatched(table: seq<Route>, verb: Http.Method, path: Path): (d: Dispatch)
    ensures Match(table, verb, path) != NotFound ==> d == Match(table, verb, path)
    ensures Match(table, verb, path) == NotFound && path != RootPath ==> d == Match(table, verb, ToggleSlash(path))
    ensures path == RootPath ==> d == Match(table, verb, path)
  {
    match Match(table, verb, path)
    case NotFound => if path != RootPath then Match(table, verb, ToggleSlash(path)) else NotFound
    case found => found
  }

  /** FastAPI's answer when no handler runs. */
  function Unhandled(d: Dispatch): (r: Http.Reply)
    requires !d.Handled?
    ensures r.Answered? && !r.Ok()
  {
    if d == NotFound then Http.Answered(404, Obj([("detail", Str("Not Found"))]))
    else Http.Answered(405, Obj([("detail", Str("Method Not Allowed"))]))
  }

  /** The paths the front end's route handlers request. */
  const SignupPath := Path([Users, Signup], false)
  const LoginPath := Path([Users, Login], false)
  const InventoryPath := Path([Inventory], false)
  const GeneratePath := Path([Recipes, Generate], false)
  const SavePath := Path([Recipes, Save], false)
  const SavedPath := Path([Recipes, Saved], false)

  /** A two-segment path without a trailing slash, as text. */
  lemma RenderPair(a: Segment, b: Segment)
    ensures Render(Path([a, b], false)) == "/" + SegmentText(a) + "/" + SegmentText(b)
  {
    assert [a, b][1..] == [b];
  }

  /** The paths' texts, as the front end writes them after the back end's
      address. */
  lemma SignupText()
    ensures Render(SignupPath) == "/users/signup"
  {
    RenderPair(Users, Signup);
  }

  lemma LoginText()
    ensures Render(LoginPath) == "/users/login"
  {
    RenderPair(Users, Login);
  }

  lemma InventoryText()
    ensures Render(InventoryPath) == "/inventory"
  {
  }

  lemma GenerateText()
    ensures Render(GeneratePath) == "/recipes/generate"
  {
    RenderPair(Recipes, Generate);
  }

  lemma SaveText()
    ensures Render(SavePath) == "/recipes/save"
  {
    RenderPair(Recipes, Save);
  }

  lemma SavedText()
    ensures Render(SavedPath) == "/recipes/saved"
  {
    RenderPair(Recipes, Saved);
  }

  /** A route that is the first to match a request handles it. */
  lemma MatchFirst(table: seq<Route>, i: int)
    requires 0 <= i < |table|
    requires forall j :: 0 <= j < i ==> !(table[j].verb == table[i].verb && table[j].path == table[i].path)
    ensures Match(table, table[i].verb, table[i].path) == Handled(table[i].endpoint)
    ensures Dispatched(table, table[i].verb, table[i].path) == Handled(table[i].endpoint)
  {
    MatchSpec(table, table[i].verb, table[i].path);
    var d := Match(table, table[i].verb, table[i].path);
    var k :| 0 <= k < |table| && table[k] == Route(table[i].verb, table[i].path, d.endpoint)
             && forall j :: 0 <= j < k ==> !(table[j].verb == table[i].verb && table[j].path == table[i].path);
    assert !(k < i);
    assert !(i < k);
  }

  /** A path no route knows, with or without its trailing slash, is not
      found. */
  lemma Unknown(table: seq<Route>, verb: Http.Method, path: Path)
    requires forall j :: 0 <= j < |table| ==> table[j].path != path && table[j].path != ToggleSlash(path)
    ensures Dispatched(table, verb, path) == NotFound
  {
    MatchSpec(table, verb, path);
    MatchSpec(table, verb, ToggleSlash(path));
  }

  /** As written, no recipe path is known to the application: the front
      end's calls to generate, save and list recipes all end in 404. */
  lemma RecipeCallsNotFound()
    ensures Dispatched(RouteTable(MountedAsWritten), Http.POST, GeneratePath) == NotFound
    ensures Dispatched(RouteTable(MountedAsWritten), Http.POST, SavePath) == NotFound
    ensures Dispatched(RouteTable(MountedAsWritten), Http.GET, SavedPath) == NotFound
  {
    TableAsWritten();
    var table := RouteTable(MountedAsWritten);
    assert forall j :: 0 <= j < |table| ==> |table[j].path.segments| == 0 || table[j].path.segments[0] != Recipes;
    Unknown(table, Http.POST, GeneratePath);
    Unknown(table, Http.POST, SavePath);
    Unknown(table, Http.GET, SavedPath);
  }

  /** No documentation route shares a path with the front end's calls or
      with the inventory router. */
  lemma DocsPaths(table: seq<Route>)
    requires |table| >= |DocsRoutes| && table[..|DocsRoutes|] == DocsRoutes
    ensures forall j :: 0 <= j < |DocsRoutes| ==>
      && |table[j].path.segments| > 0
      && table[j].path.segments[0] != Users && table[j].path.segments[0] != Inventory
      && table[j].path.segments[0] != Recipes
  {
  }

  /** `GET /inventory` reaches the grouped inventory through the
      trailing-slash redirect, in any table with no route for `/inventory`
      whose first route for `/inventory/` is the inventory router's. */
  lemma InventoryRedirect(table: seq<Route>, i: int)
    requires 0 <= i < |table| && table[i] == Route(Http.GET, Path([Inventory], true), GroupInventory)
    requires forall j :: 0 <= j < |table| ==> table[j].path != InventoryPath
    requires forall j :: 0 <= j < i ==> table[j].path != Path([Inventory], true)
    ensures Dispatched(table, Http.GET, InventoryPath) == Handled(GroupInventory)
  {
    MatchSpec(table, Http.GET, InventoryPath);
    MatchFirst(table, i);
  }

  /** In any table that starts with the documentation routes, then the
      user and inventory routers' routes, and has no later route for
      `/inventory`, the user calls reach their handlers and `GET
      /inventory` reaches the grouped inventory through the trailing-slash
      redirect. */
  lemma UserAndInventoryHandled(table: seq<Route>)
    requires |table| >= 7 && table[..|DocsRoutes|] == DocsRoutes
    requires table[4] == Route(Http.POST, SignupPath, SignupUser)
    requires table[5] == Route(Http.POST, LoginPath, LoginUser)
    requires table[6] == Route(Http.GET, Path([Inventory], true), GroupInventory)
    requires forall j :: 7 <= j < |table| ==> table[j].path != InventoryPath
    ensures Dispatched(table, Http.POST, SignupPath) == Handled(SignupUser)
    ensures Dispatched(table, Http.POST, LoginPath) == Handled(LoginUser)
    ensures Dispatched(table, Http.GET, InventoryPath) == Handled(GroupInventory)
  {
    DocsPaths(table);
    assert Dispatched(table, Http.POST, SignupPath) == Handled(SignupUser) by {
      MatchFirst(table, 4);
    }
    assert Dispatched(table, Http.POST, LoginPath) == Handled(LoginUser) by {
      MatchFirst(table, 5);
    }
    InventoryRedirect(table, 6);
  }

  /** As written, the user calls reach their handlers, and `GET /inventory`
      reaches the grouped inventory through the trailing-slash redirect. */
  lemma OtherCallsHandled()
    ensures Dispatched(RouteTable(MountedAsWritten), Http.POST, SignupPath) == Handled(SignupUser)
    ensures Dispatched(RouteTable(MountedAsWritten), Http.POST, LoginPath) == Handled(LoginUser)
    ensures Dispatched(RouteTable(MountedAsWritten), Http.GET, InventoryPath) == Handled(GroupInventory)
  {
    TableAsWritten();
    UserAndInventoryHandled(RouteTable(MountedAsWritten));
  }

  /** With the recipe router included, the user calls and `GET
      /inventory` are answered as before. */
  lemma MountedOtherCallsHandled()
    ensures Dispatched(RouteTable(Mounted), Http.POST, SignupPath) == Handled(SignupUser)
    ensures Dispatched(RouteTable(Mounted), Http.POST, LoginPath) == Handled(LoginUser)
    ensures Dispatched(RouteTable(Mounted), Http.GET, InventoryPath) == Handled(GroupInventory)
  {
    TableMounted();
    UserAndInventoryHandled(RouteTable(Mounted));
  }

  /** In any table that starts with the documentation routes, then the
      user and inventory routers' routes, then the recipe router's, the
      front end's calls to generate, save and list recipes reach their
      handlers. */
  lemma RecipeRoutesHandled(table: seq<Route>)
    requires |table| >= 11 && table[..|DocsRoutes|] == DocsRoutes
    requires table[4].path == SignupPath && table[5].path == LoginPath && table[6].path == Path([Inventory], true)
    requires table[7] == Route(Http.POST, GeneratePath, GenerateRecipes)
    requires table[8] == Route(Http.POST, Path([Recipes, YoutubeSearch], false), SearchVideos)
    requires table[9] == Route(Http.POST, SavePath, SaveRecipe)
    requires table[10] == Route(Http.GET, SavedPath, ListSavedRecipes)
    ensures Dispatched(table, Http.POST, GeneratePath) == Handled(GenerateRecipes)
    ensures Dispatched(table, Http.POST, SavePath) == Handled(SaveRecipe)
    ensures Dispatched(table, Http.GET, SavedPath) == Handled(ListSavedRecipes)
  {
    DocsPaths(table);
    assert Dispatched(table, Http.POST, GeneratePath) == Handled(GenerateRecipes) by {
      MatchFirst(table, 7);
    }
    assert Dispatched(table, Http.POST, SavePath) == Handled(SaveRecipe) by {
      MatchFirst(table, 9);
    }
    MatchFirst(table, 10);
  }

  /** With the recipe router included, the front end's calls to generate,
      save and list recipes reach their handlers. */
  lemma RecipeCallsHandled()
    ensures Dispatched(RouteTable(Mounted), Http.POST, GeneratePath) == Handled(GenerateRecipes)
    ensures Dispatched(RouteTable(Mounted), Http.POST, SavePath) == Handled(SaveRecipe)
    ensures Dispatched(RouteTable(Mounted), Http.GET, SavedPath) == Handled(ListSavedRecipes)
  {
    TableMounted();
    RecipeRoutesHandled(RouteTable(Mounted));
  }
}
