/** The inventory page: loading the grouped inventory through the front
    end's `/api/inventory`, the ingredient selection, the confirmation
    modal's per-category lists and the navigation to the recipe maker. */
module InventoryPage {
  import opened Wrappers
  import opened Json
  import opened Http
  import Text
  import Gateway

  const PageFallback := "Failed to fetch inventory"

  /** The page state the fetch effect leaves behind. `error` is the
      message of the caught error, `inventory` the stored data. */
  datatype Loaded = Loaded(inventory: Json, activeTab: Option<string>, error: Option<string>, loading: bool) {
    /** `if (error)`: a non-empty message is displayed. */
    predicate ShowsError() { error.Some? && error.value != "" }
  }

  /** The fetch effect, with `reply` the outcome of the request and of
      `response.json()`. */
  function LoadInventory(reply: Reply): (l: Loaded)
    ensures !l.loading
    ensures reply.Ok() && reply.body.Obj? ==>
      && l.inventory == reply.body && l.error.None?
      && l.activeTab == (if |reply.body.members| > 0 then Some(reply.body.members[0].0) else None)
    ensures reply.Ok() && reply.body.Null? ==> l.error == Some(NullToObjectMessage)
    ensures reply.Answered? && !reply.Ok() && reply.body.Obj? ==>
      l == Loaded(Null, None, Some(ErrorMessage(Lookup(reply.body.members, "error"), PageFallback)), false)
    ensures reply.Threw? ==> l == Loaded(Null, None, Some(reply.message), false)
    ensures l.error.None? <==> reply.Ok() && !reply.body.Null?
  {
    match reply
    case Threw(m) => Loaded(Null, None, Some(m), false)
    case Answered(_, data) =>
      if reply.Ok() then
        match FirstKey(data)
        case Failure(m) => Loaded(data, None, Some(m), false)
        case Success(k) => Loaded(data, k, None, false)
      else
        match Get(data, "error")
        case Failure(m) => Loaded(Null, None, Some(m), false)
        case Success(e) => Loaded(Null, None, Some(ErrorMessage(e, PageFallback)), false)
  }

  datatype PageView = Spinner | ErrorBanner(message: string) | NoData | Browse

  /** Which of the page's four bodies renders. */
  function View(l: Loaded): (v: PageView)
    ensures v == Spinner <==> l.loading
    ensures v.ErrorBanner? <==> !l.loading && l.ShowsError()
    ensures v.ErrorBanner? ==> l.error == Some(v.message)
    ensures v == Browse <==> !l.loading && !l.ShowsError() && JsTruthy(Some(l.inventory))
  {
    if l.loading then Spinner
    else if l.ShowsError() then ErrorBanner(l.error.value)
    else if !JsTruthy(Some(l.inventory)) then NoData
    else Browse
  }

  /** Without the HTTP-only cookie the page shows the gateway's 401 text. */
  lemma PageWithoutToken(token: Option<string>, backend: Reply)
    requires !HasToken(token)
    ensures var r := Gateway.InventoryRoute(token, backend).response;
      View(LoadInventory(Answered(r.status, r.body))) == ErrorBanner(Gateway.NoTokenMessage)
  {
  }

  /** A FastAPI error (`{"detail": ...}`) reaches the page as the
      gateway's fixed fallback text, never as its detail. */
  lemma PageShowsFallbackForBackendErrors(token: string, status: int, detail: Json)
    requires token != "" && !(200 <= status <= 299)
    ensures var r := Gateway.InventoryRoute(Some(token), Answered(status, Obj([("detail", detail)]))).response;
      View(LoadInventory(Answered(r.status, r.body))) == ErrorBanner(Gateway.InventoryFallback)
  {
    FastApiErrorsShowFallback(status, detail, Gateway.InventoryFallback);
  }

  /** `list.filter(item => item !== x)`. */
  function Remove(s: seq<string>, x: string): (r: seq<string>)
    ensures x !in r
    ensures forall y :: y != x ==> (y in r <==> y in s)
    ensures x !in s ==> r == s
    ensures Text.NoDup(s) ==> Text.NoDup(r)
    decreases |s|
  {
    if |s| == 0 then []
    else
      var rest := Remove(s[1..], x);
      assert x !in s ==> [s[0]] + s[1..] == s;
      assert Text.NoDup(s) ==> s[0] !in s[1..] && Text.NoDup(s[1..]);
      (if s[0] == x then [] else [s[0]]) + rest
  }

  /** Filtering distributes over concatenation: it keeps the relative order. */
  lemma {:induction false} RemoveAppend(a: seq<string>, b: seq<string>, x: string)
    ensures Remove(a + b, x) == Remove(a, x) + Remove(b, x)
    decreases |a|
  {
    if |a| > 0 {
      assert (a + b)[1..] == a[1..] + b;
      RemoveAppend(a[1..], b, x);
    } else {
      assert a + b == b;
    }
  }

  /** `toggleItemSelection(name)`. */
  function Toggle(selected: seq<string>, name: string): (r: seq<string>)
    ensures name in selected ==> r == Remove(selected, name)
    ensures name !in selected ==> r == selected + [name]
    ensures name in r <==> name !in selected
    ensures forall y :: y != name ==> (y in r <==> y in selected)
    ensures Text.NoDup(selected) ==> Text.NoDup(r)
  {
    if name in selected then Remove(selected, name) else selected + [name]
  }

  /** Toggling an unselected item twice restores the selection; toggling a
      selected item twice moves it to the end. */
  lemma ToggleTwice(selected: seq<string>, name: string)
    ensures name !in selected ==> Toggle(Toggle(selected, name), name) == selected
    ensures name in selected ==> Toggle(Toggle(selected, name), name) == Remove(selected, name) + [name]
  {
    if name !in selected {
      RemoveAppend(selected, [name], name);
      assert Remove([name], name) == [];
    }
  }

  /** `openRecipeModal()`: opens for any non-empty selection, whatever its size. */
  function OpenModal(selected: seq<string>, showing: bool): (r: bool)
    ensures |selected| > 0 ==> r
    ensures |selected| == 0 ==> r == showing
  {
    if |selected| > 0 then true else showing
  }

  /** A category tab, reduced to the string names of its items: `item.name
      === itemName` never holds for a name that is not a string. */
  datatype Shelf = Shelf(category: string, names: seq<string>)

  /** The string `name`s of an array of items. */
  function ItemNames(items: seq<Json>): (r: seq<string>)
    ensures forall x :: x in r <==> exists i :: 0 <= i < |items| && Member(items[i], "name") == Some(Str(x))
  {
    if |items| == 0 then []
    else
      var rest := ItemNames(items[1..]);
      assert forall i :: 1 <= i < |items| ==> items[i] == items[1..][i - 1];
      var first := Member(items[0], "name");
      (if first.Some? && first.value.Str? then [first.value.s] else []) + rest
  }

  /** The inventory as the page renders it: an object whose members are
      arrays of non-null items. On other shapes the render throws. */
  predicate Renderable(inventory: Json) {
    && inventory.Obj?
    && forall i :: 0 <= i < |inventory.members| ==>
         && inventory.members[i].1.Arr?
         && forall k :: 0 <= k < |inventory.members[i].1.items| ==> !inventory.members[i].1.items[k].Null?
  }

  /** `Object.entries(inventory)` as shelves. */
  function Shelves(inventory: Json): (r: seq<Shelf>)
    requires Renderable(inventory)
    ensures |r| == |inventory.members|
    ensures forall i :: 0 <= i < |r| ==>
      r[i] == Shelf(inventory.members[i].0, ItemNames(inventory.members[i].1.items))
  {
    seq(|inventory.members|, i requires 0 <= i < |inventory.members| =>
      Shelf(inventory.members[i].0, ItemNames(inventory.members[i].1.items)))
  }

  /** `selected.filter(n => names.includes(n))`. */
  function Keep(selected: seq<string>, names: seq<string>): (r: seq<string>)
    ensures forall x :: x in r <==> x in selected && x in names
    ensures |r| <= |selected|
    decreases |selected|
  {
    if |selected| == 0 then []
    else (if selected[0] in names then [selected[0]] else []) + Keep(selected[1..], names)
  }

  /** Filtering distributes over concatenation: it keeps the relative order. */
  lemma {:induction false} KeepAppend(a: seq<string>, b: seq<string>, names: seq<string>)
    ensures Keep(a + b, names) == Keep(a, names) + Keep(b, names)
    decreases |a|
  {
    if |a| > 0 {
      assert (a + b)[1..] == a[1..] + b;
      KeepAppend(a[1..], b, names);
    } else {
      assert a + b == b;
    }
  }

  /** The confirmation modal: per shelf, in shelf order, the selected names
      on that shelf in selection order; shelves with none are skipped. */
  function ModalGroups(shelves: seq<Shelf>, selected: seq<string>): (r: seq<(string, seq<string>)>)
    ensures |r| <= |shelves|
    ensures forall i :: 0 <= i < |r| ==> |r[i].1| > 0
    ensures forall i :: 0 <= i < |r| ==>
      exists j :: 0 <= j < |shelves| && r[i] == (shelves[j].category, Keep(selected, shelves[j].names))
    ensures forall j :: 0 <= j < |shelves| && |Keep(selected, shelves[j].names)| > 0 ==>
      (shelves[j].category, Keep(selected, shelves[j].names)) in r
    decreases |shelves|
  {
    if |shelves| == 0 then []
    else
      var rest := ModalGroups(shelves[1..], selected);
      assert forall j :: 1 <= j < |shelves| ==> shelves[j] == shelves[1..][j - 1];
      var here := Keep(selected, shelves[0].names);
      (if |here| > 0 then [(shelves[0].category, here)] else []) + rest
  }

  /** One shelf gives one group, its selected names in selection order, or
      nothing when none of its names is selected. */
  lemma ModalGroupsOne(shelf: Shelf, selected: seq<string>)
    ensures var here := Keep(selected, shelf.names);
      ModalGroups([shelf], selected) == (if |here| > 0 then [(shelf.category, here)] else [])
  {
    assert [shelf][1..] == [];
  }

  /** The modal's groups follow the shelf order: the groups of a
      concatenation are the groups of each part, one after the other. */
  lemma {:induction false} ModalGroupsAppend(a: seq<Shelf>, b: seq<Shelf>, selected: seq<string>)
    ensures ModalGroups(a + b, selected) == ModalGroups(a, selected) + ModalGroups(b, selected)
    decreases |a|
  {
    if |a| > 0 {
      assert (a + b)[0] == a[0];
      assert (a + b)[1..] == a[1..] + b;
      ModalGroupsAppend(a[1..], b, selected);
    } else {
      assert a + b == b;
    }
  }

  /** Every selected name found on some shelf is listed in the modal. */
  lemma ModalShowsSelected(shelves: seq<Shelf>, selected: seq<string>, x: string, j: int)
    requires x in selected && 0 <= j < |shelves| && x in shelves[j].names
    ensures exists i :: 0 <= i < |ModalGroups(shelves, selected)| && x in ModalGroups(shelves, selected)[i].1
  {
    var r := ModalGroups(shelves, selected);
    var g := (shelves[j].category, Keep(selected, shelves[j].names));
    assert x in g.1;
    var i :| 0 <= i < |r| && r[i] == g;
    assert x in r[i].1;
  }

  /** Every name the modal lists is selected and on the shelf it is listed under. */
  lemma ModalShowsOnlySelected(shelves: seq<Shelf>, selected: seq<string>, i: int, x: string)
    requires 0 <= i < |ModalGroups(shelves, selected)| && x in ModalGroups(shelves, selected)[i].1
    ensures x in selected
    ensures exists j :: 0 <= j < |shelves| && shelves[j].category == ModalGroups(shelves, selected)[i].0
                        && x in shelves[j].names
  {
    var r := ModalGroups(shelves, selected);
    var j :| 0 <= j < |shelves| && r[i] == (shelves[j].category, Keep(selected, shelves[j].names));
    assert x in shelves[j].names;
  }

  datatype Modal = Modal(showing: bool, generating: bool)

  const RecipeMakerPath := "/dashboard/recipe-maker"

  /** A navigation to the recipe maker; `items` is the query parameter's
      value as `searchParams.get('items')` reads it back. */
  datatype Navigation = Navigation(path: string, items: string)

  /** Clicking "Create AI Recipe": the spinner starts. */
  function GenerateClicked(m: Modal): (r: Modal)
    ensures r.generating && r.showing == m.showing
  {
    m.(generating := true)
  }

  /** The timer firing: navigate with the comma-joined selection, stop the
      spinner and close the modal. */
  function GenerateFired(selected: seq<string>): (r: (Navigation, Modal))
    ensures r.0.path == RecipeMakerPath
    ensures r.0.items == Text.Join(selected, ",")
    ensures !r.1.showing && !r.1.generating
  {
    (Navigation(RecipeMakerPath, Text.Join(selected, ",")), Modal(false, false))
  }
}
