/** `GET /inventory/`: every inventory row grouped under its category, in
    the order the query returns them, and the handler's error mapping. */
module BackendInventory {
  import opened Wrappers
  import opened Json
  import Text
  import Models
  import Fastapi

  /** A `defaultdict(list)` keyed by category, in insertion order. */
  type Groups = seq<(string, seq<Json>)>

  /** The entry appended for a row: five fields and no category. */
  function Entry(row: Models.InventoryRow): Json {
    Obj([("id", Num(row.id)), ("name", Str(row.name)), ("description", Models.Nullable(row.description)),
         ("image_url", Models.Nullable(row.imageUrl)), ("unit", Models.Nullable(row.unit))])
  }

  /** An entry has exactly `id`, `name`, `description`, `image_url` and
      `unit`, and no `category`. */
  lemma EntryKeys(row: Models.InventoryRow)
    ensures Models.Keys(Entry(row).members) == ["id", "name", "description", "image_url", "unit"]
    ensures Member(Entry(row), "category").None?
  {
    var m := Entry(row).members;
    assert forall i :: 0 <= i < |m| ==> m[i].0 != "category";
  }

  /** An entry reads back each of the row's five columns. */
  lemma EntryValues(row: Models.InventoryRow)
    ensures Member(Entry(row), "id") == Some(Num(row.id))
    ensures Member(Entry(row), "name") == Some(Str(row.name))
    ensures Member(Entry(row), "description") == Some(Models.Nullable(row.description))
    ensures Member(Entry(row), "image_url") == Some(Models.Nullable(row.imageUrl))
    ensures Member(Entry(row), "unit") == Some(Models.Nullable(row.unit))
  {
    var m := Entry(row).members;
    assert m[1..][1..][1..][1..] == [("unit", Models.Nullable(row.unit))];
    assert Lookup(m, "name") == Lookup(m[1..], "name");
    assert Lookup(m, "description") == Lookup(m[1..], "description") == Lookup(m[1..][1..], "description");
    assert Lookup(m, "image_url") == Lookup(m[1..], "image_url") == Lookup(m[1..][1..], "image_url")
        == Lookup(m[1..][1..][1..], "image_url");
    assert Lookup(m, "unit") == Lookup(m[1..], "unit") == Lookup(m[1..][1..], "unit")
        == Lookup(m[1..][1..][1..], "unit") == Lookup(m[1..][1..][1..][1..], "unit");
  }

  function Categories(g: Groups): (r: seq<string>)
    ensures |r| == |g| && forall i :: 0 <= i < |g| ==> r[i] == g[i].0
  {
    seq(|g|, i requires 0 <= i < |g| => g[i].0)
  }

  /** `grouped[c]` read without inserting: the list under `c`, or none. */
  function ListOf(g: Groups, c: string): seq<Json>
    decreases |g|
  {
    if |g| == 0 then [] else if g[0].0 == c then g[0].1 else ListOf(g[1..], c)
  }

  lemma CategoriesCons(p: (string, seq<Json>), g: Groups)
    ensures Categories([p] + g) == [p.0] + Categories(g)
  {
    assert forall i :: 1 <= i < |g| + 1 ==> ([p] + g)[i] == g[i - 1];
  }

  /** The number of entries over all categories. */
  function Total(g: Groups): nat
    decreases |g|
  {
    if |g| == 0 then 0 else |g[0].1| + Total(g[1..])
  }

  /** `grouped[category].append(e)`: an existing list grows at its end, a
      new category is added last with a one-entry list. */
  function Append(g: Groups, category: string, e: Json): (r: Groups)
    ensures Categories(r) == if category in Categories(g) then Categories(g) else Categories(g) + [category]
    decreases |g|
  {
    if |g| == 0 then
      CategoriesCons((category, [e]), []);
      [(category, [e])]
    else
      assert g == [g[0]] + g[1..];
      CategoriesCons(g[0], g[1..]);
      if g[0].0 == category then
        CategoriesCons((category, g[0].1 + [e]), g[1..]);
        [(category, g[0].1 + [e])] + g[1..]
      else
        var tail := Append(g[1..], category, e);
        CategoriesCons(g[0], tail);
        [g[0]] + tail
  }

  /** Appending grows the list of `category` by `e` and leaves the others. */
  lemma {:induction false} AppendLists(g: Groups, category: string, e: Json)
    ensures forall c :: ListOf(Append(g, category, e), c) == if c == category then ListOf(g, c) + [e] else ListOf(g, c)
    decreases |g|
  {
    if |g| > 0 && g[0].0 != category {
      AppendLists(g[1..], category, e);
      assert Append(g, category, e)[1..] == Append(g[1..], category, e);
    }
  }

  /** Appending adds one entry in all. */
  lemma {:induction false} AppendTotal(g: Groups, category: string, e: Json)
    ensures Total(Append(g, category, e)) == Total(g) + 1
    decreases |g|
  {
    if |g| > 0 {
      if g[0].0 == category {
        assert Append(g, category, e)[1..] == g[1..];
      } else {
        AppendTotal(g[1..], category, e);
        assert Append(g, category, e)[1..] == Append(g[1..], category, e);
      }
    }
  }

  /** The reference: the entries of the rows in category `c`, in row order. */
  function Entries(rows: seq<Models.InventoryRow>, c: string): (r: seq<Json>)
    ensures |r| <= |rows|
    ensures (forall i :: 0 <= i < |rows| ==> rows[i].category != c) ==> r == []
    ensures (forall i :: 0 <= i < |rows| ==> rows[i].category == c) ==> |r| == |rows|
    decreases |rows|
  {
    if |rows| == 0 then []
    else
      var init := rows[..|rows| - 1];
      assert forall i :: 0 <= i < |init| ==> init[i] == rows[i];
      Entries(init, c) + (if rows[|rows| - 1].category == c then [Entry(rows[|rows| - 1])] else [])
  }

  function RowCategories(rows: seq<Models.InventoryRow>): set<string> {
    set i | 0 <= i < |rows| :: rows[i].category
  }

  /** The loop over `items`: each category appears once, the first
      row's category first. */
  function Group(rows: seq<Models.InventoryRow>): (g: Groups)
    ensures Text.NoDup(Categories(g))
    ensures |rows| > 0 ==> |g| > 0 && g[0].0 == rows[0].category
    decreases |rows|
  {
    if |rows| == 0 then []
    else
      var init := rows[..|rows| - 1];
      var last := rows[|rows| - 1];
      assert |init| > 0 ==> init[0] == rows[0];
      var prefix := Group(init);
      var r := Append(prefix, last.category, Entry(last));
      assert |prefix| > 0 ==> Categories(r)[0] == Categories(prefix)[0];
      assert Text.NoDup(Categories(r)) by {
        var cats := Categories(prefix);
        if last.category !in cats {
          assert forall i :: 0 <= i < |cats| ==> (cats + [last.category])[i] == cats[i];
        }
      }
      r
  }

  lemma RowCategoriesSnoc(rows: seq<Models.InventoryRow>)
    requires |rows| > 0
    ensures RowCategories(rows) == RowCategories(rows[..|rows| - 1]) + {rows[|rows| - 1].category}
  {
    var init := rows[..|rows| - 1];
    forall c | c in RowCategories(rows) ensures c in RowCategories(init) + {rows[|rows| - 1].category} {
      var i :| 0 <= i < |rows| && rows[i].category == c;
      if i < |rows| - 1 { assert init[i] == rows[i]; }
    }
    forall c | c in RowCategories(init) ensures c in RowCategories(rows) {
      var i :| 0 <= i < |init| && init[i].category == c;
      assert rows[i] == init[i];
    }
  }

  /** The groups' categories are exactly the rows' categories. */
  lemma {:induction false} GroupCategories(rows: seq<Models.InventoryRow>)
    ensures forall c :: c in Categories(Group(rows)) <==> c in RowCategories(rows)
    decreases |rows|
  {
    if |rows| > 0 {
      GroupCategories(rows[..|rows| - 1]);
      RowCategoriesSnoc(rows);
    }
  }

  /** Each category's list is exactly its rows' entries in query order. */
  lemma {:induction false} GroupLists(rows: seq<Models.InventoryRow>)
    ensures forall c :: ListOf(Group(rows), c) == Entries(rows, c)
    decreases |rows|
  {
    if |rows| > 0 {
      GroupLists(rows[..|rows| - 1]);
      AppendLists(Group(rows[..|rows| - 1]), rows[|rows| - 1].category, Entry(rows[|rows| - 1]));
    }
  }

  /** No row is lost or counted twice. */
  lemma {:induction false} GroupTotal(rows: seq<Models.InventoryRow>)
    ensures Total(Group(rows)) == |rows|
    decreases |rows|
  {
    if |rows| > 0 {
      GroupTotal(rows[..|rows| - 1]);
      AppendTotal(Group(rows[..|rows| - 1]), rows[|rows| - 1].category, Entry(rows[|rows| - 1]));
    }
  }

  /** The returned dictionary as JSON. */
  function GroupedJson(g: Groups): Json {
    Obj(seq(|g|, i requires 0 <= i < |g| => (g[i].0, Arr(g[i].1))))
  }

  const EmptyMessage := "No inventory items found"
  const DatabaseMessage := "Database error occurred while fetching inventory."

  /** The 404 raised for an empty table, as the generic handler rewraps it. */
  const EmptyTableDetail := "Unexpected error: " + "404: " + EmptyMessage

  /** The empty table's 404, caught by the generic handler. */
  lemma EmptyTableText()
    ensures Fastapi.Rewrap("Unexpected error: ", Fastapi.Http(Fastapi.HttpError(404, EmptyMessage)))
         == Fastapi.HttpError(500, EmptyTableDetail)
  {
    Fastapi.StatusText(404);
    assert Text.IntToString(404) == "404";
    var d := Fastapi.Describe(Fastapi.Http(Fastapi.HttpError(404, EmptyMessage)));
    assert d == "404: " + EmptyMessage;
  }

  /** `get_inventory_grouped`, given the outcome of resolving the current
      user and of `db.query(Inventory).all()` (an `SQLAlchemyError` is a
      failure with its text). A failed user resolution is the dependency's
      own error; the handler never runs. */
  function GetInventoryGrouped(user: Result<Models.User, Fastapi.HttpError>,
                               query: Result<seq<Models.InventoryRow>, string>)
    : (r: Result<Json, Fastapi.HttpError>)
    ensures user.Failure? ==> r == Failure(user.error)
    ensures user.Success? && query.Failure? ==> r == Failure(Fastapi.HttpError(500, DatabaseMessage))
    ensures user.Success? && query.Success? && |query.value| == 0 ==>
      r == Failure(Fastapi.HttpError(500, EmptyTableDetail))
    ensures r.Success? <==> user.Success? && query.Success? && |query.value| > 0
    ensures r.Success? ==> r.value == GroupedJson(Group(query.value))
  {
    match user
    case Failure(e) => Failure(e)
    case Success(_) =>
      match query
      case Failure(_) => Failure(Fastapi.HttpError(500, DatabaseMessage))
      case Success(items) =>
        if |items| == 0 then
          EmptyTableText();
          Failure(Fastapi.Rewrap("Unexpected error: ", Fastapi.Http(Fastapi.HttpError(404, EmptyMessage))))
        else Success(GroupedJson(Group(items)))
  }
}
