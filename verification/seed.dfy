/** The inventory seeding script: for every category of the data file and
    every name listed under it, insert the name unless the table already
    has it, then commit once. The data file's contents, the table and the
    ids the database assigns are inputs. */
module Seed {
  import opened Wrappers
  import Text
  import Models

  /** The data file: categories in file order, each with its names. */
  type SeedData = seq<(string, seq<string>)>

  /** A name to insert and the category it is listed under. */
  type Listing = (string, string)

  /** The (name, category) pairs in the order the two loops visit them. */
  function Listed(data: SeedData): (r: seq<Listing>)
    decreases |data|
  {
    if |data| == 0 then []
    else seq(|data[0].1|, i requires 0 <= i < |data[0].1| => (data[0].1[i], data[0].0)) + Listed(data[1..])
  }

  function ListedNames(listed: seq<Listing>): (r: seq<string>)
    ensures |r| == |listed| && forall i :: 0 <= i < |r| ==> r[i] == listed[i].0
  {
    seq(|listed|, i requires 0 <= i < |listed| => listed[i].0)
  }

  function Names(rows: seq<Models.InventoryRow>): set<string> {
    set i | 0 <= i < |rows| :: rows[i].name
  }

  /** The category of the first listing of `name`. */
  function FirstCategory(listed: seq<Listing>, name: string): Option<string>
    decreases |listed|
  {
    if |listed| == 0 then None
    else if listed[0].0 == name then Some(listed[0].1)
    else FirstCategory(listed[1..], name)
  }

  /** The rows a commit inserts for the pending listings, with the ids the
      database assigns from `nextId` on and no image, description or unit. */
  function NewRows(pending: seq<Listing>, nextId: int): (r: seq<Models.InventoryRow>)
    ensures |r| == |pending|
    ensures forall i :: 0 <= i < |r| ==> r[i] == Models.InventoryRow(nextId + i, pending[i].0, pending[i].1, None, None, None)
  {
    seq(|pending|, i requires 0 <= i < |pending| =>
      Models.InventoryRow(nextId + i, pending[i].0, pending[i].1, None, None, None))
  }

  // ---------------------------------------------------------------------
  // As written

  /** The listings the loop adds as written: with autoflush off, the query
      sees only the committed table, never the rows added earlier in the
      same run. */
  function PendingAsWritten(seen: set<string>, listed: seq<Listing>): (p: seq<Listing>)
    ensures forall k :: 0 <= k < |p| ==> p[k] in listed && p[k].0 !in seen
    decreases |listed|
  {
    if |listed| == 0 then []
    else if listed[0].0 in seen then PendingAsWritten(seen, listed[1..])
    else [listed[0]] + PendingAsWritten(seen, listed[1..])
  }

  /** `seed_inventory` as written: the commit is rejected (and the script
      stops with nothing stored) when the pending rows repeat a name, as
      the unique `name` column forbids. */
  function SeedAsWritten(table: seq<Models.InventoryRow>, data: SeedData, nextId: int)
    : (r: Option<seq<Models.InventoryRow>>)
    ensures var p := PendingAsWritten(Names(table), Listed(data));
      && (r.Some? <==> Text.NoDup(ListedNames(p)))
      && (r.Some? ==> r.value == table + NewRows(p, nextId))
  {
    var p := PendingAsWritten(Names(table), Listed(data));
    if Text.NoDup(ListedNames(p)) then Some(table + NewRows(p, nextId)) else None
  }

  /** A name listed twice in a file seeded into an empty table makes the
      commit fail: the second listing is added again because the first
      one is not flushed before the next query. */
  lemma RepeatedNameBreaksSeed()
    ensures SeedAsWritten([], [("Vegetables", ["Tomato"]), ("Fruits", ["Tomato"])], 1).None?
  {
    var data: SeedData := [("Vegetables", ["Tomato"]), ("Fruits", ["Tomato"])];
    assert data[1..][1..] == [];
    assert Listed(data) == [("Tomato", "Vegetables"), ("Tomato", "Fruits")];
    assert Names([]) == {};
    var l := Listed(data);
    assert l[1..][1..] == [];
    assert PendingAsWritten({}, l[1..]) == [("Tomato", "Fruits")] + PendingAsWritten({}, l[1..][1..]);
    var p := PendingAsWritten({}, l);
    assert p == [("Tomato", "Vegetables"), ("Tomato", "Fruits")];
    assert ListedNames(p)[0] == ListedNames(p)[1];
  }

  // ---------------------------------------------------------------------
  // Corrected: the loop also skips names it has already added

  /** The listings to add when every name, once added, counts as present
      for the rest of the run: no name twice, none already in `seen`, and
      each under its first listing's category. */
  function Pending(seen: set<string>, listed: seq<Listing>): (p: seq<Listing>)
    ensures Text.NoDup(ListedNames(p))
    ensures forall k :: 0 <= k < |p| ==> p[k] in listed && p[k].0 !in seen
    ensures forall k :: 0 <= k < |p| ==> FirstCategory(listed, p[k].0) == Some(p[k].1)
    decreases |listed|
  {
    if |listed| == 0 then []
    else
      var head := listed[0];
      var rest := listed[1..];
      assert forall i :: 1 <= i < |listed| ==> listed[i] == rest[i - 1];
      if head.0 in seen then
        var p := Pending(seen, rest);
        assert forall k :: 0 <= k < |p| ==> p[k].0 != head.0;
        p
      else
        var tail := Pending(seen + {head.0}, rest);
        assert forall k :: 0 <= k < |tail| ==> tail[k].0 != head.0;
        assert ListedNames([head] + tail) == [head.0] + ListedNames(tail);
        [head] + tail
  }

  /** Together with `seen`, the pending listings cover every listed name. */
  lemma {:induction false} PendingCovers(seen: set<string>, listed: seq<Listing>)
    ensures forall i :: 0 <= i < |listed| ==> listed[i].0 in seen || listed[i].0 in ListedNames(Pending(seen, listed))
    decreases |listed|
  {
    if |listed| > 0 {
      var head := listed[0];
      var rest := listed[1..];
      assert forall i :: 1 <= i < |listed| ==> listed[i] == rest[i - 1];
      if head.0 in seen {
        PendingCovers(seen, rest);
      } else {
        PendingCovers(seen + {head.0}, rest);
        var tail := Pending(seen + {head.0}, rest);
        var p := Pending(seen, listed);
        assert p == [head] + tail;
        assert ListedNames(p) == [head.0] + ListedNames(tail);
      }
    }
  }

  /** `seed_inventory` with the duplicate check seeing the rows added in
      the same run. */
  function SeedOnce(table: seq<Models.InventoryRow>, data: SeedData, nextId: int): (r: seq<Models.InventoryRow>)
    ensures |r| >= |table| && r[..|table|] == table
  {
    var r := table + NewRows(Pending(Names(table), Listed(data)), nextId);
    assert r[..|table|] == table;
    r
  }

  /** The names of a table extended by new rows. */
  lemma NamesAppend(table: seq<Models.InventoryRow>, pending: seq<Listing>, nextId: int)
    ensures Names(table + NewRows(pending, nextId)) == Names(table) + (set k | 0 <= k < |pending| :: pending[k].0)
  {
    var all := table + NewRows(pending, nextId);
    forall n | n in Names(all) ensures n in Names(table) + (set k | 0 <= k < |pending| :: pending[k].0) {
      var i :| 0 <= i < |all| && all[i].name == n;
      if i >= |table| { assert all[i] == NewRows(pending, nextId)[i - |table|]; }
    }
    forall n | n in Names(table) + (set k | 0 <= k < |pending| :: pending[k].0) ensures n in Names(all) {
      if n in Names(table) {
        var i :| 0 <= i < |table| && table[i].name == n;
        assert all[i] == table[i];
      } else {
        var k :| 0 <= k < |pending| && pending[k].0 == n;
        assert all[|table| + k] == NewRows(pending, nextId)[k];
      }
    }
  }

  /** After seeding, every name the data lists is in the table. */
  lemma SeedCoversListed(table: seq<Models.InventoryRow>, data: SeedData, nextId: int)
    ensures forall i :: 0 <= i < |Listed(data)| ==> Listed(data)[i].0 in Names(SeedOnce(table, data, nextId))
  {
    var p := Pending(Names(table), Listed(data));
    NamesAppend(table, p, nextId);
    PendingCovers(Names(table), Listed(data));
    forall i | 0 <= i < |Listed(data)| ensures Listed(data)[i].0 in Names(SeedOnce(table, data, nextId)) {
      if Listed(data)[i].0 !in Names(table) {
        var k :| 0 <= k < |p| && ListedNames(p)[k] == Listed(data)[i].0;
      }
    }
  }

  /** Existing rows are kept as they are, and every added row carries a
      name the table lacked, under the category of its first listing: a
      name already present is never re-added or re-categorised. */
  lemma SeedKeepsExisting(table: seq<Models.InventoryRow>, data: SeedData, nextId: int)
    ensures var r := SeedOnce(table, data, nextId);
      forall i :: |table| <= i < |r| ==>
        && r[i].name !in Names(table)
        && FirstCategory(Listed(data), r[i].name) == Some(r[i].category)
  {
    var p := Pending(Names(table), Listed(data));
    var r := SeedOnce(table, data, nextId);
    forall i | |table| <= i < |r|
      ensures r[i].name !in Names(table) && FirstCategory(Listed(data), r[i].name) == Some(r[i].category)
    {
      assert r[i] == NewRows(p, nextId)[i - |table|];
    }
  }

  /** Seeding keeps names unique. */
  lemma SeedKeepsNamesUnique(table: seq<Models.InventoryRow>, data: SeedData, nextId: int)
    requires forall i, j :: 0 <= i < j < |table| ==> table[i].name != table[j].name
    ensures var r := SeedOnce(table, data, nextId);
      forall i, j :: 0 <= i < j < |r| ==> r[i].name != r[j].name
  {
    var p := Pending(Names(table), Listed(data));
    var r := SeedOnce(table, data, nextId);
    forall i, j | 0 <= i < j < |r| ensures r[i].name != r[j].name {
      if j >= |table| {
        assert r[j] == NewRows(p, nextId)[j - |table|];
        if i >= |table| {
          assert r[i] == NewRows(p, nextId)[i - |table|];
          assert ListedNames(p)[i - |table|] != ListedNames(p)[j - |table|];
        } else {
          assert r[i].name in Names(table);
        }
      }
    }
  }

  /** Once every listed name is present, nothing is pending. */
  lemma {:induction false} NothingPending(seen: set<string>, listed: seq<Listing>)
    requires forall i :: 0 <= i < |listed| ==> listed[i].0 in seen
    ensures Pending(seen, listed) == []
    decreases |listed|
  {
    if |listed| > 0 {
      assert forall i :: 1 <= i < |listed| ==> listed[i] == listed[1..][i - 1];
      NothingPending(seen, listed[1..]);
    }
  }

  /** Seeding twice is seeding once: the second run adds nothing, whatever
      ids the database would hand out. */
  lemma SeedIdempotent(table: seq<Models.InventoryRow>, data: SeedData, id1: int, id2: int)
    ensures SeedOnce(SeedOnce(table, data, id1), data, id2) == SeedOnce(table, data, id1)
  {
    var once := SeedOnce(table, data, id1);
    SeedCoversListed(table, data, id1);
    NothingPending(Names(once), Listed(data));
    assert NewRows([], id2) == [];
    assert once + [] == once;
  }

  /** Adding a name that occurs nowhere later does not change what the
      written loop adds afterwards. */
  lemma {:induction false} AsWrittenIgnoresUnlisted(seen: set<string>, x: string, listed: seq<Listing>)
    requires forall i :: 0 <= i < |listed| ==> listed[i].0 != x
    ensures PendingAsWritten(seen + {x}, listed) == PendingAsWritten(seen, listed)
    decreases |listed|
  {
    if |listed| > 0 {
      assert forall i :: 1 <= i < |listed| ==> listed[i] == listed[1..][i - 1];
      AsWrittenIgnoresUnlisted(seen, x, listed[1..]);
    }
  }

  /** With no name repeated in the listings, the written loop and the
      corrected one add the same rows. */
  lemma {:induction false} PendingAgree(seen: set<string>, listed: seq<Listing>)
    requires Text.NoDup(ListedNames(listed))
    ensures PendingAsWritten(seen, listed) == Pending(seen, listed)
    decreases |listed|
  {
    if |listed| > 0 {
      var rest := listed[1..];
      assert ListedNames(rest) == ListedNames(listed)[1..];
      assert forall i :: 0 <= i < |rest| ==> rest[i].0 != listed[0].0 by {
        forall i | 0 <= i < |rest| ensures rest[i].0 != listed[0].0 {
          assert ListedNames(listed)[i + 1] == rest[i].0;
        }
      }
      PendingAgree(seen, rest);
      if listed[0].0 !in seen {
        PendingAgree(seen + {listed[0].0}, rest);
        AsWrittenIgnoresUnlisted(seen, listed[0].0, rest);
      }
    }
  }

  /** The written script is correct on data that lists every name once:
      it commits, and stores what the corrected one stores. */
  lemma AsWrittenAgreesWithoutRepeats(table: seq<Models.InventoryRow>, data: SeedData, nextId: int)
    requires Text.NoDup(ListedNames(Listed(data)))
    ensures SeedAsWritten(table, data, nextId) == Some(SeedOnce(table, data, nextId))
  {
    PendingAgree(Names(table), Listed(data));
  }
}
