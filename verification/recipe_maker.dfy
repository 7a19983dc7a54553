/** The recipe-maker page: it reads the selection back from the `items`
    query parameter and builds two fixed mock recipes from it. */
module RecipeMaker {
  import opened Wrappers
  import Text
  import InventoryPage

  /** `itemsParam ? itemsParam.split(',') : []`. */
  function SelectedItems(itemsParam: Option<string>): (r: seq<string>)
    ensures itemsParam.None? || itemsParam == Some("") ==> r == []
    ensures itemsParam.Some? && itemsParam.value != "" ==> r == Text.Split(itemsParam.value, ',')
    ensures |r| == 0 <==> itemsParam.None? || itemsParam.value == ""
  {
    if itemsParam.Some? && itemsParam.value != "" then Text.Split(itemsParam.value, ',') else []
  }

  /** A name the comma-joined parameter carries intact. */
  predicate Transportable(name: string) {
    name != "" && ',' !in name
  }

  /** The selection survives the trip through the URL: the recipe maker
      reads back exactly what the inventory page joined, as long as every
      name is non-empty and free of commas (the empty selection included). */
  lemma {:induction false} SelectionRoundTrip(selected: seq<string>)
    requires forall i :: 0 <= i < |selected| ==> Transportable(selected[i])
    ensures SelectedItems(Some(InventoryPage.GenerateFired(selected).0.items)) == selected
  {
    if |selected| > 0 {
      Text.SplitJoin(selected, ',');
      if |selected| == 1 {
        assert Text.Join(selected, ",") == selected[0];
      } else {
        assert ',' in Text.Join(selected, ",") by {
          var tail := Text.Join(selected[1..], ",");
          assert Text.Join(selected, ",") == selected[0] + "," + tail;
          assert (selected[0] + "," + tail)[|selected[0]|] == ',';
        }
      }
    }
  }

  /** An empty name is lost on the way: the selection `[""]` reads back
      as no selection at all. */
  lemma EmptyNameLost()
    ensures SelectedItems(Some(InventoryPage.GenerateFired([""]).0.items)) == []
  {
  }

  datatype MockRecipe = MockRecipe(
    id: int, title: string, description: string, ingredients: seq<string>,
    instructions: seq<string>, prepTime: string, cookTime: string)

  /** The page state `generateRecipes` acts on. */
  datatype Maker = Maker(recipes: seq<MockRecipe>, loading: bool, error: Option<string>)

  /** The two recipes built for a non-empty selection. */
  function MockRecipes(selected: seq<string>): (r: seq<MockRecipe>)
    requires |selected| > 0
    ensures |r| == 2 && r[0].id == 1 && r[1].id == 2
    ensures r[0].ingredients == selected
    ensures r[0].title == "Delicious " + Text.Join(selected, " and ") + " Recipe"
    ensures r[1].ingredients == [selected[0]]
    ensures r[1].title == "Quick " + selected[0] + " Snack"
    ensures forall i :: 0 <= i < 2 ==> forall x :: x in r[i].ingredients ==> x in selected
  {
    [ MockRecipe(1, "Delicious " + Text.Join(selected, " and ") + " Recipe",
                 "A wonderful dish made with " + Text.Join(selected, ", ") + ". Perfect for any occasion!",
                 selected,
                 ["Wash and prepare all ingredients.", "Combine everything in a large pot.",
                  "Cook on medium heat for 20 minutes.", "Serve hot and enjoy!"],
                 "10 mins", "20 mins"),
      MockRecipe(2, "Quick " + selected[0] + " Snack",
                 "A simple snack featuring " + selected[0] + ".",
                 [selected[0]],
                 ["Slice the main ingredient.", "Season to taste.", "Serve immediately."],
                 "5 mins", "0 mins") ]
  }

  /** `generateRecipes()` once its delay has passed: a no-op for an empty
      selection, the two mock recipes otherwise. Nothing in it can throw. */
  function GenerateRecipes(m: Maker, selected: seq<string>): (r: Maker)
    ensures |selected| == 0 ==> r == m
    ensures |selected| > 0 ==> r == Maker(MockRecipes(selected), false, None)
  {
    if |selected| == 0 then m else Maker(MockRecipes(selected), false, None)
  }

  /** End to end: the first mock recipe uses exactly the ingredients picked
      on the inventory page. */
  lemma PickedIngredientsReachRecipe(m: Maker, selected: seq<string>)
    requires |selected| > 0
    requires forall i :: 0 <= i < |selected| ==> Transportable(selected[i])
    ensures SelectedItems(Some(InventoryPage.GenerateFired(selected).0.items)) == selected
    ensures var items := SelectedItems(Some(InventoryPage.GenerateFired(selected).0.items));
      |GenerateRecipes(m, items).recipes| == 2 && GenerateRecipes(m, items).recipes[0].ingredients == selected
  {
    SelectionRoundTrip(selected);
  }
}
