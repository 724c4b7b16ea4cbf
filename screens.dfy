/**
 * The rules the screens apply to the store: the detail screen's lookup and
 * what it shows, the detail route's argument default, and the add screen's
 * Save guard.
 */
module Screens {
  import opened Wrappers
  import opened Recipes

  // ---------------------------------------------------------------------------
  // Detail screen

  /** `recipes.find { it.id == recipeId }`: the first recipe with that id. */
  function Find(rs: seq<Recipe>, recipeId: int): (found: Option<Recipe>)
    ensures found.None? <==> forall i :: 0 <= i < |rs| ==> rs[i].id != recipeId
    ensures found.Some? ==> exists i :: 0 <= i < |rs| && rs[i] == found.value && IsFirstMatch(rs, recipeId, i)
    decreases |rs|
  {
    if rs == [] then None
    else if rs[0].id == recipeId then
      assert IsFirstMatch(rs, recipeId, 0);
      Some(rs[0])
    else
      var found := Find(rs[1..], recipeId);
      assert found.Some? ==> exists i :: 0 <= i < |rs| && rs[i] == found.value && IsFirstMatch(rs, recipeId, i) by {
        if found.Some? {
          var i :| 0 <= i < |rs| - 1 && rs[1..][i] == found.value && IsFirstMatch(rs[1..], recipeId, i);
          assert rs[i + 1] == found.value && IsFirstMatch(rs, recipeId, i + 1);
        }
      }
      assert found.None? ==> forall i :: 0 <= i < |rs| ==> rs[i].id != recipeId by {
        if found.None? {
          forall i | 0 < i < |rs| ensures rs[i].id != recipeId {
            assert rs[i] == rs[1..][i - 1];
          }
        }
      }
      found
  }

  /** Position `i` holds the first recipe in `rs` with id `recipeId`. */
  ghost predicate IsFirstMatch(rs: seq<Recipe>, recipeId: int, i: int) {
    0 <= i < |rs| && rs[i].id == recipeId && forall j :: 0 <= j < i ==> rs[j].id != recipeId
  }

  /** What the detail screen's body shows. */
  datatype DetailBody = Details(ingredients: string, steps: string) | NotFoundMessage(text: string)

  /** The detail screen: the top bar's title and the body. */
  datatype DetailView = DetailView(topBarTitle: string, body: DetailBody)

  /**
   * `DetailScreen(recipeId)`: the found recipe's title, ingredients and steps,
   * or "Recipe not found" in the top bar and "Recipe not found." in the body.
   */
  function DetailScreenView(rs: seq<Recipe>, recipeId: int): (v: DetailView)
    ensures v.body.NotFoundMessage? <==> forall i :: 0 <= i < |rs| ==> rs[i].id != recipeId
    ensures v.body.NotFoundMessage? ==>
              v.topBarTitle == "Recipe not found" && v.body.text == "Recipe not found."
    ensures v.body.Details? ==>
              exists i :: IsFirstMatch(rs, recipeId, i) && v.topBarTitle == rs[i].title &&
                          v.body == Details(rs[i].ingredients, rs[i].steps)
  {
    match Find(rs, recipeId)
    case Some(r) => DetailView(r.title, Details(r.ingredients, r.steps))
    case None => DetailView("Recipe not found", NotFoundMessage("Recipe not found."))
  }

  /** In a store with distinct ids, lookup finds a stored recipe by its id. */
  lemma FindInDistinctStore(rs: seq<Recipe>, i: int)
    requires IdsDistinct(rs) && 0 <= i < |rs|
    ensures Find(rs, rs[i].id) == Some(rs[i])
  {
  }

  /** After an append, lookup of the new id finds the new record; other lookups are unchanged. */
  lemma {:induction false} FindAfterAdd(rs: seq<Recipe>, title: string, ingredients: string, steps: string, recipeId: int)
    ensures Find(Added(rs, title, ingredients, steps), recipeId) ==
            if recipeId == NextId(rs) then Some(Recipe(NextId(rs), title, ingredients, steps))
            else Find(rs, recipeId)
  {
    var r := Recipe(NextId(rs), title, ingredients, steps);
    FindAppend(rs, r, recipeId);
    if recipeId == NextId(rs) {
      assert Find(rs, recipeId).None?;
    }
  }

  /** Lookup in `rs + [r]`: the answer in `rs`, or else `r` if its id matches. */
  lemma {:induction false} FindAppend(rs: seq<Recipe>, r: Recipe, recipeId: int)
    ensures Find(rs + [r], recipeId) ==
            if Find(rs, recipeId).Some? then Find(rs, recipeId)
            else if r.id == recipeId then Some(r)
            else None
    decreases |rs|
  {
    if rs == [] {
      assert [] + [r] == [r];
      assert [r][1..] == [];
    } else {
      assert (rs + [r])[1..] == rs[1..] + [r];
      FindAppend(rs[1..], r, recipeId);
    }
  }

  // ---------------------------------------------------------------------------
  // Detail route argument

  /**
   * `backStackEntry.arguments?.getInt("recipeId") ?: -1`: -1 when there is no
   * argument bundle; a bundle without the key reads as 0, Android's default
   * for `Bundle.getInt`.
   */
  function RecipeIdArgument(arguments: Option<map<string, int>>): (recipeId: int)
    ensures arguments.None? ==> recipeId == -1
    ensures arguments.Some? && "recipeId" in arguments.value ==> recipeId == arguments.value["recipeId"]
    ensures arguments.Some? && "recipeId" !in arguments.value ==> recipeId == 0
  {
    match arguments
    case None => -1
    case Some(bundle) => if "recipeId" in bundle then bundle["recipeId"] else 0
  }

  /** A detail route without its argument shows "not found" for any store of positive ids. */
  lemma MissingArgumentShowsNotFound(rs: seq<Recipe>, arguments: Option<map<string, int>>)
    requires IdsPositive(rs)
    requires arguments.None? || "recipeId" !in arguments.value
    ensures DetailScreenView(rs, RecipeIdArgument(arguments)) ==
            DetailView("Recipe not found", NotFoundMessage("Recipe not found."))
  {
  }

  /** Scenario: id 99 in the seed store gives the "not found" view. */
  lemma UnknownIdShowsNotFound()
    ensures DetailScreenView(SeedRecipes(), 99).body.NotFoundMessage?
  {
  }

  // ---------------------------------------------------------------------------
  // Add screen

  /**
   * Kotlin's `Char.isWhitespace()` on the JVM: `Character.isWhitespace` or
   * `Character.isSpaceChar`, i.e. the control characters U+0009..U+000D and
   * U+001C..U+001F and the Unicode space, line and paragraph separators.
   */
  predicate IsWhitespace(c: char) {
    var n := c as int;
    (0x09 <= n <= 0x0D) || (0x1C <= n <= 0x20) || n == 0xA0 || n == 0x1680 ||
    (0x2000 <= n <= 0x200A) || n == 0x2028 || n == 0x2029 || n == 0x202F ||
    n == 0x205F || n == 0x3000
  }

  /** `String.isNotBlank()`: some character is not whitespace. */
  function IsNotBlank(s: string): (b: bool)
    ensures b <==> exists i :: 0 <= i < |s| && !IsWhitespace(s[i])
    decreases |s|
  {
    if s == [] then false
    else if !IsWhitespace(s[0]) then true
    else
      var b := IsNotBlank(s[1..]);
      assert b ==> exists i :: 0 <= i < |s| && !IsWhitespace(s[i]) by {
        if b {
          var i :| 0 <= i < |s| - 1 && !IsWhitespace(s[1..][i]);
          assert s[i + 1] == s[1..][i];
        }
      }
      assert !b ==> forall i :: 0 <= i < |s| ==> IsWhitespace(s[i]) by {
        if !b {
          forall i | 0 < i < |s| ensures IsWhitespace(s[i]) {
            assert s[i] == s[1..][i - 1];
          }
        }
      }
      b
  }

  /** The Save button's guard: all three fields are non-blank. */
  function CanSave(title: string, ingredients: string, steps: string): (ok: bool)
    ensures ok <==> (exists i :: 0 <= i < |title| && !IsWhitespace(title[i])) &&
                    (exists i :: 0 <= i < |ingredients| && !IsWhitespace(ingredients[i])) &&
                    (exists i :: 0 <= i < |steps| && !IsWhitespace(steps[i]))
    ensures ok ==> |title| > 0 && |ingredients| > 0 && |steps| > 0
  {
    IsNotBlank(title) && IsNotBlank(ingredients) && IsNotBlank(steps)
  }

  /** A field made only of whitespace (or empty) blocks the Save. */
  lemma BlankFieldBlocksSave(title: string, ingredients: string, steps: string)
    requires (forall i :: 0 <= i < |title| ==> IsWhitespace(title[i])) ||
             (forall i :: 0 <= i < |ingredients| ==> IsWhitespace(ingredients[i])) ||
             (forall i :: 0 <= i < |steps| ==> IsWhitespace(steps[i]))
    ensures !CanSave(title, ingredients, steps)
  {
  }

  /**
   * The Save button's handler: calls `addRecipe` and reports that the screen
   * navigates away (`onRecipeAdded`) only when the guard holds; otherwise the
   * store is left as it was.
   */
  method SaveRecipe(vm: RecipeViewModel, title: string, ingredients: string, steps: string)
    returns (added: bool)
    modifies vm
    ensures added == CanSave(title, ingredients, steps)
    ensures vm.recipes == if added then Added(old(vm.recipes), title, ingredients, steps)
                          else old(vm.recipes)
    ensures old(vm.Valid()) ==> vm.Valid()
  {
    added := false;
    if CanSave(title, ingredients, steps) {
      vm.AddRecipe(title, ingredients, steps);
      added := true;
    }
  }
}
