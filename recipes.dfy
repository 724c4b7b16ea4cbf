/**
 * The recipe record and `RecipeViewModel`, the in-memory store that owns the
 * session's list of recipes. The observable `StateFlow` is modelled by its
 * current value, a sequence field.
 */
module Recipes {
  import opened Wrappers

  /** One recipe, an immutable value; `id` is assigned by the store. */
  datatype Recipe = Recipe(id: int, title: string, ingredients: string, steps: string)

  /** The arguments of one `addRecipe` call. */
  datatype RecipeForm = RecipeForm(title: string, ingredients: string, steps: string)

  const NihariIngredients: string :=
    "1 kg beef shank, 1/4 cup ghee, 2 large onions, Ginger-garlic paste, Nihari masala, Flour slurry"
  const NihariSteps: string :=
    "1. Brown beef in ghee with onions. 2. Add spices and water, then slow cook for 4-6 hours until tender. 3. Thicken the gravy with a flour slurry. 4. Garnish with ginger, cilantro, and lemon."
  const TikkaMasalaIngredients: string :=
    "1 lb chicken, 1 cup yogurt, 1 tbsp ginger-garlic paste, 1 can crushed tomatoes, 1 cup heavy cream, Spices"
  const TikkaMasalaSteps: string :=
    "1. Marinate chicken. 2. Grill chicken. 3. Make the sauce. 4. Combine and simmer."

  /** The two recipes the store holds right after construction, in this order. */
  function SeedRecipes(): (s: seq<Recipe>)
    ensures |s| == 2
    ensures s[0].id == 1 && s[0].title == "Nihari"
    ensures s[1].id == 2 && s[1].title == "Chicken Tikka Masala"
    ensures forall i :: 0 <= i < |s| ==> s[i].id == i + 1
  {
    [ Recipe(1, "Nihari", NihariIngredients, NihariSteps),
      Recipe(2, "Chicken Tikka Masala", TikkaMasalaIngredients, TikkaMasalaSteps) ]
  }

  /**
   * `maxOfOrNull { it.id }`: the largest id in the list, or None when the
   * list is empty. Scans the list keeping the running maximum.
   */
  function MaxIdOrNull(rs: seq<Recipe>): (m: Option<int>)
    ensures m.None? <==> rs == []
    ensures m.Some? ==> exists i :: 0 <= i < |rs| && rs[i].id == m.value
    ensures m.Some? ==> forall i :: 0 <= i < |rs| ==> rs[i].id <= m.value
    decreases |rs|
  {
    if rs == [] then None
    else
      var last := rs[|rs| - 1].id;
      match MaxIdOrNull(rs[..|rs| - 1])
      case None => Some(last)
      case Some(m) => if m < last then Some(last) else Some(m)
  }

  /** The id `addRecipe` gives a new recipe: `(maxOfOrNull ?: 0) + 1`. */
  function NextId(rs: seq<Recipe>): (n: int)
    ensures rs == [] ==> n == 1
    ensures rs != [] ==> exists i :: 0 <= i < |rs| && n == rs[i].id + 1
    ensures forall i :: 0 <= i < |rs| ==> rs[i].id < n
  {
    (match MaxIdOrNull(rs) case Some(m) => m case None => 0) + 1
  }

  /**
   * The list after one `addRecipe(title, ingredients, steps)`: the old list,
   * unchanged and in place, followed by exactly one new record that carries
   * the given fields and an id above every existing id.
   */
  function Added(rs: seq<Recipe>, title: string, ingredients: string, steps: string): (rs': seq<Recipe>)
    ensures |rs'| == |rs| + 1 && rs'[..|rs|] == rs
    ensures rs'[|rs|].title == title && rs'[|rs|].ingredients == ingredients && rs'[|rs|].steps == steps
    ensures rs'[|rs|].id == NextId(rs)
    ensures forall i :: 0 <= i < |rs| ==> rs'[i].id < rs'[|rs|].id
  {
    rs + [Recipe(NextId(rs), title, ingredients, steps)]
  }

  /** The list after a series of `addRecipe` calls, in call order. */
  function AddedAll(rs: seq<Recipe>, forms: seq<RecipeForm>): seq<Recipe>
    decreases |forms|
  {
    if forms == [] then rs
    else
      var f := forms[|forms| - 1];
      Added(AddedAll(rs, forms[..|forms| - 1]), f.title, f.ingredients, f.steps)
  }

  ghost predicate IdsPositive(rs: seq<Recipe>) {
    forall i :: 0 <= i < |rs| ==> rs[i].id > 0
  }

  ghost predicate IdsIncreasing(rs: seq<Recipe>) {
    forall i, j :: 0 <= i < j < |rs| ==> rs[i].id < rs[j].id
  }

  ghost predicate IdsDistinct(rs: seq<Recipe>) {
    forall i, j :: 0 <= i < |rs| && 0 <= j < |rs| && i != j ==> rs[i].id != rs[j].id
  }

  /** The store's invariant: ids are positive and increase in list order. */
  ghost predicate StoreInvariant(rs: seq<Recipe>) {
    IdsPositive(rs) && IdsIncreasing(rs)
  }

  /** Ids in list order are 1, 2, 3, ...: what the seed plus appends produce. */
  ghost predicate IdsConsecutive(rs: seq<Recipe>) {
    forall i :: 0 <= i < |rs| ==> rs[i].id == i + 1
  }

  lemma SeedSatisfiesInvariant()
    ensures StoreInvariant(SeedRecipes()) && IdsConsecutive(SeedRecipes())
  {
  }

  lemma InvariantImpliesDistinct(rs: seq<Recipe>)
    requires StoreInvariant(rs)
    ensures IdsDistinct(rs)
  {
  }

  /** Scenario with non-contiguous ids 1, 2, 5: the next id is 6. */
  lemma NextIdAfterGap()
    ensures NextId([Recipe(1, "a", "", ""), Recipe(2, "b", "", ""), Recipe(5, "c", "", "")]) == 6
  {
  }

  /** In a store that keeps its invariant, the next id is the last id plus one. */
  lemma NextIdIsLastPlusOne(rs: seq<Recipe>)
    requires StoreInvariant(rs) && rs != []
    ensures NextId(rs) == rs[|rs| - 1].id + 1
  {
  }

  /** In a store with consecutive ids, the next id is the new length. */
  lemma NextIdOfConsecutive(rs: seq<Recipe>)
    requires IdsConsecutive(rs)
    ensures NextId(rs) == |rs| + 1
  {
  }

  /** One append keeps the invariant and the new id exceeds every existing id. */
  lemma AddedKeepsInvariant(rs: seq<Recipe>, title: string, ingredients: string, steps: string)
    requires StoreInvariant(rs)
    ensures StoreInvariant(Added(rs, title, ingredients, steps))
    ensures forall i :: 0 <= i < |rs| ==> rs[i].id < NextId(rs)
  {
  }

  /** Distinct ids stay distinct after an append, whatever the ids were. */
  lemma AddedKeepsDistinct(rs: seq<Recipe>, title: string, ingredients: string, steps: string)
    requires IdsDistinct(rs)
    ensures IdsDistinct(Added(rs, title, ingredients, steps))
  {
  }

  /** A series of appends: the old list is a prefix and the new records follow in call order. */
  lemma {:induction false} AddedAllAppends(rs: seq<Recipe>, forms: seq<RecipeForm>)
    ensures |AddedAll(rs, forms)| == |rs| + |forms|
    ensures AddedAll(rs, forms)[..|rs|] == rs
    ensures forall k :: 0 <= k < |forms| ==>
              AddedAll(rs, forms)[|rs| + k].title == forms[k].title &&
              AddedAll(rs, forms)[|rs| + k].ingredients == forms[k].ingredients &&
              AddedAll(rs, forms)[|rs| + k].steps == forms[k].steps
    decreases |forms|
  {
    if forms != [] {
      var init := forms[..|forms| - 1];
      var f := forms[|forms| - 1];
      var prev := AddedAll(rs, init);
      AddedAllAppends(rs, init);
      assert AddedAll(rs, forms) == prev + [Recipe(NextId(prev), f.title, f.ingredients, f.steps)];
      assert AddedAll(rs, forms)[..|prev|] == prev;
      forall k | 0 <= k < |forms|
        ensures AddedAll(rs, forms)[|rs| + k].title == forms[k].title
        ensures AddedAll(rs, forms)[|rs| + k].ingredients == forms[k].ingredients
        ensures AddedAll(rs, forms)[|rs| + k].steps == forms[k].steps
      {
        if k < |init| {
          assert forms[k] == init[k];
          assert AddedAll(rs, forms)[|rs| + k] == prev[|rs| + k];
        }
      }
    }
  }

  /** Any series of appends keeps the store's invariant. */
  lemma {:induction false} AddedAllKeepsInvariant(rs: seq<Recipe>, forms: seq<RecipeForm>)
    requires StoreInvariant(rs)
    ensures StoreInvariant(AddedAll(rs, forms))
    decreases |forms|
  {
    if forms != [] {
      var f := forms[|forms| - 1];
      AddedAllKeepsInvariant(rs, forms[..|forms| - 1]);
      AddedKeepsInvariant(AddedAll(rs, forms[..|forms| - 1]), f.title, f.ingredients, f.steps);
    }
  }

  /** Appends to a list with ids 1..n give the new records ids n+1, n+2, ... */
  lemma {:induction false} AddedAllKeepsConsecutive(rs: seq<Recipe>, forms: seq<RecipeForm>)
    requires IdsConsecutive(rs)
    ensures IdsConsecutive(AddedAll(rs, forms))
    decreases |forms|
  {
    if forms != [] {
      var prev := AddedAll(rs, forms[..|forms| - 1]);
      AddedAllKeepsConsecutive(rs, forms[..|forms| - 1]);
      NextIdOfConsecutive(prev);
    }
  }

  /**
   * From the seed state, any series of `addRecipe` calls gives a list whose
   * ids are pairwise distinct, positive, and equal to position + 1; the seed
   * recipes stay first and the new records follow in call order.
   */
  lemma SessionHistory(forms: seq<RecipeForm>)
    ensures |AddedAll(SeedRecipes(), forms)| == 2 + |forms|
    ensures StoreInvariant(AddedAll(SeedRecipes(), forms))
    ensures IdsDistinct(AddedAll(SeedRecipes(), forms))
    ensures IdsConsecutive(AddedAll(SeedRecipes(), forms))
    ensures AddedAll(SeedRecipes(), forms)[..2] == SeedRecipes()
    ensures forall k :: 0 <= k < |forms| ==>
              AddedAll(SeedRecipes(), forms)[2 + k] ==
              Recipe(3 + k, forms[k].title, forms[k].ingredients, forms[k].steps)
  {
    var rs := AddedAll(SeedRecipes(), forms);
    SeedSatisfiesInvariant();
    AddedAllKeepsInvariant(SeedRecipes(), forms);
    InvariantImpliesDistinct(rs);
    AddedAllKeepsConsecutive(SeedRecipes(), forms);
    AddedAllAppends(SeedRecipes(), forms);
    forall k | 0 <= k < |forms|
      ensures rs[2 + k] == Recipe(3 + k, forms[k].title, forms[k].ingredients, forms[k].steps)
    {
      assert rs[2 + k].id == 3 + k;
    }
  }

  /** `RecipeViewModel`: owns the session's recipe list. */
  class RecipeViewModel {
    /** The current value of the observable recipe list. */
    var recipes: seq<Recipe>

    ghost predicate Valid()
      reads this
    {
      StoreInvariant(recipes)
    }

    /** The list starts empty and `init` replaces it with the two seed recipes. */
    constructor ()
      ensures recipes == SeedRecipes()
      ensures Valid() && IdsConsecutive(recipes)
    {
      recipes := [];
      recipes := SeedRecipes();
      SeedSatisfiesInvariant();
    }

    /**
     * Appends a record with the next id and exactly the given fields. No
     * validation: blank strings are stored as given.
     */
    method AddRecipe(title: string, ingredients: string, steps: string)
      modifies this
      ensures recipes == Added(old(recipes), title, ingredients, steps)
      ensures forall i :: 0 <= i < |old(recipes)| ==> old(recipes)[i].id < recipes[|recipes| - 1].id
      ensures old(Valid()) ==> Valid()
    {
      var newId := NextId(recipes);
      var newRecipe := Recipe(newId, title, ingredients, steps);
      if Valid() {
        AddedKeepsInvariant(recipes, title, ingredients, steps);
      }
      recipes := recipes + [newRecipe];
    }
  }

  /** Scenario: a fresh store, then `addRecipe("Soup", "Water,Salt", "Boil it")`. */
  method FreshStoreAddsSoup() returns (contents: seq<Recipe>)
    ensures |contents| == 3
    ensures contents[..2] == SeedRecipes()
    ensures contents[2] == Recipe(3, "Soup", "Water,Salt", "Boil it")
  {
    var vm := new RecipeViewModel();
    vm.AddRecipe("Soup", "Water,Salt", "Boil it");
    NextIdOfConsecutive(SeedRecipes());
    contents := vm.recipes;
  }
}
