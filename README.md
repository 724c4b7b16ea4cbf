# Recipe store model

A Dafny model of the state logic in a small Android recipe app
(`MainActivity.kt`). The model covers:

- `RecipeViewModel` is the in-memory store. It owns the session's ordered list of
  `Recipe(id, title, ingredients, steps)` and starts with two seed recipes:
  id 1 "Nihari", then id 2 "Chicken Tikka Masala". Its one mutator, `addRecipe`,
  appends a record whose id is one more than the largest id, or 1 for an empty
  list.
- The detail screen looks up a recipe with `recipes.find { it.id == recipeId }`.
  When no recipe matches, it shows "Recipe not found".
- The detail route takes a `recipeId` argument. When the argument bundle is
  missing, the id defaults to -1.
- The add screen's Save button calls `addRecipe` only when the title, the
  ingredients and the steps are all non-blank.
- `Routes.Detail.createRoute` builds the string `"detail/<id>"`.

Modules:

- `Recipes` (`recipes.dfy`) holds the record, the store class and the functions
  that specify it.
- `Routes` (`routes.dfy`) holds the detail route.
- `Screens` (`screens.dfy`) holds the lookup, the detail view, the route
  argument default and the Save guard.
- `Wrappers` (`wrappers.dfy`) holds the `Option` type, which stands for
  Kotlin's nullable values.

The store's observable `StateFlow` is modelled by its current value: the
`seq<Recipe>` field `recipes`. `AddRecipe` reassigns that field.

The main results:

- From the seed state, any series of `addRecipe` calls keeps the ids positive
  and strictly increasing in list order. So the ids are pairwise distinct. In
  fact the id at position `i` is `i + 1`.
- An append leaves every earlier entry in place.
- Lookup returns the first match, or reports absence.
- The missing-argument id always shows "not found".
- `createRoute` is injective.

`addRecipe` returns `Unit`, so `AddRecipe` returns nothing.

## Model

| member | source | states |
|---|---|---|
| `Recipes.SeedRecipes` | app/src/main/java/com/example/indivassignment5q1/MainActivity.kt:77-93 | the initial list has exactly two recipes: id 1 "Nihari", then id 2 "Chicken Tikka Masala"; the id at each position is position + 1 |
| `Recipes.SeedSatisfiesInvariant` | app/src/main/java/com/example/indivassignment5q1/MainActivity.kt:79-92 | the seed list has positive, strictly increasing, consecutive ids |
| `Recipes.MaxIdOrNull` | app/src/main/java/com/example/indivassignment5q1/MainActivity.kt:96 | `maxOfOrNull { it.id }` is None exactly for the empty list; otherwise it is an id in the list and no id exceeds it |
| `Recipes.NextId` | app/src/main/java/com/example/indivassignment5q1/MainActivity.kt:96 | the new id is 1 for an empty list; otherwise it is some existing id + 1 and exceeds every existing id, i.e. max + 1 |
| `Recipes.NextIdAfterGap` | app/src/main/java/com/example/indivassignment5q1/MainActivity.kt:96 | with ids 1, 2, 5 the next id is 6 |
| `Recipes.NextIdIsLastPlusOne` | app/src/main/java/com/example/indivassignment5q1/MainActivity.kt:96 | in a store that keeps its invariant, the next id is the last entry's id + 1 |
| `Recipes.NextIdOfConsecutive` | app/src/main/java/com/example/indivassignment5q1/MainActivity.kt:96 | when the ids are 1..n in order, the next id is n + 1 |
| `Recipes.Added` | app/src/main/java/com/example/indivassignment5q1/MainActivity.kt:96-98 | one add gives the old list, unchanged and in place, followed by exactly one new record: `Recipe(NextId(rs), title, ingredients, steps)`, whose id exceeds every existing id; the length grows by one |
| `Recipes.AddedKeepsInvariant` | app/src/main/java/com/example/indivassignment5q1/MainActivity.kt:95-98 | one add keeps ids positive and strictly increasing; the new id exceeds every existing id |
| `Recipes.AddedKeepsDistinct` | app/src/main/java/com/example/indivassignment5q1/MainActivity.kt:96-98 | pairwise-distinct ids stay pairwise distinct after an add, whatever the ids were |
| `Recipes.InvariantImpliesDistinct` | app/src/main/java/com/example/indivassignment5q1/MainActivity.kt:96-98 | positive, strictly increasing ids are pairwise distinct |
| `Recipes.AddedAllAppends` | app/src/main/java/com/example/indivassignment5q1/MainActivity.kt:95-98 | after any series of adds, the old list is a prefix; the new records follow in call order with the given fields; the length grows by the number of calls |
| `Recipes.AddedAllKeepsInvariant` | app/src/main/java/com/example/indivassignment5q1/MainActivity.kt:95-98 | any series of adds keeps ids positive and strictly increasing |
| `Recipes.AddedAllKeepsConsecutive` | app/src/main/java/com/example/indivassignment5q1/MainActivity.kt:95-98 | from a list with ids 1..n, any series of adds gives ids 1..n+k in order |
| `Recipes.SessionHistory` | app/src/main/java/com/example/indivassignment5q1/MainActivity.kt:77-98 | from the seed, any series of adds gives distinct positive ids equal to position + 1; the seed stays first; the k-th added record is `Recipe(3 + k, ...)` with its given fields |
| `Recipes.RecipeViewModel.constructor` | app/src/main/java/com/example/indivassignment5q1/MainActivity.kt:73-93 | the list starts empty and `init` sets it to the seed list, which satisfies the store invariant |
| `Recipes.RecipeViewModel.AddRecipe` | app/src/main/java/com/example/indivassignment5q1/MainActivity.kt:95-99 | the new list is the old list plus one record with the next id and exactly the given fields, blank or not; the new id exceeds all earlier ids; the invariant is preserved |
| `Recipes.FreshStoreAddsSoup` | app/src/main/java/com/example/indivassignment5q1/MainActivity.kt:77-98 | a fresh store plus `addRecipe("Soup", "Water,Salt", "Boil it")` has 3 entries: the seed, then `Recipe(3, "Soup", "Water,Salt", "Boil it")` |
| `Routes.NatToDecimal` | app/src/main/java/com/example/indivassignment5q1/MainActivity.kt:108 | the decimal rendering is a non-empty digit string with no leading zero |
| `Routes.IntToDecimal` | app/src/main/java/com/example/indivassignment5q1/MainActivity.kt:108 | an `Int` renders as a leading '-' exactly when it is negative, followed by digits |
| `Routes.CreateRoute` | app/src/main/java/com/example/indivassignment5q1/MainActivity.kt:107-108 | the route is "detail/" followed by the id's decimal rendering |
| `Routes.NatToDecimalRoundTrip` | app/src/main/java/com/example/indivassignment5q1/MainActivity.kt:108 | reading back the decimal rendering of n gives n |
| `Routes.CreateRouteRoundTrip` | app/src/main/java/com/example/indivassignment5q1/MainActivity.kt:107-108 | reading the `{recipeId}` argument back out of `createRoute(id)` gives id |
| `Routes.CreateRouteInjective` | app/src/main/java/com/example/indivassignment5q1/MainActivity.kt:108 | different ids give different routes |
| `Routes.CreateRouteExamples` | app/src/main/java/com/example/indivassignment5q1/MainActivity.kt:108 | `createRoute(1)` is "detail/1", `createRoute(42)` is "detail/42" and `createRoute(-1)` is "detail/-1" |
| `Screens.Find` | app/src/main/java/com/example/indivassignment5q1/MainActivity.kt:238 | the result is None exactly when no recipe has the id; otherwise it is the first recipe in list order with that id |
| `Screens.DetailScreenView` | app/src/main/java/com/example/indivassignment5q1/MainActivity.kt:236-264 | the body shows "not found" exactly when no recipe has the id; then the title is "Recipe not found" and the body "Recipe not found."; otherwise both show the first matching recipe's title, ingredients and steps |
| `Screens.FindInDistinctStore` | app/src/main/java/com/example/indivassignment5q1/MainActivity.kt:238 | in a store with distinct ids, looking up a stored recipe's id returns that recipe |
| `Screens.FindAppend` | app/src/main/java/com/example/indivassignment5q1/MainActivity.kt:238 | lookup in a list with one appended record gives the old answer if there was one; else the appended record if its id matches; else none |
| `Screens.FindAfterAdd` | app/src/main/java/com/example/indivassignment5q1/MainActivity.kt:238 | after `addRecipe`, looking up the new id gives the new record; every other lookup gives the same answer as before |
| `Screens.RecipeIdArgument` | app/src/main/java/com/example/indivassignment5q1/MainActivity.kt:156 | a missing argument bundle gives id -1; a bundle without the key gives 0; otherwise the id is the argument's value |
| `Screens.MissingArgumentShowsNotFound` | app/src/main/java/com/example/indivassignment5q1/MainActivity.kt:156-157 | when every stored id is positive, a missing argument always gives the "Recipe not found" view |
| `Screens.UnknownIdShowsNotFound` | app/src/main/java/com/example/indivassignment5q1/MainActivity.kt:238-262 | looking up id 99 in the seed store gives the "not found" view |
| `Screens.IsNotBlank` | app/src/main/java/com/example/indivassignment5q1/MainActivity.kt:302 | `isNotBlank()` holds exactly when some character is not whitespace |
| `Screens.CanSave` | app/src/main/java/com/example/indivassignment5q1/MainActivity.kt:302 | Save is allowed exactly when each of title, ingredients and steps has a non-whitespace character; so all three are non-empty |
| `Screens.BlankFieldBlocksSave` | app/src/main/java/com/example/indivassignment5q1/MainActivity.kt:302-305 | if any field is empty or all whitespace, Save is refused |
| `Screens.SaveRecipe` | app/src/main/java/com/example/indivassignment5q1/MainActivity.kt:300-306 | the handler adds a recipe and navigates away exactly when the guard holds; otherwise the store is unchanged; the store invariant is preserved |

## Left out

- Compose UI (`RecipeApp`, the layout of `HomeScreen`, `DetailScreen` and `AddRecipeScreen`, `SettingsScreen`, `DefaultPreview`, the theme): presentation only. Of the detail screen, only the text it chooses is modelled (`Screens.DetailScreenView`).
- Navigation wiring (`AppNavHost`, `AppBottomNavigation`, `popUpTo`, `launchSingleTop`, the back stack, route labels and icons): these are calls into the Jetpack Navigation library, whose behaviour this model does not cover. `onRecipeAdded` is modelled only as the `added` result of `Screens.SaveRecipe`.
- Parsing of "detail/{recipeId}" is done by the navigation library. `Routes.ParseDetailRoute` is a reference reader for that format. It is used only to prove that `createRoute` loses no information. It is not a model of the library's parser.
- `MutableStateFlow`, `asStateFlow`, `update` and `collectAsState`: subscriptions and notifications are dropped. Only the flow's current value is kept. `update`'s compare-and-set retry is not modelled, because all writes come from the main thread.
- Android lifecycle (`MainActivity.onCreate`, `by viewModels()` scoping) has no logic to model.
- `Bundle.getInt` is Android code and is not part of this model. `Screens.RecipeIdArgument` uses its documented default of 0 for a missing key.
- Recipes.NextId: ids are unbounded integers. Kotlin's 32-bit `Int` would wrap `max + 1` to a negative value once the largest id is 2147483647. The model does not capture that.
- `Screens.IsWhitespace` spells out the Kotlin/JVM whitespace set (`Character.isWhitespace` or `Character.isSpaceChar`) as fixed code points. The lemmas use only "some character is not whitespace", so they hold for any whitespace set.
