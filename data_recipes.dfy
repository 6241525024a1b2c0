/** The split-out recipe table (src/data/recipes.ts) and its two lookups. */
module DataRecipes {
  import opened Wrappers
  import opened Catalog

  const Recipes: seq<RecipeDescriptor> := [
    RecipeDescriptor("crude_oil_refining", "refinery_1", None,
      [IngredientDescriptor("crude_oil", 60), IngredientDescriptor("steam_high", 6)],
      [IngredientDescriptor("medium_oil", 48), IngredientDescriptor("heavy_oil", 12),
       IngredientDescriptor("sour_water", 18)]),
    RecipeDescriptor("medium_oil_refining", "refinery_2", None,
      [IngredientDescriptor("medium_oil", 48), IngredientDescriptor("steam_high", 3)],
      [IngredientDescriptor("diesel", 36), IngredientDescriptor("light_oil", 30)]),
    RecipeDescriptor("light_oil_refining", "refinery_3", None,
      [IngredientDescriptor("light_oil", 30), IngredientDescriptor("steam_high", 3)],
      [IngredientDescriptor("naphta", 24), IngredientDescriptor("fuel_gas", 12)])
  ]

  /** `getRecipeIds`: one id per recipe, in table order. */
  function GetRecipeIds(): (ids: seq<string>)
    ensures ids == ["crude_oil_refining", "medium_oil_refining", "light_oil_refining"]
  {
    RecipeIds(Recipes)
  }

  /** `getRecipe`: the first recipe with the id; None where the source's `!` hides `undefined`. */
  function GetRecipe(recipeId: string): (r: Option<RecipeDescriptor>)
    ensures r.Some? <==> recipeId in GetRecipeIds()
    ensures r.Some? ==> r.value.recipeId == recipeId && r.value in Recipes
  {
    FoundIffListed(Recipes, RecipeKey, recipeId);
    FindRecipe(Recipes, recipeId)
  }

  /** The recipe ids are distinct, so `getRecipeIds` lists no id twice. */
  lemma RecipeIdsDistinct()
    ensures DistinctKeys(Recipes, RecipeKey)
    ensures NoDuplicates(GetRecipeIds())
  {
    NoDuplicatesCons("light_oil_refining", []);
    NoDuplicatesCons("medium_oil_refining", ["light_oil_refining"]);
    NoDuplicatesCons("crude_oil_refining", ["medium_oil_refining", "light_oil_refining"]);
    DistinctKeysIffNoDuplicates(Recipes, RecipeKey);
  }

  /** Looking up the id of the i-th recipe yields exactly that recipe. */
  lemma RecipeLookupInverse(i: nat)
    requires i < |Recipes|
    ensures GetRecipe(Recipes[i].recipeId) == Some(Recipes[i])
  {
    RecipeIdsDistinct();
    LookupOfKeyIsEntry(Recipes, RecipeKey, i);
  }

  /** Every ingredient amount in the table is positive. */
  lemma AmountsPositive()
    ensures forall i :: 0 <= i < |Recipes| ==> PositiveAmounts(Recipes[i].inputs) && PositiveAmounts(Recipes[i].outputs)
  {
  }
}
