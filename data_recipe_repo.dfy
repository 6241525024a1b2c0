/**
 * The current recipe repository (src/data/recipe-repo.ts): its own recipe,
 * material and machine tables and the lookups over them.
 */
module DataRecipeRepo {
  import opened Wrappers
  import opened Catalog

  const Recipes: seq<RecipeDescriptor> := [
    RecipeDescriptor("crude_oil_refining", "refinery_1", None,
      [IngredientDescriptor("crude_oil", 60), IngredientDescriptor("steam", 6)],
      [IngredientDescriptor("medium_oil", 48), IngredientDescriptor("heavy_oil", 12),
       IngredientDescriptor("sour_water", 18)]),
    RecipeDescriptor("medium_oil_refining", "refinery_2", None,
      [IngredientDescriptor("medium_oil", 48), IngredientDescriptor("steam", 3)],
      [IngredientDescriptor("diesel", 36), IngredientDescriptor("light_oil", 30)])
  ]

  const Materials: seq<Material> := [
    Material("crude_oil", "../assets/Crude_Oil.png", Fluid),
    Material("medium_oil", "../assets/Medium_Oil.png", Fluid),
    Material("light_oil", "../assets/Light_Oil.png", Fluid),
    Material("heavy_oil", "../assets/Heavy_Oil.png", Fluid),
    Material("steam", "../assets/SteamHp.png", Fluid),
    Material("sour_water", "../assets/Sour_Water.png", Fluid),
    Material("diesel", "../assets/Diesel.png", Fluid),
    Material("exhaust", "../assets/Exhaust.png", Fluid)
  ]

  const Machines: seq<Machine> := [
    Machine("refinery_1", "Distillation (Stage I)", 0, 6, 3, "../assets/Distillation_(Stage_I).png"),
    Machine("refinery_2", "Distillation (Stage II)", 0, 8, 3, "../assets/Distillation_(Stage_II).png")
  ]

  /** `getRecipeIds`: the recipe ids in table order. */
  function GetRecipeIds(): (ids: seq<string>)
    ensures ids == ["crude_oil_refining", "medium_oil_refining"]
  {
    RecipeIds(Recipes)
  }

  /** `getRecipe`: the first recipe with the id; None where the source's `!` hides `undefined`. */
  function GetRecipe(recipeId: string): (r: Option<RecipeDescriptor>)
    ensures r.Some? <==> recipeId in GetRecipeIds()
    ensures r.Some? ==> r.value.recipeId == recipeId && r.value in Recipes
  {
    FoundIffListed(Recipes, RecipeKey, recipeId);
    FindRecipe(Recipes, recipeId)
  }

  /** `getMaterial`: the material with the id, or the `<id> not found` error. */
  function GetMaterial(materialId: string): (r: Result<Material, string>)
    ensures r.Success? <==> materialId in Ids(Materials, MaterialKey)
    ensures r.Success? ==> r.value.materialId == materialId && r.value in Materials
    ensures r.Failure? ==> r.error == materialId + " not found"
  {
    FoundIffListed(Materials, MaterialKey, materialId);
    Catalog.GetMaterial(Materials, materialId)
  }

  /** `getMachine`: the first machine with the id; None where the source's `!` hides `undefined`. */
  function GetMachine(machineId: string): (r: Option<Machine>)
    ensures r.Some? <==> machineId in Ids(Machines, MachineKey)
    ensures r.Some? ==> r.value.machineId == machineId && r.value in Machines
  {
    FoundIffListed(Machines, MachineKey, machineId);
    FindById(Machines, MachineKey, machineId)
  }

  /** `getIngredients` over this repository's material table. */
  function GetIngredients(descriptors: seq<IngredientDescriptor>): (r: Option<seq<IngredientData>>)
    ensures r.Some? <==> AllMaterialsKnown(Materials, descriptors)
    ensures r.Some? ==> ResolvedFrom(r.value, descriptors, Materials)
  {
    Catalog.GetIngredients(Materials, descriptors)
  }

  /**
   * `getRecipeData`: because the tables have referential integrity, the
   * resolution succeeds exactly for the listed recipe ids.
   */
  function GetRecipeData(recipeId: string): (r: Option<RecipeData<Machine>>)
    ensures r.Some? <==> recipeId in GetRecipeIds()
    ensures r.Some? ==> r.value.recipeId == recipeId && r.value.energyConsumptionMultiplier.None?
    ensures r.Some? ==>
      && r.value.machine.machineId == GetRecipe(recipeId).value.machineId
      && Some(r.value.machine) == GetMachine(GetRecipe(recipeId).value.machineId)
      && r.value.machine in Machines
      && ResolvedFrom(r.value.inputs, GetRecipe(recipeId).value.inputs, Materials)
      && ResolvedFrom(r.value.outputs, GetRecipe(recipeId).value.outputs, Materials)
  {
    TablesHaveIntegrity();
    IntegrityMeansListedIdsResolve(Recipes, Materials, Machines, MachineKey, recipeId);
    ResolveRecipe(Recipes, Materials, Machines, MachineKey, recipeId)
  }

  /** Every material and machine that a recipe names exists in this repository's tables. */
  lemma TablesHaveIntegrity()
    ensures CatalogIntegrity(Recipes, Materials, Machines, MachineKey)
  {
    forall i | 0 <= i < |Recipes| ensures RecipeResolvable(Recipes[i], Materials, Machines, MachineKey) {
      RecipeReferencesListed(i);
      ListedReferencesResolve(Recipes[i], Materials, Machines, MachineKey);
    }
  }

  /** Every id that recipe i names is listed by the material or machine table. */
  lemma RecipeReferencesListed(i: nat)
    requires i < |Recipes|
    ensures ReferencesListed(Recipes[i], Ids(Materials, MaterialKey), Ids(Machines, MachineKey))
  {
    MaterialIdsInOrder();
    MachineIdsInOrder();
    if i == 0 {
      assert Ids(Recipes[0].inputs, IngredientKey) == ["crude_oil", "steam"];
      assert Ids(Recipes[0].outputs, IngredientKey) == ["medium_oil", "heavy_oil", "sour_water"];
    } else {
      assert Ids(Recipes[1].inputs, IngredientKey) == ["medium_oil", "steam"];
      assert Ids(Recipes[1].outputs, IngredientKey) == ["diesel", "light_oil"];
    }
  }

  /** The material ids of the table, in table order. */
  lemma MaterialIdsInOrder()
    ensures Ids(Materials, MaterialKey) ==
      ["crude_oil", "medium_oil", "light_oil", "heavy_oil", "steam", "sour_water", "diesel", "exhaust"]
  {
  }

  /** The machine ids of the table, in table order. */
  lemma MachineIdsInOrder()
    ensures Ids(Machines, MachineKey) == ["refinery_1", "refinery_2"]
  {
  }

  /** The recipe ids are distinct, so `getRecipeIds` lists no id twice. */
  lemma RecipeIdsDistinct()
    ensures DistinctKeys(Recipes, RecipeKey)
    ensures NoDuplicates(GetRecipeIds())
  {
    DistinctKeysIffNoDuplicates(Recipes, RecipeKey);
  }

  /** The material ids are distinct. */
  lemma MaterialIdsDistinct()
    ensures DistinctKeys(Materials, MaterialKey)
  {
    MaterialIdsInOrder();
    MaterialIdListDistinct();
    DistinctKeysIffNoDuplicates(Materials, MaterialKey);
  }

  /** The listed material ids hold no duplicates. */
  lemma MaterialIdListDistinct()
    ensures NoDuplicates(["crude_oil", "medium_oil", "light_oil", "heavy_oil", "steam", "sour_water", "diesel", "exhaust"])
  {
    LastMaterialIdsDistinct();
    NoDuplicatesCons("heavy_oil", ["steam", "sour_water", "diesel", "exhaust"]);
    NoDuplicatesCons("light_oil", ["heavy_oil", "steam", "sour_water", "diesel", "exhaust"]);
    NoDuplicatesCons("medium_oil", ["light_oil", "heavy_oil", "steam", "sour_water", "diesel", "exhaust"]);
    NoDuplicatesCons("crude_oil", ["medium_oil", "light_oil", "heavy_oil", "steam", "sour_water", "diesel", "exhaust"]);
  }

  /** The last four material ids are distinct. */
  lemma LastMaterialIdsDistinct()
    ensures NoDuplicates(["steam", "sour_water", "diesel", "exhaust"])
  {
    NoDuplicatesCons("exhaust", []);
    NoDuplicatesCons("diesel", ["exhaust"]);
    NoDuplicatesCons("sour_water", ["diesel", "exhaust"]);
    NoDuplicatesCons("steam", ["sour_water", "diesel", "exhaust"]);
  }

  /** The machine ids are distinct. */
  lemma MachineIdsDistinct()
    ensures DistinctKeys(Machines, MachineKey)
  {
    MachineIdsInOrder();
    DistinctKeysIffNoDuplicates(Machines, MachineKey);
  }

  /** Looking up the id of the i-th recipe yields exactly that recipe. */
  lemma RecipeLookupInverse(i: nat)
    requires i < |Recipes|
    ensures GetRecipe(Recipes[i].recipeId) == Some(Recipes[i])
  {
    RecipeIdsDistinct();
    LookupOfKeyIsEntry(Recipes, RecipeKey, i);
  }

  /** Every ingredient amount in the recipe table is positive. */
  lemma AmountsPositive()
    ensures forall i :: 0 <= i < |Recipes| ==> PositiveAmounts(Recipes[i].inputs) && PositiveAmounts(Recipes[i].outputs)
  {
  }

  /** Energy consumption, workers and maintenance are non-negative for every machine. */
  lemma MachineFiguresNonNegative()
    ensures forall m :: m in Machines ==> m.energyConsumption >= 0 && m.workers >= 0 && m.maintenance >= 0
  {
  }
}
