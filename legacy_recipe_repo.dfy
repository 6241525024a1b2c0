/**
 * The older copy of the recipe repository (src/recipe-repo.ts): a single
 * recipe, four materials and one machine whose record has no name and no icon.
 * Only the resolver is exported.
 */
module LegacyRecipeRepo {
  import opened Wrappers
  import opened Catalog

  /** The machine record of this copy: no name, no icon. */
  datatype LegacyMachine = LegacyMachine(machineId: string, energyConsumption: int, workers: int, maintenance: int)

  function LegacyMachineKey(m: LegacyMachine): string { m.machineId }

  const Recipes: seq<RecipeDescriptor> := [
    RecipeDescriptor("oil_refining", "refinery_2", None,
      [IngredientDescriptor("oil", 60), IngredientDescriptor("steam", 9)],
      [IngredientDescriptor("diesel", 36), IngredientDescriptor("exhaust", 16)])
  ]

  const Materials: seq<Material> := [
    Material("oil", "./assets/Medium_Oil.png", Fluid),
    Material("steam", "./assets/SteamHp.png", Fluid),
    Material("diesel", "./assets/Diesel.png", Fluid),
    Material("exhaust", "./assets/Exhaust.png", Fluid)
  ]

  const Machines: seq<LegacyMachine> := [
    LegacyMachine("refinery_2", 3, 2, 1)
  ]

  /** `getIngredients` over this copy's material table. */
  function GetIngredients(descriptors: seq<IngredientDescriptor>): (r: Option<seq<IngredientData>>)
    ensures r.Some? <==> forall j :: 0 <= j < |descriptors| ==> descriptors[j].materialId in ["oil", "steam", "diesel", "exhaust"]
    ensures r.Some? ==> ResolvedFrom(r.value, descriptors, Materials)
  {
    MaterialIdsInOrder();
    forall j | 0 <= j < |descriptors|
      ensures FindMaterial(Materials, descriptors[j].materialId).Some? <==> descriptors[j].materialId in Ids(Materials, MaterialKey)
    {
      FoundIffListed(Materials, MaterialKey, descriptors[j].materialId);
    }
    Catalog.GetIngredients(Materials, descriptors)
  }

  /**
   * `getRecipeData`: only "oil_refining" is in the table, and all its
   * references resolve, so the result is non-null exactly for that id.
   */
  function GetRecipeData(recipeId: string): (r: Option<RecipeData<LegacyMachine>>)
    ensures r.Some? <==> recipeId == "oil_refining"
    ensures r.Some? ==>
      && r.value.recipeId == recipeId
      && r.value.machine == Machines[0]
      && r.value.energyConsumptionMultiplier.None?
      && ResolvedFrom(r.value.inputs, Recipes[0].inputs, Materials)
      && ResolvedFrom(r.value.outputs, Recipes[0].outputs, Materials)
  {
    TablesHaveIntegrity();
    IntegrityMeansListedIdsResolve(Recipes, Materials, Machines, LegacyMachineKey, recipeId);
    assert RecipeIds(Recipes) == ["oil_refining"];
    ResolveRecipe(Recipes, Materials, Machines, LegacyMachineKey, recipeId)
  }

  /** The material ids of the table, in table order. */
  lemma MaterialIdsInOrder()
    ensures Ids(Materials, MaterialKey) == ["oil", "steam", "diesel", "exhaust"]
  {
  }

  /** "oil_refining" names only the materials oil, steam, diesel, exhaust and the machine refinery_2, all present. */
  lemma TablesHaveIntegrity()
    ensures CatalogIntegrity(Recipes, Materials, Machines, LegacyMachineKey)
  {
    MaterialIdsInOrder();
    assert Ids(Machines, LegacyMachineKey) == ["refinery_2"];
    assert Ids(Recipes[0].inputs, IngredientKey) == ["oil", "steam"];
    assert Ids(Recipes[0].outputs, IngredientKey) == ["diesel", "exhaust"];
    ListedReferencesResolve(Recipes[0], Materials, Machines, LegacyMachineKey);
  }

  /** The resolution of "oil_refining", written out: the machine and the four materials in recipe order. */
  lemma OilRefiningResolution()
    ensures GetRecipeData("oil_refining") == Some(RecipeData("oil_refining", Machines[0], None,
      [IngredientData(Materials[0], 60), IngredientData(Materials[1], 9)],
      [IngredientData(Materials[2], 36), IngredientData(Materials[3], 16)]))
  {
    MaterialIdsDistinct();
    LookupOfKeyIsEntry(Materials, MaterialKey, 0);
    LookupOfKeyIsEntry(Materials, MaterialKey, 1);
    LookupOfKeyIsEntry(Materials, MaterialKey, 2);
    LookupOfKeyIsEntry(Materials, MaterialKey, 3);
    var r := GetRecipeData("oil_refining").value;
    assert r.inputs[0] == IngredientData(Materials[0], 60);
    assert r.inputs[1] == IngredientData(Materials[1], 9);
    assert r.outputs[0] == IngredientData(Materials[2], 36);
    assert r.outputs[1] == IngredientData(Materials[3], 16);
    assert r.inputs == [IngredientData(Materials[0], 60), IngredientData(Materials[1], 9)];
    assert r.outputs == [IngredientData(Materials[2], 36), IngredientData(Materials[3], 16)];
  }

  /** The material ids are distinct. */
  lemma MaterialIdsDistinct()
    ensures DistinctKeys(Materials, MaterialKey)
  {
    MaterialIdsInOrder();
    NoDuplicatesCons("exhaust", []);
    NoDuplicatesCons("diesel", ["exhaust"]);
    NoDuplicatesCons("steam", ["diesel", "exhaust"]);
    NoDuplicatesCons("oil", ["steam", "diesel", "exhaust"]);
    DistinctKeysIffNoDuplicates(Materials, MaterialKey);
  }
}
