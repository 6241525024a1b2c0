/**
 * The reference catalog shared by every copy of the recipe repository: the
 * record shapes of materials, recipes and ingredients, the first-match lookup
 * that every `table.find((x) => x.key == id)` performs, and the resolver
 * `getRecipeData` that joins a recipe descriptor with its machine and with the
 * material of every ingredient.  The resolver is generic in the machine record,
 * because the two copies of the repository declare different machine shapes.
 */
module Catalog {
  import opened Wrappers

  /** The physical category of a material (`'unit' | 'bulk' | 'fluid' | 'molten'`). */
  datatype MaterialType = Unit | Bulk | Fluid | Molten

  /** A material; `icon` is the URL of an imported image asset, kept opaque. */
  datatype Material = Material(materialId: string, icon: string, kind: MaterialType)

  /** One line of a recipe: a material id and its amount per production cycle. */
  datatype IngredientDescriptor = IngredientDescriptor(materialId: string, amount: int)

  /** A recipe as stored in a table: every reference is still an id. */
  datatype RecipeDescriptor = RecipeDescriptor(
    recipeId: string,
    machineId: string,
    energyConsumptionMultiplier: Option<real>,
    inputs: seq<IngredientDescriptor>,
    outputs: seq<IngredientDescriptor>)

  /** An ingredient whose material id has been replaced by the material record. */
  datatype IngredientData = IngredientData(material: Material, amount: int)

  /** A recipe whose machine id and material ids have been resolved. */
  datatype RecipeData<M> = RecipeData(
    recipeId: string,
    machine: M,
    energyConsumptionMultiplier: Option<real>,
    inputs: seq<IngredientData>,
    outputs: seq<IngredientData>)

  /** A machine as the current catalog declares it; `icon` is an opaque asset URL. */
  datatype Machine = Machine(
    machineId: string,
    name: string,
    energyConsumption: int,
    workers: int,
    maintenance: int,
    icon: string)

  function MaterialKey(m: Material): string { m.materialId }

  function MachineKey(m: Machine): string { m.machineId }

  function IngredientKey(g: IngredientDescriptor): string { g.materialId }

  function RecipeKey(d: RecipeDescriptor): string { d.recipeId }

  /*
   * First-match lookup
   */

  /**
   * `table.findIndex((x) => key(x) == id)`, with "not found" given as |table|:
   * the index of the first entry whose key is `id`.
   */
  function FirstIndex<T>(table: seq<T>, key: T -> string, id: string): (i: nat)
    ensures i <= |table|
    ensures forall j :: 0 <= j < i ==> key(table[j]) != id
    ensures i < |table| ==> key(table[i]) == id
    decreases |table|
  {
    if |table| == 0 then 0
    else if key(table[0]) == id then 0
    else 1 + FirstIndex(table[1..], key, id)
  }

  /**
   * `table.find((x) => key(x) == id)`: the first entry whose key is `id`, or
   * None (`undefined`) when there is none.
   */
  function FindById<T>(table: seq<T>, key: T -> string, id: string): (r: Option<T>)
    ensures r.None? <==> forall j :: 0 <= j < |table| ==> key(table[j]) != id
    ensures r.Some? ==> key(r.value) == id && r.value in table
    ensures r.Some? ==> forall j :: 0 <= j < |table| && key(table[j]) == id ==> FirstIndex(table, key, id) <= j
    ensures r.Some? ==> r.value == table[FirstIndex(table, key, id)]
  {
    var i := FirstIndex(table, key, id);
    if i < |table| then Some(table[i]) else None
  }

  /** `table.map((x) => key(x))`: the ids of a table, in table order. */
  function Ids<T>(table: seq<T>, key: T -> string): (ids: seq<string>)
    ensures |ids| == |table|
    ensures forall i :: 0 <= i < |table| ==> ids[i] == key(table[i])
    decreases |table|
  {
    if |table| == 0 then [] else [key(table[0])] + Ids(table[1..], key)
  }

  /** No two entries of the table share a key. */
  ghost predicate DistinctKeys<T>(table: seq<T>, key: T -> string)
  {
    forall i, j :: 0 <= i < j < |table| ==> key(table[i]) != key(table[j])
  }

  /** A sequence of ids without repetitions. */
  ghost predicate NoDuplicates(ids: seq<string>)
  {
    forall i, j :: 0 <= i < j < |ids| ==> ids[i] != ids[j]
  }

  /**
   * Round trip between `Ids` and `FindById`: an id is listed exactly when the
   * lookup finds an entry, and the entry found carries that id.
   */
  lemma {:induction false} FoundIffListed<T>(table: seq<T>, key: T -> string, id: string)
    ensures FindById(table, key, id).Some? <==> id in Ids(table, key)
    ensures id in Ids(table, key) ==> key(FindById(table, key, id).value) == id
  {
    var ids := Ids(table, key);
    if id in ids {
      var i :| 0 <= i < |ids| && ids[i] == id;
      assert key(table[i]) == id;
    }
    if FindById(table, key, id).Some? {
      assert ids[FirstIndex(table, key, id)] == id;
    }
  }

  /** With distinct keys, looking up the key of entry i yields exactly entry i. */
  lemma {:induction false} LookupOfKeyIsEntry<T>(table: seq<T>, key: T -> string, i: nat)
    requires DistinctKeys(table, key)
    requires i < |table|
    ensures FindById(table, key, key(table[i])) == Some(table[i])
  {
    var k := FirstIndex(table, key, key(table[i]));
    assert k <= i;
  }

  /** Prepending an id that the rest does not hold keeps a list duplicate-free. */
  lemma {:induction false} NoDuplicatesCons(id: string, rest: seq<string>)
    requires id !in rest && NoDuplicates(rest)
    ensures NoDuplicates([id] + rest)
  {
    var ids := [id] + rest;
    forall i, j | 0 <= i < j < |ids| ensures ids[i] != ids[j] {
      assert ids[j] == rest[j - 1];
      if 0 < i {
        assert ids[i] == rest[i - 1];
      }
    }
  }

  /** A table has distinct keys exactly when its id list has no duplicates. */
  lemma {:induction false} DistinctKeysIffNoDuplicates<T>(table: seq<T>, key: T -> string)
    ensures DistinctKeys(table, key) <==> NoDuplicates(Ids(table, key))
  {
    var ids := Ids(table, key);
    assert forall i :: 0 <= i < |table| ==> ids[i] == key(table[i]);
  }

  /** No entry of an ingredient list has a non-positive amount. */
  ghost predicate PositiveAmounts(descriptors: seq<IngredientDescriptor>)
  {
    forall j :: 0 <= j < |descriptors| ==> descriptors[j].amount > 0
  }

  /*
   * Materials
   */

  /** `materials.find((x) => x.materialId == materialId)`. */
  function FindMaterial(materials: seq<Material>, materialId: string): (r: Option<Material>)
    ensures r.None? <==> forall j :: 0 <= j < |materials| ==> materials[j].materialId != materialId
    ensures r.Some? ==> r.value.materialId == materialId && r.value in materials
    ensures r.Some? ==> r.value == materials[FirstIndex(materials, MaterialKey, materialId)]
    ensures r.Some? ==> forall j :: 0 <= j < |materials| && materials[j].materialId == materialId ==>
      FirstIndex(materials, MaterialKey, materialId) <= j
  {
    FindById(materials, MaterialKey, materialId)
  }

  /**
   * `getMaterial`: the first material with the id, or the error thrown as
   * `${materialId} not found` when the table has none.
   */
  function GetMaterial(materials: seq<Material>, materialId: string): (r: Result<Material, string>)
    ensures r.Success? <==> FindMaterial(materials, materialId).Some?
    ensures r.Success? ==> r.value.materialId == materialId && r.value in materials
    ensures r.Success? ==> Some(r.value) == FindMaterial(materials, materialId)
    ensures r.Failure? ==> r.error == materialId + " not found"
  {
    match FindMaterial(materials, materialId)
    case None => Failure(materialId + " not found")
    case Some(m) => Success(m)
  }

  /*
   * Recipes
   */

  /** `recipes.find((x) => x.recipeId == recipeId)`: None where the source's `!` hides `undefined`. */
  function FindRecipe(recipes: seq<RecipeDescriptor>, recipeId: string): (r: Option<RecipeDescriptor>)
    ensures r.None? <==> forall j :: 0 <= j < |recipes| ==> recipes[j].recipeId != recipeId
    ensures r.Some? ==> r.value.recipeId == recipeId && r.value in recipes
    ensures r.Some? ==> r.value == recipes[FirstIndex(recipes, RecipeKey, recipeId)]
    ensures r.Some? ==> forall j :: 0 <= j < |recipes| && recipes[j].recipeId == recipeId ==>
      FirstIndex(recipes, RecipeKey, recipeId) <= j
  {
    FindById(recipes, RecipeKey, recipeId)
  }

  /** `recipes.map((x) => x.recipeId)`. */
  function RecipeIds(recipes: seq<RecipeDescriptor>): (ids: seq<string>)
    ensures |ids| == |recipes|
    ensures forall i :: 0 <= i < |recipes| ==> ids[i] == recipes[i].recipeId
  {
    Ids(recipes, RecipeKey)
  }

  /*
   * Resolution of ingredients and recipes
   */

  /** Every descriptor names a material that the table holds. */
  ghost predicate AllMaterialsKnown(materials: seq<Material>, descriptors: seq<IngredientDescriptor>)
  {
    forall i :: 0 <= i < |descriptors| ==> FindMaterial(materials, descriptors[i].materialId).Some?
  }

  /**
   * `ingredients` is `descriptors` resolved against `materials`: same length
   * and order, same amounts, and each material the first one in the table with
   * the descriptor's id.
   */
  ghost predicate ResolvedFrom(ingredients: seq<IngredientData>, descriptors: seq<IngredientDescriptor>, materials: seq<Material>)
  {
    && |ingredients| == |descriptors|
    && forall i :: 0 <= i < |descriptors| ==>
         && ingredients[i].amount == descriptors[i].amount
         && Some(ingredients[i].material) == FindMaterial(materials, descriptors[i].materialId)
  }

  /**
   * `getIngredients`: maps each descriptor to an ingredient record; the throw on
   * a missing material becomes None.
   */
  function GetIngredients(materials: seq<Material>, descriptors: seq<IngredientDescriptor>): (r: Option<seq<IngredientData>>)
    ensures r.Some? <==> AllMaterialsKnown(materials, descriptors)
    ensures r.Some? ==> ResolvedFrom(r.value, descriptors, materials)
    decreases |descriptors|
  {
    if |descriptors| == 0 then Some([])
    else
      match FindMaterial(materials, descriptors[0].materialId)
      case None => None
      case Some(material) =>
        match GetIngredients(materials, descriptors[1..])
        case None => None
        case Some(rest) => Some([IngredientData(material, descriptors[0].amount)] + rest)
  }

  /** Resolved ingredients carry the descriptors' material ids, in order. */
  lemma {:induction false} ResolvedKeepsMaterialIds(ingredients: seq<IngredientData>, descriptors: seq<IngredientDescriptor>, materials: seq<Material>)
    requires ResolvedFrom(ingredients, descriptors, materials)
    ensures forall i :: 0 <= i < |descriptors| ==> ingredients[i].material.materialId == descriptors[i].materialId
    ensures forall i :: 0 <= i < |descriptors| ==> ingredients[i].material in materials
  {
    forall i | 0 <= i < |descriptors|
      ensures ingredients[i].material.materialId == descriptors[i].materialId
      ensures ingredients[i].material in materials
    {
      var found := FindMaterial(materials, descriptors[i].materialId);
      assert found == Some(ingredients[i].material);
    }
  }

  /** Every reference of the recipe resolves: its machine and all its materials. */
  ghost predicate RecipeResolvable<M>(d: RecipeDescriptor, materials: seq<Material>, machines: seq<M>, machineKey: M -> string)
  {
    && FindById(machines, machineKey, d.machineId).Some?
    && AllMaterialsKnown(materials, d.inputs)
    && AllMaterialsKnown(materials, d.outputs)
  }

  /**
   * `getRecipeData`: the recipe with the id, joined with its machine and the
   * materials of its ingredients; None (`null`) when the recipe, its machine or
   * any of its materials is missing.  The multiplier is never copied.
   */
  function ResolveRecipe<M>(
    recipes: seq<RecipeDescriptor>, materials: seq<Material>, machines: seq<M>, machineKey: M -> string,
    recipeId: string): (r: Option<RecipeData<M>>)
    ensures FindRecipe(recipes, recipeId).None? ==> r.None?
    ensures r.Some? <==>
      && FindRecipe(recipes, recipeId).Some?
      && RecipeResolvable(FindRecipe(recipes, recipeId).value, materials, machines, machineKey)
    ensures r.Some? ==>
      var d := FindRecipe(recipes, recipeId).value;
      && r.value.recipeId == recipeId
      && Some(r.value.machine) == FindById(machines, machineKey, d.machineId)
      && machineKey(r.value.machine) == d.machineId
      && r.value.energyConsumptionMultiplier.None?
      && ResolvedFrom(r.value.inputs, d.inputs, materials)
      && ResolvedFrom(r.value.outputs, d.outputs, materials)
  {
    match FindRecipe(recipes, recipeId)
    case None => None
    case Some(descriptor) =>
      match FindById(machines, machineKey, descriptor.machineId)
      case None => None
      case Some(machine) =>
        var recipeData := RecipeData(recipeId, machine, None, [], []);
        match GetIngredients(materials, descriptor.inputs)
        case None => None
        case Some(inputs) =>
          match GetIngredients(materials, descriptor.outputs)
          case None => None
          case Some(outputs) => Some(recipeData.(inputs := inputs, outputs := outputs))
  }

  /** Referential integrity of a catalog: every recipe's machine and materials exist. */
  ghost predicate CatalogIntegrity<M>(recipes: seq<RecipeDescriptor>, materials: seq<Material>, machines: seq<M>, machineKey: M -> string)
  {
    forall i :: 0 <= i < |recipes| ==> RecipeResolvable(recipes[i], materials, machines, machineKey)
  }

  /** Every id the recipe names appears in the given id lists. */
  ghost predicate ReferencesListed(d: RecipeDescriptor, materialIds: seq<string>, machineIds: seq<string>)
  {
    && d.machineId in machineIds
    && (forall id :: id in Ids(d.inputs, IngredientKey) ==> id in materialIds)
    && (forall id :: id in Ids(d.outputs, IngredientKey) ==> id in materialIds)
  }

  /** A recipe whose ids are all listed by the tables resolves against them. */
  lemma {:induction false} ListedReferencesResolve<M>(d: RecipeDescriptor, materials: seq<Material>, machines: seq<M>, machineKey: M -> string)
    requires ReferencesListed(d, Ids(materials, MaterialKey), Ids(machines, machineKey))
    ensures RecipeResolvable(d, materials, machines, machineKey)
  {
    FoundIffListed(machines, machineKey, d.machineId);
    forall j | 0 <= j < |d.inputs| ensures FindMaterial(materials, d.inputs[j].materialId).Some? {
      assert Ids(d.inputs, IngredientKey)[j] == d.inputs[j].materialId;
      FoundIffListed(materials, MaterialKey, d.inputs[j].materialId);
    }
    forall j | 0 <= j < |d.outputs| ensures FindMaterial(materials, d.outputs[j].materialId).Some? {
      assert Ids(d.outputs, IngredientKey)[j] == d.outputs[j].materialId;
      FoundIffListed(materials, MaterialKey, d.outputs[j].materialId);
    }
  }

  /**
   * In a catalog with referential integrity, resolution succeeds exactly for
   * the listed recipe ids.
   */
  lemma {:induction false} IntegrityMeansListedIdsResolve<M>(
    recipes: seq<RecipeDescriptor>, materials: seq<Material>, machines: seq<M>, machineKey: M -> string,
    recipeId: string)
    requires CatalogIntegrity(recipes, materials, machines, machineKey)
    ensures ResolveRecipe(recipes, materials, machines, machineKey, recipeId).Some? <==> recipeId in RecipeIds(recipes)
  {
    FoundIffListed(recipes, RecipeKey, recipeId);
    if recipeId in RecipeIds(recipes) {
      var i := FirstIndex(recipes, RecipeKey, recipeId);
      assert FindRecipe(recipes, recipeId).value == recipes[i];
    }
  }
}
