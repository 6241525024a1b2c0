/**
 * The split-out tables taken together: every reference in
 * src/data/recipes.ts is defined in src/data/materials.ts or
 * src/data/machines.ts.
 */
module SplitCatalog {
  import opened Catalog
  import DataRecipes
  import DataMaterials
  import DataMachines

  /** Every machine and material that a split-out recipe names resolves through `getMachine` and `getMaterial`. */
  lemma ReferencesResolve()
    ensures forall i :: 0 <= i < |DataRecipes.Recipes| ==>
      var d := DataRecipes.Recipes[i];
      && DataMachines.GetMachine(d.machineId).Some?
      && (forall j :: 0 <= j < |d.inputs| ==> DataMaterials.GetMaterial(d.inputs[j].materialId).Success?)
      && (forall j :: 0 <= j < |d.outputs| ==> DataMaterials.GetMaterial(d.outputs[j].materialId).Success?)
  {
    forall i | 0 <= i < |DataRecipes.Recipes|
      ensures RecipeResolvable(DataRecipes.Recipes[i], DataMaterials.Materials, DataMachines.Machines, MachineKey)
    {
      RecipeReferencesListed(i);
      ListedReferencesResolve(DataRecipes.Recipes[i], DataMaterials.Materials, DataMachines.Machines, MachineKey);
    }
  }

  /** Every id that split-out recipe i names is listed by the material or machine table. */
  lemma RecipeReferencesListed(i: nat)
    requires i < |DataRecipes.Recipes|
    ensures ReferencesListed(DataRecipes.Recipes[i], Ids(DataMaterials.Materials, MaterialKey), Ids(DataMachines.Machines, MachineKey))
  {
    if i == 0 {
      CrudeOilRefiningListed();
    } else if i == 1 {
      MediumOilRefiningListed();
    } else {
      LightOilRefiningListed();
    }
  }

  /** crude_oil_refining names refinery_1 and five listed materials. */
  lemma CrudeOilRefiningListed()
    ensures ReferencesListed(DataRecipes.Recipes[0], Ids(DataMaterials.Materials, MaterialKey), Ids(DataMachines.Machines, MachineKey))
  {
    DataMaterials.MaterialIdsInOrder();
    DataMachines.MachineIdsInOrder();
    var d := DataRecipes.Recipes[0];
    IngredientsListed(d.inputs, ["crude_oil", "steam_high"]);
    IngredientsListed(d.outputs, ["medium_oil", "heavy_oil", "sour_water"]);
  }

  /** medium_oil_refining names refinery_2 and four listed materials. */
  lemma MediumOilRefiningListed()
    ensures ReferencesListed(DataRecipes.Recipes[1], Ids(DataMaterials.Materials, MaterialKey), Ids(DataMachines.Machines, MachineKey))
  {
    DataMaterials.MaterialIdsInOrder();
    DataMachines.MachineIdsInOrder();
    var d := DataRecipes.Recipes[1];
    IngredientsListed(d.inputs, ["medium_oil", "steam_high"]);
    IngredientsListed(d.outputs, ["diesel", "light_oil"]);
  }

  /** light_oil_refining names refinery_3 and four listed materials. */
  lemma LightOilRefiningListed()
    ensures ReferencesListed(DataRecipes.Recipes[2], Ids(DataMaterials.Materials, MaterialKey), Ids(DataMachines.Machines, MachineKey))
  {
    DataMaterials.MaterialIdsInOrder();
    DataMachines.MachineIdsInOrder();
    var d := DataRecipes.Recipes[2];
    IngredientsListed(d.inputs, ["light_oil", "steam_high"]);
    IngredientsListed(d.outputs, ["naphta", "fuel_gas"]);
  }

  /** An ingredient list whose ids are the given listed ones names only listed materials. */
  lemma IngredientsListed(descriptors: seq<IngredientDescriptor>, ids: seq<string>)
    requires Ids(descriptors, IngredientKey) == ids
    requires forall id :: id in ids ==> id in Ids(DataMaterials.Materials, MaterialKey)
    ensures forall id :: id in Ids(descriptors, IngredientKey) ==> id in Ids(DataMaterials.Materials, MaterialKey)
  {
  }
}
