/** The split-out material table (src/data/materials.ts) and `getMaterial`. */
module DataMaterials {
  import opened Wrappers
  import opened Catalog

  const Materials: seq<Material> := [
    Material("crude_oil", "../assets/Crude_Oil.png", Fluid),
    Material("medium_oil", "../assets/Medium_Oil.png", Fluid),
    Material("light_oil", "../assets/Light_Oil.png", Fluid),
    Material("heavy_oil", "../assets/Heavy_Oil.png", Fluid),
    Material("naphta", "../assets/Naphtha.png", Fluid),
    Material("fuel_gas", "../assets/Fuel_Gas.png", Fluid),
    Material("steam_high", "../assets/SteamHp.png", Fluid),
    Material("sour_water", "../assets/Sour_Water.png", Fluid),
    Material("diesel", "../assets/Diesel.png", Fluid),
    Material("exhaust", "../assets/Exhaust.png", Fluid)
  ]

  /** `getMaterial`: the material with the id, or the `<id> not found` error. */
  function GetMaterial(materialId: string): (r: Result<Material, string>)
    ensures r.Success? <==> materialId in Ids(Materials, MaterialKey)
    ensures r.Success? ==> r.value.materialId == materialId && r.value in Materials
    ensures r.Failure? ==> r.error == materialId + " not found"
  {
    FoundIffListed(Materials, MaterialKey, materialId);
    Catalog.GetMaterial(Materials, materialId)
  }

  /** The material ids of the table, in table order. */
  lemma MaterialIdsInOrder()
    ensures Ids(Materials, MaterialKey) ==
      ["crude_oil", "medium_oil", "light_oil", "heavy_oil", "naphta", "fuel_gas", "steam_high", "sour_water", "diesel", "exhaust"]
  {
  }

  /** The material ids are distinct. */
  lemma MaterialIdsDistinct()
    ensures DistinctKeys(Materials, MaterialKey)
  {
    MaterialIdsInOrder();
    MaterialIdListDistinct();
    DistinctKeysIffNoDuplicates(Materials, MaterialKey);
  }

  /** The listed material ids hold no duplicates. */
  lemma MaterialIdListDistinct()
    ensures NoDuplicates(["crude_oil", "medium_oil", "light_oil", "heavy_oil", "naphta", "fuel_gas", "steam_high", "sour_water", "diesel", "exhaust"])
  {
    LastMaterialIdsDistinct();
    NoDuplicatesCons("naphta", ["fuel_gas", "steam_high", "sour_water", "diesel", "exhaust"]);
    NoDuplicatesCons("heavy_oil", ["naphta", "fuel_gas", "steam_high", "sour_water", "diesel", "exhaust"]);
    NoDuplicatesCons("light_oil", ["heavy_oil", "naphta", "fuel_gas", "steam_high", "sour_water", "diesel", "exhaust"]);
    NoDuplicatesCons("medium_oil", ["light_oil", "heavy_oil", "naphta", "fuel_gas", "steam_high", "sour_water", "diesel", "exhaust"]);
    NoDuplicatesCons("crude_oil", ["medium_oil", "light_oil", "heavy_oil", "naphta", "fuel_gas", "steam_high", "sour_water", "diesel", "exhaust"]);
  }

  /** The last five material ids are distinct. */
  lemma LastMaterialIdsDistinct()
    ensures NoDuplicates(["fuel_gas", "steam_high", "sour_water", "diesel", "exhaust"])
  {
    NoDuplicatesCons("exhaust", []);
    NoDuplicatesCons("diesel", ["exhaust"]);
    NoDuplicatesCons("sour_water", ["diesel", "exhaust"]);
    NoDuplicatesCons("steam_high", ["sour_water", "diesel", "exhaust"]);
    NoDuplicatesCons("fuel_gas", ["steam_high", "sour_water", "diesel", "exhaust"]);
  }

  /** Every listed material resolves to exactly its own table entry. */
  lemma MaterialLookupInverse(i: nat)
    requires i < |Materials|
    ensures GetMaterial(Materials[i].materialId) == Success(Materials[i])
  {
    MaterialIdsDistinct();
    LookupOfKeyIsEntry(Materials, MaterialKey, i);
  }
}
