# Captain calculator: reference catalog and chart store in Dafny

This project models the core of a browser-based production-chain calculator. It has two parts.

- **The reference catalog.** Static tables of recipes, materials and machines are keyed by string ids and read with a first-match `find`. `getRecipeData` joins a recipe descriptor with its machine and with the material of every ingredient. It returns `null` as soon as one reference is dangling.
- **The chart store.** This holds the node list, the edge list and the viewport of the canvas. Three setters each replace one field. `addNode` appends one node, built by a shallow merge of defaults and caller overrides.

Modules, one per source file:

- `Wrappers`: `Option` stands for `undefined`/`null` and `Result` for a thrown error.
- `Catalog`: the record types, the generic first-match lookup `FindById` with its specification `FirstIndex`, the id list `Ids`, and the resolver `ResolveRecipe`. The resolver is generic in the machine record, because the two repository copies declare different machine shapes. It also holds the lemmas relating these.
- `DataRecipeRepo`: src/data/recipe-repo.ts, the current repository with its own three tables.
- `LegacyRecipeRepo`: src/recipe-repo.ts, the older duplicate with one recipe, four materials and a machine record without name or icon.
- `DataRecipes`, `DataMaterials`, `DataMachines`: the split-out tables of src/data/recipes.ts, src/data/materials.ts and src/data/machines.ts.
- `SplitCatalog`: referential integrity across the three split-out tables.
- `ChartStore`: the store as a class `FlowStore`, with `seq` fields and modifying methods.

Modelling choices:

- JavaScript's `find(...)!` is modelled as an `Option`, because the `!` does not check anything at run time.
- The throw in `getMaterial` becomes `Failure(id + " not found")`.
- The throw inside `getIngredients`, which `getRecipeData` catches, becomes `None`.
- `getRecipeData` builds a record with empty lists and then overwrites them inside `try`. It is modelled as a function with the same outcome.
- The material field `type` is named `kind`, because `type` is a Dafny keyword.
- Icons are imported asset URLs and are kept as opaque strings.
- Lookups are pure functions over `const` tables, so no lookup can change a table.
- `addNode` takes an optional partial node (`Partial<Node>`), modelled as `NodeOverrides` with one `Option` per field it can override.

## Model

| member | source | states |
|---|---|---|
| Catalog.FirstIndex | src/data/recipe-repo.ts:160 | the index found is the first entry whose key equals the id; it is \|table\| exactly when no entry matches |
| Catalog.FindById | src/data/recipe-repo.ts:191 | `find` yields None exactly when no entry has the id; otherwise the entry found has the id, is in the table, and no earlier entry has the id (first match) |
| Catalog.Ids | src/data/recipe-repo.ts:108-110 | the id list has one id per entry, in table order |
| Catalog.FoundIffListed | src/data/recipe-repo.ts:108-114 | round trip: an id is in the id list exactly when the lookup finds an entry, and that entry carries the id |
| Catalog.LookupOfKeyIsEntry | src/data/recipe-repo.ts:112-114 | in a table with distinct ids, looking up the id of entry i returns entry i itself |
| Catalog.DistinctKeysIffNoDuplicates | src/data/recipes.ts:93-95 | a table has distinct ids exactly when its id list has no repetitions |
| Catalog.FindMaterial | src/data/recipe-repo.ts:222-224 | material lookup yields None exactly when no material has the id; otherwise the first material in the table with that id |
| Catalog.GetMaterial | src/data/recipe-repo.ts:159-165 | succeeds exactly when the material exists, with the first material of that id; otherwise fails with "<id> not found" |
| Catalog.FindRecipe | src/data/recipe-repo.ts:112-114 | recipe lookup yields None exactly when no recipe has the id; otherwise the first recipe in the table with that id |
| Catalog.RecipeIds | src/data/recipe-repo.ts:108-110 | one recipe id per recipe, in table order |
| Catalog.GetIngredients | src/data/recipe-repo.ts:218-237 | fails (the throw) exactly when some descriptor names a missing material; on success the list has the same length and order, the same amounts, and each material is the first one with the descriptor's id |
| Catalog.ResolvedKeepsMaterialIds | src/data/recipe-repo.ts:230-233 | each resolved ingredient's material id equals its descriptor's material id, and the material comes from the table |
| Catalog.ListedReferencesResolve | src/data/recipe-repo.ts:196-213 | a recipe whose machine id and material ids are all listed by the tables resolves: the machine lookup and every ingredient lookup succeed |
| Catalog.ResolveRecipe | src/data/recipe-repo.ts:190-216 | null for an unknown recipe id; non-null exactly when the recipe exists and its machine and all its materials exist; on success the recipe id is the argument, the machine is the first one with the descriptor's machine id, inputs and outputs keep length, order, amounts and material ids, and no multiplier is copied |
| Catalog.IntegrityMeansListedIdsResolve | src/data/recipe-repo.ts:190-216 | in a catalog with referential integrity, resolution is non-null exactly for the listed recipe ids |
| DataRecipeRepo.GetRecipeIds | src/data/recipe-repo.ts:108-110 | the ids are crude_oil_refining and medium_oil_refining, in table order |
| DataRecipeRepo.GetRecipe | src/data/recipe-repo.ts:112-114 | found exactly for the listed ids; the recipe found has the argument as its id |
| DataRecipeRepo.GetMaterial | src/data/recipe-repo.ts:159-165 | succeeds exactly for a listed material id, with a table material of that id; otherwise fails with "<id> not found" |
| DataRecipeRepo.GetMachine | src/data/recipe-repo.ts:186-188 | found exactly for a listed machine id, with a table machine of that id |
| DataRecipeRepo.GetIngredients | src/data/recipe-repo.ts:218-237 | succeeds exactly when every material is in this table; the result is the descriptors resolved in order |
| DataRecipeRepo.GetRecipeData | src/data/recipe-repo.ts:190-216 | non-null exactly for the ids from getRecipeIds; on success the recipe id is the argument, the machine is the table entry that getMachine returns for the descriptor's machine id, the ingredients are the descriptors resolved, and there is no multiplier |
| DataRecipeRepo.TablesHaveIntegrity | src/data/recipe-repo.ts:53-106 | every machine id and material id in the recipe table exists in the machine and material tables |
| DataRecipeRepo.MaterialIdsInOrder | src/data/recipe-repo.ts:116-157 | the material ids in table order |
| DataRecipeRepo.MachineIdsInOrder | src/data/recipe-repo.ts:167-184 | the machine ids in table order |
| DataRecipeRepo.RecipeIdsDistinct | src/data/recipe-repo.ts:53-106 | recipe ids are distinct, so getRecipeIds has no duplicates |
| DataRecipeRepo.MaterialIdsDistinct | src/data/recipe-repo.ts:116-157 | material ids are distinct |
| DataRecipeRepo.MachineIdsDistinct | src/data/recipe-repo.ts:167-184 | machine ids are distinct |
| DataRecipeRepo.RecipeLookupInverse | src/data/recipe-repo.ts:112-114 | getRecipe of the i-th recipe's id is that recipe |
| DataRecipeRepo.AmountsPositive | src/data/recipe-repo.ts:53-106 | every ingredient amount is positive |
| DataRecipeRepo.MachineFiguresNonNegative | src/data/recipe-repo.ts:167-184 | energy consumption, workers and maintenance are non-negative |
| LegacyRecipeRepo.GetIngredients | src/recipe-repo.ts:132-151 | succeeds exactly when every material id is oil, steam, diesel or exhaust; the result is the descriptors resolved in order |
| LegacyRecipeRepo.GetRecipeData | src/recipe-repo.ts:104-130 | non-null exactly for oil_refining; on success the recipe id is the argument, the machine is refinery_2, the ingredients are resolved, and there is no multiplier |
| LegacyRecipeRepo.MaterialIdsInOrder | src/recipe-repo.ts:72-93 | the material ids in table order |
| LegacyRecipeRepo.TablesHaveIntegrity | src/recipe-repo.ts:45-102 | oil_refining names only the materials oil, steam, diesel and exhaust and the machine refinery_2, all present |
| LegacyRecipeRepo.OilRefiningResolution | src/recipe-repo.ts:104-151 | the full resolution of oil_refining: machine refinery_2, inputs oil 60 and steam 9, outputs diesel 36 and exhaust 16 |
| LegacyRecipeRepo.MaterialIdsDistinct | src/recipe-repo.ts:72-93 | material ids are distinct |
| DataRecipes.GetRecipeIds | src/data/recipes.ts:93-95 | one id per recipe, in table order |
| DataRecipes.GetRecipe | src/data/recipes.ts:97-99 | found (not undefined) exactly for the listed ids; the recipe found has the argument as its id |
| DataRecipes.RecipeIdsDistinct | src/data/recipes.ts:14-91 | the ids at lines 16, 44 and 68 are distinct; getRecipeIds has no duplicates |
| DataRecipes.RecipeLookupInverse | src/data/recipes.ts:97-99 | getRecipe of the i-th recipe's id is that recipe |
| DataRecipes.AmountsPositive | src/data/recipes.ts:14-91 | every ingredient amount is positive |
| DataMaterials.GetMaterial | src/data/materials.ts:18-24 | succeeds exactly for a listed id, with a table material of that id; otherwise fails with "<id> not found" |
| DataMaterials.MaterialIdsInOrder | src/data/materials.ts:26-77 | the material ids in table order |
| DataMaterials.MaterialIdsDistinct | src/data/materials.ts:26-77 | the listed material ids are distinct |
| DataMaterials.MaterialLookupInverse | src/data/materials.ts:18-24 | every table entry is found again by its own id |
| DataMachines.GetMachine | src/data/machines.ts:41-43 | found exactly for refinery_1, refinery_2 and refinery_3, with a table machine of that id; otherwise None |
| DataMachines.MachineIdsInOrder | src/data/machines.ts:14-39 | the machine ids in table order |
| DataMachines.MachineIdsDistinct | src/data/machines.ts:14-39 | refinery_1, refinery_2 and refinery_3 are distinct |
| DataMachines.MachineLookupInverse | src/data/machines.ts:41-43 | each machine is found again by its own id |
| DataMachines.MachineFiguresNonNegative | src/data/machines.ts:14-39 | energy consumption, workers and maintenance are non-negative |
| SplitCatalog.ReferencesResolve | src/data/recipes.ts:14-91 | every machine id in the split recipe table resolves through getMachine, and every material id through getMaterial |
| ChartStore.NewNode | src/stores/chart-store.tsx:46-52 | shallow merge: a supplied id, position or data replaces the default whole; otherwise the id is the fresh one, the position is the random draws scaled by 400 and 300, and the data is the label record |
| ChartStore.DefaultNodeIsLabelled | src/stores/chart-store.tsx:46-50 | with no overrides the node id is the fresh id, and its data holds only the label "Node <id>" |
| ChartStore.DefaultPositionInBox | src/stores/chart-store.tsx:49 | with random draws in [0, 1), a default position lies in [0, 400) by [0, 300) |
| ChartStore.SuppliedDataDropsLabel | src/stores/chart-store.tsx:50-51 | supplied data replaces the label data entirely: the node has a label only if the supplied data has one |
| ChartStore.FreshIdKeepsIdsDistinct | src/stores/chart-store.tsx:45-53 | a fresh id not used by any node, and not overridden, keeps node ids distinct |
| ChartStore.OverriddenIdCanRepeat | src/stores/chart-store.tsx:47-53 | an overriding id equal to an existing node's id makes the ids non-distinct, so addNode does not guarantee uniqueness |
| ChartStore.FlowStore.constructor | src/stores/chart-store.tsx:25-28 | initial state: no nodes, no edges, viewport x=0, y=0, zoom=1 |
| ChartStore.FlowStore.SetNodes | src/stores/chart-store.tsx:29 | replaces the nodes; edges and viewport are unchanged |
| ChartStore.FlowStore.SetEdges | src/stores/chart-store.tsx:30 | replaces the edges; nodes and viewport are unchanged |
| ChartStore.FlowStore.SetViewport | src/stores/chart-store.tsx:31 | replaces the viewport; nodes and edges are unchanged |
| ChartStore.FlowStore.AddNode | src/stores/chart-store.tsx:45-54 | the nodes grow by exactly the merged node at the end; earlier nodes keep their order and content; edges and viewport are unchanged |
| ChartStore.PlaceRecipeNode | src/components/recipe-card.tsx:20 | a recipe-card click appends a node with the fresh id, a random position, type "recipe" and data holding only the recipe id |

## Left out

- Connection-capacity allocation, per-port used amounts, duplicate-edge rejection and cascading deletion are not in the code:
  - `onConnect` passes the connection with `animated: true` to the library's `addEdge`;
  - the used amount shown on a node is a constant 0;
  - `removeNode` and `removeEdge` are called by components but not defined by the store.
- `onNodesChange`, `onEdgesChange` and `onConnect` delegate to `applyNodeChanges`, `applyEdgeChanges` and `addEdge` of `@xyflow/react`. That library is not part of this model.
- `crypto.randomUUID()` and `Math.random()` are not modelled; the generated id and the two random draws are parameters of `AddNode`. Positions are reals, not IEEE doubles.
- Nodes and edges carry only the fields the store sets or the callers override (id, position, data, type; edge endpoints, handles, animated). The library's other fields (selection, measured size, …) are out of scope. Node `data` values are strings.
- JavaScript numbers are modelled as `int` for amounts and machine figures, and as `real` for the optional energy multiplier. Every table literal is an integer; NaN, infinities and rounding are not modelled.
- The subscriber notification of the store (zustand's `set`, React re-rendering) is not modelled; each action is one atomic field replacement.
- The message of the error thrown inside `getIngredients` is not modelled: `getRecipeData` catches it and returns `null`, which the model gives as `None`.
- All React components except the recipe card's `addNode` call (modelled as `ChartStore.PlaceRecipeNode`) are out of scope: rendering, DOM measurement, Bezier label placement, event plumbing and image assets. Icons are opaque strings.
- ChartStore.NewNode: an override field that is present but `undefined` is treated as absent, so the default is kept; JavaScript's object spread would copy the `undefined` over the default. `NodeOverrides` has no way to say "present but undefined", and its one caller, the recipe card, passes only defined fields.
