# Restaurant back office: units, recipe costing and the ingredient cost ledger

This project is a Dafny model of the logic core of a restaurant back-office application (a NestJS backend with a React frontend). It covers three parts.

- **Unit conversion.** Two copies of the converter exist, one in the backend and one in the frontend. A quantity in KILOGRAM, GRAM, MILLILITER or UNIT is converted to or from its base unit: GRAM for solids, MILLILITER for liquids, UNIT for countables. The converter also tests unit compatibility, gives Spanish labels and abbreviations, and (frontend only) computes a cost per base unit from a purchase. Unit tags outside these four are reachable in the system's own data, for example `LITER` or lowercase tags. They are modelled as `Other(tag)`, and the `throw` on them becomes a `Failure`.
- **Recipes** (`RecipesService`). A recipe has servings and items. Each item may point to an ingredient, a preparation, both, or neither. Recipes are soft-deleted. An update replaces the whole item list. The cost calculation ("escandallo") walks the items and builds:
  - a cost before waste;
  - a cost with waste, where each ingredient's waste percentage is applied;
  - one breakdown row per costed item, showing the post-waste figure;
  - both totals divided by servings.

  A preparation costs its labour cost divided by its yield, with no recursion.
- **Ingredients** (`IngredientsService`). This is a state machine over an ingredient table and an append-only cost-history ledger.
  - Creating an ingredient records its cost.
  - Updating it records a new entry only when the cost really changes.
  - Removing it sets a tombstone and keeps the row and its history.
  - Reads skip tombstoned rows: `findOne` shows the 10 newest history entries, `getCostHistory` the 50 newest.
  - `findAll` filters by a case-insensitive search and orders by name. It returns one page with `total/page/limit/pages` metadata.

Prisma is replaced by a `Store.Database` object. It holds the tables as sequences, the preparations as a map, and a clock counter that stands in for `new Date()`. The service operations are methods that modify this object. Every read is a function over the tables. `Database.Valid()` is the invariant every write preserves:
- ids are unique;
- each ingredient's `currentCost` is the cost of its newest history entry;
- every history entry belongs to an ingredient;
- timestamps increase;
- servings are at least 1 and every preparation's yield is positive.

Costs are JS numbers in the source. They are `real` here, so sums, products and divisions are exact.

Modules: `Common` (Option, Result, errors), `Units` (the unit datatype and its tags), `UnitConverter` (backend), `FrontUnitConverter` (frontend), `Tables` (lookup by id, filter, case-insensitive contains, ordering by name, slicing and page metadata), `Store` (rows, ledger, database), `IngredientsService`, `RecipesService`.

## Model

| member | source | states |
|---|---|---|
| UnitConverter.ConvertToBaseUnit | backend/src/common/utils/unit-converter.ts:9-25 | KILOGRAM is multiplied by 1000; GRAM, MILLILITER and UNIT pass unchanged; any other tag fails with that tag |
| UnitConverter.ConvertFromBaseUnit | backend/src/common/utils/unit-converter.ts:32-48 | KILOGRAM gives the amount a thousandth as large (result × 1000 = input); the other three pass unchanged; any other tag fails |
| UnitConverter.GetBaseUnit | backend/src/common/utils/unit-converter.ts:53-65 | KILOGRAM and GRAM map to GRAM, MILLILITER and UNIT to themselves; the result is always a base unit; other tags fail |
| UnitConverter.AreUnitsCompatible | backend/src/common/utils/unit-converter.ts:70-72 | fails exactly when either unit is unsupported, naming the first unsupported one |
| UnitConverter.GetUnitLabel | backend/src/common/utils/unit-converter.ts:77-85 | a supported unit gets a non-empty label, distinct per unit (see DisplayNamesDistinguishUnits); any other tag falls back to the raw tag itself |
| UnitConverter.GetUnitAbbreviation | backend/src/common/utils/unit-converter.ts:90-98 | supported units get one of kg, g, ml, u; any other tag falls back to the raw tag |
| UnitConverter.RoundTrip | backend/src/common/utils/unit-converter.ts:9-48 | for every supported unit, from-base after to-base and to-base after from-base both give back the amount |
| UnitConverter.BaseUnitIdempotent | backend/src/common/utils/unit-converter.ts:53-64 | the base unit of a base unit is itself |
| UnitConverter.BaseUnitConvertsIdentically | backend/src/common/utils/unit-converter.ts:13-64 | converting an amount already in the base unit leaves it unchanged |
| UnitConverter.CompatibilityIsEquivalence | backend/src/common/utils/unit-converter.ts:70-72 | compatibility is reflexive, symmetric and transitive on supported units |
| UnitConverter.CompatibilityClasses | backend/src/common/utils/unit-converter.ts:53-72 | two supported units are compatible iff they are equal or both are in {KILOGRAM, GRAM} |
| UnitConverter.DisplayNamesDistinguishUnits | backend/src/common/utils/unit-converter.ts:77-98 | distinct supported units have distinct labels and abbreviations |
| Units.TagOf | frontend/src/utils/unitConverter.ts:1 | a unit is supported iff its tag is one of the four UnitType literals |
| Units.FromTag | backend/src/ingredients/dto/create-ingredient.dto.ts:4-9 | parsing any tag and printing it back gives the same tag, so every tag, lowercase ones included, has exactly one unit value |
| FrontUnitConverter.ConvertToBaseUnit | frontend/src/utils/unitConverter.ts:9-25 | as the backend: ×1000 for KILOGRAM, identity for the other three, failure on other tags |
| FrontUnitConverter.ConvertFromBaseUnit | frontend/src/utils/unitConverter.ts:32-48 | ÷1000 for KILOGRAM, identity for the other three, failure on other tags |
| FrontUnitConverter.GetBaseUnit | frontend/src/utils/unitConverter.ts:53-65 | KILOGRAM and GRAM to GRAM, MILLILITER and UNIT to themselves, failure on other tags |
| FrontUnitConverter.AreUnitsCompatible | frontend/src/utils/unitConverter.ts:70-72 | fails exactly when either unit is unsupported |
| FrontUnitConverter.GetUnitLabel | frontend/src/utils/unitConverter.ts:77-85 | defined (non-empty) exactly on the four units; there is no fallback, so another tag has no label |
| FrontUnitConverter.GetUnitAbbreviation | frontend/src/utils/unitConverter.ts:90-98 | one of kg, g, ml, u exactly on the four units, nothing otherwise |
| FrontUnitConverter.CalculateCostPerBaseUnit | frontend/src/utils/unitConverter.ts:107-114 | fails exactly on unsupported units; otherwise result × quantity in base units = purchase cost (non-zero quantity required, as the code has no guard) |
| FrontUnitConverter.RoundTrip | frontend/src/utils/unitConverter.ts:9-48 | from-base inverts to-base exactly, both ways, for each supported unit |
| FrontUnitConverter.CompatibilityClasses | frontend/src/utils/unitConverter.ts:53-72 | the units partition into {KILOGRAM, GRAM}, {MILLILITER}, {UNIT} |
| FrontUnitConverter.AgreesWithBackend | frontend/src/utils/unitConverter.ts:9-72 | the frontend conversions, base unit and compatibility equal the backend's on every input, and so do abbreviations on supported units |
| FrontUnitConverter.CostPerBaseUnitExamples | frontend/src/utils/unitConverter.ts:107-114 | 8000 for 400 g is 20 per gram; 8000 for 1 kg is 8 per gram |
| Tables.IndexOf | backend/src/ingredients/ingredients.service.ts:77-78 | `findUnique` by id: the found row has the id and no earlier row has it; None means no row has it |
| Tables.IndexOfAfterReplace | backend/src/ingredients/ingredients.service.ts:97-100 | updating a row in place without changing its id moves no lookup |
| Tables.IndexOfAfterAppend | backend/src/ingredients/ingredients.service.ts:11-13 | inserting a row with a new id makes it found at the end and moves no other lookup |
| Tables.Filter | backend/src/ingredients/ingredients.service.ts:44-53 | every row the `where` accepts is kept as many times as it occurs in the table, and no other row is kept, so the `total` it feeds counts exactly the matching rows |
| Tables.Contains | backend/src/ingredients/ingredients.service.ts:50-51 | `contains` holds iff the needle occurs at some position of the text |
| Tables.Lower | backend/src/ingredients/ingredients.service.ts:50-51 | the case folding `mode: 'insensitive'` applies: same length, each character folded on its own |
| Tables.MatchesSearch | backend/src/ingredients/ingredients.service.ts:48-53 | an absent or empty search matches every row; otherwise it matches iff the name or the description contains it ignoring case |
| Tables.SearchIgnoresCase | backend/src/ingredients/ingredients.service.ts:50-51 | `mode: 'insensitive'`: for every search, name and description, folding the case of the search or of the name gives the same match result |
| Tables.LowerIdempotent | backend/src/ingredients/ingredients.service.ts:50-51 | case folding twice is case folding once |
| Tables.NameLessEqTotal | backend/src/ingredients/ingredients.service.ts:60 | the name order compares any two names |
| Tables.NameLessEqTransitive | backend/src/ingredients/ingredients.service.ts:60 | the name order is transitive |
| Tables.InsertByName | backend/src/ingredients/ingredients.service.ts:60 | inserting into a name-sorted list keeps it sorted and adds exactly that row |
| Tables.SortByName | backend/src/ingredients/ingredients.service.ts:60 | `orderBy: { name: 'asc' }`: the result is sorted by name and is a permutation of the input |
| Tables.Slice | backend/src/ingredients/ingredients.service.ts:58-59 | `skip`/`take`: at most `take` rows, the rows from position `skip` on, in order, and none when `skip` is past the end |
| Tables.Meta | backend/src/ingredients/ingredients.service.ts:65-73 | total and limit as given; with take > 0, page is the floor (page−1)·take ≤ skip < page·take and pages the ceiling (pages−1)·take < total ≤ pages·take; with take = 0 neither is a number |
| Tables.MetaPageIsRequestedPage | backend/src/ingredients/ingredients.controller.ts:35-37 | with the controller's skip = (page−1)·limit, the reported page is the requested page |
| Tables.List | backend/src/ingredients/ingredients.service.ts:55-73 | the page is the `skip`/`take` window of the matching rows in name order; so it holds at most `take` matching table rows, sorted by name; its metadata counts all matching rows |
| Store.NewestFirst | backend/src/ingredients/ingredients.service.ts:158-161 | the entries of one ingredient, all of them and only them; the first is the cost the ledger holds last |
| Store.NewestFirstIsDescending | backend/src/ingredients/ingredients.service.ts:160 | with increasing timestamps the order is strictly by `effectiveAt` descending |
| Store.NewestFirstAfterAppend | backend/src/ingredients/ingredients.service.ts:16-21 | an appended entry becomes the newest of its own ingredient and changes no other ingredient's history |
| Store.Take | backend/src/ingredients/ingredients.service.ts:82 | `take: n` keeps the first min(n, length) entries |
| Store.RecentEntries | backend/src/ingredients/ingredients.service.ts:158-162 | the capped newest-first read: at most `cap` entries, all of the ingredient and from the ledger; fewer than `cap` only when it has no more; headed by the cost the ledger holds last |
| Store.IndexOfFindsRow | backend/src/ingredients/ingredients.service.ts:77-78 | `findUnique` by id finds a row exactly when some row carries that id |
| Store.Database.Valid | backend/src/ingredients/ingredients.service.ts:8 | the invariant every write of both services keeps: unique ids, each current cost equal to its newest entry, every entry belonging to an ingredient, increasing timestamps, servings at least 1, positive yields |
| Store.Database.constructor | backend/src/ingredients/ingredients.service.ts:8 | an empty store over a well-formed preparation table satisfies the invariant |
| IngredientsService.NewIngredient | backend/src/ingredients/ingredients.service.ts:11-13 | `data: dto`: the created row has the new id, no tombstone, and every field (name, description, unit, cost, waste percentage, category, supplier) copied from the DTO |
| IngredientsService.ApplyUpdate | backend/src/ingredients/ingredients.service.ts:97-100 | id and tombstone are kept; each field supplied in the DTO takes the supplied value and each absent field keeps the stored value |
| IngredientsService.HistoryAfterUpdate | backend/src/ingredients/ingredients.service.ts:103-113 | exactly one entry, with the new cost, is appended iff a cost is supplied and differs from the stored one; the old entries are untouched |
| IngredientsService.Tombstone | backend/src/ingredients/ingredients.service.ts:134-139 | `deletedAt: new Date()`: the tombstone is set to the current time and no other field changes |
| IngredientsService.FindOne | backend/src/ingredients/ingredients.service.ts:76-92 | NotFound iff the row is missing or soft-deleted; otherwise the live row with its 10 newest entries (`orderBy: effectiveAt desc, take: 10`) |
| IngredientsService.FindOneHistoryMatchesLedger | backend/src/ingredients/ingredients.service.ts:80-83 | under the ledger invariant, the embedded history of a live row is strictly newest first and headed by its current cost |
| IngredientsService.GetCostHistory | backend/src/ingredients/ingredients.service.ts:155-163 | NotFound iff the row is missing or soft-deleted; otherwise at most 50 entries, all its own and from the ledger |
| IngredientsService.LiveCostHistory | backend/src/ingredients/ingredients.service.ts:155-163 | for a live row `getCostHistory` succeeds with exactly its 50 newest entries |
| IngredientsService.FindAll | backend/src/ingredients/ingredients.service.ts:37-74 | the page is the `skip`/`take` window (defaults 0 and 20) of the live rows matching the search, in name order; so never a soft-deleted or non-matching row, sorted, at most `take`; metadata over all matching rows |
| IngredientsService.CreateKeepsLedger | backend/src/ingredients/ingredients.service.ts:10-21 | inserting a row with a fresh id plus one entry with its cost keeps the ledger consistent |
| IngredientsService.UpdateKeepsLedger | backend/src/ingredients/ingredients.service.ts:94-113 | the update, with its conditional append, keeps every current cost equal to the newest entry's cost |
| IngredientsService.RemoveKeepsLedger | backend/src/ingredients/ingredients.service.ts:130-139 | setting a tombstone keeps the ledger consistent |
| IngredientsService.HistoryHeadIsCurrentCost | backend/src/ingredients/ingredients.service.ts:155-163 | for a live ingredient, the newest entry returned carries the ingredient's current cost |
| IngredientsService.CostHistoryIsNewestFirst | backend/src/ingredients/ingredients.service.ts:158-162 | the returned history is strictly newest first |
| IngredientsService.RemovedIngredientIsNotFound | backend/src/ingredients/ingredients.service.ts:134-139 | after the tombstone, `findOne` and `getCostHistory` fail with NotFound |
| IngredientsService.ChangedCostHeadsHistory | backend/src/ingredients/ingredients.service.ts:103-113 | after a cost-changing update the new cost heads the history, followed by the previous entries |
| IngredientsService.UnchangedCostKeepsHistory | backend/src/ingredients/ingredients.service.ts:103-113 | an update that does not change the cost leaves every ingredient's history as it was |
| IngredientsService.Create | backend/src/ingredients/ingredients.service.ts:10-35 | appends the row and exactly one entry with its cost at the current time; nothing else changes; the invariant holds |
| IngredientsService.Update | backend/src/ingredients/ingredients.service.ts:94-128 | NotFound and no change on a missing or removed row; otherwise the row is overwritten and the history follows the conditional append |
| IngredientsService.Remove | backend/src/ingredients/ingredients.service.ts:130-153 | NotFound and no change on a missing or removed row; otherwise only the tombstone is set, the history stays, and the success message is returned; `findOne` fails afterwards |
| RecipesService.ToItems | backend/src/recipes/recipes.service.ts:35-40 | one stored item per DTO item, in order, with amount = quantity, unit UNIT and the two foreign keys copied; notes dropped |
| RecipesService.NewRecipe | backend/src/recipes/recipes.service.ts:28-41 | the created recipe has the new id, no tombstone, name, description and servings from the DTO and the mapped items |
| RecipesService.ApplyUpdate | backend/src/recipes/recipes.service.ts:132-152 | id and tombstone are kept; a supplied name, description or servings overwrites and an absent one keeps the stored value; the old items are gone either way, the new ones are the mapped `dto.items`, or none when `items` is absent |
| RecipesService.UpdateForgetsOldItems | backend/src/recipes/recipes.service.ts:135-137 | the items after an update do not depend on the items before it |
| RecipesService.Tombstone | backend/src/recipes/recipes.service.ts:182-187 | `deletedAt: new Date()`: the tombstone is set to the current time and no other field changes |
| RecipesService.LoadItem | backend/src/recipes/recipes.service.ts:43-49 | `include`: the ingredient is loaded exactly when the item has an ingredient id that some row carries (tombstoned rows included), and it is that row; the preparation exactly when the item has a preparation id in the table, and it is that entry |
| RecipesService.Load | backend/src/recipes/recipes.service.ts:43-49 | the recipe's id, name, description, servings and tombstone, with each item resolved, in order |
| RecipesService.FindOne | backend/src/recipes/recipes.service.ts:110-128 | NotFound iff the recipe is missing or soft-deleted; otherwise the stored recipe with its items loaded |
| RecipesService.FindAll | backend/src/recipes/recipes.service.ts:67-108 | the page is the loaded `skip`/`take` window of the live recipes matching the search, in name order; each row a loaded listed recipe, sorted by name, at most `take`; metadata over all matching recipes |
| RecipesService.PreparationCost | backend/src/recipes/recipes.service.ts:267-279 | 0 for an unknown preparation; otherwise the cost per portion, which times the yield gives the labour cost |
| RecipesService.WasteMultiplier | backend/src/recipes/recipes.service.ts:220-222 | 1 without a waste percentage, else 1 + waste/100 (also for 0, where both give 1); so at least 1 for a non-negative one |
| RecipesService.LineOf | backend/src/recipes/recipes.service.ts:214-252 | an item contributes a line iff it has an ingredient or a preparation |
| RecipesService.BaseTotal | backend/src/recipes/recipes.service.ts:210-236 | the specification of the loop's `totalCost`: the sum of the pre-waste lines of the costed items, in order |
| RecipesService.WasteTotal | backend/src/recipes/recipes.service.ts:210-250 | the specification of `totalCostWithWaste`: the sum of the with-waste lines of the costed items, in order |
| RecipesService.Breakdown | backend/src/recipes/recipes.service.ts:210-252 | the specification of `breakdown`: one row per costed item, in item order |
| RecipesService.CostOf | backend/src/recipes/recipes.service.ts:206-208 | BadRequest exactly when the recipe has no items, before any arithmetic |
| RecipesService.CalculateCostSpec | backend/src/recipes/recipes.service.ts:203-208 | NotFound for a missing or removed recipe; for a live one, BadRequest exactly when it has no items |
| RecipesService.CalculateCost | backend/src/recipes/recipes.service.ts:203-265 | returns exactly the specified result: NotFound for a missing or removed recipe, BadRequest for one without items, else the loop's totals with the per-serving divisions |
| RecipesService.CostItems | backend/src/recipes/recipes.service.ts:210-253 | the loop's cost before waste, cost with waste and breakdown are the running sums and rows of the specification over all the items |
| RecipesService.CalculateCostUnfolds | backend/src/recipes/recipes.service.ts:203-208 | for a live recipe, `calculateCost` is the cost computed over exactly the recipe `findOne` returns |
| RecipesService.CostOfTotals | backend/src/recipes/recipes.service.ts:210-264 | a successful result's totals are the pre-waste and with-waste sums over the items; the breakdown has one row per costed item and its row totals add up to the cost with waste |
| RecipesService.CostOfPerServing | backend/src/recipes/recipes.service.ts:255-256 | cost per serving times servings is the total cost, and likewise with waste |
| RecipesService.BreakdownAddsUpToCostWithWaste | backend/src/recipes/recipes.service.ts:226-261 | the sum of the breakdown's `totalCost` values is the with-waste total, not the pre-waste total |
| RecipesService.BreakdownLength | backend/src/recipes/recipes.service.ts:214-252 | the breakdown has exactly one row per item with an ingredient or a preparation |
| RecipesService.BreakdownFollowsItems | backend/src/recipes/recipes.service.ts:214-252 | the row of a costed item comes after the rows of the costed items before it, so rows keep the item order |
| RecipesService.IngredientLine | backend/src/recipes/recipes.service.ts:215-236 | an ingredient item costs `currentCost × amount` before waste, times `1 + waste/100` with waste; its row shows the current cost as unit cost and the with-waste total; this holds even if a preparation is also set |
| RecipesService.PreparationLine | backend/src/recipes/recipes.service.ts:237-252 | a preparation item adds `cost per portion × amount` to both totals; its row has that unit cost, that total and unit "porción" |
| RecipesService.WasteNeverLowersCost | backend/src/recipes/recipes.service.ts:217-227 | with non-negative costs, amounts and waste percentages, the cost before waste is at most the cost with waste |
| RecipesService.NoWasteMeansEqualTotals | backend/src/recipes/recipes.service.ts:220-242 | when no ingredient has a non-zero waste percentage, the two totals are equal |
| RecipesService.RemovedRecipeIsNotFound | backend/src/recipes/recipes.service.ts:182-187 | after the tombstone, `findOne` and `calculateCost` fail with NotFound |
| RecipesService.UpdateWithoutItemsEmptiesRecipe | backend/src/recipes/recipes.service.ts:135-152 | an update without `items` leaves the recipe empty, so its cost is a BadRequest |
| RecipesService.SingleIngredientExample | backend/src/recipes/recipes.service.ts:214-264 | 200 g at 20 per gram over 4 servings costs 4000, or 1000 per serving, with one ingredient row |
| RecipesService.WastedIngredientExample | backend/src/recipes/recipes.service.ts:217-236 | the same with 10 % waste: cost with waste and the row are 4400 (1100 per serving), total before waste stays 4000 |
| RecipesService.PreparationExample | backend/src/recipes/recipes.service.ts:237-278 | labour cost 5000 over yield 10 is 500 per portion; 2 portions add 1000 to both totals |
| RecipesService.Create | backend/src/recipes/recipes.service.ts:28-65 | appends the recipe with its mapped items and returns it loaded; nothing else changes; the invariant holds |
| RecipesService.Update | backend/src/recipes/recipes.service.ts:130-177 | NotFound and no change on a missing or removed recipe; otherwise exactly that recipe is replaced by its update, items included |
| RecipesService.Remove | backend/src/recipes/recipes.service.ts:179-201 | NotFound and no change on a missing or removed recipe; otherwise only the tombstone is set and the success message returned; `calculateCost` then fails with NotFound |

## Left out

- Prisma, `async` and `Promise.all`: the store is an in-memory object and the operations run one after another. The item delete and recreate in `update` is one step here, as if it were a transaction.
- Audit-log writes: an external side effect with no contract.
- Auth and user ids: the `userId` parameters only feed the audit log.
- HTTP controllers: only their `skip = (page − 1) · limit` line enters, through `Tables.MetaPageIsRequestedPage`. The ingredient controller also passes a `categoryId`, which the service never reads.
- Wall-clock time: `new Date()` and the default `effectiveAt` are a counter that every write advances.
- Generated ids: a new id is a parameter and must not be in use.
- JS numbers and Prisma `Decimal`: costs and amounts are `real`.
  - There is no rounding and no NaN or Infinity.
  - With `take = 0`, `page` and `pages` are `None` in place of the NaN/Infinity JS would compute.
  - `Number(...)` conversions are identities.
  - A zero `Decimal` waste percentage is truthy in JS, so the source applies the multiplier with 0 %, while the model skips it. The result agrees because 1 + 0/100 = 1.
- Database collation and full Unicode case folding.
  - Case-insensitive search folds ASCII letters only.
  - Ordering by name compares character codes.
  - The order among equal names is left as the insertion order.
- Escaping of `%` and `_` in Prisma's `contains`: the search is a plain substring test.
- Negative `skip` or `take`: the controller can produce them from bad query strings; the model takes naturals.
- Foreign-key failures: creating an item that points to a missing ingredient or preparation fails in the database. In the model such an item loads as empty and costs nothing.
- The order of a recipe's items: the source does not sort them, so they are taken in stored order.
- class-validator decorators: they become preconditions.
  - Ingredient cost ≥ 0.
  - Item quantity ≥ 0.
  - Servings ≥ 1.
  - Yield > 0 is a store invariant. The source assumes it when it divides.
- `wastePercentage` on ingredient creation: it is not declared in the backend creation DTO, but `data: dto` forwards whatever the client sends. The model accepts it.
- backend/src/ingredients/dto/update-ingredient.dto.ts and backend/src/recipes/dto/update-recipe.dto.ts are not part of this model. Both updates are taken to have every creation field optional.
- Clearing a field with `null` in an update: an absent field keeps its stored value, and no field can be set to null.
- FrontUnitConverter.CalculateCostPerBaseUnit: requires a non-zero quantity for supported units, because JS would return Infinity or NaN; division by zero is not modelled.
- The unit string of a preparation row is stored mis-encoded in the source file. The model uses the intended "porción".
- UnitConverter.GetUnitLabel and UnitConverter.GetUnitAbbreviation: with a tag that names an `Object.prototype` member, such as `constructor` or `toString`, `labels[unit] || unit` returns the inherited function, while the model returns the raw tag. No tag the system writes is such a name.
- The React pages, the HTTP client wrappers, seeding and dependency-injection wiring: they are UI, network I/O and configuration.
