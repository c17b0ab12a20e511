/**
 * The recipe service: recipes with soft deletion whose item list is
 * replaced wholesale on update, and the cost calculation ("escandallo")
 * that walks a recipe's items, accumulating a cost before waste and a cost
 * with waste, one breakdown row per costed item, and divides both totals
 * by the number of servings.
 */
module RecipesService {
  import opened Common
  import opened Units
  import opened Tables
  import opened Store

  const DefaultTake: nat := 20
  const IngredientsMissingMessage := "La receta no tiene ingredientes"
  const PortionUnit := "porci\U{F3}n"

  datatype RecipeItemDto = RecipeItemDto(
    ingredientId: Option<string>,
    preparationId: Option<string>,
    quantity: real,
    notes: Option<string>)

  datatype CreateRecipeDto = CreateRecipeDto(
    name: string,
    description: Option<string>,
    servings: int,
    items: seq<RecipeItemDto>)

  datatype UpdateRecipeDto = UpdateRecipeDto(
    name: Option<string>,
    description: Option<string>,
    servings: Option<int>,
    items: Option<seq<RecipeItemDto>>)

  /** An item as `include: { ingredient: true, preparation: true }` returns it. */
  datatype LoadedItem = LoadedItem(
    ingredient: Option<Ingredient>,
    preparation: Option<Preparation>,
    amount: real,
    unit: UnitType)

  datatype LoadedRecipe = LoadedRecipe(
    id: string,
    name: string,
    description: Option<string>,
    servings: int,
    items: seq<LoadedItem>,
    deletedAt: Option<nat>)

  datatype RowKind = IngredientRow | PreparationRow

  datatype BreakdownRow = BreakdownRow(
    name: string,
    quantity: real,
    unit: string,
    unitCost: real,
    totalCost: real,
    kind: RowKind)

  datatype CostCalculation = CostCalculation(
    totalCost: real,
    costPerServing: real,
    costWithWaste: real,
    costPerServingWithWaste: real,
    breakdown: seq<BreakdownRow>)

  // ---------------------------------------------------------------------
  // Items and loading

  /** The item mapping of `create` and `update`: amount is the quantity, unit is always UNIT, notes are dropped. */
  function ToItems(dtos: seq<RecipeItemDto>): (items: seq<RecipeItem>)
    ensures |items| == |dtos|
    ensures forall k :: 0 <= k < |dtos| ==>
              items[k] == RecipeItem(dtos[k].ingredientId, dtos[k].preparationId, dtos[k].quantity, Unit)
  {
    seq(|dtos|, k requires 0 <= k < |dtos| => RecipeItem(dtos[k].ingredientId, dtos[k].preparationId, dtos[k].quantity, Unit))
  }

  predicate QuantitiesValid(dtos: seq<RecipeItemDto>) {
    forall k :: 0 <= k < |dtos| ==> dtos[k].quantity >= 0.0
  }

  function NewRecipe(id: string, dto: CreateRecipeDto): (r: Recipe)
    ensures r.id == id && r.deletedAt.None?
    ensures r.name == dto.name && r.description == dto.description && r.servings == dto.servings
    ensures r.items == ToItems(dto.items)
  {
    Recipe(id, dto.name, dto.description, dto.servings, ToItems(dto.items), None)
  }

  /**
   * `update`: the old items are deleted unconditionally; the new ones come
   * from `dto.items` alone, so without `items` the recipe is left empty.
   */
  function ApplyUpdate(r: Recipe, dto: UpdateRecipeDto): (u: Recipe)
    ensures u.id == r.id && u.deletedAt == r.deletedAt
    ensures dto.name.Some? ==> u.name == dto.name.value
    ensures dto.name.None? ==> u.name == r.name
    ensures dto.description.Some? ==> u.description == dto.description
    ensures dto.description.None? ==> u.description == r.description
    ensures dto.servings.Some? ==> u.servings == dto.servings.value
    ensures dto.servings.None? ==> u.servings == r.servings
    ensures dto.items.None? ==> u.items == []
    ensures dto.items.Some? ==> u.items == ToItems(dto.items.value)
  {
    Recipe(r.id, dto.name.GetOr(r.name),
           if dto.description.Some? then dto.description else r.description,
           dto.servings.GetOr(r.servings),
           if dto.items.Some? then ToItems(dto.items.value) else [],
           r.deletedAt)
  }

  /** `update({ data: { deletedAt: new Date() } })`: only the tombstone changes. */
  function Tombstone(r: Recipe, now: nat): (t: Recipe)
    ensures t.deletedAt == Some(now) && t.(deletedAt := r.deletedAt) == r
  {
    r.(deletedAt := Some(now))
  }

  /** Resolves the two foreign keys; the ingredient row is loaded even when soft-deleted. */
  function LoadItem(item: RecipeItem, ingredients: seq<Ingredient>, preparations: map<string, Preparation>): (l: LoadedItem)
    ensures l.amount == item.amount && l.unit == item.unit
    ensures l.ingredient.Some? ==> l.ingredient.value in ingredients && Some(l.ingredient.value.id) == item.ingredientId
    ensures l.preparation.Some? ==> item.preparationId.Some? && item.preparationId.value in preparations
                                    && l.preparation.value == preparations[item.preparationId.value]
    ensures l.ingredient.Some? <==> item.ingredientId.Some? && HasRow(ingredients, item.ingredientId.value)
    ensures l.preparation.Some? <==> item.preparationId.Some? && item.preparationId.value in preparations
  {
    IndexOfFindsRow(ingredients, item.ingredientId.GetOr(""));
    var ingredient :=
      if item.ingredientId.None? then None
      else match IndexOf(ingredients, IngredientId, item.ingredientId.value)
        case None => None
        case Some(i) => Some(ingredients[i]);
    var preparation :=
      if item.preparationId.Some? && item.preparationId.value in preparations
      then Some(preparations[item.preparationId.value]) else None;
    LoadedItem(ingredient, preparation, item.amount, item.unit)
  }

  function Load(r: Recipe, ingredients: seq<Ingredient>, preparations: map<string, Preparation>): (l: LoadedRecipe)
    ensures l.id == r.id && l.name == r.name && l.description == r.description
    ensures l.servings == r.servings && l.deletedAt == r.deletedAt
    ensures |l.items| == |r.items|
    ensures forall k :: 0 <= k < |r.items| ==> l.items[k] == LoadItem(r.items[k], ingredients, preparations)
  {
    LoadedRecipe(r.id, r.name, r.description, r.servings,
                 seq(|r.items|, k requires 0 <= k < |r.items| => LoadItem(r.items[k], ingredients, preparations)),
                 r.deletedAt)
  }

  predicate IsLive(recipes: seq<Recipe>, id: string) {
    var i := IndexOf(recipes, RecipeId, id);
    i.Some? && recipes[i.value].deletedAt.None?
  }

  /** `findOne`: NotFound when the recipe is missing or soft-deleted. */
  function FindOne(recipes: seq<Recipe>, ingredients: seq<Ingredient>, preparations: map<string, Preparation>, id: string)
    : (r: Result<LoadedRecipe, ServiceError>)
    ensures r.Failure? <==> !IsLive(recipes, id)
    ensures r.Failure? ==> r.error == NotFound(id)
    ensures r.Success? ==> r.value == Load(recipes[IndexOf(recipes, RecipeId, id).value], ingredients, preparations)
                           && r.value.id == id && r.value.deletedAt.None?
  {
    match IndexOf(recipes, RecipeId, id)
    case None => Failure(NotFound(id))
    case Some(i) =>
      if recipes[i].deletedAt.Some? then Failure(NotFound(id))
      else Success(Load(recipes[i], ingredients, preparations))
  }

  predicate Listed(search: Option<string>, r: Recipe) {
    r.deletedAt.None? && MatchesSearch(search, r.name, r.description)
  }

  /** The `where` clause of `findAll` as a row filter. */
  function Where(search: Option<string>): Recipe -> bool {
    r => Listed(search, r)
  }

  /** `l` is a listed row of `recipes` with its items loaded. */
  predicate LoadedListedRow(recipes: seq<Recipe>, ingredients: seq<Ingredient>, preparations: map<string, Preparation>,
                            search: Option<string>, l: LoadedRecipe) {
    exists j :: 0 <= j < |recipes| && Listed(search, recipes[j]) && l == Load(recipes[j], ingredients, preparations)
  }

  /** `findAll`: live recipes matching the search, by name, one page, each with its items loaded. */
  function FindAll(recipes: seq<Recipe>, ingredients: seq<Ingredient>, preparations: map<string, Preparation>,
                   skip: Option<nat>, take: Option<nat>, search: Option<string>): (p: Page<LoadedRecipe>)
    ensures |p.data| <= take.GetOr(DefaultTake)
    ensures forall k :: 0 <= k < |p.data| ==> LoadedListedRow(recipes, ingredients, preparations, search, p.data[k])
    ensures forall a, b :: 0 <= a < b < |p.data| ==> NameLessEq(p.data[a].name, p.data[b].name)
    ensures var window := Slice(SortByName(Filter(recipes, Where(search)), RecipeName), skip.GetOr(0), take.GetOr(DefaultTake));
            |p.data| == |window| && forall k :: 0 <= k < |window| ==> p.data[k] == Load(window[k], ingredients, preparations)
    ensures p.meta == Meta(|Filter(recipes, Where(search))|, skip.GetOr(0), take.GetOr(DefaultTake))
  {
    var page := List(recipes, Where(search), RecipeName, skip.GetOr(0), take.GetOr(DefaultTake));
    var data := seq(|page.data|, k requires 0 <= k < |page.data| => Load(page.data[k], ingredients, preparations));
    LoadedRowsComeFromTable(recipes, page.data, data, ingredients, preparations, search);
    Page(data, page.meta)
  }

  lemma LoadedRowsComeFromTable(recipes: seq<Recipe>, rows: seq<Recipe>, data: seq<LoadedRecipe>,
                                ingredients: seq<Ingredient>, preparations: map<string, Preparation>, search: Option<string>)
    requires forall k :: 0 <= k < |rows| ==> rows[k] in recipes && Listed(search, rows[k])
    requires |data| == |rows| && forall k :: 0 <= k < |rows| ==> data[k] == Load(rows[k], ingredients, preparations)
    requires SortedBy(rows, RecipeName)
    ensures forall a, b :: 0 <= a < b < |data| ==> NameLessEq(data[a].name, data[b].name)
    ensures forall k :: 0 <= k < |data| ==> LoadedListedRow(recipes, ingredients, preparations, search, data[k])
  {
    forall k | 0 <= k < |data| ensures LoadedListedRow(recipes, ingredients, preparations, search, data[k]) {
      var j :| 0 <= j < |recipes| && recipes[j] == rows[k];
      assert Listed(search, recipes[j]) && data[k] == Load(recipes[j], ingredients, preparations);
    }
    forall a, b | 0 <= a < b < |data| ensures NameLessEq(data[a].name, data[b].name) {
      assert data[a].name == RecipeName(rows[a]) && data[b].name == RecipeName(rows[b]);
    }
  }

  // ---------------------------------------------------------------------
  // Cost of one item

  /**
   * `calculatePreparationCost`: 0 for an unknown id, else the labour cost
   * divided by the yield. It does not look at any nested items.
   */
  function PreparationCost(preparations: map<string, Preparation>, id: string): (c: real)
    requires PreparationsWellFormed(preparations)
    ensures id !in preparations ==> c == 0.0
    ensures id in preparations ==> c * preparations[id].yieldCount == preparations[id].laborCost
  {
    if id !in preparations then 0.0
    else preparations[id].laborCost / preparations[id].yieldCount
  }

  /** `1 + waste / 100` when the waste percentage is set and non-zero, else 1. */
  function WasteMultiplier(waste: Option<real>): (m: real)
    ensures waste.Some? && waste.value >= 0.0 ==> m >= 1.0
    ensures waste.None? ==> m == 1.0
    ensures waste.Some? ==> m == 1.0 + waste.value / 100.0
  {
    if waste.Some? && waste.value != 0.0 then 1.0 + waste.value / 100.0 else 1.0
  }

  /** What one item adds to the cost before waste, to the cost with waste, and to the breakdown. */
  datatype Line = Line(base: real, withWaste: real, row: BreakdownRow)

  /** Costed: the item has an ingredient or, failing that, a preparation. */
  predicate Costed(item: LoadedItem) {
    item.ingredient.Some? || item.preparation.Some?
  }

  function LineOf(item: LoadedItem, preparations: map<string, Preparation>): (l: Option<Line>)
    requires PreparationsWellFormed(preparations)
    ensures l.Some? <==> Costed(item)
  {
    if item.ingredient.Some? then
      var g := item.ingredient.value;
      var base := g.currentCost * item.amount;
      var withWaste := base * WasteMultiplier(g.wastePercentage);
      Some(Line(base, withWaste, BreakdownRow(g.name, item.amount, TagOf(g.unit), g.currentCost, withWaste, IngredientRow)))
    else if item.preparation.Some? then
      var p := item.preparation.value;
      var unitCost := PreparationCost(preparations, p.id);
      var cost := unitCost * item.amount;
      Some(Line(cost, cost, BreakdownRow(p.name, item.amount, PortionUnit, unitCost, cost, PreparationRow)))
    else None
  }

  // ---------------------------------------------------------------------
  // The accumulators of the loop, as functions of the items visited so far

  function BaseTotal(items: seq<LoadedItem>, preparations: map<string, Preparation>): real
    requires PreparationsWellFormed(preparations)
  {
    if |items| == 0 then 0.0
    else
      var l := LineOf(items[|items| - 1], preparations);
      BaseTotal(items[..|items| - 1], preparations) + (if l.Some? then l.value.base else 0.0)
  }

  function WasteTotal(items: seq<LoadedItem>, preparations: map<string, Preparation>): real
    requires PreparationsWellFormed(preparations)
  {
    if |items| == 0 then 0.0
    else
      var l := LineOf(items[|items| - 1], preparations);
      WasteTotal(items[..|items| - 1], preparations) + (if l.Some? then l.value.withWaste else 0.0)
  }

  function Breakdown(items: seq<LoadedItem>, preparations: map<string, Preparation>): seq<BreakdownRow>
    requires PreparationsWellFormed(preparations)
  {
    if |items| == 0 then []
    else
      var l := LineOf(items[|items| - 1], preparations);
      Breakdown(items[..|items| - 1], preparations) + (if l.Some? then [l.value.row] else [])
  }

  /** The result of `calculateCost` for a loaded recipe. */
  function CostOf(recipe: LoadedRecipe, preparations: map<string, Preparation>): (r: Result<CostCalculation, ServiceError>)
    requires PreparationsWellFormed(preparations) && recipe.servings >= 1
    ensures r.Failure? <==> |recipe.items| == 0
    ensures r.Failure? ==> r.error == BadRequest
  {
    if |recipe.items| == 0 then Failure(BadRequest)
    else
      var total := BaseTotal(recipe.items, preparations);
      var withWaste := WasteTotal(recipe.items, preparations);
      Success(CostCalculation(total, total / recipe.servings as real, withWaste,
                              withWaste / recipe.servings as real, Breakdown(recipe.items, preparations)))
  }

  /** `calculateCost(id)`: `findOne`, then BadRequest for an empty recipe, then the totals. */
  function CalculateCostSpec(recipes: seq<Recipe>, ingredients: seq<Ingredient>, preparations: map<string, Preparation>, id: string)
    : (r: Result<CostCalculation, ServiceError>)
    requires RecipesWellFormed(recipes) && PreparationsWellFormed(preparations)
    ensures !IsLive(recipes, id) ==> r == Failure(NotFound(id))
    ensures IsLive(recipes, id) ==>
              (r.Failure? <==> |recipes[IndexOf(recipes, RecipeId, id).value].items| == 0)
    ensures IsLive(recipes, id) && r.Failure? ==> r.error == BadRequest
  {
    var recipe :- FindOne(recipes, ingredients, preparations, id);
    CostOf(recipe, preparations)
  }

  /** For a live recipe, `calculateCost` is the cost of what `findOne` returns. */
  lemma CalculateCostUnfolds(recipes: seq<Recipe>, ingredients: seq<Ingredient>, preparations: map<string, Preparation>, id: string)
    requires RecipesWellFormed(recipes) && PreparationsWellFormed(preparations) && IsLive(recipes, id)
    ensures FindOne(recipes, ingredients, preparations, id).Success?
    ensures FindOne(recipes, ingredients, preparations, id).value.servings >= 1
    ensures CalculateCostSpec(recipes, ingredients, preparations, id)
            == CostOf(FindOne(recipes, ingredients, preparations, id).value, preparations)
  {
  }

  /** One more item visited extends each accumulator by that item's line. */
  lemma AccumulatorsStep(items: seq<LoadedItem>, i: nat, preparations: map<string, Preparation>)
    requires PreparationsWellFormed(preparations) && i < |items|
    ensures var l := LineOf(items[i], preparations);
            && BaseTotal(items[..i + 1], preparations) == BaseTotal(items[..i], preparations) + (if l.Some? then l.value.base else 0.0)
            && WasteTotal(items[..i + 1], preparations) == WasteTotal(items[..i], preparations) + (if l.Some? then l.value.withWaste else 0.0)
            && Breakdown(items[..i + 1], preparations) == Breakdown(items[..i], preparations) + (if l.Some? then [l.value.row] else [])
  {
    assert items[..i + 1][..i] == items[..i];
  }

  // ---------------------------------------------------------------------
  // The service operations

  /**
   * The loop of `calculateCost` over a recipe's loaded items: the two
   * accumulators and the breakdown are the specification's over the items.
   */
  method CostItems(items: seq<LoadedItem>, preparations: map<string, Preparation>)
    returns (totalCost: real, totalCostWithWaste: real, breakdown: seq<BreakdownRow>)
    requires PreparationsWellFormed(preparations)
    ensures totalCost == BaseTotal(items, preparations)
    ensures totalCostWithWaste == WasteTotal(items, preparations)
    ensures breakdown == Breakdown(items, preparations)
  {
    breakdown := [];
    totalCost := 0.0;
    totalCostWithWaste := 0.0;
    for i := 0 to |items|
      invariant totalCost == BaseTotal(items[..i], preparations)
      invariant totalCostWithWaste == WasteTotal(items[..i], preparations)
      invariant breakdown == Breakdown(items[..i], preparations)
    {
      var item := items[i];
      AccumulatorsStep(items, i, preparations);
      if item.ingredient.Some? {
        var ingredient := item.ingredient.value;
        var baseCost := ingredient.currentCost * item.amount;
        var wasteMultiplier := WasteMultiplier(ingredient.wastePercentage);
        var costWithWaste := baseCost * wasteMultiplier;
        var row := BreakdownRow(ingredient.name, item.amount, TagOf(ingredient.unit),
                                ingredient.currentCost, costWithWaste, IngredientRow);
        assert LineOf(item, preparations).value.base == baseCost;
        assert LineOf(item, preparations).value.withWaste == costWithWaste;
        assert LineOf(item, preparations).value.row == row;
        totalCost := totalCost + baseCost;
        totalCostWithWaste := totalCostWithWaste + costWithWaste;
        breakdown := breakdown + [row];
      } else if item.preparation.Some? {
        var prepCost := PreparationCost(preparations, item.preparation.value.id);
        var cost := prepCost * item.amount;
        var row := BreakdownRow(item.preparation.value.name, item.amount, PortionUnit, prepCost, cost, PreparationRow);
        assert LineOf(item, preparations).value.base == cost;
        assert LineOf(item, preparations).value.withWaste == cost;
        assert LineOf(item, preparations).value.row == row;
        totalCost := totalCost + cost;
        totalCostWithWaste := totalCostWithWaste + cost;
        breakdown := breakdown + [row];
      }
    }
    assert items[..|items|] == items;
  }

  method CalculateCost(db: Database, id: string) returns (r: Result<CostCalculation, ServiceError>)
    requires db.Valid()
    ensures r == CalculateCostSpec(db.recipes, db.ingredients, db.preparations, id)
  {
    var found := FindOne(db.recipes, db.ingredients, db.preparations, id);
    if found.Failure? {
      return Failure(found.error);
    }
    var recipe := found.value;
    CalculateCostUnfolds(db.recipes, db.ingredients, db.preparations, id);
    if |recipe.items| == 0 {
      return Failure(BadRequest);
    }
    var totalCost, totalCostWithWaste, breakdown := CostItems(recipe.items, db.preparations);
    var servings := recipe.servings as real;
    r := Success(CostCalculation(totalCost, totalCost / servings, totalCostWithWaste,
                                 totalCostWithWaste / servings, breakdown));
  }

  method Create(db: Database, newId: string, dto: CreateRecipeDto) returns (r: LoadedRecipe)
    requires db.Valid()
    requires IndexOf(db.recipes, RecipeId, newId).None?  // a fresh generated id
    requires dto.servings >= 1 && QuantitiesValid(dto.items)  // @Min(1), @Min(0)
    modifies db
    ensures db.Valid()
    ensures db.recipes == old(db.recipes) + [NewRecipe(newId, dto)]
    ensures r == Load(NewRecipe(newId, dto), db.ingredients, db.preparations)
    ensures db.ingredients == old(db.ingredients) && db.costHistory == old(db.costHistory)
    ensures db.preparations == old(db.preparations) && db.clock == old(db.clock) + 1
  {
    var recipe := NewRecipe(newId, dto);
    assert UniqueKeys(db.recipes + [recipe], RecipeId) by {
      forall a, b | 0 <= a < b < |db.recipes| + 1 ensures (db.recipes + [recipe])[a].id != (db.recipes + [recipe])[b].id {
        if b == |db.recipes| {
          assert RecipeId(db.recipes[a]) != newId;
        }
      }
    }
    db.recipes := db.recipes + [recipe];
    db.clock := db.clock + 1;
    r := Load(recipe, db.ingredients, db.preparations);
  }

  method Update(db: Database, id: string, dto: UpdateRecipeDto) returns (r: Result<LoadedRecipe, ServiceError>)
    requires db.Valid()
    requires dto.servings.Some? ==> dto.servings.value >= 1
    requires dto.items.Some? ==> QuantitiesValid(dto.items.value)
    modifies db
    ensures db.Valid()
    ensures db.ingredients == old(db.ingredients) && db.costHistory == old(db.costHistory)
    ensures db.preparations == old(db.preparations)
    ensures !IsLive(old(db.recipes), id) ==>
              r == Failure(NotFound(id)) && db.recipes == old(db.recipes) && db.clock == old(db.clock)
    ensures IsLive(old(db.recipes), id) ==>
              var i := IndexOf(old(db.recipes), RecipeId, id).value;
              && db.recipes == old(db.recipes)[i := ApplyUpdate(old(db.recipes)[i], dto)]
              && r == Success(Load(db.recipes[i], db.ingredients, db.preparations))
              && db.clock == old(db.clock) + 1
  {
    var existing := FindOne(db.recipes, db.ingredients, db.preparations, id);
    if existing.Failure? {
      return Failure(existing.error);
    }
    var i := IndexOf(db.recipes, RecipeId, id).value;
    var updated := ApplyUpdate(db.recipes[i], dto);
    assert UniqueKeys(db.recipes[i := updated], RecipeId) by {
      var rows := db.recipes[i := updated];
      forall a, b | 0 <= a < b < |rows| ensures rows[a].id != rows[b].id {
        assert db.recipes[a].id != db.recipes[b].id;
      }
    }
    db.recipes := db.recipes[i := updated];
    db.clock := db.clock + 1;
    r := Success(Load(updated, db.ingredients, db.preparations));
  }

  method Remove(db: Database, id: string) returns (r: Result<string, ServiceError>)
    requires db.Valid()
    modifies db
    ensures db.Valid()
    ensures db.ingredients == old(db.ingredients) && db.costHistory == old(db.costHistory)
    ensures db.preparations == old(db.preparations)
    ensures !IsLive(old(db.recipes), id) ==>
              r == Failure(NotFound(id)) && db.recipes == old(db.recipes) && db.clock == old(db.clock)
    ensures IsLive(old(db.recipes), id) ==>
              var i := IndexOf(old(db.recipes), RecipeId, id).value;
              && r == Success("Receta eliminada correctamente")
              && db.recipes == old(db.recipes)[i := Tombstone(old(db.recipes)[i], old(db.clock))]
              && db.clock == old(db.clock) + 1
    ensures CalculateCostSpec(db.recipes, db.ingredients, db.preparations, id) == Failure(NotFound(id))
  {
    var existing := FindOne(db.recipes, db.ingredients, db.preparations, id);
    if existing.Failure? {
      return Failure(existing.error);
    }
    var i := IndexOf(db.recipes, RecipeId, id).value;
    RemovedRecipeIsNotFound(db.recipes, db.ingredients, db.preparations, id, db.clock);
    assert UniqueKeys(db.recipes[i := Tombstone(db.recipes[i], db.clock)], RecipeId) by {
      var rows := db.recipes[i := Tombstone(db.recipes[i], db.clock)];
      forall a, b | 0 <= a < b < |rows| ensures rows[a].id != rows[b].id {
        assert db.recipes[a].id != db.recipes[b].id;
      }
    }
    db.recipes := db.recipes[i := Tombstone(db.recipes[i], db.clock)];
    db.clock := db.clock + 1;
    r := Success("Receta eliminada correctamente");
  }

  // ---------------------------------------------------------------------
  // Properties of the cost calculation

  /** Tombstoning a recipe makes `findOne`, and with it `calculateCost`, fail with NotFound. */
  lemma RemovedRecipeIsNotFound(recipes: seq<Recipe>, ingredients: seq<Ingredient>, preparations: map<string, Preparation>, id: string, now: nat)
    requires RecipesWellFormed(recipes) && PreparationsWellFormed(preparations)
    requires IndexOf(recipes, RecipeId, id).Some?
    ensures var i := IndexOf(recipes, RecipeId, id).value;
            var rows := recipes[i := Tombstone(recipes[i], now)];
            && FindOne(rows, ingredients, preparations, id) == Failure(NotFound(id))
            && RecipesWellFormed(rows)
            && CalculateCostSpec(rows, ingredients, preparations, id) == Failure(NotFound(id))
  {
    var i := IndexOf(recipes, RecipeId, id).value;
    var rows := recipes[i := Tombstone(recipes[i], now)];
    IndexOfAfterReplace(recipes, RecipeId, i, Tombstone(recipes[i], now), id);
    assert UniqueKeys(rows, RecipeId) by {
      forall a, b | 0 <= a < b < |rows| ensures rows[a].id != rows[b].id {
        assert recipes[a].id != recipes[b].id;
      }
    }
  }

  /** An update without `items` leaves the recipe with no items, so its cost is a BadRequest. */
  lemma UpdateWithoutItemsEmptiesRecipe(recipes: seq<Recipe>, ingredients: seq<Ingredient>, preparations: map<string, Preparation>,
                                        id: string, dto: UpdateRecipeDto)
    requires RecipesWellFormed(recipes) && PreparationsWellFormed(preparations)
    requires IsLive(recipes, id) && dto.items.None?
    requires dto.servings.Some? ==> dto.servings.value >= 1
    ensures var i := IndexOf(recipes, RecipeId, id).value;
            var rows := recipes[i := ApplyUpdate(recipes[i], dto)];
            && RecipesWellFormed(rows)
            && CalculateCostSpec(rows, ingredients, preparations, id) == Failure(BadRequest)
  {
    var i := IndexOf(recipes, RecipeId, id).value;
    var rows := recipes[i := ApplyUpdate(recipes[i], dto)];
    IndexOfAfterReplace(recipes, RecipeId, i, ApplyUpdate(recipes[i], dto), id);
    assert UniqueKeys(rows, RecipeId) by {
      forall a, b | 0 <= a < b < |rows| ensures rows[a].id != rows[b].id {
        assert recipes[a].id != recipes[b].id;
      }
    }
  }

  /** The replaced item list depends on the update alone, not on the items the recipe had. */
  lemma UpdateForgetsOldItems(r1: Recipe, r2: Recipe, dto: UpdateRecipeDto)
    ensures ApplyUpdate(r1, dto).items == ApplyUpdate(r2, dto).items
  {
  }

  function RowsTotal(rows: seq<BreakdownRow>): real {
    if |rows| == 0 then 0.0 else RowsTotal(rows[..|rows| - 1]) + rows[|rows| - 1].totalCost
  }

  lemma RowsTotalAppend(rows: seq<BreakdownRow>, more: seq<BreakdownRow>)
    requires |more| <= 1
    ensures RowsTotal(rows + more) == RowsTotal(rows) + RowsTotal(more)
  {
    if |more| == 1 {
      assert (rows + more)[..|rows + more| - 1] == rows;
    } else {
      assert rows + more == rows;
    }
  }

  /**
   * The breakdown rows add up to the cost WITH waste (each ingredient row shows
   * its post-waste figure), not to `totalCost`, which is before waste.
   */
  lemma {:induction false} BreakdownAddsUpToCostWithWaste(items: seq<LoadedItem>, preparations: map<string, Preparation>)
    requires PreparationsWellFormed(preparations)
    ensures RowsTotal(Breakdown(items, preparations)) == WasteTotal(items, preparations)
  {
    if |items| > 0 {
      var prefix := items[..|items| - 1];
      var l := LineOf(items[|items| - 1], preparations);
      BreakdownAddsUpToCostWithWaste(prefix, preparations);
      RowsTotalAppend(Breakdown(prefix, preparations), if l.Some? then [l.value.row] else []);
    }
  }

  /** How many of the items are costed. */
  function CostedCount(items: seq<LoadedItem>): nat {
    if |items| == 0 then 0
    else CostedCount(items[..|items| - 1]) + (if Costed(items[|items| - 1]) then 1 else 0)
  }

  /**
   * One row per costed item, in item order: the costed item at position `j`
   * gives the row after those of the costed items before it.
   */
  lemma {:induction false} BreakdownFollowsItems(items: seq<LoadedItem>, preparations: map<string, Preparation>, j: nat)
    requires PreparationsWellFormed(preparations)
    requires j < |items| && Costed(items[j])
    ensures |Breakdown(items, preparations)| == CostedCount(items)
    ensures CostedCount(items[..j]) < |Breakdown(items, preparations)|
    ensures Breakdown(items, preparations)[CostedCount(items[..j])] == LineOf(items[j], preparations).value.row
  {
    BreakdownLength(items, preparations);
    var prefix := items[..|items| - 1];
    if j == |items| - 1 {
      assert items[..j] == prefix;
      BreakdownLength(prefix, preparations);
    } else {
      assert prefix[j] == items[j] && prefix[..j] == items[..j];
      BreakdownFollowsItems(prefix, preparations, j);
    }
  }

  lemma {:induction false} BreakdownLength(items: seq<LoadedItem>, preparations: map<string, Preparation>)
    requires PreparationsWellFormed(preparations)
    ensures |Breakdown(items, preparations)| == CostedCount(items)
  {
    if |items| > 0 {
      BreakdownLength(items[..|items| - 1], preparations);
    }
  }

  /** The totals of a cost calculation are the sums over the items, and the breakdown adds up to the cost with waste. */
  lemma CostOfTotals(recipe: LoadedRecipe, preparations: map<string, Preparation>)
    requires PreparationsWellFormed(preparations) && recipe.servings >= 1
    requires CostOf(recipe, preparations).Success?
    ensures var c := CostOf(recipe, preparations).value;
            && |recipe.items| > 0
            && c.totalCost == BaseTotal(recipe.items, preparations)
            && c.costWithWaste == WasteTotal(recipe.items, preparations)
            && c.costWithWaste == RowsTotal(c.breakdown)
            && |c.breakdown| == CostedCount(recipe.items)
  {
    BreakdownAddsUpToCostWithWaste(recipe.items, preparations);
    BreakdownLength(recipe.items, preparations);
  }

  /** Per-serving figures times the servings give back the totals. */
  lemma CostOfPerServing(recipe: LoadedRecipe, preparations: map<string, Preparation>)
    requires PreparationsWellFormed(preparations) && recipe.servings >= 1
    requires CostOf(recipe, preparations).Success?
    ensures var c := CostOf(recipe, preparations).value;
            && c.costPerServing * recipe.servings as real == c.totalCost
            && c.costPerServingWithWaste * recipe.servings as real == c.costWithWaste
  {
    var c := CostOf(recipe, preparations).value;
    var servings := recipe.servings as real;
    assert c.costPerServing == c.totalCost / servings;
    assert c.costPerServingWithWaste == c.costWithWaste / servings;
    DividedBy(c.totalCost, servings);
    DividedBy(c.costWithWaste, servings);
  }

  lemma DividedBy(x: real, d: real)
    requires d > 0.0
    ensures (x / d) * d == x
  {
  }

  /** An item with an ingredient is costed as an ingredient even if it also names a preparation. */
  lemma IngredientLine(item: LoadedItem, preparations: map<string, Preparation>)
    requires PreparationsWellFormed(preparations) && item.ingredient.Some?
    ensures var g := item.ingredient.value;
            var l := LineOf(item, preparations).value;
            && l.base == g.currentCost * item.amount
            && l.withWaste == (if g.wastePercentage.Some? then l.base * (1.0 + g.wastePercentage.value / 100.0) else l.base)
            && l.row.kind == IngredientRow && l.row.unitCost == g.currentCost
            && l.row.totalCost == l.withWaste && l.row.quantity == item.amount
  {
  }

  /** A preparation item adds `cost per portion * amount` to both totals, with no waste applied again. */
  lemma PreparationLine(item: LoadedItem, preparations: map<string, Preparation>)
    requires PreparationsWellFormed(preparations) && item.ingredient.None? && item.preparation.Some?
    ensures var l := LineOf(item, preparations).value;
            var unitCost := PreparationCost(preparations, item.preparation.value.id);
            && l.base == unitCost * item.amount && l.withWaste == l.base
            && l.row.kind == PreparationRow && l.row.unitCost == unitCost
            && l.row.totalCost == l.base && l.row.unit == PortionUnit
  {
  }

  /** Non-negative waste (and non-negative costs and amounts) can only raise the cost. */
  predicate CostInputsNonNegative(item: LoadedItem, preparations: map<string, Preparation>) {
    && item.amount >= 0.0
    && (item.ingredient.Some? ==>
          item.ingredient.value.currentCost >= 0.0
          && (item.ingredient.value.wastePercentage.Some? ==> item.ingredient.value.wastePercentage.value >= 0.0))
  }

  lemma {:induction false} WasteNeverLowersCost(items: seq<LoadedItem>, preparations: map<string, Preparation>)
    requires PreparationsWellFormed(preparations)
    requires forall k :: 0 <= k < |items| ==> CostInputsNonNegative(items[k], preparations)
    ensures BaseTotal(items, preparations) <= WasteTotal(items, preparations)
  {
    if |items| > 0 {
      var prefix := items[..|items| - 1];
      var item := items[|items| - 1];
      assert forall k :: 0 <= k < |prefix| ==> prefix[k] == items[k];
      WasteNeverLowersCost(prefix, preparations);
      if item.ingredient.Some? {
        var g := item.ingredient.value;
        var base := g.currentCost * item.amount;
        assert base >= 0.0 by { NonNegativeProduct(g.currentCost, item.amount); }
        var m := WasteMultiplier(g.wastePercentage);
        assert base * m >= base by { MultiplierAtLeastOne(base, m); }
      }
    }
  }

  lemma NonNegativeProduct(a: real, b: real)
    requires a >= 0.0 && b >= 0.0
    ensures a * b >= 0.0
  {
  }

  lemma MultiplierAtLeastOne(base: real, m: real)
    requires base >= 0.0 && m >= 1.0
    ensures base * m >= base
  {
    assert base * m == base + base * (m - 1.0);
    NonNegativeProduct(base, m - 1.0);
  }

  /** Without any non-zero waste percentage the two totals coincide. */
  lemma {:induction false} NoWasteMeansEqualTotals(items: seq<LoadedItem>, preparations: map<string, Preparation>)
    requires PreparationsWellFormed(preparations)
    requires forall k :: 0 <= k < |items| ==>
               items[k].ingredient.Some? ==> items[k].ingredient.value.wastePercentage in {None, Some(0.0)}
    ensures BaseTotal(items, preparations) == WasteTotal(items, preparations)
  {
    if |items| > 0 {
      var prefix := items[..|items| - 1];
      assert forall k :: 0 <= k < |prefix| ==> prefix[k] == items[k];
      NoWasteMeansEqualTotals(prefix, preparations);
    }
  }

  // ---------------------------------------------------------------------
  // Worked examples

  const Flour := Ingredient("flour", "Harina", None, Gram, 20.0, None, None, None, None)

  /** 200 g at 20 per gram, 4 servings: 4000 in total, 1000 per serving. */
  lemma SingleIngredientExample()
    ensures var recipe := LoadedRecipe("r", "Pan", None, 4, [LoadedItem(Some(Flour), None, 200.0, Unit)], None);
            CostOf(recipe, map[]) == Success(CostCalculation(4000.0, 1000.0, 4000.0, 1000.0,
                                                             [BreakdownRow("Harina", 200.0, "GRAM", 20.0, 4000.0, IngredientRow)]))
  {
    var items := [LoadedItem(Some(Flour), None, 200.0, Unit)];
    assert items[..0] == [];
    assert LineOf(items[0], map[]) == Some(Line(4000.0, 4000.0, BreakdownRow("Harina", 200.0, "GRAM", 20.0, 4000.0, IngredientRow)));
    assert BaseTotal(items, map[]) == 4000.0;
    assert WasteTotal(items, map[]) == 4000.0;
    assert Breakdown(items, map[]) == [BreakdownRow("Harina", 200.0, "GRAM", 20.0, 4000.0, IngredientRow)];
  }

  /** The same with 10 % waste: the row and the cost with waste are 4400, `totalCost` stays 4000. */
  lemma WastedIngredientExample()
    ensures var g := Flour.(wastePercentage := Some(10.0));
            var recipe := LoadedRecipe("r", "Pan", None, 4, [LoadedItem(Some(g), None, 200.0, Unit)], None);
            CostOf(recipe, map[]) == Success(CostCalculation(4000.0, 1000.0, 4400.0, 1100.0,
                                                             [BreakdownRow("Harina", 200.0, "GRAM", 20.0, 4400.0, IngredientRow)]))
  {
    var items := [LoadedItem(Some(Flour.(wastePercentage := Some(10.0))), None, 200.0, Unit)];
    assert items[..0] == [];
    assert WasteMultiplier(Some(10.0)) == 1.1;
    assert LineOf(items[0], map[]) == Some(Line(4000.0, 4400.0, BreakdownRow("Harina", 200.0, "GRAM", 20.0, 4400.0, IngredientRow)));
    assert BaseTotal(items, map[]) == 4000.0;
    assert WasteTotal(items, map[]) == 4400.0;
    assert Breakdown(items, map[]) == [BreakdownRow("Harina", 200.0, "GRAM", 20.0, 4400.0, IngredientRow)];
  }

  /** A preparation of labour cost 5000 and yield 10 costs 500 a portion; 2 portions add 1000 to both totals. */
  lemma PreparationExample()
    ensures var p := Preparation("p", "Salsa", 5000.0, 10.0);
            var recipe := LoadedRecipe("r", "Plato", None, 1, [LoadedItem(None, Some(p), 2.0, Unit)], None);
            && PreparationCost(map["p" := p], "p") == 500.0
            && CostOf(recipe, map["p" := p]) == Success(CostCalculation(1000.0, 1000.0, 1000.0, 1000.0,
                                                             [BreakdownRow("Salsa", 2.0, PortionUnit, 500.0, 1000.0, PreparationRow)]))
  {
    var p := Preparation("p", "Salsa", 5000.0, 10.0);
    var items := [LoadedItem(None, Some(p), 2.0, Unit)];
    assert items[..0] == [];
    assert PreparationCost(map["p" := p], "p") == 500.0;
    assert LineOf(items[0], map["p" := p]) == Some(Line(1000.0, 1000.0, BreakdownRow("Salsa", 2.0, PortionUnit, 500.0, 1000.0, PreparationRow)));
    assert BaseTotal(items, map["p" := p]) == 1000.0;
    assert WasteTotal(items, map["p" := p]) == 1000.0;
    assert Breakdown(items, map["p" := p]) == [BreakdownRow("Salsa", 2.0, PortionUnit, 500.0, 1000.0, PreparationRow)];
  }
}
