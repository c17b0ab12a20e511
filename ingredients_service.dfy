/**
 * The ingredient service: an ingredient table with soft deletion and an
 * append-only cost-history ledger. Creating an ingredient records its
 * cost; updating records the new cost only when it really changes;
 * removing sets a tombstone and keeps the row and its history.
 */
module IngredientsService {
  import opened Common
  import opened Units
  import opened Tables
  import opened Store

  const FindOneHistoryCap: nat := 10
  const CostHistoryCap: nat := 50
  const DefaultTake: nat := 20

  datatype CreateIngredientDto = CreateIngredientDto(
    name: string,
    description: Option<string>,
    unit: UnitType,
    currentCost: real,
    wastePercentage: Option<real>,
    categoryId: Option<string>,
    supplierId: Option<string>)

  /** Every field optional: a field left out keeps its stored value. */
  datatype UpdateIngredientDto = UpdateIngredientDto(
    name: Option<string>,
    description: Option<string>,
    unit: Option<UnitType>,
    currentCost: Option<real>,
    wastePercentage: Option<real>,
    categoryId: Option<string>,
    supplierId: Option<string>)

  /** `findOne`'s row with its embedded, capped cost history. */
  datatype IngredientDetail = IngredientDetail(ingredient: Ingredient, costHistory: seq<CostEntry>)

  // ---------------------------------------------------------------------
  // Row transitions

  function NewIngredient(id: string, dto: CreateIngredientDto): (g: Ingredient)
    ensures g.id == id && g.deletedAt.None?
    ensures g.name == dto.name && g.description == dto.description && g.unit == dto.unit
    ensures g.currentCost == dto.currentCost && g.wastePercentage == dto.wastePercentage
    ensures g.categoryId == dto.categoryId && g.supplierId == dto.supplierId
  {
    Ingredient(id, dto.name, dto.description, dto.unit, dto.currentCost, dto.wastePercentage,
               dto.categoryId, dto.supplierId, None)
  }

  /** `prisma.ingredient.update({ data: dto })`: supplied fields overwrite, the rest stay. */
  function ApplyUpdate(g: Ingredient, dto: UpdateIngredientDto): (r: Ingredient)
    ensures r.id == g.id && r.deletedAt == g.deletedAt
    ensures dto.name.Some? ==> r.name == dto.name.value
    ensures dto.name.None? ==> r.name == g.name
    ensures dto.description.Some? ==> r.description == dto.description
    ensures dto.description.None? ==> r.description == g.description
    ensures dto.unit.Some? ==> r.unit == dto.unit.value
    ensures dto.unit.None? ==> r.unit == g.unit
    ensures dto.currentCost.Some? ==> r.currentCost == dto.currentCost.value
    ensures dto.currentCost.None? ==> r.currentCost == g.currentCost
    ensures dto.wastePercentage.Some? ==> r.wastePercentage == dto.wastePercentage
    ensures dto.wastePercentage.None? ==> r.wastePercentage == g.wastePercentage
    ensures dto.categoryId.Some? ==> r.categoryId == dto.categoryId
    ensures dto.categoryId.None? ==> r.categoryId == g.categoryId
    ensures dto.supplierId.Some? ==> r.supplierId == dto.supplierId
    ensures dto.supplierId.None? ==> r.supplierId == g.supplierId
  {
    Ingredient(g.id, dto.name.GetOr(g.name),
               if dto.description.Some? then dto.description else g.description,
               dto.unit.GetOr(g.unit), dto.currentCost.GetOr(g.currentCost),
               if dto.wastePercentage.Some? then dto.wastePercentage else g.wastePercentage,
               if dto.categoryId.Some? then dto.categoryId else g.categoryId,
               if dto.supplierId.Some? then dto.supplierId else g.supplierId,
               g.deletedAt)
  }

  /** The history condition: a cost is supplied and differs numerically from the stored one. */
  predicate CostChanged(g: Ingredient, dto: UpdateIngredientDto) {
    dto.currentCost.Some? && dto.currentCost.value != g.currentCost
  }

  function HistoryAfterUpdate(history: seq<CostEntry>, g: Ingredient, dto: UpdateIngredientDto, now: nat): (h: seq<CostEntry>)
    ensures |h| == |history| + (if CostChanged(g, dto) then 1 else 0)
    ensures h[..|history|] == history
    ensures CostChanged(g, dto) ==> h[|history|] == CostEntry(g.id, dto.currentCost.value, now)
  {
    if CostChanged(g, dto) then history + [CostEntry(g.id, dto.currentCost.value, now)] else history
  }

  /** `update({ data: { deletedAt: new Date() } })`: only the tombstone changes. */
  function Tombstone(g: Ingredient, now: nat): (t: Ingredient)
    ensures t.deletedAt == Some(now) && t.(deletedAt := g.deletedAt) == g
  {
    g.(deletedAt := Some(now))
  }

  // ---------------------------------------------------------------------
  // Reads

  /** Whether `id` names a row that is not soft-deleted. */
  predicate IsLive(ingredients: seq<Ingredient>, id: string) {
    var i := IndexOf(ingredients, IngredientId, id);
    i.Some? && ingredients[i.value].deletedAt.None?
  }

  /** `findOne`: NotFound for a missing or soft-deleted row, else the row with its 10 newest entries. */
  function FindOne(ingredients: seq<Ingredient>, history: seq<CostEntry>, id: string): (r: Result<IngredientDetail, ServiceError>)
    ensures r.Failure? <==> !IsLive(ingredients, id)
    ensures r.Failure? ==> r.error == NotFound(id)
    ensures r.Success? ==> r.value.ingredient in ingredients && r.value.ingredient.id == id
                           && r.value.ingredient.deletedAt.None?
    ensures r.Success? ==> |r.value.costHistory| <= FindOneHistoryCap
                           && forall k :: 0 <= k < |r.value.costHistory| ==> r.value.costHistory[k].ingredientId == id
    ensures r.Success? ==> r.value.costHistory == RecentEntries(history, id, FindOneHistoryCap)
  {
    match IndexOf(ingredients, IngredientId, id)
    case None => Failure(NotFound(id))
    case Some(i) =>
      if ingredients[i].deletedAt.Some? then Failure(NotFound(id))
      else Success(IngredientDetail(ingredients[i], RecentEntries(history, id, FindOneHistoryCap)))
  }

  /** `getCostHistory`: validates the row like `findOne`, then its 50 newest entries. */
  function GetCostHistory(ingredients: seq<Ingredient>, history: seq<CostEntry>, id: string): (r: Result<seq<CostEntry>, ServiceError>)
    ensures r.Failure? <==> !IsLive(ingredients, id)
    ensures r.Failure? ==> r.error == NotFound(id)
    ensures r.Success? ==> |r.value| <= CostHistoryCap
    ensures r.Success? ==> forall k :: 0 <= k < |r.value| ==> r.value[k].ingredientId == id && r.value[k] in history
  {
    var _ :- FindOne(ingredients, history, id);
    Success(RecentEntries(history, id, CostHistoryCap))
  }

  predicate Listed(search: Option<string>, g: Ingredient) {
    g.deletedAt.None? && MatchesSearch(search, g.name, g.description)
  }

  /** The `where` clause of `findAll` as a row filter. */
  function Where(search: Option<string>): Ingredient -> bool {
    g => Listed(search, g)
  }

  /** `findAll`: live rows matching the search, by name, one page, with its metadata. */
  function FindAll(ingredients: seq<Ingredient>, skip: Option<nat>, take: Option<nat>, search: Option<string>): (p: Page<Ingredient>)
    ensures forall k :: 0 <= k < |p.data| ==>
              p.data[k] in ingredients && p.data[k].deletedAt.None?
              && MatchesSearch(search, p.data[k].name, p.data[k].description)
    ensures SortedBy(p.data, IngredientName)
    ensures |p.data| <= take.GetOr(DefaultTake)
    ensures p.data == Slice(SortByName(Filter(ingredients, Where(search)), IngredientName), skip.GetOr(0), take.GetOr(DefaultTake))
    ensures p.meta == Meta(|Filter(ingredients, Where(search))|, skip.GetOr(0), take.GetOr(DefaultTake))
  {
    List(ingredients, Where(search), IngredientName, skip.GetOr(0), take.GetOr(DefaultTake))
  }

  // ---------------------------------------------------------------------
  // The ledger invariant is kept by every write

  lemma CreateKeepsLedger(ingredients: seq<Ingredient>, history: seq<CostEntry>, clock: nat, g: Ingredient)
    requires LedgerConsistent(ingredients, history, clock)
    requires IndexOf(ingredients, IngredientId, g.id).None? && g.currentCost >= 0.0
    ensures LedgerConsistent(ingredients + [g], history + [CostEntry(g.id, g.currentCost, clock)], clock + 1)
  {
    var rows, h := ingredients + [g], history + [CostEntry(g.id, g.currentCost, clock)];
    assert h[..|history|] == history;
    forall i | 0 <= i < |rows| ensures LastCost(h, rows[i].id) == Some(rows[i].currentCost) {
      if i < |ingredients| {
        assert rows[i].id != g.id;
      }
    }
    forall k | 0 <= k < |h| ensures HasRow(rows, h[k].ingredientId) {
      if k < |history| {
        var m :| 0 <= m < |ingredients| && ingredients[m].id == history[k].ingredientId;
        assert rows[m] == ingredients[m];
      } else {
        assert rows[|ingredients|] == g;
      }
    }
  }

  lemma UpdateKeepsLedger(ingredients: seq<Ingredient>, history: seq<CostEntry>, clock: nat, i: nat, dto: UpdateIngredientDto)
    requires LedgerConsistent(ingredients, history, clock) && i < |ingredients|
    requires dto.currentCost.Some? ==> dto.currentCost.value >= 0.0
    ensures LedgerConsistent(ingredients[i := ApplyUpdate(ingredients[i], dto)],
                             HistoryAfterUpdate(history, ingredients[i], dto, clock), clock + 1)
  {
    var g := ingredients[i];
    var rows := ingredients[i := ApplyUpdate(g, dto)];
    var h := HistoryAfterUpdate(history, g, dto, clock);
    forall j | 0 <= j < |rows| ensures LastCost(h, rows[j].id) == Some(rows[j].currentCost) {
      if CostChanged(g, dto) {
        assert h[..|history|] == history;
        if j != i { assert rows[j].id != g.id; }
      }
    }
    forall k | 0 <= k < |h| ensures HasRow(rows, h[k].ingredientId) {
      if k < |history| {
        assert h[k] == history[k];
        var m :| 0 <= m < |ingredients| && ingredients[m].id == history[k].ingredientId;
        assert rows[m].id == ingredients[m].id;
      } else {
        assert rows[i].id == g.id;
      }
    }
    assert UniqueKeys(rows, IngredientId) by {
      forall a, b | 0 <= a < b < |rows| ensures rows[a].id != rows[b].id {
        assert ingredients[a].id != ingredients[b].id;
      }
    }
  }

  lemma RemoveKeepsLedger(ingredients: seq<Ingredient>, history: seq<CostEntry>, clock: nat, i: nat)
    requires LedgerConsistent(ingredients, history, clock) && i < |ingredients|
    ensures LedgerConsistent(ingredients[i := Tombstone(ingredients[i], clock)], history, clock + 1)
  {
    var rows := ingredients[i := Tombstone(ingredients[i], clock)];
    forall k | 0 <= k < |history| ensures HasRow(rows, history[k].ingredientId) {
      var m :| 0 <= m < |ingredients| && ingredients[m].id == history[k].ingredientId;
      assert rows[m].id == ingredients[m].id;
    }
    assert UniqueKeys(rows, IngredientId) by {
      forall a, b | 0 <= a < b < |rows| ensures rows[a].id != rows[b].id {
        assert ingredients[a].id != ingredients[b].id;
      }
    }
  }

  // ---------------------------------------------------------------------
  // Properties of the reads

  /** The newest entry `getCostHistory` returns for a live ingredient carries its current cost. */
  lemma HistoryHeadIsCurrentCost(ingredients: seq<Ingredient>, history: seq<CostEntry>, clock: nat, id: string)
    requires LedgerConsistent(ingredients, history, clock) && IsLive(ingredients, id)
    ensures GetCostHistory(ingredients, history, id).Success?
    ensures var h := GetCostHistory(ingredients, history, id).value;
            |h| > 0 && h[0].cost == ingredients[IndexOf(ingredients, IngredientId, id).value].currentCost
  {
    var i := IndexOf(ingredients, IngredientId, id).value;
    assert LastCost(history, ingredients[i].id) == Some(ingredients[i].currentCost);
  }

  /** The history `findOne` embeds is newest first and headed by the row's current cost. */
  lemma FindOneHistoryMatchesLedger(ingredients: seq<Ingredient>, history: seq<CostEntry>, clock: nat, id: string)
    requires LedgerConsistent(ingredients, history, clock) && IsLive(ingredients, id)
    ensures FindOne(ingredients, history, id).Success?
    ensures var h := FindOne(ingredients, history, id).value.costHistory;
            && StrictlyNewestFirst(h)
            && |h| > 0 && h[0].cost == ingredients[IndexOf(ingredients, IngredientId, id).value].currentCost
  {
    var i := IndexOf(ingredients, IngredientId, id).value;
    assert LastCost(history, ingredients[i].id) == Some(ingredients[i].currentCost);
    NewestFirstIsDescending(history, clock, id);
    var all := NewestFirst(history, id);
    var h := RecentEntries(history, id, FindOneHistoryCap);
    forall a, b | 0 <= a < b < |h| ensures h[a].effectiveAt > h[b].effectiveAt {
      assert h[a] == all[a] && h[b] == all[b];
    }
  }

  /** `getCostHistory` is newest first, strictly by `effectiveAt`. */
  lemma CostHistoryIsNewestFirst(ingredients: seq<Ingredient>, history: seq<CostEntry>, clock: nat, id: string)
    requires LedgerConsistent(ingredients, history, clock)
    requires GetCostHistory(ingredients, history, id).Success?
    ensures StrictlyNewestFirst(GetCostHistory(ingredients, history, id).value)
  {
    NewestFirstIsDescending(history, clock, id);
  }

  /** A tombstoned row is no longer found, and so is neither updated, removed nor listed. */
  lemma RemovedIngredientIsNotFound(ingredients: seq<Ingredient>, history: seq<CostEntry>, id: string, now: nat)
    requires IndexOf(ingredients, IngredientId, id).Some?
    ensures var i := IndexOf(ingredients, IngredientId, id).value;
            var rows := ingredients[i := Tombstone(ingredients[i], now)];
            FindOne(rows, history, id) == Failure(NotFound(id))
            && GetCostHistory(rows, history, id) == Failure(NotFound(id))
  {
    var i := IndexOf(ingredients, IngredientId, id).value;
    IndexOfAfterReplace(ingredients, IngredientId, i, Tombstone(ingredients[i], now), id);
  }

  /** After an update that changes the cost, the new cost heads the ingredient's history. */
  lemma ChangedCostHeadsHistory(ingredients: seq<Ingredient>, history: seq<CostEntry>, id: string, dto: UpdateIngredientDto, now: nat)
    requires IsLive(ingredients, id)
    requires CostChanged(ingredients[IndexOf(ingredients, IngredientId, id).value], dto)
    ensures var i := IndexOf(ingredients, IngredientId, id).value;
            var g := ingredients[i];
            var h := GetCostHistory(ingredients[i := ApplyUpdate(g, dto)], HistoryAfterUpdate(history, g, dto, now), id);
            h.Success? && |h.value| > 0 && h.value[0] == CostEntry(id, dto.currentCost.value, now)
            && h.value[1..] == Take(NewestFirst(history, id), CostHistoryCap - 1)
  {
    var i := IndexOf(ingredients, IngredientId, id).value;
    var g := ingredients[i];
    var rows := ingredients[i := ApplyUpdate(g, dto)];
    var e := CostEntry(id, dto.currentCost.value, now);
    var h := HistoryAfterUpdate(history, g, dto, now);
    assert h == history + [e];
    IndexOfAfterReplace(ingredients, IngredientId, i, ApplyUpdate(g, dto), id);
    assert rows[i].deletedAt.None?;
    LiveCostHistory(rows, h, id);
    NewestFirstAfterAppend(history, e, id);
    TakeAfterPrepend(e, NewestFirst(history, id), CostHistoryCap);
  }

  /** For a live row, `getCostHistory` succeeds with its 50 newest entries. */
  lemma LiveCostHistory(ingredients: seq<Ingredient>, history: seq<CostEntry>, id: string)
    requires IsLive(ingredients, id)
    ensures GetCostHistory(ingredients, history, id) == Success(RecentEntries(history, id, CostHistoryCap))
  {
  }

  /** An update that does not change the cost leaves every ingredient's history as it was. */
  lemma UnchangedCostKeepsHistory(ingredients: seq<Ingredient>, history: seq<CostEntry>, id: string, other: string, dto: UpdateIngredientDto, now: nat)
    requires IsLive(ingredients, id)
    requires !CostChanged(ingredients[IndexOf(ingredients, IngredientId, id).value], dto)
    requires IsLive(ingredients, other)
    ensures var i := IndexOf(ingredients, IngredientId, id).value;
            var g := ingredients[i];
            GetCostHistory(ingredients[i := ApplyUpdate(g, dto)], HistoryAfterUpdate(history, g, dto, now), other)
            == GetCostHistory(ingredients, history, other)
  {
    var i := IndexOf(ingredients, IngredientId, id).value;
    IndexOfAfterReplace(ingredients, IngredientId, i, ApplyUpdate(ingredients[i], dto), other);
  }

  // ---------------------------------------------------------------------
  // The service operations (Prisma replaced by the database object)

  method Create(db: Database, newId: string, dto: CreateIngredientDto) returns (g: Ingredient)
    requires db.Valid()
    requires IndexOf(db.ingredients, IngredientId, newId).None?  // a fresh generated id
    requires dto.currentCost >= 0.0                               // @Min(0)
    modifies db
    ensures db.Valid()
    ensures g == NewIngredient(newId, dto)
    ensures db.ingredients == old(db.ingredients) + [g]
    ensures db.costHistory == old(db.costHistory) + [CostEntry(newId, dto.currentCost, old(db.clock))]
    ensures db.clock == old(db.clock) + 1
    ensures db.recipes == old(db.recipes) && db.preparations == old(db.preparations)
  {
    g := NewIngredient(newId, dto);
    CreateKeepsLedger(db.ingredients, db.costHistory, db.clock, g);
    db.ingredients := db.ingredients + [g];
    db.costHistory := db.costHistory + [CostEntry(newId, dto.currentCost, db.clock)];
    db.clock := db.clock + 1;
  }

  method Update(db: Database, id: string, dto: UpdateIngredientDto) returns (r: Result<Ingredient, ServiceError>)
    requires db.Valid()
    requires dto.currentCost.Some? ==> dto.currentCost.value >= 0.0  // @Min(0)
    modifies db
    ensures db.Valid()
    ensures db.recipes == old(db.recipes) && db.preparations == old(db.preparations)
    ensures !IsLive(old(db.ingredients), id) ==>
              r == Failure(NotFound(id))
              && db.ingredients == old(db.ingredients) && db.costHistory == old(db.costHistory)
              && db.clock == old(db.clock)
    ensures IsLive(old(db.ingredients), id) ==>
              var i := IndexOf(old(db.ingredients), IngredientId, id).value;
              var g := old(db.ingredients)[i];
              && r == Success(ApplyUpdate(g, dto))
              && db.ingredients == old(db.ingredients)[i := r.value]
              && db.costHistory == HistoryAfterUpdate(old(db.costHistory), g, dto, old(db.clock))
              && db.clock == old(db.clock) + 1
  {
    if !IsLive(db.ingredients, id) {  // `findOne` throws NotFound exactly then
      return Failure(NotFound(id));
    }
    var i := IndexOf(db.ingredients, IngredientId, id).value;
    var g := db.ingredients[i];
    var updated := ApplyUpdate(g, dto);
    var history := HistoryAfterUpdate(db.costHistory, g, dto, db.clock);  // a new entry only if the cost changed
    UpdateKeepsLedger(db.ingredients, db.costHistory, db.clock, i, dto);
    db.ingredients, db.costHistory, db.clock := db.ingredients[i := updated], history, db.clock + 1;
    r := Success(updated);
  }

  method Remove(db: Database, id: string) returns (r: Result<string, ServiceError>)
    requires db.Valid()
    modifies db
    ensures db.Valid()
    ensures db.costHistory == old(db.costHistory)
    ensures db.recipes == old(db.recipes) && db.preparations == old(db.preparations)
    ensures !IsLive(old(db.ingredients), id) ==>
              r == Failure(NotFound(id)) && db.ingredients == old(db.ingredients) && db.clock == old(db.clock)
    ensures IsLive(old(db.ingredients), id) ==>
              var i := IndexOf(old(db.ingredients), IngredientId, id).value;
              && r == Success("Ingrediente eliminado correctamente")
              && db.ingredients == old(db.ingredients)[i := Tombstone(old(db.ingredients)[i], old(db.clock))]
              && db.clock == old(db.clock) + 1
    ensures FindOne(db.ingredients, db.costHistory, id) == Failure(NotFound(id))
  {
    if !IsLive(db.ingredients, id) {  // `findOne` throws NotFound exactly then
      return Failure(NotFound(id));
    }
    var i := IndexOf(db.ingredients, IngredientId, id).value;
    RemoveKeepsLedger(db.ingredients, db.costHistory, db.clock, i);
    RemovedIngredientIsNotFound(db.ingredients, db.costHistory, id, db.clock);
    db.ingredients, db.clock := db.ingredients[i := Tombstone(db.ingredients[i], db.clock)], db.clock + 1;
    r := Success("Ingrediente eliminado correctamente");
  }
}
