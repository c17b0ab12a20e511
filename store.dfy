/**
 * The rows the services read and write, the cost-history ledger over them,
 * and the in-memory database that stands in for Prisma: an ingredient
 * table, an append-only cost-history table, a recipe table (items stored
 * inside their recipe) and a preparation table keyed by id. Wall-clock
 * timestamps are a counter the database advances on every write.
 */
module Store {
  import opened Common
  import opened Units
  import Tables

  // ---------------------------------------------------------------------
  // Rows

  datatype Ingredient = Ingredient(
    id: string,
    name: string,
    description: Option<string>,
    unit: UnitType,
    currentCost: real,              // cost of one base unit
    wastePercentage: Option<real>,  // 0..100, null when not set
    categoryId: Option<string>,
    supplierId: Option<string>,
    deletedAt: Option<nat>)         // soft-delete tombstone

  function IngredientId(g: Ingredient): string { g.id }
  function IngredientName(g: Ingredient): string { g.name }

  /** One row of `ingredientCostHistory`. */
  datatype CostEntry = CostEntry(ingredientId: string, cost: real, effectiveAt: nat)

  datatype Preparation = Preparation(id: string, name: string, laborCost: real, yieldCount: real)  // `yield` column

  /** A stored recipe item: the two nullable foreign keys, the amount and its unit. */
  datatype RecipeItem = RecipeItem(
    ingredientId: Option<string>,
    preparationId: Option<string>,
    amount: real,
    unit: UnitType)

  datatype Recipe = Recipe(
    id: string,
    name: string,
    description: Option<string>,
    servings: int,
    items: seq<RecipeItem>,
    deletedAt: Option<nat>)

  function RecipeId(r: Recipe): string { r.id }
  function RecipeName(r: Recipe): string { r.name }

  // ---------------------------------------------------------------------
  // The cost-history ledger

  /** The cost of the most recent entry of ingredient `id`, if it has any. */
  function LastCost(history: seq<CostEntry>, id: string): Option<real> {
    if |history| == 0 then None
    else if history[|history| - 1].ingredientId == id then Some(history[|history| - 1].cost)
    else LastCost(history[..|history| - 1], id)
  }

  /** The entries of ingredient `id`, most recent first. */
  function NewestFirst(history: seq<CostEntry>, id: string): (r: seq<CostEntry>)
    ensures forall k :: 0 <= k < |r| ==> r[k].ingredientId == id && r[k] in history
    ensures forall k :: 0 <= k < |history| && history[k].ingredientId == id ==> history[k] in r
    ensures |r| > 0 <==> LastCost(history, id).Some?
    ensures |r| > 0 ==> r[0].cost == LastCost(history, id).value
  {
    if |history| == 0 then []
    else
      var prefix := history[..|history| - 1];
      var last := history[|history| - 1];
      var rest := NewestFirst(prefix, id);
      assert forall k :: 0 <= k < |history| - 1 ==> history[k] == prefix[k];
      if last.ingredientId == id then [last] + rest else rest
  }

  /** Timestamps strictly increase along the table and stay below the clock. */
  predicate StampsIncreasing(history: seq<CostEntry>, clock: nat) {
    && (forall i, j :: 0 <= i < j < |history| ==> history[i].effectiveAt < history[j].effectiveAt)
    && (forall i :: 0 <= i < |history| ==> history[i].effectiveAt < clock)
  }

  predicate StrictlyNewestFirst(entries: seq<CostEntry>) {
    forall i, j :: 0 <= i < j < |entries| ==> entries[i].effectiveAt > entries[j].effectiveAt
  }

  /**
   * With increasing timestamps, `NewestFirst` is the `orderBy: effectiveAt desc`
   * order of the ingredient's entries: strictly decreasing, with every entry present.
   */
  lemma {:induction false} NewestFirstIsDescending(history: seq<CostEntry>, clock: nat, id: string)
    requires StampsIncreasing(history, clock)
    ensures StrictlyNewestFirst(NewestFirst(history, id))
  {
    if |history| > 0 {
      var prefix := history[..|history| - 1];
      var last := history[|history| - 1];
      assert StampsIncreasing(prefix, clock) by {
        forall i, j | 0 <= i < j < |prefix| ensures prefix[i].effectiveAt < prefix[j].effectiveAt {
          assert prefix[i] == history[i] && prefix[j] == history[j];
        }
        forall i | 0 <= i < |prefix| ensures prefix[i].effectiveAt < clock {
          assert prefix[i] == history[i];
        }
      }
      NewestFirstIsDescending(prefix, clock, id);
      var rest := NewestFirst(prefix, id);
      if last.ingredientId == id {
        assert NewestFirst(history, id) == [last] + rest;
        forall k | 0 <= k < |rest| ensures rest[k].effectiveAt < last.effectiveAt {
          EntryOfPrefixIsOlder(history, clock, rest[k]);
        }
        PrependNewest(last, rest);
      } else {
        assert NewestFirst(history, id) == rest;
      }
    }
  }

  /** Every entry before the last one is older than the last one. */
  lemma EntryOfPrefixIsOlder(history: seq<CostEntry>, clock: nat, e: CostEntry)
    requires StampsIncreasing(history, clock) && |history| > 0 && e in history[..|history| - 1]
    ensures e.effectiveAt < history[|history| - 1].effectiveAt
  {
    var m :| 0 <= m < |history| - 1 && history[..|history| - 1][m] == e;
    assert history[m] == e;
  }

  lemma PrependNewest(e: CostEntry, entries: seq<CostEntry>)
    requires StrictlyNewestFirst(entries)
    requires forall k :: 0 <= k < |entries| ==> entries[k].effectiveAt < e.effectiveAt
    ensures StrictlyNewestFirst([e] + entries)
  {
    var r := [e] + entries;
    forall i, j | 0 <= i < j < |r| ensures r[i].effectiveAt > r[j].effectiveAt {
      assert r[j] == entries[j - 1];
      if i > 0 { assert r[i] == entries[i - 1]; }
    }
  }

  /** An appended entry becomes the newest entry of its ingredient and nobody else's. */
  lemma NewestFirstAfterAppend(history: seq<CostEntry>, e: CostEntry, id: string)
    ensures NewestFirst(history + [e], id) ==
            if e.ingredientId == id then [e] + NewestFirst(history, id) else NewestFirst(history, id)
  {
    assert (history + [e])[..|history|] == history;
  }

  function Take<T>(s: seq<T>, n: nat): (r: seq<T>)
    ensures |r| == Min(n, |s|)
    ensures forall k :: 0 <= k < |r| ==> r[k] == s[k]
  {
    s[..Min(n, |s|)]
  }

  lemma TakeAfterPrepend<T>(x: T, s: seq<T>, n: nat)
    requires n >= 1
    ensures Take([x] + s, n) == [x] + Take(s, n - 1)
  {
    var a, b := Take([x] + s, n), [x] + Take(s, n - 1);
    assert |a| == |b|;
    forall k | 0 <= k < |a| ensures a[k] == b[k] {
      if k > 0 { assert a[k] == s[k - 1]; }
    }
  }

  /** The capped `findMany({ where: { ingredientId }, orderBy: { effectiveAt: 'desc' }, take })`. */
  function RecentEntries(history: seq<CostEntry>, id: string, cap: nat): (r: seq<CostEntry>)
    ensures |r| <= cap
    ensures forall k :: 0 <= k < |r| ==> r[k].ingredientId == id && r[k] in history
    ensures |r| < cap ==> forall k :: 0 <= k < |history| && history[k].ingredientId == id ==> history[k] in r
    ensures cap > 0 && LastCost(history, id).Some? ==> |r| > 0 && r[0].cost == LastCost(history, id).value
  {
    var all := NewestFirst(history, id);
    var r := Take(all, cap);
    assert |r| < cap ==> r == all;
    r
  }

  // ---------------------------------------------------------------------
  // Table invariants

  /** Some row of `ingredients` has id `id`. */
  predicate HasRow(ingredients: seq<Ingredient>, id: string) {
    exists i :: 0 <= i < |ingredients| && ingredients[i].id == id
  }

  /** `findUnique` by id finds a row exactly when some row has that id. */
  lemma IndexOfFindsRow(ingredients: seq<Ingredient>, id: string)
    ensures Tables.IndexOf(ingredients, IngredientId, id).Some? <==> HasRow(ingredients, id)
  {
    var r := Tables.IndexOf(ingredients, IngredientId, id);
    if r.Some? {
      assert ingredients[r.value].id == IngredientId(ingredients[r.value]);
    }
    if HasRow(ingredients, id) {
      var i :| 0 <= i < |ingredients| && ingredients[i].id == id;
      assert IngredientId(ingredients[i]) == id;
    }
  }

  /**
   * Ids are unique; every row's current cost is non-negative and is the
   * cost of its newest history entry; every history entry belongs to a row;
   * timestamps increase.
   */
  predicate LedgerConsistent(ingredients: seq<Ingredient>, history: seq<CostEntry>, clock: nat) {
    && Tables.UniqueKeys(ingredients, IngredientId)
    && (forall i :: 0 <= i < |ingredients| ==>
          ingredients[i].currentCost >= 0.0
          && LastCost(history, ingredients[i].id) == Some(ingredients[i].currentCost))
    && (forall k :: 0 <= k < |history| ==> HasRow(ingredients, history[k].ingredientId))
    && StampsIncreasing(history, clock)
  }

  predicate RecipesWellFormed(recipes: seq<Recipe>) {
    && Tables.UniqueKeys(recipes, RecipeId)
    && forall i :: 0 <= i < |recipes| ==> recipes[i].servings >= 1
  }

  predicate PreparationsWellFormed(preparations: map<string, Preparation>) {
    forall p :: p in preparations ==> preparations[p].id == p && preparations[p].yieldCount > 0.0
  }

  class Database {
    var ingredients: seq<Ingredient>
    var costHistory: seq<CostEntry>
    var recipes: seq<Recipe>
    var preparations: map<string, Preparation>
    var clock: nat

    ghost predicate Valid()
      reads this
    {
      && LedgerConsistent(ingredients, costHistory, clock)
      && RecipesWellFormed(recipes)
      && PreparationsWellFormed(preparations)
    }

    /** An empty database over a given preparation table (no service writes preparations). */
    constructor (preparations: map<string, Preparation>)
      requires PreparationsWellFormed(preparations)
      ensures Valid()
      ensures this.ingredients == [] && this.costHistory == [] && this.recipes == []
      ensures this.preparations == preparations && this.clock == 0
    {
      this.ingredients := [];
      this.costHistory := [];
      this.recipes := [];
      this.preparations := preparations;
      this.clock := 0;
    }
  }
}
