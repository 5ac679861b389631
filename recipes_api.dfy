/**
 * The recipe endpoints of src/api/recipes.py over an abstract recipe table: rows keyed by
 * recipe id, each with its owner, its JSON document and its `updated_at` column.
 *
 * The caller is the authenticated user. Request bodies are the dumps of their already
 * validated models (`Recipe`, `RecipePatch`). `bleach.clean`, `is_valid_url`, the ISO-8601
 * rendering of the clock and fresh UUIDs are parameters; time is in whole seconds.
 */
module RecipesApi {
  import opened Wrappers
  import opened Json
  import opened Text
  import opened Schemas
  import opened Validation
  import opened Helpers

  datatype StoredRecipe = StoredRecipe(ownerId: string, data: Object, updatedAt: int)

  type Table = map<string, StoredRecipe>

  /** Why a request fails, with its HTTP status from `Status`. */
  datatype Failure =
    | RecipeNotFound                            // 404 "recipe_not_found" "Recipe not found"
    | RecipeIncomplete(issues: seq<string>)     // 422 "validation_error" "Recipe validation failed"
    | SchemaRejected                            // 422 "validation_error" with pydantic's text
    | DuplicateId                               // the insert violates the primary key: 500
    | Raised(message: string)                   // an exception the handler does not catch: 500

  function Status(f: Failure): (code: int)
    ensures code == 404 <==> f.RecipeNotFound?
    ensures code == 422 <==> f.RecipeIncomplete? || f.SchemaRejected?
    ensures code == 500 <==> f.DuplicateId? || f.Raised?
  {
    match f
    case RecipeNotFound => 404
    case RecipeIncomplete(_) => 422
    case SchemaRejected => 422
    case DuplicateId => 500
    case Raised(_) => 500
  }

  const NotFoundError: string := "recipe_not_found"
  const NotFoundMessage: string := "Recipe not found"
  const ValidationError: string := "validation_error"
  const IncompleteMessage: string := "Recipe validation failed"

  // ---------------------------------------------------------------- ownership

  predicate Owns(recipes: Table, recipeId: string, userId: string) {
    recipeId in recipes && recipes[recipeId].ownerId == userId
  }

  /** The query `id == recipe_id AND owner_id == user.id`. */
  function Lookup(recipes: Table, recipeId: string, userId: string): (r: Option<StoredRecipe>)
    ensures r.Some? <==> Owns(recipes, recipeId, userId)
    ensures r.Some? ==> r.value == recipes[recipeId] && r.value.ownerId == userId
  {
    if Owns(recipes, recipeId, userId) then Some(recipes[recipeId]) else None
  }

  function Owned(recipes: Table, userId: string): set<string> {
    set id | id in recipes && recipes[id].ownerId == userId
  }

  /** `count(Recipe.id) WHERE owner_id == user.id`. */
  function OwnedCount(recipes: Table, userId: string): (n: nat)
    ensures n == |Owned(recipes, userId)|
    ensures n <= |recipes|
  {
    assert Owned(recipes, userId) <= recipes.Keys;
    SubsetCardinality(Owned(recipes, userId), recipes.Keys);
    |Owned(recipes, userId)|
  }

  lemma SubsetCardinality<T>(a: set<T>, b: set<T>)
    requires a <= b
    ensures |a| <= |b|
  {
    if a != {} {
      var x :| x in a;
      SubsetCardinality(a - {x}, b - {x});
    }
  }

  /** A new row of the caller's adds one to the caller's count and leaves everyone else's alone. */
  lemma OwnedCountInsert(recipes: Table, recipeId: string, row: StoredRecipe, userId: string)
    requires recipeId !in recipes
    ensures row.ownerId == userId ==> OwnedCount(recipes[recipeId := row], userId) == OwnedCount(recipes, userId) + 1
    ensures row.ownerId != userId ==> OwnedCount(recipes[recipeId := row], userId) == OwnedCount(recipes, userId)
  {
    if row.ownerId == userId {
      assert Owned(recipes[recipeId := row], userId) == Owned(recipes, userId) + {recipeId};
    } else {
      assert Owned(recipes[recipeId := row], userId) == Owned(recipes, userId);
    }
  }

  // ---------------------------------------------------------------- create

  /** An `id` the handler keeps: a non-empty string; anything falsy is replaced. */
  function RecipeIdOf(body: Object, freshId: string): (id: string)
    requires Optional(body, "id", IsStr)
    ensures Truthy(Get(body, "id", Null)) ==> Str(id) == body["id"]
    ensures !Truthy(Get(body, "id", Null)) ==> id == freshId
  {
    if Truthy(Get(body, "id", Null)) then body["id"].s else freshId
  }

  /**
   * The document before sanitising: its id, a title (an auto-title numbered after the caller's
   * recipes when blank) and both timestamps set to now.
   */
  function Prepared(body: Object, freshId: string, ownedCount: nat, nowIso: string): (d: Object)
    requires Optional(body, "id", IsStr) && "title" in body && body["title"].Str?
    ensures d.Keys == body.Keys + {"id", "title", "created_at", "updated_at"}
    ensures "id" in d && "title" in d && "created_at" in d && "updated_at" in d
    ensures d["id"] == Str(RecipeIdOf(body, freshId))
    ensures AllSpace(body["title"].s) ==> d["title"] == Str(GenerateRecipeTitle(ownedCount + 1))
    ensures !AllSpace(body["title"].s) ==> d["title"] == body["title"]
    ensures d["created_at"] == d["updated_at"] == Str(nowIso)
    ensures d - {"id", "title", "created_at", "updated_at"} == body - {"id", "title", "created_at", "updated_at"}
  {
    var id, title := Str(RecipeIdOf(body, freshId)), TitleOf(body["title"].s, ownedCount);
    SetFour(body, "id", "title", "created_at", "updated_at", id, title, Str(nowIso), Str(nowIso));
    body["id" := id]["title" := title]["created_at" := Str(nowIso)]["updated_at" := Str(nowIso)]
  }

  /** Four updates of distinct keys: the keys are added, each holds its value, the rest is kept. */
  lemma SetFour<K, V>(m: map<K, V>, k1: K, k2: K, k3: K, k4: K, v1: V, v2: V, v3: V, v4: V)
    requires k1 != k2 && k1 != k3 && k1 != k4 && k2 != k3 && k2 != k4 && k3 != k4
    ensures var d := m[k1 := v1][k2 := v2][k3 := v3][k4 := v4];
      && d.Keys == m.Keys + {k1, k2, k3, k4}
      && k1 in d && k2 in d && k3 in d && k4 in d
      && d[k1] == v1 && d[k2] == v2 && d[k3] == v3 && d[k4] == v4
      && d - {k1, k2, k3, k4} == m - {k1, k2, k3, k4}
  {
  }

  /** The title kept: the caller's, unless it is blank, when the next auto-title replaces it. */
  function TitleOf(title: string, ownedCount: nat): (r: Value)
    ensures AllSpace(title) ==> r == Str(GenerateRecipeTitle(ownedCount + 1))
    ensures !AllSpace(title) ==> r == Str(title)
  {
    StripEmptyIff(title);
    if Strip(title) == "" then Str(GenerateRecipeTitle(ownedCount + 1)) else Str(title)
  }

  /**
   * The inline `recipe_count + 1` of `create_recipe` is `get_next_recipe_number` of the caller's
   * count: a blank title becomes the title of the caller's next recipe number.
   */
  lemma AutoTitleIsNextNumber(body: Object, freshId: string, recipes: Table, userId: string, nowIso: string)
    requires Optional(body, "id", IsStr) && "title" in body && body["title"].Str?
    requires AllSpace(body["title"].s)
    ensures Prepared(body, freshId, OwnedCount(recipes, userId), nowIso)["title"]
      == Str(GenerateRecipeTitle(GetNextRecipeNumber(userId, OwnedCount(recipes, userId))))
  {
  }

  datatype Outcome<R> = Outcome(recipes: Table, response: Result<R, Failure>)

  /**
   * `create_recipe`: the prepared document is sanitised and must pass the completeness check;
   * only then is it stored, once, under its id and for the caller.
   */
  function CreateOutcome(recipes: Table, userId: string, body: Object, freshId: string, now: int, iso: int -> string,
                         clean: string -> string, isValidUrl: string -> bool): (o: Outcome<Object>)
    requires RecipeValid(body)
    ensures o.response.Err? ==> o.recipes == recipes
    ensures o.response.Ok? ==>
      var id := RecipeIdOf(body, freshId);
      && id !in recipes
      && o.recipes == recipes[id := StoredRecipe(userId, o.response.value, now)]
      && Complete(o.response.value)
      && Ok(o.response.value) == SanitizedRecipe(Prepared(body, freshId, OwnedCount(recipes, userId), iso(now)), clean, isValidUrl)
    ensures o.response.Err? && o.response.error.RecipeIncomplete? ==> o.response.error.issues != []
  {
    var id := RecipeIdOf(body, freshId);
    var document := SanitizedRecipe(Prepared(body, freshId, OwnedCount(recipes, userId), iso(now)), clean, isValidUrl);
    if document.Err? then Outcome(recipes, Err(Raised(document.error)))
    else
      var issues := CompletenessIssues(document.value);
      CompletenessIssuesEmpty(document.value);
      if issues.Err? then Outcome(recipes, Err(Raised(issues.error)))
      else if issues.value != [] then Outcome(recipes, Err(RecipeIncomplete(issues.value)))
      else if id in recipes then Outcome(recipes, Err(DuplicateId))
      else Outcome(recipes[id := StoredRecipe(userId, document.value, now)], Ok(document.value))
  }

  /** A create is accepted exactly when the sanitised document is complete and its id is new. */
  lemma CreateAccepted(recipes: Table, userId: string, body: Object, freshId: string, now: int, iso: int -> string,
                       clean: string -> string, isValidUrl: string -> bool)
    requires RecipeValid(body)
    ensures var document := SanitizedRecipe(Prepared(body, freshId, OwnedCount(recipes, userId), iso(now)), clean, isValidUrl);
      CreateOutcome(recipes, userId, body, freshId, now, iso, clean, isValidUrl).response.Ok? <==>
        document.Ok? && Complete(document.value) && RecipeIdOf(body, freshId) !in recipes
  {
    var document := SanitizedRecipe(Prepared(body, freshId, OwnedCount(recipes, userId), iso(now)), clean, isValidUrl);
    var o := CreateOutcome(recipes, userId, body, freshId, now, iso, clean, isValidUrl);
    if document.Ok? {
      CompletenessIssuesEmpty(document.value);
      var issues := CompletenessIssues(document.value);
      if issues == Ok([]) && RecipeIdOf(body, freshId) !in recipes {
        assert o.response == Ok(document.value);
      } else {
        assert o.response.Err?;
      }
    } else {
      assert o.response.Err?;
    }
  }

  /**
   * Two blank-titled recipes created in a row by one user are numbered one after the other:
   * the second create sees the first in the caller's count.
   */
  lemma AutoTitlesNumberedInTurn(recipes: Table, userId: string, body1: Object, body2: Object, freshId1: string,
                                 freshId2: string, now1: int, now2: int, iso: int -> string,
                                 clean: string -> string, isValidUrl: string -> bool)
    requires RecipeValid(body1) && RecipeValid(body2)
    requires CreateOutcome(recipes, userId, body1, freshId1, now1, iso, clean, isValidUrl).response.Ok?
    ensures var after := CreateOutcome(recipes, userId, body1, freshId1, now1, iso, clean, isValidUrl).recipes;
      && OwnedCount(after, userId) == OwnedCount(recipes, userId) + 1
      && (AllSpace(body1["title"].s) ==>
            Prepared(body1, freshId1, OwnedCount(recipes, userId), iso(now1))["title"]
              == Str(GenerateRecipeTitle(OwnedCount(recipes, userId) + 1)))
      && (AllSpace(body2["title"].s) ==>
            Prepared(body2, freshId2, OwnedCount(after, userId), iso(now2))["title"]
              == Str(GenerateRecipeTitle(OwnedCount(recipes, userId) + 2)))
  {
    var o := CreateOutcome(recipes, userId, body1, freshId1, now1, iso, clean, isValidUrl);
    OwnedCountInsert(recipes, RecipeIdOf(body1, freshId1), StoredRecipe(userId, o.response.value, now1), userId);
  }

  // ---------------------------------------------------------------- read, patch, delete

  /** `get_recipe`: the caller's own recipe, else 404. */
  function GetOutcome(recipes: Table, recipeId: string, userId: string): (r: Result<Object, Failure>)
    ensures r.Ok? <==> Owns(recipes, recipeId, userId)
    ensures r.Ok? ==> r.value == recipes[recipeId].data
    ensures r.Err? ==> r.error == RecipeNotFound
  {
    var row := Lookup(recipes, recipeId, userId);
    if row.None? then Err(RecipeNotFound) else Ok(row.value.data)
  }

  /** The patch loop: every set field with a non-null value overwrites the stored one. */
  function Merge(current: Object, patch: Object): (r: Object)
    ensures r.Keys == current.Keys + (set k | k in patch && !patch[k].Null?)
    ensures forall k :: k in patch && !patch[k].Null? ==> r[k] == patch[k]
    ensures forall k :: k in current && (k !in patch || patch[k].Null?) ==> r[k] == current[k]
  {
    map k | k in current.Keys + (set k | k in patch && !patch[k].Null?) ::
      if k in patch && !patch[k].Null? then patch[k] else current[k]
  }

  /**
   * `update_recipe`: the caller's recipe with the patch merged and `updated_at` restamped,
   * stored only if the result is still a valid recipe.
   */
  function PatchOutcome(recipes: Table, recipeId: string, userId: string, patch: Object, now: int, iso: int -> string): (o: Outcome<Object>)
    requires PatchValid(patch)
    ensures !Owns(recipes, recipeId, userId) ==> o == Outcome(recipes, Err(RecipeNotFound))
    ensures o.response.Err? ==> o.recipes == recipes
    ensures o.response.Ok? ==>
      var merged := Merge(recipes[recipeId].data, patch)["updated_at" := Str(iso(now))];
      && Owns(recipes, recipeId, userId)
      && RecipeValid(merged) && o.response.value == merged
      && o.recipes == recipes[recipeId := StoredRecipe(userId, merged, now)]
    ensures Owns(recipes, recipeId, userId) ==>
      (o.response.Ok? <==> RecipeValid(Merge(recipes[recipeId].data, patch)["updated_at" := Str(iso(now))]))
  {
    var row := Lookup(recipes, recipeId, userId);
    if row.None? then Outcome(recipes, Err(RecipeNotFound))
    else
      var merged := Merge(row.value.data, patch)["updated_at" := Str(iso(now))];
      if !RecipeValid(merged) then Outcome(recipes, Err(SchemaRejected))
      else Outcome(recipes[recipeId := row.value.(data := merged, updatedAt := now)], Ok(merged))
  }

  /** A patch that sets nothing but is accepted changes only the stored `updated_at`. */
  lemma EmptyPatchRestampsOnly(recipes: Table, recipeId: string, userId: string, now: int, iso: int -> string, k: string)
    requires PatchOutcome(recipes, recipeId, userId, map[], now, iso).response.Ok?
    requires k in recipes[recipeId].data && k != "updated_at"
    ensures PatchOutcome(recipes, recipeId, userId, map[], now, iso).response.value[k] == recipes[recipeId].data[k]
  {
  }

  /** `delete_recipe`: the caller's recipe is removed, else 404 and nothing changes. */
  function DeleteOutcome(recipes: Table, recipeId: string, userId: string): (o: Outcome<()>)
    ensures o.response.Ok? <==> Owns(recipes, recipeId, userId)
    ensures o.response.Ok? ==> o.recipes == recipes - {recipeId}
    ensures o.response.Err? ==> o == Outcome(recipes, Err(RecipeNotFound))
  {
    if Lookup(recipes, recipeId, userId).None? then Outcome(recipes, Err(RecipeNotFound))
    else Outcome(recipes - {recipeId}, Ok(()))
  }

  /** After a delete, the recipe is gone for everyone. */
  lemma DeleteThenGet(recipes: Table, recipeId: string, userId: string, anyone: string)
    requires DeleteOutcome(recipes, recipeId, userId).response.Ok?
    ensures GetOutcome(DeleteOutcome(recipes, recipeId, userId).recipes, recipeId, anyone) == Err(RecipeNotFound)
  {
  }

  /** Someone else's recipe is invisible: get, patch and delete all answer 404 and change nothing. */
  lemma OthersRecipesInvisible(recipes: Table, recipeId: string, userId: string, patch: Object, now: int, iso: int -> string)
    requires recipeId in recipes && recipes[recipeId].ownerId != userId
    requires PatchValid(patch)
    ensures GetOutcome(recipes, recipeId, userId) == Err(RecipeNotFound)
    ensures PatchOutcome(recipes, recipeId, userId, patch, now, iso) == Outcome(recipes, Err(RecipeNotFound))
    ensures DeleteOutcome(recipes, recipeId, userId) == Outcome(recipes, Err(RecipeNotFound))
  {
  }

  // ---------------------------------------------------------------- list

  /** `RecipeSummary`: the document's id, title and yield, with their defaults, and the row's time. */
  datatype Summary = Summary(id: Value, title: Value, servings: Value, updatedAt: int)

  function Summarise(recipeId: string, row: StoredRecipe): (s: Summary)
    ensures s.title == (if "title" in row.data then row.data["title"] else Str("Untitled"))
    ensures s.servings == (if "yield" in row.data then row.data["yield"] else Str("1 serving"))
    ensures s.id == (if "id" in row.data then row.data["id"] else Str(recipeId))
    ensures s.updatedAt == row.updatedAt
  {
    Summary(Get(row.data, "id", Str(recipeId)), Get(row.data, "title", Str("Untitled")),
            Get(row.data, "yield", Str("1 serving")), row.updatedAt)
  }

  /**
   * What the query `WHERE owner_id == user.id ORDER BY updated_at DESC` returns: each of the
   * caller's recipe ids once, newest first.
   */
  ghost predicate Listing(recipes: Table, userId: string, ids: seq<string>) {
    && (forall k :: 0 <= k < |ids| ==> Owns(recipes, ids[k], userId))
    && (forall id :: Owns(recipes, id, userId) ==> id in ids)
    && (forall j, k :: 0 <= j < k < |ids| ==> ids[j] != ids[k])
    && (forall j, k :: 0 <= j < k < |ids| ==> recipes[ids[j]].updatedAt >= recipes[ids[k]].updatedAt)
  }

  // ---------------------------------------------------------------- the table itself

  /** The recipe table, which the endpoints change in place. */
  class RecipeStore {
    var recipes: Table

    constructor()
      ensures recipes == map[]
    {
      recipes := map[];
    }

    method CreateRecipe(userId: string, body: Object, freshId: string, now: int, iso: int -> string,
                        clean: string -> string, isValidUrl: string -> bool) returns (r: Result<Object, Failure>)
      requires RecipeValid(body)
      modifies this
      ensures var o := CreateOutcome(old(recipes), userId, body, freshId, now, iso, clean, isValidUrl);
        recipes == o.recipes && r == o.response
    {
      var id := RecipeIdOf(body, freshId);
      var count := OwnedCount(recipes, userId);
      var document := SanitizedRecipe(Prepared(body, freshId, count, iso(now)), clean, isValidUrl);
      if document.Err? {
        return Err(Raised(document.error));
      }
      var issues := ValidateRecipeCompleteness(document.value);
      if issues.Err? {
        return Err(Raised(issues.error));
      }
      if issues.value != [] {
        return Err(RecipeIncomplete(issues.value));
      }
      if id in recipes {
        return Err(DuplicateId);
      }
      recipes := recipes[id := StoredRecipe(userId, document.value, now)];
      r := Ok(document.value);
    }

    /** `list_recipes`: the loop over the query's rows, one summary per row, in the query's order. */
    method ListRecipes(userId: string, rows: seq<string>) returns (summaries: seq<Summary>)
      requires Listing(recipes, userId, rows)
      ensures |summaries| == |rows| == OwnedCount(recipes, userId)
      ensures forall k :: 0 <= k < |rows| ==> summaries[k] == Summarise(rows[k], recipes[rows[k]])
      ensures forall j, k :: 0 <= j < k < |summaries| ==> summaries[j].updatedAt >= summaries[k].updatedAt
    {
      ListingCount(recipes, userId, rows);
      summaries := [];
      var i := 0;
      while i < |rows|
        invariant 0 <= i <= |rows|
        invariant |summaries| == i
        invariant forall k :: 0 <= k < i ==> summaries[k] == Summarise(rows[k], recipes[rows[k]])
      {
        summaries := summaries + [Summarise(rows[i], recipes[rows[i]])];
        i := i + 1;
      }
    }

    method GetRecipe(recipeId: string, userId: string) returns (r: Result<Object, Failure>)
      ensures r == GetOutcome(recipes, recipeId, userId)
    {
      var row := Lookup(recipes, recipeId, userId);
      if row.None? {
        return Err(RecipeNotFound);
      }
      r := Ok(row.value.data);
    }

    method UpdateRecipe(recipeId: string, userId: string, patch: Object, now: int, iso: int -> string)
      returns (r: Result<Object, Failure>)
      requires PatchValid(patch)
      modifies this
      ensures var o := PatchOutcome(old(recipes), recipeId, userId, patch, now, iso);
        recipes == o.recipes && r == o.response
    {
      var row := Lookup(recipes, recipeId, userId);
      if row.None? {
        return Err(RecipeNotFound);
      }
      var current := row.value.data;
      var keys := set k | k in patch && !patch[k].Null?;
      while keys != {}
        invariant keys <= set k | k in patch && !patch[k].Null?
        invariant current.Keys == row.value.data.Keys + ((set k | k in patch && !patch[k].Null?) - keys)
        invariant forall k :: k in current ==>
          current[k] == (if k in patch && !patch[k].Null? && k !in keys then patch[k] else row.value.data[k])
        decreases keys
      {
        var field :| field in keys;
        current := current[field := patch[field]];
        keys := keys - {field};
      }
      assert current == Merge(row.value.data, patch);
      current := current["updated_at" := Str(iso(now))];
      if !RecipeValid(current) {
        return Err(SchemaRejected);
      }
      recipes := recipes[recipeId := row.value.(data := current, updatedAt := now)];
      r := Ok(current);
    }

    method DeleteRecipe(recipeId: string, userId: string) returns (r: Result<(), Failure>)
      modifies this
      ensures var o := DeleteOutcome(old(recipes), recipeId, userId);
        recipes == o.recipes && r == o.response
    {
      if Lookup(recipes, recipeId, userId).None? {
        return Err(RecipeNotFound);
      }
      recipes := recipes - {recipeId};
      r := Ok(());
    }
  }

  /** A listing holds exactly the caller's recipes, so its length is the caller's count. */
  lemma ListingCount(recipes: Table, userId: string, ids: seq<string>)
    requires Listing(recipes, userId, ids)
    ensures |ids| == OwnedCount(recipes, userId)
  {
    assert (set k | 0 <= k < |ids| :: ids[k]) == Owned(recipes, userId) by {
      forall id | id in Owned(recipes, userId) ensures id in (set k | 0 <= k < |ids| :: ids[k]) {
        assert Owns(recipes, id, userId);
        assert id in ids;
      }
    }
    DistinctCardinality(ids);
  }

  lemma {:induction false} DistinctCardinality(ids: seq<string>)
    requires forall j, k :: 0 <= j < k < |ids| ==> ids[j] != ids[k]
    ensures |set k | 0 <= k < |ids| :: ids[k]| == |ids|
  {
    if ids != [] {
      var tail := ids[..|ids| - 1];
      DistinctCardinality(tail);
      assert (set k | 0 <= k < |ids| :: ids[k]) == (set k | 0 <= k < |tail| :: tail[k]) + {ids[|ids| - 1]};
    }
  }
}
