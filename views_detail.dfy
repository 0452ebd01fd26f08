/** The detail pages: one row, looked up by key among the rows the user
    may see. */
module DetailViews {
  import opened Wrappers
  import opened Models
  import opened Tables
  import opened Ownership
  import opened Database
  import opened ListViews

  /** `RecipeDetailView`. */
  function RecipeDetail(db: Db, user: UserId, pk: nat): (r: Result<Recipe, Failure>)
    ensures r.Ok? <==> pk in db.recipes.rows && OwnedQ(db.recipes.rows[pk].owner, user)
    ensures r.Ok? ==> r.value == db.recipes.rows[pk]
    ensures r.Err? ==> r.error == NotFound
  {
    LookupOwned(db.recipes, RecipeOwner, user, pk)
  }

  /** A recipe on the recipe list opens on its detail page. */
  lemma RecipeDetailMatchesList(db: Db, user: UserId, params: QueryDict, contains: Contains, row: Row<Recipe>)
    requires db.recipes.Valid() && row in RecipeList(db, user, params, contains)
    ensures RecipeDetail(db, user, row.pk) == Ok(row.val)
  {
    RecipeListExact(db, user, params, contains, row);
  }

  /** `DishDetailView`, with `session_count`: the number of sessions of the
      dish, every user's included. */
  function DishDetail(db: Db, user: UserId, pk: nat): (r: Result<DishListing, Failure>)
    ensures r.Ok? <==> pk in db.dishes.rows && OwnedQ(db.dishes.rows[pk].owner, user)
    ensures r.Ok? ==> r.value.row == Row(pk, db.dishes.rows[pk]) && r.value.sessionCount == |SessionsOfDish(db.sessions, pk)|
    ensures r.Err? ==> r.error == NotFound
  {
    var d :- LookupOwned(db.dishes, DishOwner, user, pk);
    Ok(DishListing(Row(pk, d), SessionCount(db, pk)))
  }

  /** The dish list and the dish page agree: a dish on the list links to a
      page that opens and shows the same count. */
  lemma DishDetailMatchesList(db: Db, user: UserId, params: QueryDict, contains: Contains, l: DishListing)
    requires db.dishes.Valid() && l in DishList(db, user, params, contains)
    ensures DishDetail(db, user, l.row.pk) == Ok(l)
  {
    DishListExact(db, user, params, contains, l);
  }

  /** `CookSessionDetailView`. */
  function SessionDetail(db: Db, user: UserId, pk: nat): (r: Result<CookSession, Failure>)
    ensures r.Ok? <==> pk in db.sessions.rows && OwnedQ(db.sessions.rows[pk].owner, user)
    ensures r.Ok? ==> r.value == db.sessions.rows[pk]
    ensures r.Err? ==> r.error == NotFound
  {
    LookupOwned(db.sessions, CookSessionOwner, user, pk)
  }

  /** A session on the session list opens on its detail page. */
  lemma SessionDetailMatchesList(db: Db, user: UserId, params: QueryDict, today: Day, contains: Contains,
                                 row: Row<CookSession>)
    requires db.sessions.Valid() && row in SessionList(db, user, params, today, contains)
    ensures SessionDetail(db, user, row.pk) == Ok(row.val)
  {
    SessionListExact(db, user, params, today, contains, row);
  }

  /** `CookResultDetailView`: a result is shown only under `owned_q`. */
  function ResultDetail(db: Db, user: UserId, pk: nat): (r: Result<CookResult, Failure>)
    ensures r.Ok? <==> pk in db.results.rows && OwnedQ(db.results.rows[pk].owner, user)
    ensures r.Ok? ==> r.value == db.results.rows[pk]
    ensures r.Err? ==> r.error == NotFound
  {
    LookupOwned(db.results, CookResultOwner, user, pk)
  }
}
