/** The list views: `RecipeListView`, `DishListView` and
    `CookSessionListView`, with their query-string filters, and the four
    date windows the session list and the dashboard share. Pagination is
    not modelled: a list is the whole queryset. */
module ListViews {
  import opened Wrappers
  import opened Models
  import opened Text
  import opened Tables
  import opened Ordering
  import opened Ownership
  import opened Database

  /** `request.GET`: each parameter's (last) value. */
  type QueryDict = map<string, string>

  /** `request.GET.get(key)` */
  function Get(params: QueryDict, key: string): (r: Option<string>)
    ensures r.Some? <==> key in params
    ensures r.Some? ==> r.value == params[key]
  {
    if key in params then Some(params[key]) else None
  }

  /** `request.GET.get(key, "")`; a parameter given as "" reads like a
      missing one wherever the views test it for truth. */
  function GetOrBlank(params: QueryDict, key: string): (r: string)
    ensures key in params ==> r == params[key]
    ensures key !in params ==> r == ""
  {
    if key in params then params[key] else ""
  }

  /** The search text: `request.GET.get("q", "").strip()`. */
  function SearchText(params: QueryDict): (q: string)
    ensures q == Strip(GetOrBlank(params, "q"))
  {
    Strip(GetOrBlank(params, "q"))
  }

  /** `icontains`: whether the database finds the needle in the haystack,
      ignoring case. Its Unicode rules belong to the database, so the model
      takes it as a parameter. */
  type Contains = (string, string) -> bool

  // ---------------------------------------------------------------------
  // Date windows
  // ---------------------------------------------------------------------

  datatype Window = Today | Week | Month | Past30

  /** The query-string value that selects each window. */
  function WhenValue(w: Window): string {
    match w
    case Today => "today"
    case Week => "week"
    case Month => "month"
    case Past30 => "past30"
  }

  /** The date condition each window puts on `cooked_on`. */
  predicate InWindow(w: Window, d: Day, today: Day) {
    match w
    case Today => d == today
    case Week => today < d <= today + 7
    case Month => today < d <= today + 30
    case Past30 => today - 30 <= d <= today
  }

  /** `when = request.GET.get("when")` and the `if`/`elif` chain on it. */
  function ParseWhen(when: Option<string>): (r: Option<Window>)
    ensures r.Some? ==> when == Some(WhenValue(r.value))
    ensures r.None? ==> forall w: Window :: when != Some(WhenValue(w))
  {
    if when == Some("today") then Some(Today)
    else if when == Some("week") then Some(Week)
    else if when == Some("month") then Some(Month)
    else if when == Some("past30") then Some(Past30)
    else None
  }

  /** Every window is selected by its own value. */
  lemma ParseWhenRoundTrip(w: Window)
    ensures ParseWhen(Some(WhenValue(w))) == Some(w)
  {
  }

  /** The windows nest and exclude each other as the dashboard relies on:
      the next week lies inside the next month, today inside the past 30
      days, and the past never overlaps the future. */
  lemma WindowsNest(d: Day, today: Day)
    ensures InWindow(Week, d, today) ==> InWindow(Month, d, today)
    ensures InWindow(Today, d, today) ==> InWindow(Past30, d, today)
    ensures !(InWindow(Past30, d, today) && InWindow(Month, d, today))
  {
  }

  /** The window filter, as the function value the queries pass to `Filter`. */
  function WindowFilter(w: Window, today: Day): Row<CookSession> -> bool {
    (row: Row<CookSession>) => InWindow(w, row.val.cookedOn, today)
  }

  // ---------------------------------------------------------------------
  // RecipeListView
  // ---------------------------------------------------------------------

  predicate RecipeSearchHit(r: Recipe, q: string, contains: Contains) {
    contains(r.title, q) || contains(r.author, q) || contains(r.description, q)
  }

  /** The conditions `RecipeListView.get_queryset` puts on a visible recipe. */
  predicate RecipeListed(r: Recipe, params: QueryDict, contains: Contains) {
    (SearchText(params) == [] || RecipeSearchHit(r, SearchText(params), contains))
    && (Get(params, "favorite") == Some("1") ==> r.isFavorite)
    && (Get(params, "active") == Some("0") ==> !r.isActive)
  }

  function RecipeSearchFilter(q: string, contains: Contains): Row<Recipe> -> bool {
    (row: Row<Recipe>) => RecipeSearchHit(row.val, q, contains)
  }

  /** `RecipeListView.get_queryset()`, newest update first. Which rows it
      holds is `RecipeListExact`. */
  function RecipeList(db: Db, user: UserId, params: QueryDict, contains: Contains): (r: seq<Row<Recipe>>)
    ensures SortedBy(r, RecipeOrder)
  {
    var qs := VisibleTableRows(db.recipes, RecipeOwner, user);
    var q := SearchText(params);
    var qs1 := if q != [] then Filter(qs, RecipeSearchFilter(q, contains)) else qs;
    var qs2 := if Get(params, "favorite") == Some("1") then Filter(qs1, (row: Row<Recipe>) => row.val.isFavorite) else qs1;
    var qs3 := if Get(params, "active") == Some("0") then Filter(qs2, (row: Row<Recipe>) => !row.val.isActive) else qs2;
    SortBy(qs3, RecipeOrder)
  }

  /** The recipe list holds a row exactly when it is a recipe visible to
      the user that passes the search, `favorite=1` and `active=0` filters. */
  lemma RecipeListExact(db: Db, user: UserId, params: QueryDict, contains: Contains, row: Row<Recipe>)
    requires db.recipes.Valid()
    ensures row in RecipeList(db, user, params, contains) <==>
              row.pk in db.recipes.rows && db.recipes.rows[row.pk] == row.val
              && OwnedQ(row.val.owner, user) && RecipeListed(row.val, params, contains)
  {
    var qs := VisibleTableRows(db.recipes, RecipeOwner, user);
    InVisibleTableRows(db.recipes, RecipeOwner, user, row);
    var q := SearchText(params);
    var qs1 := if q != [] then Filter(qs, RecipeSearchFilter(q, contains)) else qs;
    if q != [] { InFilter(qs, RecipeSearchFilter(q, contains), row); }
    var qs2 := if Get(params, "favorite") == Some("1") then Filter(qs1, (row: Row<Recipe>) => row.val.isFavorite) else qs1;
    if Get(params, "favorite") == Some("1") { InFilter(qs1, (row: Row<Recipe>) => row.val.isFavorite, row); }
    var qs3 := if Get(params, "active") == Some("0") then Filter(qs2, (row: Row<Recipe>) => !row.val.isActive) else qs2;
    if Get(params, "active") == Some("0") { InFilter(qs2, (row: Row<Recipe>) => !row.val.isActive, row); }
    InSortBy(qs3, RecipeOrder, row);
  }

  // ---------------------------------------------------------------------
  // DishListView
  // ---------------------------------------------------------------------

  /** A dish with its `session_count` annotation. */
  datatype DishListing = DishListing(row: Row<Dish>, sessionCount: nat)

  /** `Count("cook_sessions")`: the sessions of the dish, whoever owns them. */
  function SessionCount(db: Db, dish: nat): nat {
    |SessionsOfDish(db.sessions, dish)|
  }

  /** The count is positive exactly when some session, of any user, uses
      the dish: exactly when `on_delete=PROTECT` refuses to delete it. */
  lemma SessionCountMeansProtected(db: Db, dish: nat)
    requires db.sessions.Valid()
    ensures SessionCount(db, dish) > 0 <==>
              exists s :: s in db.sessions.rows && db.sessions.rows[s].dish == dish
  {
    var r := SessionsOfDish(db.sessions, dish);
    if SessionCount(db, dish) > 0 {
      assert r[0].pk in db.sessions.rows && db.sessions.rows[r[0].pk].dish == dish;
    }
  }

  /** `.annotate(session_count=Count("cook_sessions"))` */
  function Annotate(db: Db, rows: seq<Row<Dish>>): (r: seq<DishListing>)
    ensures |r| == |rows|
    ensures forall i :: 0 <= i < |r| ==> r[i] == DishListing(rows[i], SessionCount(db, rows[i].pk))
  {
    seq(|rows|, i requires 0 <= i < |rows| => DishListing(rows[i], SessionCount(db, rows[i].pk)))
  }

  /** An annotated row is one of the rows, with its own count. */
  lemma InAnnotate(db: Db, rows: seq<Row<Dish>>, l: DishListing)
    ensures l in Annotate(db, rows) <==> l.row in rows && l.sessionCount == SessionCount(db, l.row.pk)
  {
    var r := Annotate(db, rows);
    if l.row in rows && l.sessionCount == SessionCount(db, l.row.pk) {
      var i :| 0 <= i < |rows| && rows[i] == l.row;
      assert r[i] == l;
    }
  }

  /** The search on a dish also matches its default recipe's title (that
      recipe need not be visible to the user: the join does not filter it). */
  predicate DishSearchHit(db: Db, d: Dish, q: string, contains: Contains) {
    contains(d.name, q) || contains(d.description, q)
    || (d.defaultRecipe.Some? && d.defaultRecipe.value in db.recipes.rows
        && contains(db.recipes.rows[d.defaultRecipe.value].title, q))
  }

  predicate DishListed(db: Db, d: Dish, params: QueryDict, contains: Contains) {
    (SearchText(params) == [] || DishSearchHit(db, d, SearchText(params), contains))
    && (Get(params, "active") == Some("0") ==> !d.isActive)
  }

  function DishListingOrder(l: DishListing): seq<int> {
    Codes(l.row.val.name)
  }

  function DishSearchFilter(db: Db, q: string, contains: Contains): DishListing -> bool {
    (l: DishListing) => DishSearchHit(db, l.row.val, q, contains)
  }

  /** The visible dishes with their session counts, in key order. */
  function VisibleDishListings(db: Db, user: UserId): seq<DishListing> {
    Annotate(db, VisibleTableRows(db.dishes, DishOwner, user))
  }

  lemma InVisibleDishListings(db: Db, user: UserId, l: DishListing)
    requires db.dishes.Valid()
    ensures l in VisibleDishListings(db, user) <==>
              l.row.pk in db.dishes.rows && db.dishes.rows[l.row.pk] == l.row.val
              && OwnedQ(l.row.val.owner, user) && l.sessionCount == SessionCount(db, l.row.pk)
  {
    InAnnotate(db, VisibleTableRows(db.dishes, DishOwner, user), l);
    InVisibleTableRows(db.dishes, DishOwner, user, l.row);
  }

  /** `DishListView.get_queryset()`, by name. Which rows it holds is
      `DishListExact`. */
  function DishList(db: Db, user: UserId, params: QueryDict, contains: Contains): (r: seq<DishListing>)
    ensures SortedBy(r, DishListingOrder)
  {
    var qs := VisibleDishListings(db, user);
    var q := SearchText(params);
    var qs1 := if q != [] then Filter(qs, DishSearchFilter(db, q, contains)) else qs;
    var qs2 := if Get(params, "active") == Some("0") then Filter(qs1, (l: DishListing) => !l.row.val.isActive) else qs1;
    SortBy(qs2, DishListingOrder)
  }

  /** The dish list holds a listing exactly when it is a dish visible to the
      user that passes the search and `active=0` filters, annotated with the
      number of its sessions. */
  lemma DishListExact(db: Db, user: UserId, params: QueryDict, contains: Contains, l: DishListing)
    requires db.dishes.Valid()
    ensures l in DishList(db, user, params, contains) <==>
              l.row.pk in db.dishes.rows && db.dishes.rows[l.row.pk] == l.row.val
              && OwnedQ(l.row.val.owner, user) && DishListed(db, l.row.val, params, contains)
              && l.sessionCount == SessionCount(db, l.row.pk)
  {
    var qs := VisibleDishListings(db, user);
    InVisibleDishListings(db, user, l);
    var q := SearchText(params);
    var qs1 := if q != [] then Filter(qs, DishSearchFilter(db, q, contains)) else qs;
    if q != [] { InFilter(qs, DishSearchFilter(db, q, contains), l); }
    var qs2 := if Get(params, "active") == Some("0") then Filter(qs1, (l: DishListing) => !l.row.val.isActive) else qs1;
    if Get(params, "active") == Some("0") { InFilter(qs1, (l: DishListing) => !l.row.val.isActive, l); }
    InSortBy(qs2, DishListingOrder, l);
  }

  // ---------------------------------------------------------------------
  // CookSessionListView
  // ---------------------------------------------------------------------

  /** The search on a session matches its dish's name, its recipe's title
      (none when `recipe_used` is null) and its summary. */
  predicate SessionSearchHit(db: Db, s: CookSession, q: string, contains: Contains) {
    (s.dish in db.dishes.rows && contains(db.dishes.rows[s.dish].name, q))
    || (s.recipeUsed.Some? && s.recipeUsed.value in db.recipes.rows
        && contains(db.recipes.rows[s.recipeUsed.value].title, q))
    || contains(s.summary, q)
  }

  /** The conditions `CookSessionListView.get_queryset` puts on a visible
      session: search, the `when` window (none for any other value), and
      exact `meal_type` and `method` values when those are given. */
  predicate SessionListed(db: Db, s: CookSession, params: QueryDict, today: Day, contains: Contains) {
    (SearchText(params) == [] || SessionSearchHit(db, s, SearchText(params), contains))
    && (ParseWhen(Get(params, "when")).Some? ==> InWindow(ParseWhen(Get(params, "when")).value, s.cookedOn, today))
    && (GetOrBlank(params, "meal_type") != "" ==> MealTypeValue(s.mealType) == GetOrBlank(params, "meal_type"))
    && (GetOrBlank(params, "method") != "" ==> CookMethodValue(s.cookMethod) == GetOrBlank(params, "method"))
  }

  function SessionSearchFilter(db: Db, q: string, contains: Contains): Row<CookSession> -> bool {
    (row: Row<CookSession>) => SessionSearchHit(db, row.val, q, contains)
  }

  function MealFilter(meal: string): Row<CookSession> -> bool {
    (row: Row<CookSession>) => MealTypeValue(row.val.mealType) == meal
  }

  function MethodFilter(cookMethod: string): Row<CookSession> -> bool {
    (row: Row<CookSession>) => CookMethodValue(row.val.cookMethod) == cookMethod
  }

  /** The sessions the view's filters keep, before sorting. */
  function SessionQuery(db: Db, user: UserId, params: QueryDict, today: Day, contains: Contains): seq<Row<CookSession>> {
    var qs := VisibleTableRows(db.sessions, CookSessionOwner, user);
    var q := SearchText(params);
    var qs1 := if q != [] then Filter(qs, SessionSearchFilter(db, q, contains)) else qs;
    var when := ParseWhen(Get(params, "when"));
    var qs2 := if when.Some? then Filter(qs1, WindowFilter(when.value, today)) else qs1;
    var meal := GetOrBlank(params, "meal_type");
    var qs3 := if meal != "" then Filter(qs2, MealFilter(meal)) else qs2;
    var cookMethod := GetOrBlank(params, "method");
    if cookMethod != "" then Filter(qs3, MethodFilter(cookMethod)) else qs3
  }

  /** `CookSessionListView.get_queryset()`, latest `cooked_on` first. Which
      rows it holds is `SessionListExact`. */
  function SessionList(db: Db, user: UserId, params: QueryDict, today: Day, contains: Contains): (r: seq<Row<CookSession>>)
    ensures SortedBy(r, CookSessionOrder)
    ensures |r| == |SessionQuery(db, user, params, today, contains)|
  {
    SortBy(SessionQuery(db, user, params, today, contains), CookSessionOrder)
  }

  /** The session list holds a row exactly when it is a session visible to
      the user that passes every filter. */
  lemma SessionListExact(db: Db, user: UserId, params: QueryDict, today: Day, contains: Contains, row: Row<CookSession>)
    requires db.sessions.Valid()
    ensures row in SessionList(db, user, params, today, contains) <==>
              row.pk in db.sessions.rows && db.sessions.rows[row.pk] == row.val
              && OwnedQ(row.val.owner, user) && SessionListed(db, row.val, params, today, contains)
  {
    var qs := VisibleTableRows(db.sessions, CookSessionOwner, user);
    InVisibleTableRows(db.sessions, CookSessionOwner, user, row);
    var q := SearchText(params);
    var qs1 := if q != [] then Filter(qs, SessionSearchFilter(db, q, contains)) else qs;
    if q != [] { InFilter(qs, SessionSearchFilter(db, q, contains), row); }
    var when := ParseWhen(Get(params, "when"));
    var qs2 := if when.Some? then Filter(qs1, WindowFilter(when.value, today)) else qs1;
    if when.Some? { InFilter(qs1, WindowFilter(when.value, today), row); }
    var meal := GetOrBlank(params, "meal_type");
    var qs3 := if meal != "" then Filter(qs2, MealFilter(meal)) else qs2;
    if meal != "" { InFilter(qs2, MealFilter(meal), row); }
    var cookMethod := GetOrBlank(params, "method");
    var qs4 := if cookMethod != "" then Filter(qs3, MethodFilter(cookMethod)) else qs3;
    if cookMethod != "" { InFilter(qs3, MethodFilter(cookMethod), row); }
    assert qs4 == SessionQuery(db, user, params, today, contains);
    InSortBy(qs4, CookSessionOrder, row);
  }

  /** A `when` value that names no window filters nothing: the list is the
      one without the parameter. */
  lemma UnknownWhenIgnored(db: Db, user: UserId, params: QueryDict, today: Day, contains: Contains, v: string)
    requires ParseWhen(Some(v)).None?
    ensures SessionList(db, user, params["when" := v], today, contains)
         == SessionList(db, user, params - {"when"}, today, contains)
  {
    var p1 := params["when" := v];
    var p2 := params - {"when"};
    assert GetOrBlank(p1, "q") == GetOrBlank(p2, "q");
    assert GetOrBlank(p1, "meal_type") == GetOrBlank(p2, "meal_type");
    assert GetOrBlank(p1, "method") == GetOrBlank(p2, "method");
    assert ParseWhen(Get(p2, "when")).None?;
  }
}
