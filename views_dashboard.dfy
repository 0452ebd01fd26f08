/** `DashboardView.get_context_data`: per-table counts, the latest
    sessions and recipes, the most cooked dishes, the four date buckets
    and the outcome histogram, all over the rows visible to the user. */
module Dashboard {
  import opened Wrappers
  import opened Models
  import opened Text
  import opened Tables
  import opened Ordering
  import opened Ownership
  import opened Database
  import opened ListViews

  // ---------------------------------------------------------------------
  // counts
  // ---------------------------------------------------------------------

  datatype Counts = Counts(
    recipes: nat, dishes: nat, sessions: nat, results: nat,
    images: nat, notes: nat, urls: nat, pdfs: nat)

  /** `ctx["counts"]`: how many rows of each table the user may see. */
  function CountsFor(db: Db, user: UserId): Counts {
    Counts(
      |VisibleTableRows(db.recipes, RecipeOwner, user)|,
      |VisibleTableRows(db.dishes, DishOwner, user)|,
      |VisibleTableRows(db.sessions, CookSessionOwner, user)|,
      |VisibleTableRows(db.results, CookResultOwner, user)|,
      |VisibleTableRows(db.images, TrackedImageOwner, user)|,
      |VisibleTableRows(db.notes, NoteOwner, user)|,
      |VisibleTableRows(db.urls, ReferenceURLOwner, user)|,
      |VisibleTableRows(db.pdfs, PDFDocumentOwner, user)|)
  }

  /** The dashboard's recipe, dish and session counts are the lengths of the
      corresponding list pages opened without any query parameters. */
  lemma CountsMatchLists(db: Db, user: UserId, today: Day, contains: Contains)
    ensures CountsFor(db, user).recipes == |RecipeList(db, user, map[], contains)|
    ensures CountsFor(db, user).dishes == |DishList(db, user, map[], contains)|
    ensures CountsFor(db, user).sessions == |SessionList(db, user, map[], today, contains)|
  {
    assert SearchText(map[]) == [];
    assert ParseWhen(Get(map[], "when")).None?;
  }

  // ---------------------------------------------------------------------
  // recent_sessions, recent_recipes, popular_dishes
  // ---------------------------------------------------------------------

  /** `session_qs[:10]` */
  function RecentSessions(db: Db, user: UserId): (r: seq<Row<CookSession>>)
    ensures |r| <= 10
    ensures SortedBy(r, CookSessionOrder)
  {
    var qs := SortBy(VisibleTableRows(db.sessions, CookSessionOwner, user), CookSessionOrder);
    TakeSorted(qs, CookSessionOrder, 10);
    Take(qs, 10)
  }

  /** A visible session left out of the recent list was cooked no later
      than any listed one (and, on the same day, was created no later). */
  lemma RecentSessionsAreLatest(db: Db, user: UserId, x: Row<CookSession>, y: Row<CookSession>)
    requires x in RecentSessions(db, user)
    requires y in VisibleTableRows(db.sessions, CookSessionOwner, user) && y !in RecentSessions(db, user)
    ensures x.val.cookedOn >= y.val.cookedOn
    ensures x.val.cookedOn == y.val.cookedOn ==> x.val.createdAt >= y.val.createdAt
  {
    var vis := VisibleTableRows(db.sessions, CookSessionOwner, user);
    var qs := SortBy(vis, CookSessionOrder);
    InSortBy(vis, CookSessionOrder, y);
    TakeSortedDominates(qs, CookSessionOrder, 10, x, y);
    CookSessionOrderMeaning(x, y);
  }

  /** With ten visible sessions or fewer, every one of them is listed. */
  lemma RecentSessionsComplete(db: Db, user: UserId, y: Row<CookSession>)
    requires |VisibleTableRows(db.sessions, CookSessionOwner, user)| <= 10
    requires y in VisibleTableRows(db.sessions, CookSessionOwner, user)
    ensures y in RecentSessions(db, user)
  {
    var vis := VisibleTableRows(db.sessions, CookSessionOwner, user);
    var qs := SortBy(vis, CookSessionOrder);
    InSortBy(vis, CookSessionOrder, y);
    TakeAll(qs, 10);
  }

  /** `recipe_qs[:8]` */
  function RecentRecipes(db: Db, user: UserId): (r: seq<Row<Recipe>>)
    ensures |r| <= 8
    ensures SortedBy(r, RecipeOrder)
  {
    var qs := SortBy(VisibleTableRows(db.recipes, RecipeOwner, user), RecipeOrder);
    TakeSorted(qs, RecipeOrder, 8);
    Take(qs, 8)
  }

  /** A visible recipe left out of the recent list was updated no later
      than any listed one. */
  lemma RecentRecipesAreLatest(db: Db, user: UserId, x: Row<Recipe>, y: Row<Recipe>)
    requires x in RecentRecipes(db, user)
    requires y in VisibleTableRows(db.recipes, RecipeOwner, user) && y !in RecentRecipes(db, user)
    ensures x.val.updatedAt >= y.val.updatedAt
  {
    var vis := VisibleTableRows(db.recipes, RecipeOwner, user);
    var qs := SortBy(vis, RecipeOrder);
    InSortBy(vis, RecipeOrder, y);
    TakeSortedDominates(qs, RecipeOrder, 8, x, y);
    RecipeOrderMeaning(x, y);
  }

  /** `order_by("-session_count", "name")` */
  function PopularOrder(l: DishListing): seq<int> {
    [-(l.sessionCount as int)] + Codes(l.row.val.name)
  }

  /** `popular_dishes`: at most eight visible dishes, most sessions first. */
  function PopularDishes(db: Db, user: UserId): (r: seq<DishListing>)
    ensures |r| <= 8
    ensures SortedBy(r, PopularOrder)
  {
    var qs := SortBy(VisibleDishListings(db, user), PopularOrder);
    TakeSorted(qs, PopularOrder, 8);
    Take(qs, 8)
  }

  /** A listed popular dish has at least as many sessions as any visible
      dish left out, and on a tie its name sorts no later. */
  lemma PopularDishesDominate(db: Db, user: UserId, x: DishListing, y: DishListing)
    requires x in PopularDishes(db, user)
    requires y in VisibleDishListings(db, user) && y !in PopularDishes(db, user)
    ensures x.sessionCount >= y.sessionCount
    ensures x.sessionCount == y.sessionCount ==> LexLe(Codes(x.row.val.name), Codes(y.row.val.name))
  {
    var vis := VisibleDishListings(db, user);
    var qs := SortBy(vis, PopularOrder);
    InSortBy(vis, PopularOrder, y);
    TakeSortedDominates(qs, PopularOrder, 8, x, y);
    LexLeFirst(PopularOrder(x), PopularOrder(y));
    assert PopularOrder(x)[1..] == Codes(x.row.val.name);
    assert PopularOrder(y)[1..] == Codes(y.row.val.name);
  }

  // ---------------------------------------------------------------------
  // session_buckets
  // ---------------------------------------------------------------------

  /** A bucket: its label (`title`), its count, and the `when` value its link passes
      to the session list. */
  datatype Bucket = Bucket(title: string, count: nat, when: string)

  function WindowCount(sessions: seq<Row<CookSession>>, w: Window, today: Day): nat {
    |Filter(sessions, WindowFilter(w, today))|
  }

  /** `ctx["session_buckets"]` */
  function Buckets(db: Db, user: UserId, today: Day): (b: seq<Bucket>)
    ensures |b| == 4
    ensures b[0].title == "Today" && b[1].title == "Next 7 days"
    ensures b[2].title == "Next 30 days" && b[3].title == "Past 30 days"
  {
    var qs := VisibleTableRows(db.sessions, CookSessionOwner, user);
    [Bucket("Today", WindowCount(qs, Today, today), WhenValue(Today)),
     Bucket("Next 7 days", WindowCount(qs, Week, today), WhenValue(Week)),
     Bucket("Next 30 days", WindowCount(qs, Month, today), WhenValue(Month)),
     Bucket("Past 30 days", WindowCount(qs, Past30, today), WhenValue(Past30))]
  }

  /** The counts are consistent with the windows: the next week is within
      the next month, today within the past 30 days, and the past 30 days
      and the next 30 days together hold at most every visible session. */
  lemma BucketsConsistent(db: Db, user: UserId, today: Day)
    ensures Buckets(db, user, today)[1].count <= Buckets(db, user, today)[2].count
    ensures Buckets(db, user, today)[0].count <= Buckets(db, user, today)[3].count
    ensures Buckets(db, user, today)[3].count + Buckets(db, user, today)[2].count
              <= CountsFor(db, user).sessions
  {
    var qs := VisibleTableRows(db.sessions, CookSessionOwner, user);
    forall x: Row<CookSession>
      ensures (WindowFilter(Week, today)(x) ==> WindowFilter(Month, today)(x))
        && (WindowFilter(Today, today)(x) ==> WindowFilter(Past30, today)(x))
        && !(WindowFilter(Past30, today)(x) && WindowFilter(Month, today)(x))
    {
      WindowsNest(x.val.cookedOn, today);
    }
    FilterMonotone(qs, WindowFilter(Week, today), WindowFilter(Month, today));
    FilterMonotone(qs, WindowFilter(Today, today), WindowFilter(Past30, today));
    FilterDisjoint(qs, WindowFilter(Past30, today), WindowFilter(Month, today));
  }

  /** Each bucket counts exactly the sessions its link lists. */
  lemma BucketMatchesSessionList(db: Db, user: UserId, today: Day, contains: Contains, i: nat)
    requires i < 4
    ensures Buckets(db, user, today)[i].count
         == |SessionList(db, user, map["when" := Buckets(db, user, today)[i].when], today, contains)|
  {
    var w := [Today, Week, Month, Past30][i];
    var params := map["when" := WhenValue(w)];
    assert Buckets(db, user, today)[i].when == WhenValue(w);
    assert SearchText(params) == [] by { assert GetOrBlank(params, "q") == ""; }
    ParseWhenRoundTrip(w);
    assert GetOrBlank(params, "meal_type") == "" && GetOrBlank(params, "method") == "";
  }

  // ---------------------------------------------------------------------
  // top_outcomes
  // ---------------------------------------------------------------------

  /** One row of `.values("outcome").annotate(count=Count("id"))`. */
  datatype OutcomeCount = OutcomeCount(outcome: Outcome, count: nat)

  function OutcomeFilter(o: Outcome): Row<CookResult> -> bool {
    (row: Row<CookResult>) => row.val.outcome == o
  }

  /** How many of `results` have outcome `o`. */
  function Tally(results: seq<Row<CookResult>>, o: Outcome): nat {
    |Filter(results, OutcomeFilter(o))|
  }

  function OutcomeCountOrder(g: OutcomeCount): seq<int> {
    [-(g.count as int)]
  }

  /** One group per outcome value, with its tally (zero included). */
  function Groups(results: seq<Row<CookResult>>): seq<OutcomeCount> {
    [OutcomeCount(NailedIt, Tally(results, NailedIt)),
     OutcomeCount(Good, Tally(results, Good)),
     OutcomeCount(Okay, Tally(results, Okay)),
     OutcomeCount(Fail, Tally(results, Fail)),
     OutcomeCount(Experiment, Tally(results, Experiment))]
  }

  /** The groups are one per outcome, each with its own tally. */
  lemma GroupsExact(results: seq<Row<CookResult>>, g: OutcomeCount)
    ensures g in Groups(results) <==> g.count == Tally(results, g.outcome)
    ensures Distinct(Groups(results))
  {
  }

  function Occurring(g: OutcomeCount): bool {
    g.count > 0
  }

  /** `ctx["top_outcomes"]` over the visible results, largest count first.
      Grouping by a value only yields the values that occur. */
  function TopOutcomes(db: Db, user: UserId): (r: seq<OutcomeCount>)
    ensures SortedBy(r, OutcomeCountOrder)
  {
    var groups := Groups(VisibleTableRows(db.results, CookResultOwner, user));
    SortBy(Filter(groups, Occurring), OutcomeCountOrder)
  }

  /** A group is listed exactly when its outcome occurs among the visible
      results and its count is how often. */
  lemma TopOutcomesExact(db: Db, user: UserId, g: OutcomeCount)
    ensures g in TopOutcomes(db, user) <==>
              g.count > 0 && g.count == Tally(VisibleTableRows(db.results, CookResultOwner, user), g.outcome)
  {
    var vis := VisibleTableRows(db.results, CookResultOwner, user);
    var groups := Groups(vis);
    var present := Filter(groups, Occurring);
    InSortBy(present, OutcomeCountOrder, g);
    InFilter(groups, Occurring, g);
    GroupsExact(vis, g);
  }

  /** Each outcome is listed at most once, and counts never increase down
      the list. */
  lemma TopOutcomesShape(db: Db, user: UserId)
    ensures forall i, j :: 0 <= i < j < |TopOutcomes(db, user)| ==>
              TopOutcomes(db, user)[i].outcome != TopOutcomes(db, user)[j].outcome
              && TopOutcomes(db, user)[i].count >= TopOutcomes(db, user)[j].count
  {
    var vis := VisibleTableRows(db.results, CookResultOwner, user);
    var groups := Groups(vis);
    var present := Filter(groups, Occurring);
    var r := TopOutcomes(db, user);
    GroupsExact(vis, OutcomeCount(NailedIt, 0));
    FilterDistinct(groups, Occurring);
    DistinctPermutation(present, r);
    forall i, j | 0 <= i < j < |r| ensures r[i].outcome != r[j].outcome && r[i].count >= r[j].count {
      TopOutcomesExact(db, user, r[i]);
      TopOutcomesExact(db, user, r[j]);
      LexLeFirst(OutcomeCountOrder(r[i]), OutcomeCountOrder(r[j]));
    }
  }

  // ---------------------------------------------------------------------
  // The page
  // ---------------------------------------------------------------------

  datatype DashboardPage = DashboardPage(
    counts: Counts,
    recentSessions: seq<Row<CookSession>>,
    recentRecipes: seq<Row<Recipe>>,
    popularDishes: seq<DishListing>,
    sessionBuckets: seq<Bucket>,
    topOutcomes: seq<OutcomeCount>)

  /** `DashboardView.get_context_data()`; `today` is `timezone.localdate()`. */
  function DashboardContext(db: Db, user: UserId, today: Day): (p: DashboardPage)
    ensures |p.recentSessions| <= 10 && |p.recentRecipes| <= 8 && |p.popularDishes| <= 8
    ensures |p.sessionBuckets| == 4
  {
    DashboardPage(CountsFor(db, user), RecentSessions(db, user), RecentRecipes(db, user),
                  PopularDishes(db, user), Buckets(db, user, today), TopOutcomes(db, user))
  }
}
