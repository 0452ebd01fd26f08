/** The database the views read and write: one table per model, the
    constraints the schema enforces (foreign keys, `UniqueConstraint` on a
    dish's owner and name, the one-to-one link from a result to its session,
    unique uuids), and the `on_delete` rules PROTECT, SET_NULL and CASCADE. */
module Database {
  import opened Wrappers
  import opened Models
  import opened Tables
  import opened Ordering
  import opened Text

  datatype Db = Db(
    users: set<UserId>,
    recipes: Table<Recipe>, dishes: Table<Dish>,
    sessions: Table<CookSession>, results: Table<CookResult>,
    notes: Table<Note>, images: Table<TrackedImage>,
    urls: Table<ReferenceURL>, pdfs: Table<PDFDocument>)
  {
    ghost predicate TablesValid() {
      recipes.Valid() && dishes.Valid() && sessions.Valid() && results.Valid()
      && notes.Valid() && images.Valid() && urls.Valid() && pdfs.Valid()
    }

    /** `created_by` is a foreign key to the user table. */
    ghost predicate OwnersKnown() {
      (forall pk :: pk in recipes.rows ==> Known(recipes.rows[pk].owner, users))
      && (forall pk :: pk in dishes.rows ==> Known(dishes.rows[pk].owner, users))
      && (forall pk :: pk in sessions.rows ==> Known(sessions.rows[pk].owner, users))
      && (forall pk :: pk in results.rows ==> Known(results.rows[pk].owner, users))
      && (forall pk :: pk in notes.rows ==> Known(notes.rows[pk].owner, users))
      && (forall pk :: pk in images.rows ==> Known(images.rows[pk].owner, users))
      && (forall pk :: pk in urls.rows ==> Known(urls.rows[pk].owner, users))
      && (forall pk :: pk in pdfs.rows ==> Known(pdfs.rows[pk].owner, users))
    }

    /** `Dish.default_recipe`, `CookSession.dish`, `CookSession.recipe_used`
        and `CookResult.cook_session` point at existing rows. */
    ghost predicate ForeignKeysHold() {
      (forall pk :: pk in dishes.rows ==> DishRefsOk(this, dishes.rows[pk]))
      && (forall pk :: pk in sessions.rows ==> SessionRefsOk(this, sessions.rows[pk]))
      && (forall pk :: pk in results.rows ==> results.rows[pk].cookSession in sessions.rows)
    }

    /** Everything the schema enforces. */
    ghost predicate Valid() {
      TablesValid() && OwnersKnown() && ForeignKeysHold()
      && DishNamesUnique(dishes.rows) && OneResultPerSession(results.rows)
      && (forall p, q :: p in images.rows && q in images.rows && p != q ==>
            images.rows[p].uuid != images.rows[q].uuid)
      && (forall p, q :: p in pdfs.rows && q in pdfs.rows && p != q ==>
            pdfs.rows[p].uuid != pdfs.rows[q].uuid)
    }

    /** What the rating validators promise of every stored result. The
        database itself does not check it; every write path validates first. */
    ghost predicate RatingsInRange() {
      forall pk :: pk in results.rows ==> RatingsValid(results.rows[pk])
    }
  }

  function EmptyDb(users: set<UserId>): (d: Db)
    ensures d.Valid() && d.RatingsInRange() && d.users == users
  {
    Db(users, EmptyTable(), EmptyTable(), EmptyTable(), EmptyTable(),
       EmptyTable(), EmptyTable(), EmptyTable(), EmptyTable())
  }

  predicate Known(o: Owner, users: set<UserId>) {
    o.None? || o.value in users
  }

  predicate DishRefsOk(d: Db, x: Dish) {
    x.defaultRecipe.None? || x.defaultRecipe.value in d.recipes.rows
  }

  predicate SessionRefsOk(d: Db, s: CookSession) {
    s.dish in d.dishes.rows && (s.recipeUsed.None? || s.recipeUsed.value in d.recipes.rows)
  }

  // ---------------------------------------------------------------------
  // Uniqueness
  // ---------------------------------------------------------------------

  /** Two dishes collide under `uniq_dish_per_owner_name`. SQL treats NULLs
      as distinct, so dishes without an owner never collide. */
  predicate SameDishKey(a: Dish, b: Dish) {
    a.owner.Some? && a.owner == b.owner && a.name == b.name
  }

  ghost predicate DishNamesUnique(dishes: map<nat, Dish>) {
    forall p, q :: p in dishes && q in dishes && p != q ==> !SameDishKey(dishes[p], dishes[q])
  }

  /** Some dish other than `except` already has `x`'s owner and name. */
  predicate NameTaken(dishes: map<nat, Dish>, x: Dish, except: Option<nat>) {
    exists pk :: pk in dishes && Some(pk) != except && SameDishKey(dishes[pk], x)
  }

  /** `cook_session` is a `OneToOneField`. */
  ghost predicate OneResultPerSession(results: map<nat, CookResult>) {
    forall p, q :: p in results && q in results && results[p].cookSession == results[q].cookSession ==> p == q
  }

  /** Some result other than `except` already belongs to `session`. */
  predicate SessionTaken(results: map<nat, CookResult>, session: nat, except: Option<nat>) {
    exists pk :: pk in results && Some(pk) != except && results[pk].cookSession == session
  }

  predicate UuidTaken<T>(rows: map<nat, T>, uuid: T -> string, u: string) {
    exists pk :: pk in rows && uuid(rows[pk]) == u
  }

  // ---------------------------------------------------------------------
  // Reverse relations
  // ---------------------------------------------------------------------

  /** `dish.cook_sessions.all()`: the sessions of `dish`, in key order. */
  function SessionsOfDish(sessions: Table<CookSession>, dish: nat): (r: seq<Row<CookSession>>)
    ensures forall i :: 0 <= i < |r| ==> r[i].val.dish == dish && r[i].pk in sessions.rows
                                         && sessions.rows[r[i].pk] == r[i].val
    ensures sessions.Valid() ==> forall pk :: pk in sessions.rows && sessions.rows[pk].dish == dish ==>
              Row(pk, sessions.rows[pk]) in r
  {
    var all := AllRows(sessions);
    var p := (row: Row<CookSession>) => row.val.dish == dish;
    var r := Filter(all, p);
    assert forall i :: 0 <= i < |r| ==> p(r[i]) && r[i] in all;
    r
  }

  /** `session.result`: the key of the result that belongs to `session`, if any. */
  function ResultFor(results: Table<CookResult>, session: nat): (r: Option<nat>)
    ensures r.Some? ==> r.value in results.rows && results.rows[r.value].cookSession == session
    ensures results.Valid() && r.None? ==>
              forall pk :: pk in results.rows ==> results.rows[pk].cookSession != session
  {
    var all := AllRows(results);
    var p := (row: Row<CookResult>) => row.val.cookSession == session;
    var matches := Filter(all, p);
    assert matches != [] ==> p(matches[0]) && matches[0] in all;
    if matches == [] then None else Some(matches[0].pk)
  }

  /** With one result per session, the result `ResultFor` finds is the only one. */
  lemma ResultForUnique(results: Table<CookResult>, session: nat, pk: nat)
    requires results.Valid() && OneResultPerSession(results.rows)
    requires pk in results.rows && results.rows[pk].cookSession == session
    ensures ResultFor(results, session) == Some(pk)
  {
  }

  /** Some row of some table names `u` as its creator. */
  predicate OwnsRows(d: Db, u: UserId) {
    (exists pk :: pk in d.recipes.rows && d.recipes.rows[pk].owner == Some(u))
    || (exists pk :: pk in d.dishes.rows && d.dishes.rows[pk].owner == Some(u))
    || (exists pk :: pk in d.sessions.rows && d.sessions.rows[pk].owner == Some(u))
    || (exists pk :: pk in d.results.rows && d.results.rows[pk].owner == Some(u))
    || (exists pk :: pk in d.notes.rows && d.notes.rows[pk].owner == Some(u))
    || (exists pk :: pk in d.images.rows && d.images.rows[pk].owner == Some(u))
    || (exists pk :: pk in d.urls.rows && d.urls.rows[pk].owner == Some(u))
    || (exists pk :: pk in d.pdfs.rows && d.pdfs.rows[pk].owner == Some(u))
  }

  /** Replacing the results table by one that keeps the one-to-one link and
      points at existing sessions and users keeps the database valid. */
  lemma ResultsReplaced(d: Db, t: Table<CookResult>)
    requires d.Valid() && t.Valid() && OneResultPerSession(t.rows)
    requires forall pk :: pk in t.rows ==> t.rows[pk].cookSession in d.sessions.rows
    requires forall pk :: pk in t.rows ==> Known(t.rows[pk].owner, d.users)
    ensures d.(results := t).Valid()
  {
    var e := d.(results := t);
    forall pk | pk in e.dishes.rows ensures DishRefsOk(e, e.dishes.rows[pk]) {
      assert DishRefsOk(d, d.dishes.rows[pk]);
    }
    forall pk | pk in e.sessions.rows ensures SessionRefsOk(e, e.sessions.rows[pk]) {
      assert SessionRefsOk(d, d.sessions.rows[pk]);
    }
    assert e.ForeignKeysHold();
  }

  /** Removing a dish no session uses keeps the database valid. */
  lemma DishRemoved(d: Db, pk: nat)
    requires d.Valid() && forall s :: s in d.sessions.rows ==> d.sessions.rows[s].dish != pk
    ensures d.(dishes := d.dishes.Remove({pk})).Valid()
  {
    var e := d.(dishes := d.dishes.Remove({pk}));
    forall q | q in e.dishes.rows ensures DishRefsOk(e, e.dishes.rows[q]) {
      assert DishRefsOk(d, d.dishes.rows[q]);
    }
    forall s | s in e.sessions.rows ensures SessionRefsOk(e, e.sessions.rows[s]) {
      assert SessionRefsOk(d, d.sessions.rows[s]);
    }
    assert e.ForeignKeysHold();
    assert DishNamesUnique(e.dishes.rows);
  }

  // ---------------------------------------------------------------------
  // on_delete rules
  // ---------------------------------------------------------------------

  /** `Dish.default_recipe` is SET_NULL: every dish that pointed at `recipe`
      now has no default recipe; no dish is removed and no other field changes. */
  function ClearDefaultRecipe(dishes: Table<Dish>, recipe: nat): (r: Table<Dish>)
    ensures r.rows.Keys == dishes.rows.Keys && r.next == dishes.next
    ensures forall pk :: pk in r.rows ==> r.rows[pk].defaultRecipe != Some(recipe)
    ensures forall pk :: pk in r.rows ==>
              r.rows[pk] == dishes.rows[pk].(defaultRecipe := r.rows[pk].defaultRecipe)
    ensures forall pk :: pk in r.rows && dishes.rows[pk].defaultRecipe != Some(recipe) ==>
              r.rows[pk] == dishes.rows[pk]
  {
    Table(map pk | pk in dishes.rows ::
            if dishes.rows[pk].defaultRecipe == Some(recipe) then dishes.rows[pk].(defaultRecipe := None)
            else dishes.rows[pk],
          dishes.next)
  }

  /** `CookSession.recipe_used` is SET_NULL, in the same way. */
  function ClearRecipeUsed(sessions: Table<CookSession>, recipe: nat): (r: Table<CookSession>)
    ensures r.rows.Keys == sessions.rows.Keys && r.next == sessions.next
    ensures forall pk :: pk in r.rows ==> r.rows[pk].recipeUsed != Some(recipe)
    ensures forall pk :: pk in r.rows ==>
              r.rows[pk] == sessions.rows[pk].(recipeUsed := r.rows[pk].recipeUsed)
    ensures forall pk :: pk in r.rows && sessions.rows[pk].recipeUsed != Some(recipe) ==>
              r.rows[pk] == sessions.rows[pk]
  {
    Table(map pk | pk in sessions.rows ::
            if sessions.rows[pk].recipeUsed == Some(recipe) then sessions.rows[pk].(recipeUsed := None)
            else sessions.rows[pk],
          sessions.next)
  }

  /** `CookResult.cook_session` is CASCADE: the results of `session` go with it. */
  function CascadeResults(results: Table<CookResult>, session: nat): (r: Table<CookResult>)
    ensures forall pk :: pk in r.rows <==> pk in results.rows && results.rows[pk].cookSession != session
    ensures forall pk :: pk in r.rows ==> r.rows[pk] == results.rows[pk]
    ensures r.next == results.next
  {
    results.Remove(set pk | pk in results.rows && results.rows[pk].cookSession == session)
  }

  // ---------------------------------------------------------------------
  // Orderings (`Meta.ordering` and the views' `order_by`) as sort keys
  // ---------------------------------------------------------------------

  /** `order_by("-updated_at", "title")`, also `Recipe.Meta.ordering`. */
  function RecipeOrder(row: Row<Recipe>): seq<int> {
    [-row.val.updatedAt] + Codes(row.val.title)
  }

  /** `order_by("title")`. */
  function TitleOrder(row: Row<Recipe>): seq<int> {
    Codes(row.val.title)
  }

  /** `order_by("name")`, also `Dish.Meta.ordering`. */
  function DishOrder(row: Row<Dish>): seq<int> {
    Codes(row.val.name)
  }

  /** `order_by("-cooked_on", "-created_at")`, also `CookSession.Meta.ordering`. */
  function CookSessionOrder(row: Row<CookSession>): seq<int> {
    [-row.val.cookedOn, -row.val.createdAt]
  }

  /** Recipes come most recently updated first, ties by title. */
  lemma RecipeOrderMeaning(a: Row<Recipe>, b: Row<Recipe>)
    requires LexLe(RecipeOrder(a), RecipeOrder(b))
    ensures a.val.updatedAt >= b.val.updatedAt
    ensures a.val.updatedAt == b.val.updatedAt ==> LexLe(Codes(a.val.title), Codes(b.val.title))
  {
    LexLeFirst(RecipeOrder(a), RecipeOrder(b));
    assert RecipeOrder(a)[1..] == Codes(a.val.title);
    assert RecipeOrder(b)[1..] == Codes(b.val.title);
  }

  /** Sessions come latest `cooked_on` first, ties latest created first. */
  lemma CookSessionOrderMeaning(a: Row<CookSession>, b: Row<CookSession>)
    requires LexLe(CookSessionOrder(a), CookSessionOrder(b))
    ensures a.val.cookedOn >= b.val.cookedOn
    ensures a.val.cookedOn == b.val.cookedOn ==> a.val.createdAt >= b.val.createdAt
  {
    LexLeFirst(CookSessionOrder(a), CookSessionOrder(b));
    if a.val.cookedOn == b.val.cookedOn {
      LexLeFirst(CookSessionOrder(a)[1..], CookSessionOrder(b)[1..]);
    }
  }

  // ---------------------------------------------------------------------
  // The store
  // ---------------------------------------------------------------------

  /** The database connection: its state is a `Db`, changed only by the
      statements below. `now` is the time the clock gives `auto_now`. */
  class Store {
    var db: Db

    constructor (users: set<UserId>)
      ensures db == EmptyDb(users)
    {
      db := EmptyDb(users);
    }

    method InsertRecipe(r: Recipe, now: Instant) returns (pk: nat)
      requires db.Valid() && Known(r.owner, db.users)
      modifies this
      ensures db.Valid()
      ensures pk == old(db.recipes.next) && pk !in old(db.recipes.rows)
      ensures db == old(db).(recipes := old(db.recipes).Insert(r.(updatedAt := now)))
    {
      pk := db.recipes.next;
      db := db.(recipes := db.recipes.Insert(r.(updatedAt := now)));
    }

    method SaveRecipe(pk: nat, r: Recipe, now: Instant)
      requires db.Valid() && pk in db.recipes.rows && Known(r.owner, db.users)
      modifies this
      ensures db.Valid()
      ensures db == old(db).(recipes := old(db.recipes).Update(pk, r.(updatedAt := now)))
    {
      db := db.(recipes := db.recipes.Update(pk, r.(updatedAt := now)));
    }

    /** Inserting a dish fails with `IntegrityError`, leaving the database as
        it was, when its default recipe is missing or its owner already has a
        dish of that name. */
    method InsertDish(x: Dish, now: Instant) returns (res: Result<nat, Failure>)
      requires db.Valid() && Known(x.owner, db.users)
      modifies this
      ensures db.Valid()
      ensures res.Ok? <==> DishRefsOk(old(db), x) && !NameTaken(old(db.dishes.rows), x, None)
      ensures res.Err? ==> res.error == IntegrityError && db == old(db)
      ensures res.Ok? ==> res.value == old(db.dishes.next)
                          && db == old(db).(dishes := old(db.dishes).Insert(x.(updatedAt := now)))
    {
      if !DishRefsOk(db, x) || NameTaken(db.dishes.rows, x, None) {
        return Err(IntegrityError);
      }
      res := Ok(db.dishes.next);
      db := db.(dishes := db.dishes.Insert(x.(updatedAt := now)));
    }

    method SaveDish(pk: nat, x: Dish, now: Instant) returns (res: Result<nat, Failure>)
      requires db.Valid() && pk in db.dishes.rows && Known(x.owner, db.users)
      modifies this
      ensures db.Valid()
      ensures res.Ok? <==> DishRefsOk(old(db), x) && !NameTaken(old(db.dishes.rows), x, Some(pk))
      ensures res.Err? ==> res.error == IntegrityError && db == old(db)
      ensures res.Ok? ==> res.value == pk
                          && db == old(db).(dishes := old(db.dishes).Update(pk, x.(updatedAt := now)))
    {
      if !DishRefsOk(db, x) || NameTaken(db.dishes.rows, x, Some(pk)) {
        return Err(IntegrityError);
      }
      res := Ok(pk);
      db := db.(dishes := db.dishes.Update(pk, x.(updatedAt := now)));
    }

    method InsertSession(s: CookSession, now: Instant) returns (res: Result<nat, Failure>)
      requires db.Valid() && Known(s.owner, db.users)
      modifies this
      ensures db.Valid()
      ensures res.Ok? <==> SessionRefsOk(old(db), s)
      ensures res.Err? ==> res.error == IntegrityError && db == old(db)
      ensures res.Ok? ==> res.value == old(db.sessions.next)
                          && db == old(db).(sessions := old(db.sessions).Insert(s.(updatedAt := now)))
    {
      if !SessionRefsOk(db, s) {
        return Err(IntegrityError);
      }
      res := Ok(db.sessions.next);
      db := db.(sessions := db.sessions.Insert(s.(updatedAt := now)));
    }

    method SaveSession(pk: nat, s: CookSession, now: Instant) returns (res: Result<nat, Failure>)
      requires db.Valid() && pk in db.sessions.rows && Known(s.owner, db.users)
      modifies this
      ensures db.Valid()
      ensures res.Ok? <==> SessionRefsOk(old(db), s)
      ensures res.Err? ==> res.error == IntegrityError && db == old(db)
      ensures res.Ok? ==> res.value == pk
                          && db == old(db).(sessions := old(db.sessions).Update(pk, s.(updatedAt := now)))
    {
      if !SessionRefsOk(db, s) {
        return Err(IntegrityError);
      }
      res := Ok(pk);
      db := db.(sessions := db.sessions.Update(pk, s.(updatedAt := now)));
    }

    /** `CookResult.objects.get_or_create(cook_session=session,
        defaults={"created_by": owner})`: the session's result when it has
        one, with nothing changed; otherwise a new blank result. */
    method GetOrCreateResult(session: nat, owner: Owner, now: Instant) returns (pk: nat, created: bool)
      requires db.Valid() && session in db.sessions.rows && Known(owner, db.users)
      modifies this
      ensures db.Valid()
      ensures created <==> ResultFor(old(db.results), session).None?
      ensures !created ==> db == old(db) && Some(pk) == ResultFor(old(db.results), session)
      ensures created ==> pk == old(db.results.next)
                          && db == old(db).(results := old(db.results).Insert(BlankCookResult(session, owner, now)))
      ensures pk in db.results.rows && db.results.rows[pk].cookSession == session
      ensures old(db.RatingsInRange()) ==> db.RatingsInRange()
    {
      var existing := ResultFor(db.results, session);
      if existing.Some? {
        return existing.value, false;
      }
      var c := BlankCookResult(session, owner, now);
      var t := db.results.Insert(c);
      forall p, q | p in t.rows && q in t.rows && t.rows[p].cookSession == t.rows[q].cookSession
        ensures p == q
      {
        assert p != db.results.next ==> t.rows[p] == db.results.rows[p];
        assert q != db.results.next ==> t.rows[q] == db.results.rows[q];
      }
      ResultsReplaced(db, t);
      pk, created := db.results.next, true;
      db := db.(results := t);
    }

    method SaveResult(pk: nat, c: CookResult, now: Instant) returns (res: Result<nat, Failure>)
      requires db.Valid() && pk in db.results.rows && Known(c.owner, db.users)
      modifies this
      ensures db.Valid()
      ensures res.Ok? <==> (c.cookSession in old(db.sessions.rows)
                            && !SessionTaken(old(db.results.rows), c.cookSession, Some(pk)))
      ensures res.Err? ==> res.error == IntegrityError && db == old(db)
      ensures res.Ok? ==> res.value == pk
                          && db == old(db).(results := old(db.results).Update(pk, c.(updatedAt := now)))
    {
      if c.cookSession !in db.sessions.rows || SessionTaken(db.results.rows, c.cookSession, Some(pk)) {
        return Err(IntegrityError);
      }
      var t := db.results.Update(pk, c.(updatedAt := now));
      forall p, q | p in t.rows && q in t.rows && t.rows[p].cookSession == t.rows[q].cookSession
        ensures p == q
      {
        assert p != pk ==> t.rows[p] == db.results.rows[p];
        assert q != pk ==> t.rows[q] == db.results.rows[q];
      }
      ResultsReplaced(db, t);
      res := Ok(pk);
      db := db.(results := t);
    }

    /** Attachments hold no foreign key to their target, so inserting one
        checks nothing about it. */
    method InsertNote(n: Note, now: Instant) returns (pk: nat)
      requires db.Valid() && Known(n.owner, db.users)
      modifies this
      ensures db.Valid()
      ensures pk == old(db.notes.next) && pk !in old(db.notes.rows)
      ensures db == old(db).(notes := old(db.notes).Insert(n.(updatedAt := now)))
    {
      pk := db.notes.next;
      db := db.(notes := db.notes.Insert(n.(updatedAt := now)));
    }

    method InsertURL(u: ReferenceURL, now: Instant) returns (pk: nat)
      requires db.Valid() && Known(u.owner, db.users)
      modifies this
      ensures db.Valid()
      ensures pk == old(db.urls.next) && pk !in old(db.urls.rows)
      ensures db == old(db).(urls := old(db.urls).Insert(u.(updatedAt := now)))
    {
      pk := db.urls.next;
      db := db.(urls := db.urls.Insert(u.(updatedAt := now)));
    }

    /** `TrackedImage.save()`: `pre_save` moves a fresh upload under
        `cooking-companion/images/{uuid}/`; a taken uuid is an `IntegrityError`. */
    method InsertImage(i: TrackedImage, now: Instant) returns (res: Result<nat, Failure>)
      requires db.Valid() && Known(i.owner, db.users)
      modifies this
      ensures db.Valid()
      ensures res.Ok? <==> !UuidTaken(old(db.images.rows), (x: TrackedImage) => x.uuid, i.uuid)
      ensures res.Err? ==> res.error == IntegrityError && db == old(db)
      ensures res.Ok? ==> res.value == old(db.images.next)
                          && db == old(db).(images := old(db.images).Insert(
                          i.(image := CommitUpload(i.image, name => ImageUploadTo(i.uuid, name)), updatedAt := now)))
    {
      if UuidTaken(db.images.rows, (x: TrackedImage) => x.uuid, i.uuid) {
        return Err(IntegrityError);
      }
      var stored := i.(image := CommitUpload(i.image, name => ImageUploadTo(i.uuid, name)), updatedAt := now);
      res := Ok(db.images.next);
      db := db.(images := db.images.Insert(stored));
    }

    /** `PDFDocument.save()`: `SavePDF` fills `original_filename` and stores
        the upload; a taken uuid is an `IntegrityError`. */
    method InsertPDF(p: PDFDocument, now: Instant) returns (res: Result<nat, Failure>)
      requires db.Valid() && Known(p.owner, db.users)
      modifies this
      ensures db.Valid()
      ensures res.Ok? <==> !UuidTaken(old(db.pdfs.rows), (x: PDFDocument) => x.uuid, p.uuid)
      ensures res.Err? ==> res.error == IntegrityError && db == old(db)
      ensures res.Ok? ==> res.value == old(db.pdfs.next)
                          && db == old(db).(pdfs := old(db.pdfs).Insert(SavePDF(p).(updatedAt := now)))
    {
      if UuidTaken(db.pdfs.rows, (x: PDFDocument) => x.uuid, p.uuid) {
        return Err(IntegrityError);
      }
      res := Ok(db.pdfs.next);
      db := db.(pdfs := db.pdfs.Insert(SavePDF(p).(updatedAt := now)));
    }

    /** Deleting a recipe never fails: dishes and sessions that used it keep
        their rows with the reference cleared, and attachments stay. */
    method DeleteRecipe(pk: nat)
      requires db.Valid() && pk in db.recipes.rows
      modifies this
      ensures db.Valid()
      ensures old(db.RatingsInRange()) ==> db.RatingsInRange()
      ensures db == old(db).(recipes := old(db.recipes).Remove({pk}),
                             dishes := ClearDefaultRecipe(old(db.dishes), pk),
                             sessions := ClearRecipeUsed(old(db.sessions), pk))
    {
      db := db.(recipes := db.recipes.Remove({pk}),
                dishes := ClearDefaultRecipe(db.dishes, pk),
                sessions := ClearRecipeUsed(db.sessions, pk));
    }

    /** `CookSession.dish` is PROTECT: a dish with any session, whoever owns
        it, is refused with `ProtectedError` and nothing changes. */
    method DeleteDish(pk: nat) returns (res: Result<(), Failure>)
      requires db.Valid() && pk in db.dishes.rows
      modifies this
      ensures db.Valid()
      ensures res.Err? <==> exists s :: s in old(db.sessions.rows) && old(db.sessions.rows)[s].dish == pk
      ensures res.Err? ==> res.error == ProtectedError && db == old(db)
      ensures res.Ok? ==> db == old(db).(dishes := old(db.dishes).Remove({pk}))
    {
      var referencing := SessionsOfDish(db.sessions, pk);
      if referencing != [] {
        assert referencing[0].pk in db.sessions.rows;
        return Err(ProtectedError);
      }
      DishRemoved(db, pk);
      db := db.(dishes := db.dishes.Remove({pk}));
      res := Ok(());
    }

    /** Deleting a session deletes its result with it. */
    method DeleteSession(pk: nat)
      requires db.Valid() && pk in db.sessions.rows
      modifies this
      ensures db.Valid()
      ensures old(db.RatingsInRange()) ==> db.RatingsInRange()
      ensures db == old(db).(sessions := old(db.sessions).Remove({pk}),
                             results := CascadeResults(old(db.results), pk))
    {
      db := db.(sessions := db.sessions.Remove({pk}), results := CascadeResults(db.results, pk));
    }

    /** `created_by` is PROTECT: a user who created any row cannot be deleted. */
    method DeleteUser(u: UserId) returns (res: Result<(), Failure>)
      requires db.Valid() && u in db.users
      modifies this
      ensures db.Valid()
      ensures res.Err? <==> OwnsRows(old(db), u)
      ensures res.Err? ==> res.error == ProtectedError && db == old(db)
      ensures res.Ok? ==> db == old(db).(users := old(db.users) - {u})
    {
      if OwnsRows(db, u) {
        return Err(ProtectedError);
      }
      db := db.(users := db.users - {u});
      res := Ok(());
    }
  }
}
