/** The create, update and delete views of recipes, dishes and sessions
    (`OwnedQuerysetMixin` and its subclasses), and the page that creates
    and edits a session's result (`CookResultCreateUpdateView`). Each view
    is a method on the `Store`; `form` is what the user submitted, with
    every form field filled in. */
module EditViews {
  import opened Wrappers
  import opened Models
  import opened Tables
  import opened Ownership
  import opened Database
  import Forms
  import opened DetailViews

  // ---------------------------------------------------------------------
  // `form.save(commit=False)` and `form_valid`
  // ---------------------------------------------------------------------

  // A ModelForm copies its fields onto the instance it was built for (a
  // blank one on create, the stored row on update); the fields outside the
  // form (`created_by`, `created_at`) keep the instance's values.
  // `OwnedQuerysetMixin.form_valid` then stamps the owner, and the save
  // sets `updated_at`. The mixin's one `form_valid` rule is written below
  // once per model it serves (recipes, dishes, sessions), since the three
  // are distinct record types here.

  function SavedRecipe(inst: Recipe, form: Recipe, user: UserId, now: Instant): (r: Recipe)
    ensures r.owner == StampOwner(inst.owner, user) && r.createdAt == inst.createdAt && r.updatedAt == now
    ensures r.(owner := form.owner, createdAt := form.createdAt, updatedAt := form.updatedAt) == form
  {
    form.(owner := StampOwner(inst.owner, user), createdAt := inst.createdAt, updatedAt := now)
  }

  function SavedDish(inst: Dish, form: Dish, user: UserId, now: Instant): (d: Dish)
    ensures d.owner == StampOwner(inst.owner, user) && d.createdAt == inst.createdAt && d.updatedAt == now
    ensures d.(owner := form.owner, createdAt := form.createdAt, updatedAt := form.updatedAt) == form
  {
    form.(owner := StampOwner(inst.owner, user), createdAt := inst.createdAt, updatedAt := now)
  }

  function SavedSession(inst: CookSession, form: CookSession, user: UserId, now: Instant): (s: CookSession)
    ensures s.owner == StampOwner(inst.owner, user) && s.createdAt == inst.createdAt && s.updatedAt == now
    ensures s.(owner := form.owner, createdAt := form.createdAt, updatedAt := form.updatedAt) == form
  {
    form.(owner := StampOwner(inst.owner, user), createdAt := inst.createdAt, updatedAt := now)
  }

  /** A created recipe belongs to its creator and is the first thing they
      can open; nobody else can. */
  lemma CreatedRecipeIsPrivate(db: Db, form: Recipe, user: UserId, other: UserId, now: Instant)
    requires db.recipes.Valid() && other != user
    ensures var t := db.recipes.Insert(SavedRecipe(BlankRecipe(now), form, user, now));
            LookupOwned(t, RecipeOwner, user, db.recipes.next).Ok?
            && LookupOwned(t, RecipeOwner, other, db.recipes.next).Err?
  {
  }

  /** Saving a shared recipe through the update view stamps it with the
      editor, so every other user loses sight of it. */
  lemma UpdateClaimsSharedRecipe(db: Db, pk: nat, form: Recipe, user: UserId, other: UserId, now: Instant)
    requires pk in db.recipes.rows && db.recipes.rows[pk].owner == None && other != user
    ensures LookupOwned(db.recipes, RecipeOwner, other, pk).Ok?
    ensures var t := db.recipes.Update(pk, SavedRecipe(db.recipes.rows[pk], form, user, now));
            LookupOwned(t, RecipeOwner, other, pk).Err? && LookupOwned(t, RecipeOwner, user, pk).Ok?
  {
  }

  /** A dish the form accepted names no missing default recipe. */
  lemma AcceptedDishRefsOk(db: Db, user: UserId, form: Dish, obj: Dish)
    requires db.Valid() && Forms.DishFormErrors(db, user, form) == [] && obj.defaultRecipe == form.defaultRecipe
    ensures DishRefsOk(db, obj)
  {
    Forms.DishFormErrorsExact(db, user, form);
  }

  /** A session the form accepted names an existing dish and recipe. */
  lemma AcceptedSessionRefsOk(db: Db, user: UserId, form: CookSession, obj: CookSession)
    requires db.Valid() && Forms.CookSessionFormErrors(db, user, form) == []
    requires obj.dish == form.dish && obj.recipeUsed == form.recipeUsed
    ensures SessionRefsOk(db, obj)
  {
    Forms.CookSessionFormErrorsExact(db, user, form);
  }

  // ---------------------------------------------------------------------
  // Recipes
  // ---------------------------------------------------------------------

  /** `RecipeCreateView` on a valid form. */
  method CreateRecipe(store: Store, user: UserId, form: Recipe, now: Instant) returns (pk: nat)
    requires store.db.Valid() && user in store.db.users
    modifies store
    ensures store.db.Valid()
    ensures pk == old(store.db.recipes.next)
    ensures store.db == old(store.db).(recipes := old(store.db.recipes).Insert(SavedRecipe(BlankRecipe(now), form, user, now)))
    ensures LookupOwned(store.db.recipes, RecipeOwner, user, pk) == Ok(SavedRecipe(BlankRecipe(now), form, user, now))
  {
    var obj := SavedRecipe(BlankRecipe(now), form, user, now);
    pk := store.InsertRecipe(obj, now);
    assert obj.(updatedAt := now) == obj;
  }

  /** `RecipeUpdateView` on a valid form. */
  method UpdateRecipe(store: Store, user: UserId, pk: nat, form: Recipe, now: Instant) returns (res: Result<nat, Failure>)
    requires store.db.Valid() && user in store.db.users
    modifies store
    ensures store.db.Valid()
    ensures res.Err? <==> LookupOwned(old(store.db.recipes), RecipeOwner, user, pk).Err?
    ensures res.Err? ==> res.error == NotFound && store.db == old(store.db)
    ensures res.Ok? ==>
              res.value == pk
              && store.db == old(store.db).(recipes := old(store.db.recipes).Update(
                   pk, SavedRecipe(old(store.db.recipes.rows[pk]), form, user, now)))
              && store.db.recipes.rows[pk].owner == Some(user)
  {
    var inst :- LookupOwned(store.db.recipes, RecipeOwner, user, pk);
    var obj := SavedRecipe(inst, form, user, now);
    store.SaveRecipe(pk, obj, now);
    assert obj.(updatedAt := now) == obj;
    res := Ok(pk);
  }

  /** `RecipeDeleteView` on POST, as `DeletionMixin.post` ran it before
      Django 4.0 and as the view evidently intends (see
      `DeletePostAsWritten`): a visible recipe is removed, clearing the
      references dishes and sessions held to it. */
  method DeleteRecipe(store: Store, user: UserId, pk: nat) returns (res: Result<(), Failure>)
    requires store.db.Valid()
    modifies store
    ensures store.db.Valid()
    ensures res.Err? <==> LookupOwned(old(store.db.recipes), RecipeOwner, user, pk).Err?
    ensures res.Err? ==> res.error == NotFound && store.db == old(store.db)
    ensures res.Ok? ==>
              store.db == old(store.db).(recipes := old(store.db.recipes).Remove({pk}),
                                        dishes := ClearDefaultRecipe(old(store.db.dishes), pk),
                                        sessions := ClearRecipeUsed(old(store.db.sessions), pk))
  {
    var _ :- LookupOwned(store.db.recipes, RecipeOwner, user, pk);
    store.DeleteRecipe(pk);
    res := Ok(());
  }

  // ---------------------------------------------------------------------
  // Dishes
  // ---------------------------------------------------------------------

  /** `DishCreateView`. The form rejects a default recipe the user cannot
      see; the `(created_by, name)` constraint is not among the form's
      checks (`created_by` is not a form field), so a duplicate name gets as
      far as the INSERT, which raises `IntegrityError`. */
  method CreateDish(store: Store, user: UserId, form: Dish, now: Instant) returns (res: Result<nat, Failure>)
    requires store.db.Valid() && user in store.db.users
    modifies store
    ensures store.db.Valid()
    ensures res.Err? ==> store.db == old(store.db)
    ensures Forms.DishFormErrors(old(store.db), user, form) != [] ==>
              res == Err(Invalid(Forms.DishFormErrors(old(store.db), user, form)))
    ensures Forms.DishFormErrors(old(store.db), user, form) == [] ==>
              var obj := SavedDish(BlankDish(now), form, user, now);
              && (res.Err? <==> NameTaken(old(store.db.dishes.rows), obj, None))
              && (res.Err? ==> res.error == IntegrityError)
              && (res.Ok? ==> res.value == old(store.db.dishes.next)
                              && store.db == old(store.db).(dishes := old(store.db.dishes).Insert(obj)))
  {
    var errs := Forms.DishFormErrors(store.db, user, form);
    if errs != [] {
      return Err(Invalid(errs));
    }
    var obj := SavedDish(BlankDish(now), form, user, now);
    AcceptedDishRefsOk(store.db, user, form, obj);
    res := store.InsertDish(obj, now);
    assert obj.(updatedAt := now) == obj;
  }

  /** `DishUpdateView`: the lookup first, then the form, then the save. */
  method UpdateDish(store: Store, user: UserId, pk: nat, form: Dish, now: Instant) returns (res: Result<nat, Failure>)
    requires store.db.Valid() && user in store.db.users
    modifies store
    ensures store.db.Valid()
    ensures res.Err? ==> store.db == old(store.db)
    ensures LookupOwned(old(store.db.dishes), DishOwner, user, pk).Err? ==> res == Err(NotFound)
    ensures LookupOwned(old(store.db.dishes), DishOwner, user, pk).Ok?
            && Forms.DishFormErrors(old(store.db), user, form) != [] ==>
              res == Err(Invalid(Forms.DishFormErrors(old(store.db), user, form)))
    ensures LookupOwned(old(store.db.dishes), DishOwner, user, pk).Ok?
            && Forms.DishFormErrors(old(store.db), user, form) == [] ==>
              var obj := SavedDish(old(store.db.dishes.rows[pk]), form, user, now);
              && (res.Err? <==> NameTaken(old(store.db.dishes.rows), obj, Some(pk)))
              && (res.Err? ==> res.error == IntegrityError)
              && (res.Ok? ==> res.value == pk
                              && store.db == old(store.db).(dishes := old(store.db.dishes).Update(pk, obj))
                              && store.db.dishes.rows[pk].owner == Some(user))
  {
    var inst :- LookupOwned(store.db.dishes, DishOwner, user, pk);
    var errs := Forms.DishFormErrors(store.db, user, form);
    if errs != [] {
      return Err(Invalid(errs));
    }
    var obj := SavedDish(inst, form, user, now);
    AcceptedDishRefsOk(store.db, user, form, obj);
    res := store.SaveDish(pk, obj, now);
    assert obj.(updatedAt := now) == obj;
  }

  /** `DishDeleteView` on POST, as intended (see `DeletePostAsWritten`): a
      dish any session still names, whoever owns that session, is refused
      with `ProtectedError`. */
  method DeleteDish(store: Store, user: UserId, pk: nat) returns (res: Result<(), Failure>)
    requires store.db.Valid()
    modifies store
    ensures store.db.Valid()
    ensures res.Err? ==> store.db == old(store.db)
    ensures LookupOwned(old(store.db.dishes), DishOwner, user, pk).Err? ==> res == Err(NotFound)
    ensures LookupOwned(old(store.db.dishes), DishOwner, user, pk).Ok? ==>
              && (res.Err? <==> exists s :: s in old(store.db.sessions.rows) && old(store.db.sessions.rows)[s].dish == pk)
              && (res.Err? ==> res.error == ProtectedError)
              && (res.Ok? ==> store.db == old(store.db).(dishes := old(store.db.dishes).Remove({pk})))
  {
    var _ :- LookupOwned(store.db.dishes, DishOwner, user, pk);
    res := store.DeleteDish(pk);
  }

  // ---------------------------------------------------------------------
  // Sessions
  // ---------------------------------------------------------------------

  /** `CookSessionCreateView.get_initial`: `?dish=<pk>` preselects the dish. */
  function SessionInitial(params: map<string, string>): (r: map<string, string>)
    ensures "dish" in r <==> "dish" in params && params["dish"] != ""
    ensures "dish" in r ==> r["dish"] == params["dish"]
    ensures r.Keys <= {"dish"}
  {
    if "dish" in params && params["dish"] != "" then map["dish" := params["dish"]] else map[]
  }

  /** `CookSessionCreateView`: the form accepts only a dish, and a recipe
      if one is named, that the user can see. */
  method CreateSession(store: Store, user: UserId, form: CookSession, now: Instant) returns (res: Result<nat, Failure>)
    requires store.db.Valid() && user in store.db.users
    modifies store
    ensures store.db.Valid()
    ensures res.Err? ==> store.db == old(store.db)
    ensures Forms.CookSessionFormErrors(old(store.db), user, form) != [] ==>
              res == Err(Invalid(Forms.CookSessionFormErrors(old(store.db), user, form)))
    ensures Forms.CookSessionFormErrors(old(store.db), user, form) == [] ==>
              res.Ok? && res.value == old(store.db.sessions.next)
              && store.db == old(store.db).(sessions := old(store.db.sessions).Insert(
                   SavedSession(BlankCookSession(form.dish, form.cookedOn, now), form, user, now)))
  {
    var errs := Forms.CookSessionFormErrors(store.db, user, form);
    if errs != [] {
      return Err(Invalid(errs));
    }
    var obj := SavedSession(BlankCookSession(form.dish, form.cookedOn, now), form, user, now);
    AcceptedSessionRefsOk(store.db, user, form, obj);
    res := store.InsertSession(obj, now);
    assert obj.(updatedAt := now) == obj;
  }

  /** `CookSessionUpdateView`. */
  method UpdateSession(store: Store, user: UserId, pk: nat, form: CookSession, now: Instant) returns (res: Result<nat, Failure>)
    requires store.db.Valid() && user in store.db.users
    modifies store
    ensures store.db.Valid()
    ensures res.Err? ==> store.db == old(store.db)
    ensures LookupOwned(old(store.db.sessions), CookSessionOwner, user, pk).Err? ==> res == Err(NotFound)
    ensures LookupOwned(old(store.db.sessions), CookSessionOwner, user, pk).Ok?
            && Forms.CookSessionFormErrors(old(store.db), user, form) != [] ==>
              res == Err(Invalid(Forms.CookSessionFormErrors(old(store.db), user, form)))
    ensures LookupOwned(old(store.db.sessions), CookSessionOwner, user, pk).Ok?
            && Forms.CookSessionFormErrors(old(store.db), user, form) == [] ==>
              res == Ok(pk)
              && store.db == old(store.db).(sessions := old(store.db.sessions).Update(
                   pk, SavedSession(old(store.db.sessions.rows[pk]), form, user, now)))
              && store.db.sessions.rows[pk].owner == Some(user)
  {
    var inst :- LookupOwned(store.db.sessions, CookSessionOwner, user, pk);
    var errs := Forms.CookSessionFormErrors(store.db, user, form);
    if errs != [] {
      return Err(Invalid(errs));
    }
    var obj := SavedSession(inst, form, user, now);
    AcceptedSessionRefsOk(store.db, user, form, obj);
    res := store.SaveSession(pk, obj, now);
    assert obj.(updatedAt := now) == obj;
  }

  /** `CookSessionDeleteView` on POST, as intended (see
      `DeletePostAsWritten`): the session and its result go. */
  method DeleteSession(store: Store, user: UserId, pk: nat) returns (res: Result<(), Failure>)
    requires store.db.Valid()
    modifies store
    ensures store.db.Valid()
    ensures old(store.db.RatingsInRange()) ==> store.db.RatingsInRange()
    ensures res.Err? <==> LookupOwned(old(store.db.sessions), CookSessionOwner, user, pk).Err?
    ensures res.Err? ==> res.error == NotFound && store.db == old(store.db)
    ensures res.Ok? ==>
              store.db == old(store.db).(sessions := old(store.db.sessions).Remove({pk}),
                                        results := CascadeResults(old(store.db.results), pk))
  {
    var _ :- LookupOwned(store.db.sessions, CookSessionOwner, user, pk);
    store.DeleteSession(pk);
    res := Ok(());
  }

  // ---------------------------------------------------------------------
  // The answers of the create and delete views as written
  // ---------------------------------------------------------------------

  // The create and delete methods above are the views as they evidently
  // mean to behave. Two steps of Django's generic views keep the code as
  // written from getting there; both are recorded under Findings.

  /** `get_success_url` of the recipe, dish and session create views:
      `self.object.pk`, or `AttributeError` when `self.object` is `None`.
      The `Ok` value is the key of the detail page redirected to. */
  function SuccessRedirect(held: Option<nat>): (r: Result<nat, Failure>)
    ensures r.Ok? <==> held.Some?
    ensures r.Ok? ==> r.value == held.value
    ensures r.Err? ==> r.error == ServerError
  {
    if held.Some? then Ok(held.value) else Err(ServerError)
  }

  /** The answer of a create view's POST as written, given what the
      corrected view answers (`CreateRecipe`, `CreateDish`,
      `CreateSession`). Form and database errors are answered the same way.
      Once the row is saved, `self.held` is still the `None` that
      `BaseCreateView.post` set, because `OwnedQuerysetMixin.form_valid`
      saves a local `obj` and never assigns it; the redirect then raises. */
  function CreateAnswerAsWritten(saved: Result<nat, Failure>): (r: Result<nat, Failure>)
    ensures r.Err?
    ensures saved.Err? ==> r == saved
    ensures saved.Ok? ==> r == Err(ServerError)
  {
    if saved.Err? then saved
    else
      var held: Option<nat> := None;
      SuccessRedirect(held)
  }

  /** `RecipeCreateView` on a valid form, as written: the recipe is saved,
      and the answer is a server error instead of the redirect to it. */
  method CreateRecipeAsWritten(store: Store, user: UserId, form: Recipe, now: Instant) returns (res: Result<nat, Failure>)
    requires store.db.Valid() && user in store.db.users
    modifies store
    ensures store.db.Valid()
    ensures store.db == old(store.db).(recipes := old(store.db.recipes).Insert(SavedRecipe(BlankRecipe(now), form, user, now)))
    ensures res == Err(ServerError)
  {
    var pk := CreateRecipe(store, user, form, now);
    res := CreateAnswerAsWritten(Ok(pk));
  }

  /** With the object assigned, as `ModelFormMixin.form_valid` would do,
      the answer is the corrected view's: a saved row redirects to its own
      detail page, which opens for the user who saved it. */
  lemma CreateRedirectsToNewRow(db: Db, user: UserId, form: Recipe, now: Instant)
    requires db.recipes.Valid()
    ensures var t := db.recipes.Insert(SavedRecipe(BlankRecipe(now), form, user, now));
            SuccessRedirect(Some(db.recipes.next)) == Ok(db.recipes.next)
            && RecipeDetail(db.(recipes := t), user, db.recipes.next).Ok?
            && CreateAnswerAsWritten(Ok(db.recipes.next)) == Err(ServerError)
  {
    CreatedRecipeIsPrivate(db, form, user, user + 1, now);
  }

  /** The POST of the recipe, dish and session delete views as written, on
      Django 4.0 and later: `BaseDeleteView.post` looks the row up (a 404
      when the user cannot see it), builds a plain `Form` and calls
      `self.form_valid`, which resolves to `OwnedQuerysetMixin.form_valid`.
      Its `form.save(commit=False)` does not exist on a plain form and
      raises before anything is deleted. No database is returned: the POST
      never changes one. */
  function DeletePostAsWritten<T>(t: Table<T>, owner: T -> Owner, user: UserId, pk: nat): (r: Failure)
    ensures r == NotFound <==> LookupOwned(t, owner, user, pk).Err?
    ensures r != NotFound ==> r == ServerError
  {
    if LookupOwned(t, owner, user, pk).Err? then NotFound else ServerError
  }

  /** User 1 and one recipe of theirs, which nothing references. */
  function OwnRecipeExample(): (db: Db)
    ensures 1 in db.recipes.rows && db.recipes.rows[1].owner == Some(1)
  {
    Db({1}, Table(map[1 := BlankRecipe(0).(owner := Some(1), title := "Soup")], 2),
       EmptyTable(), EmptyTable(), EmptyTable(), EmptyTable(), EmptyTable(), EmptyTable(), EmptyTable())
  }

  /** User 1 deletes their own recipe: as written the POST is a server
      error and the recipe stays, while the lookup that `DeleteRecipe`
      starts with succeeds, so the corrected view removes it. */
  lemma DeleteOwnRecipeFails()
    ensures var db := OwnRecipeExample();
            db.Valid()
            && LookupOwned(db.recipes, RecipeOwner, 1, 1).Ok?
            && DeletePostAsWritten(db.recipes, RecipeOwner, 1, 1) == ServerError
            && 1 in db.recipes.rows
  {
    var db := OwnRecipeExample();
    assert db.ForeignKeysHold();
  }

  // ---------------------------------------------------------------------
  // A session's result
  // ---------------------------------------------------------------------

  /** The result `dispatch` hands to the update view: the session's stored
      result, or the one `get_or_create` is about to insert. */
  datatype Slot = Existing(pk: nat) | Fresh

  /** `CookResultCreateUpdateView.dispatch` as written: the session is
      looked up under `owned_q`, its result is not. */
  function DispatchAsWritten(db: Db, user: UserId, sessionPk: nat): (r: Result<Slot, Failure>)
    ensures r.Err? <==> LookupOwned(db.sessions, CookSessionOwner, user, sessionPk).Err?
    ensures r.Err? ==> r.error == NotFound
    ensures r.Ok? ==> (r.value.Fresh? <==> ResultFor(db.results, sessionPk).None?)
    ensures r.Ok? && r.value.Existing? ==>
              r.value.pk in db.results.rows && db.results.rows[r.value.pk].cookSession == sessionPk
  {
    var _ :- LookupOwned(db.sessions, CookSessionOwner, user, sessionPk);
    var existing := ResultFor(db.results, sessionPk);
    if existing.Some? then Ok(Existing(existing.value)) else Ok(Fresh)
  }

  /** `dispatch` with the existing result also looked up under `owned_q`,
      as `CookResultDetailView` does: a result created by somebody else is
      `NotFound`. */
  function Dispatch(db: Db, user: UserId, sessionPk: nat): (r: Result<Slot, Failure>)
    ensures r.Ok? ==> r == DispatchAsWritten(db, user, sessionPk)
    ensures r.Ok? && r.value.Existing? ==> OwnedQ(db.results.rows[r.value.pk].owner, user)
    ensures r.Err? ==> r.error == NotFound
    ensures DispatchAsWritten(db, user, sessionPk).Ok? && r.Err? ==>
              var slot := DispatchAsWritten(db, user, sessionPk).value;
              slot.Existing? && !OwnedQ(db.results.rows[slot.pk].owner, user)
  {
    var slot :- DispatchAsWritten(db, user, sessionPk);
    if slot.Existing? && !OwnedQ(db.results.rows[slot.pk].owner, user) then Err(NotFound) else Ok(slot)
  }

  /** Whatever the edit page opens, the detail page would show. */
  lemma DispatchAgreesWithDetail(db: Db, user: UserId, sessionPk: nat)
    requires Dispatch(db, user, sessionPk).Ok? && Dispatch(db, user, sessionPk).value.Existing?
    ensures ResultDetail(db, user, Dispatch(db, user, sessionPk).value.pk).Ok?
  {
  }

  /** A shared session (no creator) whose result user 1 created: user 2
      reaches that result through the edit page as written, while the
      detail page and the corrected dispatch both refuse it. */
  lemma DispatchLeaksResult()
    ensures var db := LeakExample();
            db.Valid()
            && DispatchAsWritten(db, 2, 1) == Ok(Existing(1))
            && ResultDetail(db, 2, 1) == Err(NotFound)
            && Dispatch(db, 2, 1) == Err(NotFound)
            && Dispatch(db, 1, 1) == Ok(Existing(1))
  {
    var db := LeakExample();
    assert db.results.rows[1].cookSession == 1;
    ResultForUnique(db.results, 1, 1);
  }

  /** Users 1 and 2, one shared dish with one shared session, and that
      session's result created by user 1. */
  function LeakExample(): (db: Db)
    ensures db.results.Valid() && OneResultPerSession(db.results.rows)
  {
    var dish := Dish(None, 0, 0, "Soup", "", None, true);
    var session := CookSession(None, 0, 0, 1, None, 0, OtherMeal, OtherMethod, None, "", true);
    var result := BlankCookResult(1, Some(1), 0);
    Db({1, 2}, EmptyTable(), Table(map[1 := dish], 2), Table(map[1 := session], 2), Table(map[1 := result], 2),
       EmptyTable(), EmptyTable(), EmptyTable(), EmptyTable())
  }

  /** After `get_or_create` has inserted the result, the next dispatch finds
      it: dispatching twice opens the same result. */
  lemma DispatchStable(db: Db, user: UserId, sessionPk: nat, now: Instant)
    requires db.Valid() && Dispatch(db, user, sessionPk) == Ok(Fresh)
    ensures var db1 := db.(results := db.results.Insert(BlankCookResult(sessionPk, Some(user), now)));
            Dispatch(db1, user, sessionPk) == Ok(Existing(db.results.next))
  {
    var db1 := db.(results := db.results.Insert(BlankCookResult(sessionPk, Some(user), now)));
    assert OneResultPerSession(db1.results.rows) by {
      forall p, q | p in db1.results.rows && q in db1.results.rows
                    && db1.results.rows[p].cookSession == db1.results.rows[q].cookSession
        ensures p == q
      {
      }
    }
    ResultForUnique(db1.results, sessionPk, db.results.next);
  }

  /** What the form saves over a result: the submitted fields on the stored
      instance. `UpdateView.form_valid` saves without stamping an owner. */
  function SavedResult(inst: CookResult, form: CookResult, now: Instant): (c: CookResult)
    ensures c.owner == inst.owner && c.createdAt == inst.createdAt && c.cookSession == inst.cookSession
    ensures c.updatedAt == now && RatingsValid(c) == RatingsValid(form)
    ensures c.(owner := form.owner, createdAt := form.createdAt, updatedAt := form.updatedAt,
               cookSession := form.cookSession) == form
  {
    form.(owner := inst.owner, createdAt := inst.createdAt, updatedAt := now, cookSession := inst.cookSession)
  }

  /** The database once `dispatch` has run `get_or_create` for a slot. */
  function AfterDispatch(db: Db, slot: Slot, sessionPk: nat, user: UserId, now: Instant): Db {
    if slot.Fresh? then db.(results := db.results.Insert(BlankCookResult(sessionPk, Some(user), now))) else db
  }

  function SlotKey(db: Db, slot: Slot): nat {
    if slot.Fresh? then db.results.next else slot.pk
  }

  /** `dispatch` with the corrected lookup, then `get_or_create`: the key of
      the result the page edits. */
  method OpenResult(store: Store, user: UserId, sessionPk: nat, now: Instant) returns (res: Result<nat, Failure>)
    requires store.db.Valid() && user in store.db.users
    modifies store
    ensures store.db.Valid()
    ensures old(store.db.RatingsInRange()) ==> store.db.RatingsInRange()
    ensures Dispatch(old(store.db), user, sessionPk).Err? ==> res == Err(NotFound) && store.db == old(store.db)
    ensures Dispatch(old(store.db), user, sessionPk).Ok? ==>
              var slot := Dispatch(old(store.db), user, sessionPk).value;
              res == Ok(SlotKey(old(store.db), slot))
              && store.db == AfterDispatch(old(store.db), slot, sessionPk, user, now)
    ensures res.Ok? ==> res.value in store.db.results.rows && store.db.results.rows[res.value].cookSession == sessionPk
  {
    var slot :- Dispatch(store.db, user, sessionPk);
    var pk, created := store.GetOrCreateResult(sessionPk, Some(user), now);
    res := Ok(pk);
  }

  /** Overwriting one result with a result whose ratings are in range keeps
      every rating in range. */
  lemma RatingsKept(db: Db, pk: nat, c: CookResult)
    requires pk in db.results.rows && RatingsValid(c)
    ensures db.RatingsInRange() ==> db.(results := db.results.Update(pk, c)).RatingsInRange()
  {
  }

  /** `CookResultCreateUpdateView`, with the corrected dispatch. `post` is
      the submitted form, or nothing on a GET. The result exists once
      dispatch has run, even when the POST then fails validation. Only the
      four ratings are checked, against 1..10. */
  method EditResult(store: Store, user: UserId, sessionPk: nat, post: Option<CookResult>, now: Instant)
    returns (res: Result<nat, Failure>)
    requires store.db.Valid() && user in store.db.users
    modifies store
    ensures store.db.Valid()
    ensures old(store.db.RatingsInRange()) ==> store.db.RatingsInRange()
    ensures Dispatch(old(store.db), user, sessionPk).Err? ==> res == Err(NotFound) && store.db == old(store.db)
    ensures Dispatch(old(store.db), user, sessionPk).Ok? ==>
              var slot := Dispatch(old(store.db), user, sessionPk).value;
              var db1 := AfterDispatch(old(store.db), slot, sessionPk, user, now);
              var pk := SlotKey(old(store.db), slot);
              && pk in db1.results.rows && db1.results.rows[pk].cookSession == sessionPk
              && (post.None? ==> res == Ok(pk) && store.db == db1)
              && (post.Some? && !RatingsValid(post.value) ==>
                    res == Err(Invalid(RatingErrors(post.value))) && store.db == db1)
              && (post.Some? && RatingsValid(post.value) ==>
                    res == Ok(pk)
                    && store.db == db1.(results := db1.results.Update(pk, SavedResult(db1.results.rows[pk], post.value, now))))
  {
    var pk :- OpenResult(store, user, sessionPk, now);
    ghost var db1 := store.db;
    if post.None? {
      return Ok(pk);
    }
    var errs := RatingErrors(post.value);
    if errs != [] {
      return Err(Invalid(errs));
    }
    var obj := SavedResult(store.db.results.rows[pk], post.value, now);
    assert !SessionTaken(store.db.results.rows, obj.cookSession, Some(pk));
    res := store.SaveResult(pk, obj, now);
    assert store.db == db1.(results := db1.results.Update(pk, obj.(updatedAt := now)));
    assert obj.(updatedAt := now) == obj;
    RatingsKept(db1, pk, obj);
  }
}
