/** The model forms: their fields and widgets, `_apply_bootstrap`'s CSS
    class rule, and the choice querysets `DishForm` and `CookSessionForm`
    restrict to the rows the user may see. */
module Forms {
  import opened Wrappers
  import opened Models
  import opened Text
  import opened Tables
  import opened Ordering
  import Ownership
  import opened Database

  /** `_owned_q(user)`, the forms' own copy of the ownership rule. */
  predicate OwnedQ(owner: Owner, user: UserId) {
    owner == Some(user) || owner.None?
  }

  /** The forms and the views apply one and the same rule. */
  lemma OwnedQAgreesWithViews(owner: Owner, user: UserId)
    ensures OwnedQ(owner, user) <==> Ownership.OwnedQ(owner, user)
  {
  }

  // ---------------------------------------------------------------------
  // Widgets and _apply_bootstrap
  // ---------------------------------------------------------------------

  /** The widget classes the forms end up with. `SelectMultiple` and
      `NullBooleanSelect` are subclasses of `Select`. */
  datatype Widget =
    | TextInput | Textarea | NumberInput | URLInput | DateInput | DateTimeInput
    | ClearableFileInput | CheckboxInput | Select | SelectMultiple | NullBooleanSelect

  /** `isinstance(widget, (forms.Select, forms.SelectMultiple))` */
  predicate IsSelect(w: Widget) {
    w == Select || w == SelectMultiple || w == NullBooleanSelect
  }

  /** The class `_apply_bootstrap` chooses: checkboxes first, then selects,
      then everything else. */
  function BootstrapClass(w: Widget): (c: string)
    ensures c == "form-check-input" <==> w == CheckboxInput
    ensures c == "form-select" <==> IsSelect(w)
    ensures c == "form-control" <==> w != CheckboxInput && !IsSelect(w)
  {
    if w == CheckboxInput then "form-check-input"
    else if IsSelect(w) then "form-select"
    else "form-control"
  }

  /** A bound form field: its name, its widget with the widget's `attrs`,
      and, for a model choice field, the primary keys its queryset offers
      in order. */
  datatype FormField = FormField(name: string, widget: Widget, attrs: map<string, string>, choices: Option<seq<nat>>)

  /** `_apply_bootstrap(field)`: `attrs.setdefault("class", ...)`. */
  function ApplyBootstrap(f: FormField): (g: FormField)
    ensures g == f.(attrs := g.attrs)
    ensures "class" in g.attrs
    ensures "class" in f.attrs ==> g.attrs == f.attrs
    ensures "class" !in f.attrs ==> g.attrs == f.attrs["class" := BootstrapClass(f.widget)]
  {
    if "class" in f.attrs then f else f.(attrs := f.attrs["class" := BootstrapClass(f.widget)])
  }

  /** Applying the rule a second time changes nothing. */
  lemma ApplyBootstrapIdempotent(f: FormField)
    ensures ApplyBootstrap(ApplyBootstrap(f)) == ApplyBootstrap(f)
  {
  }

  /** An existing class is never replaced, and a missing one is the
      widget's class. */
  lemma ApplyBootstrapClass(f: FormField)
    ensures "class" in f.attrs ==> ApplyBootstrap(f).attrs["class"] == f.attrs["class"]
    ensures "class" !in f.attrs ==> ApplyBootstrap(f).attrs["class"] == BootstrapClass(f.widget)
    ensures forall k :: k in f.attrs && k != "class" ==> ApplyBootstrap(f).attrs[k] == f.attrs[k]
  {
  }

  // ---------------------------------------------------------------------
  // Choice querysets
  // ---------------------------------------------------------------------

  /** The keys of a query's rows, in order. */
  function Pks<T>(rows: seq<Row<T>>): (r: seq<nat>)
    ensures |r| == |rows|
    ensures forall i :: 0 <= i < |r| ==> r[i] == rows[i].pk
  {
    seq(|rows|, i requires 0 <= i < |rows| => rows[i].pk)
  }

  /** The recipes a recipe choice field offers. Without a user it is the
      default queryset `Recipe.objects.all()` in `Meta.ordering`; with one it
      is `Recipe.objects.filter(_owned_q(user)).order_by("title")`. */
  function RecipeChoiceRows(db: Db, user: Option<UserId>): (r: seq<Row<Recipe>>)
    ensures forall i :: 0 <= i < |r| ==> r[i].pk in db.recipes.rows && db.recipes.rows[r[i].pk] == r[i].val
    ensures user.Some? ==> forall i :: 0 <= i < |r| ==> OwnedQ(r[i].val.owner, user.value)
    ensures db.recipes.Valid() ==>
              forall pk :: pk in db.recipes.rows && (user.None? || OwnedQ(db.recipes.rows[pk].owner, user.value))
                ==> Row(pk, db.recipes.rows[pk]) in r
    ensures user.None? ==> SortedBy(r, RecipeOrder)
    ensures user.Some? ==> SortedBy(r, TitleOrder)
  {
    if user.None? then
      var r := SortedRows(AllRows(db.recipes), RecipeOrder);
      r
    else
      var r := SortedRows(Ownership.VisibleTableRows(db.recipes, Ownership.RecipeOwner, user.value), TitleOrder);
      r
  }

  /** The dishes a dish choice field offers, by name: all of them without a
      user, the visible ones with one. */
  function DishChoiceRows(db: Db, user: Option<UserId>): (r: seq<Row<Dish>>)
    ensures forall i :: 0 <= i < |r| ==> r[i].pk in db.dishes.rows && db.dishes.rows[r[i].pk] == r[i].val
    ensures user.Some? ==> forall i :: 0 <= i < |r| ==> OwnedQ(r[i].val.owner, user.value)
    ensures db.dishes.Valid() ==>
              forall pk :: pk in db.dishes.rows && (user.None? || OwnedQ(db.dishes.rows[pk].owner, user.value))
                ==> Row(pk, db.dishes.rows[pk]) in r
    ensures SortedBy(r, DishOrder)
  {
    if user.None? then
      var r := SortedRows(AllRows(db.dishes), DishOrder);
      r
    else
      var r := SortedRows(Ownership.VisibleTableRows(db.dishes, Ownership.DishOwner, user.value), DishOrder);
      r
  }

  /** A queryset put in the order of a choice field: the same rows, sorted. */
  function SortedRows<T>(base: seq<Row<T>>, key: Row<T> -> seq<int>): (r: seq<Row<T>>)
    ensures forall i :: 0 <= i < |r| ==> r[i] in base
    ensures forall i :: 0 <= i < |base| ==> base[i] in r
    ensures SortedBy(r, key)
  {
    var r := SortBy(base, key);
    SameElements(base, r);
    r
  }

  /** A key is offered by a choice field exactly when its row exists and,
      with a user, is visible to that user. */
  lemma RecipeChoicesExact(db: Db, user: Option<UserId>, pk: nat)
    requires db.recipes.Valid()
    ensures pk in Pks(RecipeChoiceRows(db, user)) <==>
              pk in db.recipes.rows && (user.None? || OwnedQ(db.recipes.rows[pk].owner, user.value))
  {
    var r := RecipeChoiceRows(db, user);
    if pk in db.recipes.rows && (user.None? || OwnedQ(db.recipes.rows[pk].owner, user.value)) {
      var i :| 0 <= i < |r| && r[i] == Row(pk, db.recipes.rows[pk]);
      assert Pks(r)[i] == pk;
    }
  }

  lemma DishChoicesExact(db: Db, user: Option<UserId>, pk: nat)
    requires db.dishes.Valid()
    ensures pk in Pks(DishChoiceRows(db, user)) <==>
              pk in db.dishes.rows && (user.None? || OwnedQ(db.dishes.rows[pk].owner, user.value))
  {
    var r := DishChoiceRows(db, user);
    if pk in db.dishes.rows && (user.None? || OwnedQ(db.dishes.rows[pk].owner, user.value)) {
      var i :| 0 <= i < |r| && r[i] == Row(pk, db.dishes.rows[pk]);
      assert Pks(r)[i] == pk;
    }
  }

  /** A row of another user is never offered once the form has a user. */
  lemma OtherUsersRecipesNotOffered(db: Db, user: UserId, pk: nat)
    requires pk in db.recipes.rows && db.recipes.rows[pk].owner.Some?
    requires db.recipes.rows[pk].owner != Some(user)
    ensures pk !in Pks(RecipeChoiceRows(db, Some(user)))
  {
  }

  // ---------------------------------------------------------------------
  // Form classes
  // ---------------------------------------------------------------------

  function Field(name: string, widget: Widget): FormField {
    FormField(name, widget, map[], None)
  }

  function FieldWith(name: string, widget: Widget, key: string, value: string): FormField {
    FormField(name, widget, map[key := value], None)
  }

  function ChoiceField(name: string, choices: seq<nat>): FormField {
    FormField(name, Select, map[], Some(choices))
  }

  /** No field of the form declares a CSS class of its own, so after
      `__init__` each carries exactly the class its widget calls for. */
  predicate DeclaresNoClass(fields: seq<FormField>) {
    forall i :: 0 <= i < |fields| ==> "class" !in fields[i].attrs
  }

  /** `RecipeForm.Meta.fields` with their widgets. The `attrs` of a field are
      only those its `Meta.widgets` entry declares; the attributes Django
      derives from the model field (`maxlength`, `min`, `accept`) are not
      modelled, and none of them is `class`. */
  function RecipeFormFields(): (r: seq<FormField>)
    ensures DeclaresNoClass(r)
  {
    [Field("title", TextInput), FieldWith("description", Textarea, "rows", "3"),
     Field("author", TextInput), FieldWith("ingredients", Textarea, "rows", "6"),
     FieldWith("instructions", Textarea, "rows", "8"), Field("yield_text", TextInput),
     Field("prep_minutes", NumberInput), Field("cook_minutes", NumberInput),
     Field("is_favorite", CheckboxInput), Field("is_active", CheckboxInput)]
  }

  /** `DishForm.Meta.fields`; `default_recipe` starts with the default queryset. */
  function DishFormFields(db: Db): (r: seq<FormField>)
    ensures |r| == 4 && r[2].name == "default_recipe" && DeclaresNoClass(r)
    ensures forall i :: 0 <= i < 4 && i != 2 ==> r[i].name != "default_recipe"
    ensures r[2].choices == Some(Pks(RecipeChoiceRows(db, None)))
  {
    DishFields(Pks(RecipeChoiceRows(db, None)))
  }

  /** The dish form's fields, given the keys `default_recipe` offers. */
  function DishFields(recipes: seq<nat>): (r: seq<FormField>)
    ensures |r| == 4 && r[2].name == "default_recipe" && DeclaresNoClass(r)
    ensures forall i :: 0 <= i < 4 && i != 2 ==> r[i].name != "default_recipe"
    ensures r[2].choices == Some(recipes)
  {
    var r := [Field("name", TextInput), FieldWith("description", Textarea, "rows", "4"),
              ChoiceField("default_recipe", recipes),
              Field("is_active", CheckboxInput)];
    assert forall i :: 0 <= i < 4 && i != 2 ==> |r[i].name| != |"default_recipe"|;
    r
  }

  /** `CookSessionForm.Meta.fields`; `dish` and `recipe_used` start with the
      default querysets. */
  function CookSessionFormFields(db: Db): (r: seq<FormField>)
    ensures |r| == 9 && r[0].name == "dish" && r[1].name == "recipe_used" && DeclaresNoClass(r)
    ensures forall i :: 1 <= i < 9 ==> r[i].name != "dish"
    ensures forall i :: 0 <= i < 9 && i != 1 ==> r[i].name != "recipe_used"
    ensures r[0].choices == Some(Pks(DishChoiceRows(db, None)))
    ensures r[1].choices == Some(Pks(RecipeChoiceRows(db, None)))
  {
    SessionFields(Pks(DishChoiceRows(db, None)), Pks(RecipeChoiceRows(db, None)))
  }

  /** The session form's fields, given the keys `dish` and `recipe_used`
      offer. No other field bears either name. */
  function SessionFields(dishes: seq<nat>, recipes: seq<nat>): (r: seq<FormField>)
    ensures |r| == 9 && r[0].name == "dish" && r[1].name == "recipe_used" && DeclaresNoClass(r)
    ensures forall i :: 1 <= i < 9 ==> r[i].name != "dish"
    ensures forall i :: 0 <= i < 9 && i != 1 ==> r[i].name != "recipe_used"
    ensures r[0].choices == Some(dishes) && r[1].choices == Some(recipes)
  {
    var r := [ChoiceField("dish", dishes),
              ChoiceField("recipe_used", recipes),
              FieldWith("cooked_on", DateInput, "type", "date"),
              Field("meal_type", Select), Field("method", Select),
              Field("servings_made", NumberInput), Field("duration_minutes", NumberInput),
              Field("summary", TextInput), Field("is_active", CheckboxInput)];
    assert forall i :: 1 <= i < 9 ==> |r[i].name| != |"dish"|;
    assert forall i :: 0 <= i < 9 && i != 1 ==> |r[i].name| != |"recipe_used"|;
    r
  }

  function CookResultFormFields(): (r: seq<FormField>)
    ensures DeclaresNoClass(r)
  {
    [Field("outcome", Select),
     Field("overall_rating", NumberInput), Field("taste_rating", NumberInput),
     Field("texture_rating", NumberInput), Field("appearance_rating", NumberInput),
     Field("would_make_again", CheckboxInput),
     FieldWith("what_worked", Textarea, "rows", "4"),
     FieldWith("what_to_change", Textarea, "rows", "4"),
     FieldWith("next_time_plan", Textarea, "rows", "4")]
  }

  function NoteFormFields(): (r: seq<FormField>)
    ensures DeclaresNoClass(r)
  {
    [Field("title", TextInput), FieldWith("body", Textarea, "rows", "8"), Field("is_pinned", CheckboxInput)]
  }

  function ReferenceURLFormFields(): (r: seq<FormField>)
    ensures DeclaresNoClass(r)
  {
    [Field("kind", Select), Field("title", TextInput), Field("url", URLInput),
     FieldWith("description", Textarea, "rows", "4"),
     Field("sort_order", NumberInput), Field("is_primary", CheckboxInput)]
  }

  function TrackedImageFormFields(): (r: seq<FormField>)
    ensures DeclaresNoClass(r)
  {
    [Field("image", ClearableFileInput), Field("caption", TextInput), Field("alt_text", TextInput),
     FieldWith("taken_at", DateTimeInput, "type", "datetime-local"),
     Field("sort_order", NumberInput), Field("is_cover", CheckboxInput)]
  }

  function PDFDocumentFormFields(): (r: seq<FormField>)
    ensures DeclaresNoClass(r)
  {
    [Field("kind", Select), Field("title", TextInput),
     FieldWith("description", Textarea, "rows", "4"), Field("pdf", ClearableFileInput),
     Field("page_count", NumberInput), Field("sort_order", NumberInput)]
  }



  /** `self.fields[name].queryset = ...`: the named field now offers `pks`. */
  function WithChoices(fields: seq<FormField>, name: string, pks: seq<nat>): (r: seq<FormField>)
    ensures |r| == |fields|
    ensures forall i :: 0 <= i < |r| && fields[i].name == name ==> r[i] == fields[i].(choices := Some(pks))
    ensures forall i :: 0 <= i < |r| && fields[i].name != name ==> r[i] == fields[i]
  {
    seq(|fields|, i requires 0 <= i < |fields| =>
      if fields[i].name == name then fields[i].(choices := Some(pks)) else fields[i])
  }

  /** A form instance; its fields are changed in place by `__init__`. */
  class ModelForm {
    var fields: seq<FormField>

    /** `super().__init__()`: the fields the form class declares. */
    constructor (declared: seq<FormField>)
      ensures fields == declared
    {
      fields := declared;
    }

    /** `for field in self.fields.values(): _apply_bootstrap(field)` */
    method Bootstrap()
      modifies this
      ensures |fields| == |old(fields)|
      ensures forall i :: 0 <= i < |fields| ==> fields[i] == ApplyBootstrap(old(fields)[i])
    {
      var i := 0;
      while i < |fields|
        invariant 0 <= i <= |fields| == |old(fields)|
        invariant forall k :: 0 <= k < i ==> fields[k] == ApplyBootstrap(old(fields)[k])
        invariant forall k :: i <= k < |fields| ==> fields[k] == old(fields)[k]
      {
        fields := fields[i := ApplyBootstrap(fields[i])];
        i := i + 1;
      }
    }

    method SetQueryset(name: string, pks: seq<nat>)
      modifies this
      ensures fields == WithChoices(old(fields), name, pks)
    {
      fields := WithChoices(fields, name, pks);
    }
  }

  /** `RecipeForm()` and the other forms whose `__init__` only applies the
      bootstrap classes. */
  method NewPlainForm(declared: seq<FormField>) returns (form: ModelForm)
    ensures fresh(form)
    ensures |form.fields| == |declared|
    ensures forall i :: 0 <= i < |declared| ==> form.fields[i] == ApplyBootstrap(declared[i])
  {
    form := new ModelForm(declared);
    form.Bootstrap();
  }

  /** `DishForm(user=user)`: with a user, `default_recipe` offers only the
      recipes visible to that user, by title; without one it keeps the
      default queryset. */
  method NewDishForm(db: Db, user: Option<UserId>) returns (form: ModelForm)
    ensures fresh(form)
    ensures |form.fields| == 4
    ensures forall i :: 0 <= i < 4 && i != 2 ==> form.fields[i] == ApplyBootstrap(DishFormFields(db)[i])
    ensures form.fields[2] == ApplyBootstrap(DishFormFields(db)[2]).(choices := Some(Pks(RecipeChoiceRows(db, user))))
  {
    form := new ModelForm(DishFormFields(db));
    form.Bootstrap();
    if user.Some? {
      form.SetQueryset("default_recipe", Pks(RecipeChoiceRows(db, user)));
    }
  }

  /** `CookSessionForm(user=user)`: with a user, `dish` and `recipe_used`
      offer only visible rows, by name and by title. */
  method NewCookSessionForm(db: Db, user: Option<UserId>) returns (form: ModelForm)
    ensures fresh(form)
    ensures |form.fields| == 9
    ensures forall i :: 2 <= i < 9 ==> form.fields[i] == ApplyBootstrap(CookSessionFormFields(db)[i])
    ensures form.fields[0] == ApplyBootstrap(CookSessionFormFields(db)[0]).(choices := Some(Pks(DishChoiceRows(db, user))))
    ensures form.fields[1] == ApplyBootstrap(CookSessionFormFields(db)[1]).(choices := Some(Pks(RecipeChoiceRows(db, user))))
  {
    var declared := CookSessionFormFields(db);
    form := new ModelForm(declared);
    form.Bootstrap();
    ghost var boot := form.fields;
    assert forall i :: 0 <= i < 9 ==> boot[i].name == declared[i].name;
    if user.Some? {
      var dishes, recipes := Pks(DishChoiceRows(db, user)), Pks(RecipeChoiceRows(db, user));
      form.SetQueryset("dish", dishes);
      ghost var mid := form.fields;
      assert mid[0] == boot[0].(choices := Some(dishes));
      assert mid[1] == boot[1];
      assert forall i :: 2 <= i < 9 ==> mid[i] == boot[i];
      form.SetQueryset("recipe_used", recipes);
      assert form.fields[0] == mid[0];
      assert form.fields[1] == mid[1].(choices := Some(recipes));
    } else {
      assert declared[0].choices == Some(Pks(DishChoiceRows(db, user)));
      assert declared[1].choices == Some(Pks(RecipeChoiceRows(db, user)));
    }
  }

  // ---------------------------------------------------------------------
  // Choice validation
  // ---------------------------------------------------------------------

  /** The recipe keys a `ModelChoiceField` restricted to `user` accepts. */
  predicate RecipeOffered(db: Db, user: UserId, pk: nat) {
    pk in Pks(RecipeChoiceRows(db, Some(user)))
  }

  /** The dish keys a `ModelChoiceField` restricted to `user` accepts. */
  predicate DishOffered(db: Db, user: UserId, pk: nat) {
    pk in Pks(DishChoiceRows(db, Some(user)))
  }

  /** The fields of a submitted Dish that `DishForm(user=user)` rejects:
      a default recipe it does not offer (a blank one is allowed). */
  function DishFormErrors(db: Db, user: UserId, form: Dish): (errs: seq<string>)
    ensures errs == [] <==> form.defaultRecipe.None? || RecipeOffered(db, user, form.defaultRecipe.value)
    ensures errs == [] || errs == ["default_recipe"]
  {
    if form.defaultRecipe.Some? && !RecipeOffered(db, user, form.defaultRecipe.value) then ["default_recipe"] else []
  }

  /** A submitted dish passes exactly when its default recipe is blank, or
      exists and is visible to the user. */
  lemma DishFormErrorsExact(db: Db, user: UserId, form: Dish)
    requires db.recipes.Valid()
    ensures DishFormErrors(db, user, form) == [] <==>
              form.defaultRecipe.None? || (form.defaultRecipe.value in db.recipes.rows
                && OwnedQ(db.recipes.rows[form.defaultRecipe.value].owner, user))
  {
    if form.defaultRecipe.Some? {
      RecipeChoicesExact(db, Some(user), form.defaultRecipe.value);
    }
  }

  /** The fields of a submitted CookSession that `CookSessionForm(user=user)`
      rejects, in field order. */
  function CookSessionFormErrors(db: Db, user: UserId, form: CookSession): (errs: seq<string>)
    ensures "dish" in errs <==> !DishOffered(db, user, form.dish)
    ensures "recipe_used" in errs <==> form.recipeUsed.Some? && !RecipeOffered(db, user, form.recipeUsed.value)
    ensures forall i :: 0 <= i < |errs| ==> errs[i] == "dish" || errs[i] == "recipe_used"
  {
    SessionFieldErrors(DishOffered(db, user, form.dish),
                       form.recipeUsed.None? || RecipeOffered(db, user, form.recipeUsed.value))
  }

  /** The session form's errors, in field order, from whether each choice
      field accepted its value. */
  function SessionFieldErrors(dishOk: bool, recipeOk: bool): (errs: seq<string>)
    ensures "dish" in errs <==> !dishOk
    ensures "recipe_used" in errs <==> !recipeOk
    ensures forall i :: 0 <= i < |errs| ==> errs[i] == "dish" || errs[i] == "recipe_used"
  {
    assert "dish" != "recipe_used" by { assert |"dish"| != |"recipe_used"|; }
    (if dishOk then [] else ["dish"]) + (if recipeOk then [] else ["recipe_used"])
  }

  /** A submitted session passes exactly when its dish, and its recipe if it
      names one, exist and are visible to the user. */
  lemma CookSessionFormErrorsExact(db: Db, user: UserId, form: CookSession)
    requires db.dishes.Valid() && db.recipes.Valid()
    ensures CookSessionFormErrors(db, user, form) == [] <==>
              form.dish in db.dishes.rows && OwnedQ(db.dishes.rows[form.dish].owner, user)
              && (form.recipeUsed.None? || (form.recipeUsed.value in db.recipes.rows
                  && OwnedQ(db.recipes.rows[form.recipeUsed.value].owner, user)))
  {
    var errs := CookSessionFormErrors(db, user, form);
    DishChoicesExact(db, Some(user), form.dish);
    if form.recipeUsed.Some? {
      RecipeChoicesExact(db, Some(user), form.recipeUsed.value);
    }
    assert errs == [] <==> !("dish" in errs) && !("recipe_used" in errs);
  }
}
