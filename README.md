# cooking-companion in Dafny

A model of the Django app `cooking_companion` that keeps a cooking log. The app has:

- **Recipes.**
- **Dishes**: the things a user cooks. A dish has an optional default recipe.
- **Cook sessions**: each time a dish was made.
- **A cook result per session**: the outcome and four ratings from 1 to 10.
- **Attachments** that hang on a recipe, dish, session or result through a generic `(content type, object id)` reference: notes, tracked images, reference URLs and PDF documents.

Every row may carry an owner (`created_by`). A user sees the rows they own plus the rows that have no owner. This is the `owned_q` filter, and every view applies it.

The model has these parts:

- **Data.** Each Django model is a datatype (`Models`). The database is a value `Db` with one autoincrement `Table` per model, plus the set of users (`Database`). Its `Valid()` invariant holds what the schema enforces:
  - foreign keys exist;
  - `created_by` is PROTECT;
  - a dish's `(created_by, name)` is unique, with SQL NULLs counting as distinct;
  - a session has at most one result;
  - image and PDF uuids are unique.
  The form-level rating range is the separate invariant `RatingsInRange()`.
- **Writes.** `Database.Store` is a class whose `db` field the save and delete methods change in place. They model:
  - the `IntegrityError` of a violated constraint;
  - the `ProtectedError` of a PROTECT foreign key;
  - SET_NULL of `default_recipe` and `recipe_used`;
  - CASCADE of a result with its session;
  - `get_or_create`.
- **Reads.** The list, detail and dashboard views are functions of the database (`ListViews`, `DetailViews`, `Dashboard`, `TargetViews`). Querysets are sequences of `Row(pk, val)`, filtered and then sorted by the model's `ordering`. Sorting is an insertion sort by a lexicographic integer key.
- **Create/update/delete views.** These are methods on the store (`EditViews`, `TargetViews`). Each first performs the owned lookup that turns into a 404. It then validates the form against the querysets the form offers (`Forms`) and saves through the store. The create and delete methods are the views as they evidently mean to behave. As written, a successful create answers with a server error after saving, and on Django 4.0 and later a delete never deletes; see "## Findings".
- **Template tags.** `cooking_nav` is modelled in `Nav`.

The main properties proved:

- Every list shows exactly the visible rows that match its filters, in the model's ordering. Each item on a list opens on its detail page.
- Other users' rows are never shown, offered in a form, or accepted as an attachment target.
- Creating stamps the current user as owner. Updating a shared row claims it.
- A form only accepts the recipes and dishes it offers, so every accepted save keeps the foreign keys valid.
- With the corrected delete views, deleting a dish that has sessions is refused, deleting a recipe clears the references to it, and deleting a session removes its result.
- The dashboard counts agree with the lists. Its "recent" and "popular" cuts hold the top rows, and its date buckets nest.
- For a file name without `/` that storage keeps unchanged, the stored upload path ends in the original file name. Target URLs and attachment references are injective.

The result-edit view checks who owns the session but does not check who owns the result. The create views lose the saved object before redirecting to it, and the delete views route their POST into a `form_valid` that cannot handle it. See "## Findings".

## Model

| member | source | states |
|---|---|---|
| Ownership.OwnedQ | cooking_companion/views.py:29-30 | a row is visible to a user iff it is owned by that user or by nobody |
| Forms.OwnedQAgreesWithViews | cooking_companion/forms.py:9-10 | the forms' `_owned_q` admits exactly the owners the views' `owned_q` admits |
| Ownership.OtherUsersHidden | cooking_companion/views.py:29-30 | a row owned by another user is never visible |
| Ownership.VisibleRows | cooking_companion/views.py:36-38 | the filtered rows are exactly the input rows whose owner passes `owned_q`, and no more of them |
| Ownership.VisibleTableRows | cooking_companion/views.py:36-38 | every row of a table that passes `owned_q` is returned, and only such rows, with their stored values |
| Ownership.InVisibleTableRows | cooking_companion/views.py:36-38 | a row is in the owned queryset iff it is stored in the table and is visible |
| Ownership.LookupOwned | cooking_companion/views.py:368 | `get_object_or_404` on an owned queryset: Ok iff the key exists and is visible, with the stored value; otherwise NotFound |
| Ownership.StampOwner | cooking_companion/views.py:40-44 | `form_valid` keeps an existing owner and sets the current user when there is none; the result always has an owner |
| Ownership.StampKeepsVisible | cooking_companion/views.py:40-44 | stamping never hides a row from the user who saves it |
| Ownership.StampClaimsShared | cooking_companion/views.py:40-44 | a shared row saved by one user is no longer visible to another |
| Ownership.StampIdempotent | cooking_companion/views.py:40-44 | once stamped, a later save by anyone keeps the owner |
| Tables.Table.Insert | cooking_companion/models.py:18-23 | an insert takes the next autoincrement key, which was unused, and keeps the table valid |
| Tables.Table.Update | cooking_companion/views.py:44 | an update rewrites one existing row and keeps the keys |
| Tables.Table.Remove | cooking_companion/views.py:157-160 | a delete drops exactly the given keys and leaves the other rows unchanged |
| Tables.AllRows | cooking_companion/views.py:36-38 | the table's rows in key order, each with its stored value, all of them for a valid table |
| Tables.InAllRows | cooking_companion/views.py:36-38 | a row is among the table's rows iff it is stored at its key |
| Models.BlankRecipe | cooking_companion/models.py:44-58 | a fresh recipe has no owner, is not a favourite, is active and has no times |
| Models.BlankDish | cooking_companion/models.py:71-87 | a fresh dish has no owner or default recipe and is active |
| Models.BlankCookSession | cooking_companion/models.py:123-140 | a fresh session defaults to today, meal "other", method "other" and active |
| Models.BlankCookResult | cooking_companion/models.py:165-193 | a fresh result has outcome "experiment", no ratings and would-make-again false, so its ratings are valid |
| Models.ChoiceValuesInjective | cooking_companion/models.py:106-121 | distinct meal types and distinct cook methods have distinct stored values |
| Models.RatingErrors | cooking_companion/models.py:173-187 | a rating field is in error iff it is set and outside 1..10; no errors iff all four ratings are valid |
| Models.ElevenRejected | cooking_companion/models.py:176-180 | a rating of 11 is rejected by the validators |
| Models.ImageUploadTo | cooking_companion/models.py:234-236 | an image path lies under `cooking-companion/images/`, its next segment reads back as the uuid, and its last segment reads back as a `/`-free file name |
| Models.PDFUploadTo | cooking_companion/models.py:313-314 | a PDF path lies under `cooking-companion/pdfs/`, its next segment reads back as the uuid, and its last segment reads back as a `/`-free file name |
| Models.UploadPathsDistinct | cooking_companion/models.py:313-314 | different uuids or names give different paths, and image paths never collide with PDF paths |
| Models.CommitUpload | cooking_companion/models.py:250 | a pending upload is stored under its `upload_to` path; an empty or already stored file is left unchanged |
| Models.FillOriginalFilename | cooking_companion/models.py:360-364 | `save` fills an empty original file name from the last segment of the file name and changes nothing else |
| Models.FillOriginalFilenameIdempotent | cooking_companion/models.py:360-364 | filling the original file name twice is the same as once |
| Models.SavePDF | cooking_companion/models.py:343-364 | a PDF save fills the original file name, then stores the file under its upload path, and changes nothing else |
| Models.SavePDFUploadRoundTrip | cooking_companion/models.py:360-364 | for a `/`-free name that storage keeps unchanged: after the first save, the stored path ends in the original file name, and saving again changes nothing |
| Models.RecipeStr | cooking_companion/models.py:67-68 | a recipe prints as its title |
| Models.DishStr | cooking_companion/models.py:98-99 | a dish prints as its name |
| Models.CookSessionStr | cooking_companion/models.py:150-151 | a session prints as its dish's name, and the rest reads back as `" @ "` and the date |
| Models.CookResultStr | cooking_companion/models.py:202-203 | a result prints as "Result for ", and the rest reads back as its session's string |
| Models.PkStr | cooking_companion/models.py:230-231 | `str(self.pk)`: the decimal text of a saved key, which reads back as the key, and "None" for an unsaved row |
| Models.NoteStr | cooking_companion/models.py:230-231 | a note prints as its title; when untitled, as "Note " and the rest reads back as `str(pk)`; never empty |
| Models.TrackedImageStr | cooking_companion/models.py:267-268 | an image prints as "Image ", and the rest reads back as the uuid |
| Models.ReferenceURLStr | cooking_companion/models.py:309-310 | a URL prints as its title, and as exactly the URL when the title is blank; empty only when both are |
| Models.PDFDocumentStr | cooking_companion/models.py:357-358 | a PDF prints as its title, else its original file name, else "PDF " and the rest reads back as the uuid; never empty |
| Models.StrFallbacksDistinguish | cooking_companion/models.py:150-268 | across the `__str__` methods of sessions, results, notes and images: untitled notes with different keys, images with different uuids, one dish's sessions on different dates and results of different sessions print differently |
| Database.EmptyDb | cooking_companion/models.py:18-37 | an empty database satisfies every schema constraint and the rating range |
| Database.SessionsOfDish | cooking_companion/views.py:174 | the `cook_sessions` reverse relation: exactly the sessions whose dish is the given one, every owner included |
| Database.ResultFor | cooking_companion/models.py:165-169 | the `result` of a session: a stored result of that session, or none when no result references it |
| Database.ResultForUnique | cooking_companion/models.py:165-169 | with one result per session, the result found for a session is the one that references it |
| Database.ClearDefaultRecipe | cooking_companion/models.py:79-85 | SET_NULL: no dish keeps the deleted recipe as default; others are untouched |
| Database.ClearRecipeUsed | cooking_companion/models.py:124-130 | SET_NULL: no session keeps the deleted recipe as recipe used; others are untouched |
| Database.CascadeResults | cooking_companion/models.py:165-169 | CASCADE: exactly the results of the deleted session are removed |
| Database.RecipeOrderMeaning | cooking_companion/models.py:61 | recipe ordering is newest `updated_at` first, then by title |
| Database.CookSessionOrderMeaning | cooking_companion/models.py:143 | session ordering is latest `cooked_on` first, then latest `created_at` |
| Database.Store.constructor | cooking_companion/models.py:18-37 | a new store holds the empty database for the given users |
| Database.Store.InsertRecipe | cooking_companion/models.py:44-68 | inserting a recipe adds it under the next key with `updated_at` now, and the database stays valid |
| Database.Store.SaveRecipe | cooking_companion/models.py:44-68 | saving a recipe rewrites that row with `updated_at` now |
| Database.Store.InsertDish | cooking_companion/models.py:79-96 | inserting a dish succeeds iff its default recipe exists and no dish has the same owner and name (NULL owners never clash); otherwise IntegrityError and nothing changes |
| Database.Store.SaveDish | cooking_companion/models.py:79-96 | the same as an insert, with the dish's own row exempt from the name check |
| Database.Store.InsertSession | cooking_companion/models.py:123-130 | inserting a session succeeds iff its dish and recipe used exist; otherwise IntegrityError and nothing changes |
| Database.Store.SaveSession | cooking_companion/models.py:123-130 | the same as an insert, for an existing session |
| Database.Store.GetOrCreateResult | cooking_companion/views.py:330-333 | `get_or_create`: returns the session's existing result unchanged, or creates one with defaults and the given owner; the rating range is kept |
| Database.Store.SaveResult | cooking_companion/models.py:165-169 | saving a result succeeds iff its session exists and no other result has it |
| Database.Store.InsertNote | cooking_companion/models.py:210-231 | inserting a note adds it under the next key |
| Database.Store.InsertURL | cooking_companion/models.py:271-310 | inserting a URL adds it under the next key |
| Database.Store.InsertImage | cooking_companion/models.py:244 | inserting an image succeeds iff its uuid is unused; otherwise IntegrityError and nothing changes |
| Database.Store.InsertPDF | cooking_companion/models.py:332 | inserting a PDF succeeds iff its uuid is unused; otherwise IntegrityError and nothing changes |
| Database.Store.DeleteRecipe | cooking_companion/models.py:79-85 | deleting a recipe removes it and sets to NULL every default recipe and recipe used that pointed at it |
| Database.Store.DeleteDish | cooking_companion/models.py:123 | deleting a dish fails with ProtectedError iff some session uses it; otherwise only the dish is removed |
| Database.Store.DeleteSession | cooking_companion/models.py:165-169 | deleting a session removes it and its result |
| Database.Store.DeleteUser | cooking_companion/models.py:26-34 | deleting a user fails with ProtectedError iff they own any row; otherwise only the user is removed |
| Text.Strip | cooking_companion/views.py:121 | `.strip()`: the longest middle slice without leading or trailing whitespace; empty iff all whitespace |
| Text.DecimalString | cooking_companion/views.py:391 | `str(pk)`: only digits, non-empty, no leading zero |
| Text.DecimalRoundTrip | cooking_companion/views.py:391 | reading back `str(pk)` gives `pk` |
| Text.DecimalStringInjective | cooking_companion/views.py:391 | different keys give different object ids |
| Text.LastSegment | cooking_companion/models.py:363 | `split("/")[-1]`: the suffix after the last `/`, holding no `/` |
| Text.CodesInjective | cooking_companion/models.py:61 | ordering by the code points of a string distinguishes different strings |
| Ordering.Filter | cooking_companion/views.py:122-127 | `.filter(...)` keeps every element that passes and only those, never growing |
| Ordering.FilterAppend | cooking_companion/views.py:122-127 | filtering a concatenation is the concatenation of the filtered parts, so the kept elements stay in their order |
| Ordering.FilterSingleton | cooking_companion/views.py:122-127 | a single element is kept exactly when it passes |
| Ordering.InFilter | cooking_companion/views.py:122-127 | an element is in a filtered queryset iff it is in the queryset and passes |
| Ordering.FilterMonotone | cooking_companion/views.py:95-96 | a weaker filter never counts fewer rows |
| Ordering.FilterDisjoint | cooking_companion/views.py:96-97 | two filters that exclude each other count at most the whole queryset together |
| Ordering.SortBy | cooking_companion/views.py:120 | `.order_by(...)`: a permutation of the input that is sorted by the key |
| Ordering.InSortBy | cooking_companion/views.py:120 | sorting neither adds nor drops an element |
| Ordering.LexLeTotal | cooking_companion/views.py:120 | the ordering on keys is total |
| Ordering.LexLeTransitive | cooking_companion/views.py:120 | the ordering on keys is transitive |
| Ordering.LexLeAntisymmetric | cooking_companion/views.py:120 | the ordering on keys is antisymmetric |
| Ordering.Take | cooking_companion/views.py:86 | `[:n]`: the first `min(n, len)` elements |
| Ordering.TakeSortedDominates | cooking_companion/views.py:86 | a row cut off by `[:n]` of a sorted queryset sorts no earlier than every row kept |
| Ordering.DistinctPermutation | cooking_companion/views.py:104 | reordering a duplicate-free sequence keeps it duplicate-free |
| Forms.BootstrapClass | cooking_companion/forms.py:13-19 | checkboxes get `form-check-input`, selects get `form-select`, every other widget gets `form-control` |
| Forms.ApplyBootstrap | cooking_companion/forms.py:13-19 | `setdefault("class", ...)`: adds the class only when the widget has none and changes nothing else |
| Forms.ApplyBootstrapIdempotent | cooking_companion/forms.py:13-19 | applying the bootstrap classes twice is the same as once |
| Forms.ApplyBootstrapClass | cooking_companion/forms.py:13-19 | the resulting class is the declared one if present, else the widget's default; other attributes are kept |
| Forms.RecipeChoiceRows | cooking_companion/forms.py:54-55 | the recipe choices are the visible recipes for a given user ordered by title, or all recipes in model order without a user |
| Forms.DishChoiceRows | cooking_companion/forms.py:76-77 | the dish choices are the visible dishes ordered by name (all dishes without a user) |
| Forms.RecipeChoicesExact | cooking_companion/forms.py:54-55 | a recipe is offered iff it exists and, given a user, is visible to them |
| Forms.DishChoicesExact | cooking_companion/forms.py:76-77 | a dish is offered iff it exists and, given a user, is visible to them |
| Forms.OtherUsersRecipesNotOffered | cooking_companion/forms.py:54-55 | another user's recipe is never offered |
| Forms.RecipeFormFields | cooking_companion/forms.py:22-35 | the recipe form's declared fields set no class of their own |
| Forms.DishFormFields | cooking_companion/forms.py:43-47 | the dish form has four fields; the third and only that one is `default_recipe` |
| Forms.CookSessionFormFields | cooking_companion/forms.py:58-69 | the session form has nine fields, starting with `dish` and `recipe_used` and no others of those names |
| Forms.CookResultFormFields | cooking_companion/forms.py:81-94 | the result form's declared fields set no class of their own |
| Forms.NoteFormFields | cooking_companion/forms.py:102-106 | the note form's declared fields set no class of their own |
| Forms.ReferenceURLFormFields | cooking_companion/forms.py:114-118 | the URL form's declared fields set no class of their own |
| Forms.TrackedImageFormFields | cooking_companion/forms.py:126-130 | the image form's declared fields set no class of their own |
| Forms.PDFDocumentFormFields | cooking_companion/forms.py:138-142 | the PDF form's declared fields set no class of their own |
| Forms.WithChoices | cooking_companion/forms.py:54-55 | replacing a field's queryset changes the named field's choices and nothing else |
| Forms.ModelForm.constructor | cooking_companion/forms.py:37-38 | a new form holds its declared fields |
| Forms.ModelForm.Bootstrap | cooking_companion/forms.py:39-40 | the loop applies the bootstrap class to every field and keeps their number |
| Forms.ModelForm.SetQueryset | cooking_companion/forms.py:54-55 | setting a queryset updates one field's choices |
| Forms.NewPlainForm | cooking_companion/forms.py:96-99 | a form without a user is its declared fields with bootstrap classes |
| Forms.NewDishForm | cooking_companion/forms.py:49-55 | the dish form is the bootstrapped fields, with `default_recipe` offering exactly the recipe choices for the user |
| Forms.NewCookSessionForm | cooking_companion/forms.py:71-78 | the session form is the bootstrapped fields, with `dish` and `recipe_used` offering exactly the dish and recipe choices |
| Forms.DishFormErrors | cooking_companion/forms.py:54-55 | the dish form has an error iff the default recipe is set and not offered; the only possible error is on `default_recipe` |
| Forms.DishFormErrorsExact | cooking_companion/forms.py:54-55 | the dish form is valid iff no default recipe is set, or the recipe exists and is visible |
| Forms.CookSessionFormErrors | cooking_companion/forms.py:76-78 | `dish` is in error iff the dish is not offered; `recipe_used` is in error iff it is set and not offered; no other errors |
| Forms.CookSessionFormErrorsExact | cooking_companion/forms.py:76-78 | the session form is valid iff the dish exists and is visible, and the recipe used is unset or exists and is visible |
| ListViews.Get | cooking_companion/views.py:124 | `GET.get(key)`: present iff the key was sent, with its value |
| ListViews.GetOrBlank | cooking_companion/views.py:121 | `GET.get(key, "")`: the sent value, else the empty string |
| ListViews.SearchText | cooking_companion/views.py:121 | the search text is the stripped `q` parameter |
| ListViews.ParseWhen | cooking_companion/views.py:246-255 | `when` selects a window iff it is one of `today`, `week`, `month` and `past30` |
| ListViews.ParseWhenRoundTrip | cooking_companion/views.py:246-255 | each window's value selects that window |
| ListViews.WindowsNest | cooking_companion/views.py:248-255 | the next 7 days lie within the next 30 days; today lies within the past 30 days; past and future windows do not meet |
| ListViews.RecipeList | cooking_companion/views.py:119-128 | the recipe list is in model order |
| ListViews.RecipeListExact | cooking_companion/views.py:119-128 | a recipe is listed iff it is stored, visible, matches a non-empty search in title, author or description, is a favourite when `favorite=1` and is inactive when `active=0` |
| ListViews.SessionCountMeansProtected | cooking_companion/views.py:174 | a dish's session count is positive iff some session references it |
| ListViews.Annotate | cooking_companion/views.py:174 | each dish is paired with its session count, in the same order |
| ListViews.InAnnotate | cooking_companion/views.py:174 | a listing is among the annotated dishes iff its dish is and its count is that dish's |
| ListViews.InVisibleDishListings | cooking_companion/views.py:173-174 | a listing is among the visible dishes iff the dish is stored and visible, with its session count |
| ListViews.DishList | cooking_companion/views.py:172-181 | the dish list is ordered by name |
| ListViews.DishListExact | cooking_companion/views.py:172-181 | a dish is listed iff it is stored and visible, carries its session count, matches a non-empty search in name, description or default recipe title, and is inactive when `active=0` |
| ListViews.SessionList | cooking_companion/views.py:235-265 | the session list is in model order and holds every row of the filtered query |
| ListViews.SessionListExact | cooking_companion/views.py:235-265 | a session is listed iff it is stored and visible, matches the search in dish name, recipe title or summary, lies in the `when` window, and has the requested meal type and method |
| ListViews.UnknownWhenIgnored | cooking_companion/views.py:246-255 | an unrecognised `when` value filters nothing |
| DetailViews.RecipeDetail | cooking_companion/views.py:131-136 | a recipe page opens iff the recipe exists and is visible; otherwise 404 |
| DetailViews.RecipeDetailMatchesList | cooking_companion/views.py:119-136 | every listed recipe opens on its page with the same data |
| DetailViews.DishDetail | cooking_companion/views.py:184-189 | a dish page opens iff the dish exists and is visible, and shows the number of all its sessions |
| DetailViews.DishDetailMatchesList | cooking_companion/views.py:172-189 | every listed dish opens on a page with the same session count |
| DetailViews.SessionDetail | cooking_companion/views.py:268-273 | a session page opens iff the session exists and is visible |
| DetailViews.SessionDetailMatchesList | cooking_companion/views.py:235-273 | every listed session opens on its page |
| DetailViews.ResultDetail | cooking_companion/views.py:344-349 | a result page opens iff the result exists and is visible |
| EditViews.SavedRecipe | cooking_companion/views.py:40-44 | a saved recipe carries the form's fields, the stamped owner, the instance's creation time and `updated_at` now |
| EditViews.SavedDish | cooking_companion/views.py:40-44 | a saved dish carries the form's fields, the stamped owner, the instance's creation time and `updated_at` now |
| EditViews.SavedSession | cooking_companion/views.py:40-44 | a saved session carries the form's fields, the stamped owner, the instance's creation time and `updated_at` now |
| EditViews.CreatedRecipeIsPrivate | cooking_companion/views.py:139-145 | a new recipe is visible to its creator and to no other user |
| EditViews.UpdateClaimsSharedRecipe | cooking_companion/views.py:148-154 | a shared recipe that one user edits becomes invisible to every other user |
| EditViews.AcceptedDishRefsOk | cooking_companion/forms.py:54-55 | a dish accepted by its form references an existing recipe |
| EditViews.AcceptedSessionRefsOk | cooking_companion/forms.py:76-78 | a session accepted by its form references an existing dish and recipe |
| EditViews.CreateRecipe | cooking_companion/views.py:139-145 | the corrected create (see Findings), whose result is the key redirected to: creating a recipe inserts the stamped form under the next key, and the creator can open it |
| EditViews.UpdateRecipe | cooking_companion/views.py:148-154 | 404 iff the recipe is not visible; otherwise only that row is rewritten, and it is owned by the user if it was shared |
| EditViews.DeleteRecipe | cooking_companion/views.py:157-160 | the corrected delete (see Findings): 404 iff the recipe is not visible; otherwise it is deleted with SET_NULL on the references to it |
| EditViews.CreateDish | cooking_companion/views.py:192-203 | the corrected create (see Findings), whose result is the key redirected to: a form error leaves the database unchanged; a valid form with a name the user already has raises IntegrityError; otherwise the stamped dish is inserted |
| EditViews.UpdateDish | cooking_companion/views.py:206-217 | 404 iff the dish is not visible; then form errors, IntegrityError on a name clash, or only that row is rewritten |
| EditViews.DeleteDish | cooking_companion/views.py:220-223 | the corrected delete (see Findings): 404 iff the dish is not visible; ProtectedError iff some session uses it; otherwise only the dish is removed |
| EditViews.SessionInitial | cooking_companion/views.py:286-291 | the form's initial `dish` is the `dish` parameter when it is non-empty, and nothing else is set |
| EditViews.CreateSession | cooking_companion/views.py:276-294 | the corrected create (see Findings), whose result is the key redirected to: a form error leaves the database unchanged; otherwise the stamped session is inserted |
| EditViews.UpdateSession | cooking_companion/views.py:297-308 | 404 iff the session is not visible; then form errors or only that row is rewritten |
| EditViews.DeleteSession | cooking_companion/views.py:311-314 | the corrected delete (see Findings): 404 iff the session is not visible; otherwise it is deleted with its result |
| EditViews.DispatchAsWritten | cooking_companion/views.py:327-335 | as written: 404 iff the session is not visible; otherwise the session's existing result, whoever owns it, or a new one |
| EditViews.DispatchLeaksResult | cooking_companion/views.py:327-335 | on a shared session, user 2 reaches user 1's result through the edit view while its detail page is a 404 for them |
| EditViews.Dispatch | cooking_companion/views.py:327-335 | corrected: as written, except that an existing result the user may not see is a 404 |
| EditViews.DispatchAgreesWithDetail | cooking_companion/views.py:344-349 | every result the corrected edit view opens also opens on its detail page |
| EditViews.SuccessRedirect | cooking_companion/views.py:144-145 | the create views' `get_success_url`: the held object's key, and a server error when no object is held |
| EditViews.CreateAnswerAsWritten | cooking_companion/views.py:40-46 | as written, a create POST never redirects: errors pass through and a saved row is answered with a server error |
| EditViews.CreateRecipeAsWritten | cooking_companion/views.py:139-145 | as written, a valid recipe POST saves the stamped recipe and answers with a server error |
| EditViews.CreateRedirectsToNewRow | cooking_companion/views.py:144-145 | with the object held, the answer is a redirect to the new row's page, which opens for its creator; as written it is a server error |
| EditViews.DeletePostAsWritten | cooking_companion/views.py:40-46 | as written on Django 4.0 and later, a delete POST is a 404 iff the row is not visible and a server error otherwise, and never changes the database |
| EditViews.DeleteOwnRecipeFails | cooking_companion/views.py:157-160 | user 1's own unreferenced recipe: the lookup succeeds, so the corrected view deletes it, while as written the POST is a server error |
| EditViews.DispatchStable | cooking_companion/views.py:330-333 | after a fresh result is created, dispatching again finds that same result |
| EditViews.SavedResult | cooking_companion/views.py:317-338 | a saved result takes the form's fields and keeps its owner, creation time and session; it is not stamped |
| EditViews.RatingsKept | cooking_companion/models.py:173-187 | writing a result with valid ratings keeps every stored rating in range |
| EditViews.OpenResult | cooking_companion/views.py:327-335 | 404 iff the corrected dispatch fails; otherwise the result of the session, created if missing |
| EditViews.EditResult | cooking_companion/views.py:317-341 | with the corrected dispatch declared under Findings: GET opens the result; a POST with a bad rating reports the rating errors and keeps the `get_or_create` row; a valid POST saves the form into that row; ratings stay in range |
| TargetViews.AllowedTargetModel | cooking_companion/views.py:356-361 | exactly the keys `recipe`, `dish`, `cooksession` and `cookresult` name a target model |
| TargetViews.ModelKeyRoundTrip | cooking_companion/views.py:356-361 | each target model's key looks up that model, and only that key does |
| TargetViews.GetTargetOr404 | cooking_companion/views.py:364-368 | Ok iff the key names a model and that model's row exists and is visible, giving that model and `str(pk)`; otherwise 404 |
| TargetViews.TargetRefsDistinct | cooking_companion/views.py:375-380 | different targets give different generic references |
| TargetViews.OtherUsersTargetNotFound | cooking_companion/views.py:364-368 | another user's recipe cannot be a target |
| TargetViews.NewNote | cooking_companion/views.py:388-394 | the saved note is the form's content, bound to the target and owned by the user |
| TargetViews.NewReferenceURL | cooking_companion/views.py:406-412 | the saved URL is the form's content, bound to the target and owned by the user |
| TargetViews.NewTrackedImage | cooking_companion/views.py:424-430 | the saved image is the form's content with a fresh uuid, bound to the target and owned by the user |
| TargetViews.NewPDFDocument | cooking_companion/views.py:442-448 | the saved PDF is the form's content with a fresh uuid and no original file name yet, bound to the target and owned by the user |
| TargetViews.TargetNoteCreate | cooking_companion/views.py:383-395 | 404 iff the target is not found; otherwise the note is inserted and appears on the target page |
| TargetViews.TargetURLCreate | cooking_companion/views.py:401-413 | 404 iff the target is not found; otherwise the URL is inserted and appears on the target page |
| TargetViews.TargetImageCreate | cooking_companion/views.py:419-431 | 404 iff the target is not found; IntegrityError iff the uuid is taken; otherwise the image is inserted and appears on the target page |
| TargetViews.TargetPDFCreate | cooking_companion/views.py:437-449 | 404 iff the target is not found; IntegrityError iff the uuid is taken; otherwise the PDF is saved and appears on the target page |
| TargetViews.Attached | cooking_companion/views.py:468-471 | an attachment list is sorted by its model's ordering |
| TargetViews.AttachedExact | cooking_companion/views.py:468-471 | an attachment is listed iff it is stored, bound to the target and visible |
| TargetViews.NoteOrderMeaning | cooking_companion/views.py:468 | notes are listed pinned first, then newest `updated_at` |
| TargetViews.PositionKeyMeaning | cooking_companion/views.py:469-471 | URLs, images and PDFs are listed by `sort_order`, then newest `created_at` |
| TargetViews.TargetDetail | cooking_companion/views.py:458-478 | the target page opens iff the target is found, with its key and reference and the four attachment lists |
| TargetViews.TargetNotesExact | cooking_companion/views.py:468 | a note is on the target page iff it is stored, bound to the target and visible |
| TargetViews.TargetFilesExact | cooking_companion/views.py:469-471 | an image, URL or PDF is on the target page iff it is stored, bound to the target and visible |
| Dashboard.CountsMatchLists | cooking_companion/views.py:75-84 | with no filters, the recipe, dish and session counts equal the lengths of the unpaginated lists |
| Dashboard.RecentSessions | cooking_companion/views.py:86 | at most ten sessions, in session order |
| Dashboard.RecentSessionsAreLatest | cooking_companion/views.py:86 | a visible session left out was cooked no later (on a tie, created no later) than every one shown |
| Dashboard.RecentSessionsComplete | cooking_companion/views.py:86 | with ten or fewer visible sessions, all are shown |
| Dashboard.RecentRecipes | cooking_companion/views.py:87 | at most eight recipes, newest first |
| Dashboard.RecentRecipesAreLatest | cooking_companion/views.py:87 | a visible recipe left out was updated no later than every one shown |
| Dashboard.PopularDishes | cooking_companion/views.py:88-91 | at most eight dishes, by descending session count and then name |
| Dashboard.PopularDishesDominate | cooking_companion/views.py:88-91 | a visible dish left out has no more sessions than any dish shown, and on a tie sorts no earlier by name |
| Dashboard.Buckets | cooking_companion/views.py:93-98 | four buckets, titled "Today", "Next 7 days", "Next 30 days" and "Past 30 days" |
| Dashboard.BucketsConsistent | cooking_companion/views.py:93-98 | the next-7-days count is at most the next-30-days count; today is at most the past 30 days; past and next 30 days together are at most all sessions |
| Dashboard.BucketMatchesSessionList | cooking_companion/views.py:93-98 | each bucket's count is the length of the session list filtered by that bucket's `when` value |
| Dashboard.GroupsExact | cooking_companion/views.py:100-103 | the per-outcome tallies hold, for each outcome, exactly its count of visible results, with no duplicates |
| Dashboard.TopOutcomes | cooking_companion/views.py:100-105 | the outcome groups are sorted by descending count |
| Dashboard.TopOutcomesExact | cooking_companion/views.py:100-105 | an outcome is listed iff some visible result has it, with its exact count |
| Dashboard.TopOutcomesShape | cooking_companion/views.py:100-105 | each outcome appears once and the counts do not increase |
| Dashboard.DashboardContext | cooking_companion/views.py:63-107 | the dashboard shows at most ten sessions, eight recipes and eight dishes, and four buckets |
| Nav.NavActive | cooking_companion/templatetags/cooking_nav.py:10-20 | "active" iff there is a request, the name resolves and the path starts with its URL; otherwise "" |
| Nav.NavActiveBelow | cooking_companion/templatetags/cooking_nav.py:18-19 | a menu entry is active on its own URL and every URL below it |
| Nav.NavInactiveWithout | cooking_companion/templatetags/cooking_nav.py:11-17 | without a request, or for a name that does not resolve, nothing is active |
| Nav.RootAlwaysActive | cooking_companion/templatetags/cooking_nav.py:18 | an entry at the site root is active on every page |
| Nav.TargetURL | cooking_companion/templatetags/cooking_nav.py:23-25 | a link exists iff the key is a slug, and it lies under `target/` |
| Nav.TargetURLInjective | cooking_companion/templatetags/cooking_nav.py:23-25 | different targets get different links |

## Left out

- HTTP handling is not modelled: login being required, templates and pagination (`paginate_by`). A redirect is the key of the row redirected to; the strings of the success URLs are not modelled. The crash of the create views' `get_success_url` is modelled and recorded under "## Findings". The lists are the unpaginated querysets.
- `icontains` is a parameter `contains` of the list views. Case folding and SQL collation are not modelled. String ordering is by code point.
- `timezone.now` and `timezone.localdate` are parameters `now` and `today`. `uuid.uuid4` is a parameter of the image and PDF views.
- Dates and times are integers (days and instants). ISO date text in `CookSession.__str__` is a parameter.
- `servings_made` is a `Decimal` and is not modelled.
- `ContentType` is an enumeration of the four allowed target models. `get_for_model` is that enumeration.
- Deleting a target does not remove its attachments in the model, and it does not in the source either: a generic foreign key is not a database relation. Deleting a `ContentType` row is not modelled.
- File storage is not modelled: the stored name is the `upload_to` path of the uploaded name as given. Django's storage runs `get_valid_name` on every save, which turns spaces into `_` and drops other characters, and it renames on a clash; neither is modelled, and neither is the file content.
- Models.SavePDFUploadRoundTrip: its round trip holds for the names storage keeps unchanged. For a name such as "My Recipe.pdf", which storage stores as "My_Recipe.pdf", the stored path's last segment differs from `original_filename`.
- The delete views follow `DeletionMixin.post`, which calls `delete()` as Django did before 4.0. From Django 4.0, `BaseDeleteView.post` calls `form_valid`, and `OwnedQuerysetMixin.form_valid` intercepts it; that behaviour is `EditViews.DeletePostAsWritten`, recorded under "## Findings".
- Field validation other than the rating validators and the querysets of the choice fields is not modelled. This covers required fields, `max_length`, URL syntax and image or PDF content. The create and update methods take a form that passed it.
- A form field's widget attributes are only those its `Meta.widgets` entry declares. The attributes Django derives from the model field (`maxlength`, `min`, `accept`) are not modelled; none of them is `class`, so the bootstrap classes are unaffected.
- `ModelForm` does not validate the dish's `(created_by, name)` unique constraint, because `created_by` is not a form field. A clash therefore reaches the database as `IntegrityError`, which the model returns rather than a form error.
- `get_or_create` is modelled as atomic. The race between two concurrent requests is not modelled.
- The `url` field of a dashboard bucket and the target page's `add_*_url` links are `reverse(...)` strings and are not modelled. `reverse` of `cc_nav_active` is a parameter. For `cc_target_url` the mount point of the app is a parameter `root`.
- Dashboard.RecentRecipes: the source orders only by `-updated_at`, so ties are in database order. The model breaks ties by title, and RecentRecipesAreLatest claims only the `updated_at` part.
- Dashboard.TopOutcomes: the source gives no order between outcomes with equal counts. The model's sort fixes one, and TopOutcomesShape claims only the descending counts.
- The admin site, app config, URL configuration and tests are not part of this model.

## Findings

| source | as written | input that shows it | evidently intended | confidence | as-written member | corrected member |
|---|---|---|---|---|---|---|
| cooking_companion/views.py:327-335 | `CookResultCreateUpdateView.dispatch` checks that the session is visible, then edits the session's result from `get_or_create` whatever its owner | users 1 and 2; dish 1 and session 1 have no owner; result 1 of session 1 is owned by user 1. User 2 opens the edit page of session 1 and gets result 1, while `CookResultDetailView` (views.py:344-349) answers 404 for it | an existing result the user may not see is a 404, as on its detail page | medium, not executed | EditViews.DispatchAsWritten, EditViews.DispatchLeaksResult | EditViews.Dispatch (used by EditViews.OpenResult and EditViews.EditResult) |
| cooking_companion/views.py:40-46 | The recipe, dish and session create views answer a valid POST by saving the row and then raising `AttributeError`. `BaseCreateView.post` sets `self.object = None`. `OwnedQuerysetMixin.form_valid` saves a local `obj` and never assigns `self.object`. `get_success_url` (views.py:144-145, 202-203, 293-294) then reads `self.object.pk` | a logged-in user POSTs `{"title": "R1"}` to the recipe create page: the recipe is saved and the answer is a 500, where tests/test_views_smoke.py:29-30 expects 302 or 303 | assign `self.object = obj` before redirecting, so the answer is a redirect to the new row's detail page | high, not executed | EditViews.CreateAnswerAsWritten, EditViews.CreateRecipeAsWritten | EditViews.CreateRecipe, EditViews.CreateDish, EditViews.CreateSession (with EditViews.SuccessRedirect and EditViews.CreateRedirectsToNewRow) |
| cooking_companion/views.py:157-160 | From Django 4.0, the recipe, dish and session delete views (also views.py:220-223 and 311-314) never delete. `BaseDeleteView.post` calls `self.form_valid(form)` with a plain `Form`. That call resolves to `OwnedQuerysetMixin.form_valid` (views.py:40-46), whose `form.save(commit=False)` raises `AttributeError` | user 1 POSTs to the delete page of their own recipe 1, which nothing references: the answer is a 500 and the recipe stays (EditViews.DeleteOwnRecipeFails) | a visible row is deleted with its `on_delete` rules, as `DeletionMixin.post` did before Django 4.0 | medium, not executed; it depends on the Django version, which the source does not pin | EditViews.DeletePostAsWritten, EditViews.DeleteOwnRecipeFails | EditViews.DeleteRecipe, EditViews.DeleteDish, EditViews.DeleteSession |
