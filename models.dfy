/** The entities of the cooking log (Recipe, Dish, CookSession, CookResult and
    the four generic attachments Note, TrackedImage, ReferenceURL and
    PDFDocument) as values, with their choice enumerations, field defaults,
    rating validators, upload-path builders, `PDFDocument.save`'s filename
    rule and the `__str__` fallbacks. */
module Models {
  import opened Wrappers
  import opened Text

  /** A user's primary key; `created_by` is a nullable reference to one. */
  type UserId = nat
  type Owner = Option<UserId>

  /** A calendar date as a day number (`date + timedelta(days=n)` is `+ n`). */
  type Day = int

  /** A point in time (`DateTimeField`), ordered like the database orders it. */
  type Instant = int

  /** The ways a request can fail: `Http404`, a form `ValidationError`
      (the names of the offending fields), a database `IntegrityError`, the
      `ProtectedError` that `on_delete=PROTECT` raises, and an uncaught
      exception in the view's own code (`AttributeError`), a server error. */
  datatype Failure = NotFound | Invalid(fields: seq<string>) | IntegrityError | ProtectedError | ServerError

  // ---------------------------------------------------------------------
  // Choices
  // ---------------------------------------------------------------------

  datatype MealType = Breakfast | Lunch | Dinner | Snack | Dessert | OtherMeal

  /** The stored value of a `MealType` choice. */
  function MealTypeValue(m: MealType): string {
    match m
    case Breakfast => "breakfast"
    case Lunch => "lunch"
    case Dinner => "dinner"
    case Snack => "snack"
    case Dessert => "dessert"
    case OtherMeal => "other"
  }

  datatype CookMethod = Stovetop | Oven | Grill | AirFryer | Microwave | NoCook | OtherMethod

  /** The stored value of a `CookMethod` choice. */
  function CookMethodValue(m: CookMethod): string {
    match m
    case Stovetop => "stovetop"
    case Oven => "oven"
    case Grill => "grill"
    case AirFryer => "air_fryer"
    case Microwave => "microwave"
    case NoCook => "no_cook"
    case OtherMethod => "other"
  }

  datatype Outcome = NailedIt | Good | Okay | Fail | Experiment

  datatype URLKind = RecipeLink | Video | Product | Article | OtherLink

  datatype PDFKind = RecipeDocument | Reference | Instructions | OtherDocument

  /** Distinct choices are stored as distinct strings, so filtering on the
      stored value selects exactly one choice. */
  lemma ChoiceValuesInjective(a: MealType, b: MealType, c: CookMethod, d: CookMethod)
    ensures MealTypeValue(a) == MealTypeValue(b) ==> a == b
    ensures CookMethodValue(c) == CookMethodValue(d) ==> c == d
  {
  }

  // ---------------------------------------------------------------------
  // Generic targets and files
  // ---------------------------------------------------------------------

  /** The content types an attachment can point at. */
  datatype TargetKind = RecipeTarget | DishTarget | CookSessionTarget | CookResultTarget

  /** `(content_type, object_id)`: the generic reference an attachment holds.
      `object_id` is text, not a foreign key. */
  datatype GenericRef = GenericRef(kind: TargetKind, objectId: string)

  /** A `FieldFile`: its storage name ("" when no file is set) and whether it
      is already in storage or still an upload waiting for `pre_save`. */
  datatype StoredFile = StoredFile(name: string, committed: bool)

  // ---------------------------------------------------------------------
  // Entities
  // ---------------------------------------------------------------------

  datatype Recipe = Recipe(
    owner: Owner, createdAt: Instant, updatedAt: Instant,
    title: string, description: string, author: string,
    ingredients: string, instructions: string, yieldText: string,
    prepMinutes: Option<nat>, cookMinutes: Option<nat>,
    isFavorite: bool, isActive: bool)

  datatype Dish = Dish(
    owner: Owner, createdAt: Instant, updatedAt: Instant,
    name: string, description: string,
    defaultRecipe: Option<nat>,
    isActive: bool)

  datatype CookSession = CookSession(
    owner: Owner, createdAt: Instant, updatedAt: Instant,
    dish: nat, recipeUsed: Option<nat>,
    cookedOn: Day, mealType: MealType, cookMethod: CookMethod,
    durationMinutes: Option<nat>, summary: string, isActive: bool)

  datatype CookResult = CookResult(
    owner: Owner, createdAt: Instant, updatedAt: Instant,
    cookSession: nat, outcome: Outcome,
    overallRating: Option<int>, tasteRating: Option<int>,
    textureRating: Option<int>, appearanceRating: Option<int>,
    wouldMakeAgain: bool,
    whatWorked: string, whatToChange: string, nextTimePlan: string)

  datatype Note = Note(
    owner: Owner, createdAt: Instant, updatedAt: Instant,
    target: GenericRef, title: string, body: string, isPinned: bool)

  datatype TrackedImage = TrackedImage(
    owner: Owner, createdAt: Instant, updatedAt: Instant,
    uuid: string, target: GenericRef, image: StoredFile,
    caption: string, altText: string, takenAt: Option<Instant>,
    sortOrder: nat, isCover: bool)

  datatype ReferenceURL = ReferenceURL(
    owner: Owner, createdAt: Instant, updatedAt: Instant,
    target: GenericRef, kind: URLKind, title: string, url: string,
    description: string, sortOrder: nat, isPrimary: bool)

  datatype PDFDocument = PDFDocument(
    owner: Owner, createdAt: Instant, updatedAt: Instant,
    uuid: string, target: GenericRef, kind: PDFKind,
    title: string, description: string, pdf: StoredFile,
    originalFilename: string, pageCount: Option<nat>, sortOrder: nat)

  // ---------------------------------------------------------------------
  // Field defaults
  // ---------------------------------------------------------------------

  /** A Recipe as the model builds one before any field is set. */
  function BlankRecipe(now: Instant): (r: Recipe)
    ensures r.owner == None && r.createdAt == now
    ensures r.title == "" && !r.isFavorite && r.isActive
    ensures r.prepMinutes == None && r.cookMinutes == None
  {
    Recipe(None, now, now, "", "", "", "", "", "", None, None, false, true)
  }

  /** A Dish before any field is set. */
  function BlankDish(now: Instant): (d: Dish)
    ensures d.owner == None && d.createdAt == now
    ensures d.defaultRecipe == None && d.isActive
  {
    Dish(None, now, now, "", "", None, true)
  }

  /** A CookSession of `dish` before any other field is set; `cooked_on`
      defaults to the local date. */
  function BlankCookSession(dish: nat, today: Day, now: Instant): (s: CookSession)
    ensures s.owner == None && s.dish == dish && s.cookedOn == today
    ensures s.mealType == OtherMeal && s.cookMethod == OtherMethod && s.isActive
    ensures s.recipeUsed == None
  {
    CookSession(None, now, now, dish, None, today, OtherMeal, OtherMethod, None, "", true)
  }

  /** The CookResult that `get_or_create` inserts for a session: outcome
      "experiment", no ratings, `would_make_again` false. */
  function BlankCookResult(session: nat, owner: Owner, now: Instant): (c: CookResult)
    ensures c.owner == owner && c.cookSession == session && c.createdAt == now
    ensures c.outcome == Experiment && !c.wouldMakeAgain
    ensures c.overallRating == None && c.tasteRating == None
    ensures c.textureRating == None && c.appearanceRating == None
    ensures RatingsValid(c)
  {
    CookResult(owner, now, now, session, Experiment, None, None, None, None, false, "", "", "")
  }

  // ---------------------------------------------------------------------
  // Rating validators (MinValueValidator(1), MaxValueValidator(10))
  // ---------------------------------------------------------------------

  /** A nullable rating passes both validators: absent, or in 1..10. */
  predicate RatingValid(r: Option<int>) {
    r.None? || 1 <= r.value <= 10
  }

  predicate RatingsValid(c: CookResult) {
    RatingValid(c.overallRating) && RatingValid(c.tasteRating)
    && RatingValid(c.textureRating) && RatingValid(c.appearanceRating)
  }

  /** The rating fields a form's `full_clean` reports, in field order. */
  function RatingErrors(c: CookResult): (errs: seq<string>)
    ensures errs == [] <==> RatingsValid(c)
    ensures "overall_rating" in errs <==> !RatingValid(c.overallRating)
    ensures "taste_rating" in errs <==> !RatingValid(c.tasteRating)
    ensures "texture_rating" in errs <==> !RatingValid(c.textureRating)
    ensures "appearance_rating" in errs <==> !RatingValid(c.appearanceRating)
    ensures |errs| <= 4
  {
    (if RatingValid(c.overallRating) then [] else ["overall_rating"])
    + (if RatingValid(c.tasteRating) then [] else ["taste_rating"])
    + (if RatingValid(c.textureRating) then [] else ["texture_rating"])
    + (if RatingValid(c.appearanceRating) then [] else ["appearance_rating"])
  }

  /** A rating of 11 is rejected, whichever of the four fields holds it. */
  lemma ElevenRejected(c: CookResult)
    requires c.overallRating == Some(11) || c.tasteRating == Some(11)
          || c.textureRating == Some(11) || c.appearanceRating == Some(11)
    ensures RatingErrors(c) != []
  {
  }

  // ---------------------------------------------------------------------
  // Upload paths
  // ---------------------------------------------------------------------

  const IMAGE_DIR := "cooking-companion/images/"
  const PDF_DIR := "cooking-companion/pdfs/"

  /** `cooking_companion_image_upload_to`: `cooking-companion/images/{uuid}/{filename}`. */
  function ImageUploadTo(uuid: string, filename: string): (path: string)
    ensures IsPrefix(IMAGE_DIR, path) && |path| == |IMAGE_DIR| + |uuid| + 1 + |filename|
    ensures path[|IMAGE_DIR|..|IMAGE_DIR| + |uuid|] == uuid
    ensures '/' !in filename ==> LastSegment(path) == filename
  {
    var path := IMAGE_DIR + uuid + "/" + filename;
    assert path[..|IMAGE_DIR|] == IMAGE_DIR;
    assert path[|IMAGE_DIR|..|IMAGE_DIR| + |uuid|] == uuid;
    if '/' in filename then path
    else
      LastSegmentOfJoin(IMAGE_DIR + uuid, filename);
      path
  }

  /** `cooking_companion_pdf_upload_to`: `cooking-companion/pdfs/{uuid}/{filename}`. */
  function PDFUploadTo(uuid: string, filename: string): (path: string)
    ensures IsPrefix(PDF_DIR, path) && |path| == |PDF_DIR| + |uuid| + 1 + |filename|
    ensures path[|PDF_DIR|..|PDF_DIR| + |uuid|] == uuid
    ensures '/' !in filename ==> LastSegment(path) == filename
  {
    var path := PDF_DIR + uuid + "/" + filename;
    assert path[..|PDF_DIR|] == PDF_DIR;
    assert path[|PDF_DIR|..|PDF_DIR| + |uuid|] == uuid;
    if '/' in filename then path
    else
      LastSegmentOfJoin(PDF_DIR + uuid, filename);
      path
  }

  /** `dir + a + "/" + x == dir + b + "/" + y` with no `/` in `a` or `b`
      forces `a == b` and `x == y`. */
  lemma JoinInjective(dir: string, a: string, x: string, b: string, y: string)
    requires '/' !in a && '/' !in b
    requires dir + a + "/" + x == dir + b + "/" + y
    ensures a == b && x == y
  {
    var s := dir + a + "/" + x;
    var t := dir + b + "/" + y;
    SlashAfter(dir, a, x);
    SlashAfter(dir, b, y);
    if |a| < |b| {
      assert false;
    } else if |b| < |a| {
      assert false;
    } else {
      assert a == s[|dir|..|dir| + |a|] && b == t[|dir|..|dir| + |b|];
      assert x == s[|dir| + |a| + 1..] && y == t[|dir| + |b| + 1..];
    }
  }

  /** In `dir + a + "/" + x` with no `/` in `a`, the first `/` after `dir`
      is the one just past `a`. */
  lemma SlashAfter(dir: string, a: string, x: string)
    requires '/' !in a
    ensures (dir + a + "/" + x)[|dir| + |a|] == '/'
    ensures forall i :: |dir| <= i < |dir| + |a| ==> (dir + a + "/" + x)[i] != '/'
  {
    var s := dir + a + "/" + x;
    forall i | |dir| <= i < |dir| + |a| ensures s[i] != '/' {
      assert s[i] == a[i - |dir|];
    }
  }

  /** Each file gets its own directory: two PDFs whose uuids differ never
      share a path, and neither does an image with a PDF. */
  lemma UploadPathsDistinct(u1: string, f1: string, u2: string, f2: string)
    requires '/' !in u1 && '/' !in u2
    ensures PDFUploadTo(u1, f1) == PDFUploadTo(u2, f2) ==> u1 == u2 && f1 == f2
    ensures ImageUploadTo(u1, f1) == ImageUploadTo(u2, f2) ==> u1 == u2 && f1 == f2
    ensures ImageUploadTo(u1, f1) != PDFUploadTo(u2, f2)
  {
    if PDFUploadTo(u1, f1) == PDFUploadTo(u2, f2) {
      JoinInjective(PDF_DIR, u1, f1, u2, f2);
    }
    if ImageUploadTo(u1, f1) == ImageUploadTo(u2, f2) {
      JoinInjective(IMAGE_DIR, u1, f1, u2, f2);
    }
    var p := ImageUploadTo(u1, f1);
    var q := PDFUploadTo(u2, f2);
    assert p[18] == 'i' && q[18] == 'p';
  }

  /** `FileField.pre_save`: an upload not yet in storage is saved under the
      name `upload_to` builds from its file name; a committed file, or no
      file, is left as it is. Storage-level renaming is not modelled. */
  function CommitUpload(f: StoredFile, uploadTo: string -> string): (r: StoredFile)
    ensures r.committed || r == f
    ensures f.committed || f.name == "" ==> r == f
    ensures !f.committed && f.name != "" ==> r == StoredFile(uploadTo(f.name), true)
  {
    if !f.committed && f.name != "" then StoredFile(uploadTo(f.name), true) else f
  }

  // ---------------------------------------------------------------------
  // PDFDocument.save
  // ---------------------------------------------------------------------

  /** The first step of `PDFDocument.save`: when a file is set and
      `original_filename` is blank, fill it with the last `/`-segment of the
      file's current name. Nothing else changes and a non-blank value is kept. */
  function FillOriginalFilename(d: PDFDocument): (r: PDFDocument)
    ensures r == d.(originalFilename := r.originalFilename)
    ensures d.originalFilename != "" ==> r == d
    ensures d.pdf.name == "" ==> r == d
    ensures d.originalFilename == "" && d.pdf.name != "" ==>
              r.originalFilename == LastSegment(d.pdf.name) && '/' !in r.originalFilename
  {
    if d.pdf.name != "" && d.originalFilename == "" then
      d.(originalFilename := LastSegment(d.pdf.name))
    else d
  }

  /** Saving twice fills the filename at most once. */
  lemma FillOriginalFilenameIdempotent(d: PDFDocument)
    ensures FillOriginalFilename(FillOriginalFilename(d)) == FillOriginalFilename(d)
  {
  }

  /** `PDFDocument.save` as a whole: fill `original_filename`, then let
      `pre_save` move a fresh upload into `cooking-companion/pdfs/{uuid}/`. */
  function SavePDF(d: PDFDocument): (r: PDFDocument)
    ensures r.originalFilename == FillOriginalFilename(d).originalFilename
    ensures r.pdf == CommitUpload(d.pdf, name => PDFUploadTo(d.uuid, name))
    ensures r == d.(originalFilename := r.originalFilename, pdf := r.pdf)
  {
    var filled := FillOriginalFilename(d);
    filled.(pdf := CommitUpload(filled.pdf, name => PDFUploadTo(filled.uuid, name)))
  }

  /** A fresh upload named `f` (no `/`) with a blank `original_filename` is
      stored at `cooking-companion/pdfs/{uuid}/f` and remembers `f`; the
      stored path's last segment agrees with it, so a later save keeps it. */
  lemma SavePDFUploadRoundTrip(d: PDFDocument)
    requires !d.pdf.committed && d.pdf.name != "" && '/' !in d.pdf.name
    requires d.originalFilename == ""
    ensures SavePDF(d).pdf.name == PDFUploadTo(d.uuid, d.pdf.name)
    ensures SavePDF(d).originalFilename == d.pdf.name
    ensures LastSegment(SavePDF(d).pdf.name) == SavePDF(d).originalFilename
    ensures SavePDF(SavePDF(d)) == SavePDF(d)
  {
    LastSegmentOfPlain(d.pdf.name);
  }

  // ---------------------------------------------------------------------
  // __str__ fallbacks
  // ---------------------------------------------------------------------

  /** `self.title` */
  function RecipeStr(r: Recipe): (s: string)
    ensures s == r.title
  {
    r.title
  }

  /** `self.name` */
  function DishStr(d: Dish): (s: string)
    ensures s == d.name
  {
    d.name
  }

  /** `f"{self.dish} @ {self.cooked_on}"`; the date's ISO text is given. */
  function CookSessionStr(dishName: string, cookedOnIso: string): (s: string)
    ensures IsPrefix(dishName, s)
    ensures s[|dishName|..] == " @ " + cookedOnIso
  {
    var s := dishName + " @ " + cookedOnIso;
    assert s[..|dishName|] == dishName;
    assert s[|dishName|..] == " @ " + cookedOnIso;
    s
  }

  /** `f"Result for {self.cook_session}"` */
  function CookResultStr(sessionStr: string): (s: string)
    ensures IsPrefix("Result for ", s) && s[11..] == sessionStr
  {
    var s := "Result for " + sessionStr;
    assert s[..11] == "Result for ";
    s
  }

  /** `str(self.pk)`, which is "None" for an unsaved row. */
  function PkStr(pk: Option<nat>): (s: string)
    ensures pk.Some? ==> s == DecimalString(pk.value) && DecimalValue(s) == pk.value
    ensures pk.None? ==> s == "None"
  {
    if pk.Some? then
      DecimalRoundTrip(pk.value);
      DecimalString(pk.value)
    else "None"
  }

  /** `self.title or f"Note {self.pk}"`: never empty. */
  function NoteStr(n: Note, pk: Option<nat>): (s: string)
    ensures s != ""
    ensures n.title != "" ==> s == n.title
    ensures n.title == "" ==> IsPrefix("Note ", s) && s[5..] == PkStr(pk)
  {
    if n.title != "" then n.title
    else
      var s := "Note " + PkStr(pk);
      assert s[..5] == "Note ";
      s
  }

  /** `f"Image {self.uuid}"` */
  function TrackedImageStr(i: TrackedImage): (s: string)
    ensures IsPrefix("Image ", s) && s[6..] == i.uuid
  {
    var s := "Image " + i.uuid;
    assert s[..6] == "Image ";
    s
  }

  /** The fallbacks name their row: two untitled notes saved under different
      keys, two images, two sessions of one dish on different dates, or two
      results of different sessions never print alike. */
  lemma StrFallbacksDistinguish(n: Note, p: nat, m: Note, q: nat, i: TrackedImage, j: TrackedImage,
                                dish: string, d1: string, d2: string, s1: string, s2: string)
    ensures n.title == "" && m.title == "" && p != q ==> NoteStr(n, Some(p)) != NoteStr(m, Some(q))
    ensures i.uuid != j.uuid ==> TrackedImageStr(i) != TrackedImageStr(j)
    ensures d1 != d2 ==> CookSessionStr(dish, d1) != CookSessionStr(dish, d2)
    ensures s1 != s2 ==> CookResultStr(s1) != CookResultStr(s2)
  {
    assert CookSessionStr(dish, d1)[|dish| + 3..] == (" @ " + d1)[3..] == d1;
    assert CookSessionStr(dish, d2)[|dish| + 3..] == (" @ " + d2)[3..] == d2;
  }

  /** `self.title or self.url`: empty only when both are. */
  function ReferenceURLStr(u: ReferenceURL): (s: string)
    ensures s == "" <==> u.title == "" && u.url == ""
    ensures u.title != "" ==> s == u.title
    ensures u.title == "" ==> s == u.url
  {
    if u.title != "" then u.title else u.url
  }

  /** `self.title or (self.original_filename or f"PDF {self.uuid}")`: never empty. */
  function PDFDocumentStr(d: PDFDocument): (s: string)
    ensures s != ""
    ensures d.title != "" ==> s == d.title
    ensures d.title == "" && d.originalFilename != "" ==> s == d.originalFilename
    ensures d.title == "" && d.originalFilename == "" ==> IsPrefix("PDF ", s) && s[4..] == d.uuid
  {
    if d.title != "" then d.title
    else if d.originalFilename != "" then d.originalFilename
    else "PDF " + d.uuid
  }
}
