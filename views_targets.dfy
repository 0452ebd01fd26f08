/** The attachment pages: `_get_target_or_404`, the four "add an attachment
    to this target" views and `TargetDetailView`. A target is named in the
    URL by a model key and a primary key; attachments point back at it by
    `(content_type, object_id)`. */
module TargetViews {
  import opened Wrappers
  import opened Models
  import opened Text
  import opened Tables
  import opened Ordering
  import opened Ownership
  import opened Database

  // ---------------------------------------------------------------------
  // Resolving a target
  // ---------------------------------------------------------------------

  /** The URL key of each content type in `ALLOWED_TARGET_MODELS`. */
  function ModelKey(k: TargetKind): string {
    match k
    case RecipeTarget => "recipe"
    case DishTarget => "dish"
    case CookSessionTarget => "cooksession"
    case CookResultTarget => "cookresult"
  }

  /** `ALLOWED_TARGET_MODELS.get(model_key)`: the content type a key names,
      and nothing for any other key. */
  function AllowedTargetModel(key: string): (r: Option<TargetKind>)
    ensures r.Some? ==> ModelKey(r.value) == key
    ensures r.None? ==> forall k :: ModelKey(k) != key
  {
    if key == "recipe" then Some(RecipeTarget)
    else if key == "dish" then Some(DishTarget)
    else if key == "cooksession" then Some(CookSessionTarget)
    else if key == "cookresult" then Some(CookResultTarget)
    else None
  }

  /** Every content type is reachable through its own key, and only through it. */
  lemma ModelKeyRoundTrip(k: TargetKind, key: string)
    ensures AllowedTargetModel(ModelKey(k)) == Some(k)
    ensures AllowedTargetModel(key) == Some(k) ==> key == ModelKey(k)
  {
  }

  /** Row `pk` of the table `k` names exists and is visible to `user`. */
  predicate TargetVisible(db: Db, user: UserId, k: TargetKind, pk: nat) {
    match k
    case RecipeTarget => pk in db.recipes.rows && OwnedQ(db.recipes.rows[pk].owner, user)
    case DishTarget => pk in db.dishes.rows && OwnedQ(db.dishes.rows[pk].owner, user)
    case CookSessionTarget => pk in db.sessions.rows && OwnedQ(db.sessions.rows[pk].owner, user)
    case CookResultTarget => pk in db.results.rows && OwnedQ(db.results.rows[pk].owner, user)
  }

  /** The lookup `model.objects.filter(owned_q(user))` runs for the target. */
  predicate LookupTarget(db: Db, user: UserId, k: TargetKind, pk: nat) {
    match k
    case RecipeTarget => LookupOwned(db.recipes, RecipeOwner, user, pk).Ok?
    case DishTarget => LookupOwned(db.dishes, DishOwner, user, pk).Ok?
    case CookSessionTarget => LookupOwned(db.sessions, CookSessionOwner, user, pk).Ok?
    case CookResultTarget => LookupOwned(db.results, CookResultOwner, user, pk).Ok?
  }

  /** `_get_target_or_404` plus `ContentType.objects.get_for_model` and
      `str(target_obj.pk)`: the generic reference attachments of the target
      carry. An unknown key and a missing or hidden row are both `NotFound`. */
  function GetTargetOr404(db: Db, user: UserId, key: string, pk: nat): (r: Result<GenericRef, Failure>)
    ensures r.Ok? <==> AllowedTargetModel(key).Some? && TargetVisible(db, user, AllowedTargetModel(key).value, pk)
    ensures r.Ok? ==> r.value.kind == AllowedTargetModel(key).value && ModelKey(r.value.kind) == key
    ensures r.Ok? ==> r.value.objectId == DecimalString(pk)
    ensures r.Err? ==> r.error == NotFound
  {
    var model := AllowedTargetModel(key);
    if model.None? then Err(NotFound)
    else
      if !LookupTarget(db, user, model.value, pk) then Err(NotFound)
      else
        Ok(GenericRef(model.value, DecimalString(pk)))
  }

  /** Two targets that resolve to the same reference are the same target,
      so attachments of one are never found under another. */
  lemma TargetRefsDistinct(db: Db, user: UserId, key1: string, pk1: nat, key2: string, pk2: nat)
    requires GetTargetOr404(db, user, key1, pk1).Ok? && GetTargetOr404(db, user, key2, pk2).Ok?
    requires GetTargetOr404(db, user, key1, pk1).value == GetTargetOr404(db, user, key2, pk2).value
    ensures key1 == key2 && pk1 == pk2
  {
    DecimalStringInjective(pk1, pk2);
  }

  /** A user cannot address a target created by somebody else. */
  lemma OtherUsersTargetNotFound(db: Db, user: UserId, other: UserId, pk: nat)
    requires other != user && pk in db.recipes.rows && db.recipes.rows[pk].owner == Some(other)
    ensures GetTargetOr404(db, user, "recipe", pk) == Err(NotFound)
  {
  }

  // ---------------------------------------------------------------------
  // Attaching
  // ---------------------------------------------------------------------

  /** What `form_valid` saves for a note: the form's fields on a new
      instance, bound to the target, stamped with the user. */
  function NewNote(form: Note, ref: GenericRef, user: UserId, now: Instant): (n: Note)
    ensures n.target == ref && n.owner == Some(user) && n.createdAt == now
    ensures n.title == form.title && n.body == form.body && n.isPinned == form.isPinned
  {
    var obj := form.(owner := None, createdAt := now, updatedAt := now, target := ref);
    obj.(owner := StampOwner(obj.owner, user))
  }

  function NewReferenceURL(form: ReferenceURL, ref: GenericRef, user: UserId, now: Instant): (u: ReferenceURL)
    ensures u.target == ref && u.owner == Some(user) && u.createdAt == now
    ensures u.(owner := form.owner, createdAt := form.createdAt, updatedAt := form.updatedAt, target := form.target) == form
  {
    var obj := form.(owner := None, createdAt := now, updatedAt := now, target := ref);
    obj.(owner := StampOwner(obj.owner, user))
  }

  /** `uuid` is the fresh `uuid4()` the new instance gets by default. */
  function NewTrackedImage(form: TrackedImage, uuid: string, ref: GenericRef, user: UserId, now: Instant): (i: TrackedImage)
    ensures i.target == ref && i.owner == Some(user) && i.createdAt == now && i.uuid == uuid
    ensures i.(owner := form.owner, createdAt := form.createdAt, updatedAt := form.updatedAt,
               uuid := form.uuid, target := form.target) == form
  {
    var obj := form.(owner := None, createdAt := now, updatedAt := now, uuid := uuid, target := ref);
    obj.(owner := StampOwner(obj.owner, user))
  }

  /** `original_filename` is not a form field, so it starts blank and
      `save()` fills it from the upload. */
  function NewPDFDocument(form: PDFDocument, uuid: string, ref: GenericRef, user: UserId, now: Instant): (p: PDFDocument)
    ensures p.target == ref && p.owner == Some(user) && p.createdAt == now && p.uuid == uuid
    ensures p.originalFilename == ""
    ensures p.(owner := form.owner, createdAt := form.createdAt, updatedAt := form.updatedAt,
               uuid := form.uuid, target := form.target, originalFilename := form.originalFilename) == form
  {
    var obj := form.(owner := None, createdAt := now, updatedAt := now, uuid := uuid, target := ref,
                     originalFilename := "");
    obj.(owner := StampOwner(obj.owner, user))
  }

  /** `TargetNoteCreateView`, on a valid form. */
  method TargetNoteCreate(store: Store, user: UserId, key: string, pk: nat, form: Note, now: Instant)
    returns (res: Result<nat, Failure>)
    requires store.db.Valid() && user in store.db.users
    modifies store
    ensures store.db.Valid()
    ensures res.Err? <==> GetTargetOr404(old(store.db), user, key, pk).Err?
    ensures res.Err? ==> res.error == NotFound && store.db == old(store.db)
    ensures res.Ok? ==>
              var ref := GetTargetOr404(old(store.db), user, key, pk).value;
              res.value == old(store.db.notes.next)
              && store.db == old(store.db).(notes := old(store.db.notes).Insert(NewNote(form, ref, user, now)))
              && Row(res.value, store.db.notes.rows[res.value]) in TargetNotes(store.db, ref, user)
  {
    var target := GetTargetOr404(store.db, user, key, pk);
    if target.Err? {
      return Err(NotFound);
    }
    var obj := NewNote(form, target.value, user, now);
    var id := store.InsertNote(obj, now);
    assert obj.(updatedAt := now) == obj;
    AttachedExact(store.db.notes, NoteTarget, NoteOwner, target.value, user, NoteOrder, Row(id, obj));
    res := Ok(id);
  }

  /** `TargetReferenceURLCreateView`, on a valid form. */
  method TargetURLCreate(store: Store, user: UserId, key: string, pk: nat, form: ReferenceURL, now: Instant)
    returns (res: Result<nat, Failure>)
    requires store.db.Valid() && user in store.db.users
    modifies store
    ensures store.db.Valid()
    ensures res.Err? <==> GetTargetOr404(old(store.db), user, key, pk).Err?
    ensures res.Err? ==> res.error == NotFound && store.db == old(store.db)
    ensures res.Ok? ==>
              var ref := GetTargetOr404(old(store.db), user, key, pk).value;
              res.value == old(store.db.urls.next)
              && store.db == old(store.db).(urls := old(store.db.urls).Insert(NewReferenceURL(form, ref, user, now)))
              && Row(res.value, store.db.urls.rows[res.value]) in TargetURLs(store.db, ref, user)
  {
    var target := GetTargetOr404(store.db, user, key, pk);
    if target.Err? {
      return Err(NotFound);
    }
    var obj := NewReferenceURL(form, target.value, user, now);
    var id := store.InsertURL(obj, now);
    assert obj.(updatedAt := now) == obj;
    AttachedExact(store.db.urls, ReferenceURLTarget, ReferenceURLOwner, target.value, user, ReferenceURLOrder, Row(id, obj));
    res := Ok(id);
  }

  /** `TargetTrackedImageCreateView`, on a valid form. The stored file name
      is the upload's moved under the image's uuid directory; a uuid already
      in use is an `IntegrityError`. */
  method TargetImageCreate(store: Store, user: UserId, key: string, pk: nat, form: TrackedImage,
                           uuid: string, now: Instant)
    returns (res: Result<nat, Failure>)
    requires store.db.Valid() && user in store.db.users
    modifies store
    ensures store.db.Valid()
    ensures res.Err? ==> store.db == old(store.db)
    ensures GetTargetOr404(old(store.db), user, key, pk).Err? ==> res == Err(NotFound)
    ensures GetTargetOr404(old(store.db), user, key, pk).Ok? ==>
              var ref := GetTargetOr404(old(store.db), user, key, pk).value;
              var obj := NewTrackedImage(form, uuid, ref, user, now);
              && (res.Ok? <==> !UuidTaken(old(store.db.images.rows), (x: TrackedImage) => x.uuid, uuid))
              && (res.Err? ==> res.error == IntegrityError)
              && (res.Ok? ==> res.value == old(store.db.images.next)
                              && store.db == old(store.db).(images := old(store.db.images).Insert(
                                   obj.(image := CommitUpload(obj.image, name => ImageUploadTo(uuid, name)))))
                              && Row(res.value, store.db.images.rows[res.value]) in TargetImages(store.db, ref, user))
  {
    var target := GetTargetOr404(store.db, user, key, pk);
    if target.Err? {
      return Err(NotFound);
    }
    var obj := NewTrackedImage(form, uuid, target.value, user, now);
    res := store.InsertImage(obj, now);
    if res.Ok? {
      var stored := obj.(image := CommitUpload(obj.image, name => ImageUploadTo(uuid, name)), updatedAt := now);
      assert stored == obj.(image := CommitUpload(obj.image, name => ImageUploadTo(uuid, name)));
      AttachedExact(store.db.images, TrackedImageTarget, TrackedImageOwner, target.value, user, TrackedImageOrder,
                    Row(res.value, stored));
    }
  }

  /** `TargetPDFDocumentCreateView`, on a valid form. */
  method TargetPDFCreate(store: Store, user: UserId, key: string, pk: nat, form: PDFDocument,
                         uuid: string, now: Instant)
    returns (res: Result<nat, Failure>)
    requires store.db.Valid() && user in store.db.users
    modifies store
    ensures store.db.Valid()
    ensures res.Err? ==> store.db == old(store.db)
    ensures GetTargetOr404(old(store.db), user, key, pk).Err? ==> res == Err(NotFound)
    ensures GetTargetOr404(old(store.db), user, key, pk).Ok? ==>
              var ref := GetTargetOr404(old(store.db), user, key, pk).value;
              var obj := NewPDFDocument(form, uuid, ref, user, now);
              && (res.Ok? <==> !UuidTaken(old(store.db.pdfs.rows), (x: PDFDocument) => x.uuid, uuid))
              && (res.Err? ==> res.error == IntegrityError)
              && (res.Ok? ==> res.value == old(store.db.pdfs.next)
                              && store.db == old(store.db).(pdfs := old(store.db.pdfs).Insert(SavePDF(obj)))
                              && Row(res.value, store.db.pdfs.rows[res.value]) in TargetPDFs(store.db, ref, user))
  {
    var target := GetTargetOr404(store.db, user, key, pk);
    if target.Err? {
      return Err(NotFound);
    }
    var obj := NewPDFDocument(form, uuid, target.value, user, now);
    res := store.InsertPDF(obj, now);
    if res.Ok? {
      assert SavePDF(obj).(updatedAt := now) == SavePDF(obj);
      AttachedExact(store.db.pdfs, PDFDocumentTarget, PDFDocumentOwner, target.value, user, PDFDocumentOrder,
                    Row(res.value, SavePDF(obj)));
    }
  }

  // ---------------------------------------------------------------------
  // The target page
  // ---------------------------------------------------------------------

  function NoteTarget(n: Note): GenericRef { n.target }
  function TrackedImageTarget(i: TrackedImage): GenericRef { i.target }
  function ReferenceURLTarget(u: ReferenceURL): GenericRef { u.target }
  function PDFDocumentTarget(p: PDFDocument): GenericRef { p.target }

  function BoundTo<T>(target: T -> GenericRef, ref: GenericRef): Row<T> -> bool {
    (row: Row<T>) => target(row.val) == ref
  }

  /** `Model.objects.filter(content_type=ct, object_id=oid).filter(owned_q(user))
      .order_by(...)` for one attachment table. */
  function Attached<T>(t: Table<T>, target: T -> GenericRef, owner: T -> Owner, ref: GenericRef,
                       user: UserId, key: Row<T> -> seq<int>): (r: seq<Row<T>>)
    ensures SortedBy(r, key)
  {
    SortBy(Filter(VisibleTableRows(t, owner, user), BoundTo(target, ref)), key)
  }

  /** An attachment is listed exactly when it is bound to the target and
      visible to the user. */
  lemma AttachedExact<T>(t: Table<T>, target: T -> GenericRef, owner: T -> Owner, ref: GenericRef,
                         user: UserId, key: Row<T> -> seq<int>, row: Row<T>)
    requires t.Valid()
    ensures row in Attached(t, target, owner, ref, user, key) <==>
              row.pk in t.rows && t.rows[row.pk] == row.val && target(row.val) == ref && OwnedQ(owner(row.val), user)
  {
    var vis := VisibleTableRows(t, owner, user);
    InSortBy(Filter(vis, BoundTo(target, ref)), key, row);
    InFilter(vis, BoundTo(target, ref), row);
    InVisibleTableRows(t, owner, user, row);
  }

  /** `order_by("-is_pinned", "-updated_at")`. */
  function NoteOrder(row: Row<Note>): seq<int> {
    [if row.val.isPinned then 0 else 1, -row.val.updatedAt]
  }

  /** `order_by("sort_order", "-created_at")`, shared by images, links and PDFs. */
  function PositionKey(sortOrder: nat, createdAt: Instant): seq<int> {
    [sortOrder, -createdAt]
  }

  function TrackedImageOrder(row: Row<TrackedImage>): seq<int> {
    PositionKey(row.val.sortOrder, row.val.createdAt)
  }

  function ReferenceURLOrder(row: Row<ReferenceURL>): seq<int> {
    PositionKey(row.val.sortOrder, row.val.createdAt)
  }

  function PDFDocumentOrder(row: Row<PDFDocument>): seq<int> {
    PositionKey(row.val.sortOrder, row.val.createdAt)
  }

  /** Pinned notes come first; within the same pin state, the most recently
      updated first. */
  lemma NoteOrderMeaning(a: Row<Note>, b: Row<Note>)
    requires LexLe(NoteOrder(a), NoteOrder(b))
    ensures b.val.isPinned ==> a.val.isPinned
    ensures a.val.isPinned == b.val.isPinned ==> a.val.updatedAt >= b.val.updatedAt
  {
    LexLeFirst(NoteOrder(a), NoteOrder(b));
    if a.val.isPinned == b.val.isPinned {
      LexLeFirst(NoteOrder(a)[1..], NoteOrder(b)[1..]);
    }
  }

  /** Lower `sort_order` first; on a tie, the most recently created first. */
  lemma PositionKeyMeaning(s1: nat, c1: Instant, s2: nat, c2: Instant)
    requires LexLe(PositionKey(s1, c1), PositionKey(s2, c2))
    ensures s1 <= s2
    ensures s1 == s2 ==> c1 >= c2
  {
    LexLeFirst(PositionKey(s1, c1), PositionKey(s2, c2));
    if s1 == s2 {
      LexLeFirst(PositionKey(s1, c1)[1..], PositionKey(s2, c2)[1..]);
    }
  }

  function TargetNotes(db: Db, ref: GenericRef, user: UserId): seq<Row<Note>> {
    Attached(db.notes, NoteTarget, NoteOwner, ref, user, NoteOrder)
  }

  function TargetURLs(db: Db, ref: GenericRef, user: UserId): seq<Row<ReferenceURL>> {
    Attached(db.urls, ReferenceURLTarget, ReferenceURLOwner, ref, user, ReferenceURLOrder)
  }

  function TargetImages(db: Db, ref: GenericRef, user: UserId): seq<Row<TrackedImage>> {
    Attached(db.images, TrackedImageTarget, TrackedImageOwner, ref, user, TrackedImageOrder)
  }

  function TargetPDFs(db: Db, ref: GenericRef, user: UserId): seq<Row<PDFDocument>> {
    Attached(db.pdfs, PDFDocumentTarget, PDFDocumentOwner, ref, user, PDFDocumentOrder)
  }

  datatype TargetPage = TargetPage(
    modelKey: string, target: GenericRef,
    notes: seq<Row<Note>>, urls: seq<Row<ReferenceURL>>,
    images: seq<Row<TrackedImage>>, pdfs: seq<Row<PDFDocument>>)

  /** `TargetDetailView.get_context_data()`: the target's attachments the
      user may see, each list in its own order; `NotFound` exactly when the
      target does not resolve. */
  function TargetDetail(db: Db, user: UserId, key: string, pk: nat): (r: Result<TargetPage, Failure>)
    ensures r.Ok? <==> GetTargetOr404(db, user, key, pk).Ok?
    ensures r.Err? ==> r.error == NotFound
    ensures r.Ok? ==> r.value.modelKey == key && r.value.target == GetTargetOr404(db, user, key, pk).value
    ensures r.Ok? ==>
              SortedBy(r.value.notes, NoteOrder) && SortedBy(r.value.urls, ReferenceURLOrder)
              && SortedBy(r.value.images, TrackedImageOrder) && SortedBy(r.value.pdfs, PDFDocumentOrder)
  {
    var ref :- GetTargetOr404(db, user, key, pk);
    Ok(TargetPage(key, ref, TargetNotes(db, ref, user), TargetURLs(db, ref, user),
                  TargetImages(db, ref, user), TargetPDFs(db, ref, user)))
  }

  /** A note shows on a target's page exactly when it is bound to that
      target and visible to the user; a note of another target or of
      another user never shows. */
  lemma TargetNotesExact(db: Db, user: UserId, key: string, pk: nat, row: Row<Note>)
    requires db.Valid() && TargetDetail(db, user, key, pk).Ok?
    ensures row in TargetDetail(db, user, key, pk).value.notes <==>
              row.pk in db.notes.rows && db.notes.rows[row.pk] == row.val
              && row.val.target == GenericRef(AllowedTargetModel(key).value, DecimalString(pk))
              && OwnedQ(row.val.owner, user)
  {
    var ref := GetTargetOr404(db, user, key, pk).value;
    AttachedExact(db.notes, NoteTarget, NoteOwner, ref, user, NoteOrder, row);
  }

  /** The same for images, links and PDFs. */
  lemma TargetFilesExact(db: Db, user: UserId, key: string, pk: nat,
                         i: Row<TrackedImage>, u: Row<ReferenceURL>, p: Row<PDFDocument>)
    requires db.Valid() && TargetDetail(db, user, key, pk).Ok?
    ensures i in TargetDetail(db, user, key, pk).value.images <==>
              i.pk in db.images.rows && db.images.rows[i.pk] == i.val
              && i.val.target == TargetDetail(db, user, key, pk).value.target && OwnedQ(i.val.owner, user)
    ensures u in TargetDetail(db, user, key, pk).value.urls <==>
              u.pk in db.urls.rows && db.urls.rows[u.pk] == u.val
              && u.val.target == TargetDetail(db, user, key, pk).value.target && OwnedQ(u.val.owner, user)
    ensures p in TargetDetail(db, user, key, pk).value.pdfs <==>
              p.pk in db.pdfs.rows && db.pdfs.rows[p.pk] == p.val
              && p.val.target == TargetDetail(db, user, key, pk).value.target && OwnedQ(p.val.owner, user)
  {
    var ref := GetTargetOr404(db, user, key, pk).value;
    AttachedExact(db.images, TrackedImageTarget, TrackedImageOwner, ref, user, TrackedImageOrder, i);
    AttachedExact(db.urls, ReferenceURLTarget, ReferenceURLOwner, ref, user, ReferenceURLOrder, u);
    AttachedExact(db.pdfs, PDFDocumentTarget, PDFDocumentOwner, ref, user, PDFDocumentOrder, p);
  }
}
