/** The ownership rule `owned_q` and the two ways the views apply it: as a
    filter on a list of rows and as the queryset a single-row lookup runs
    against. */
module Ownership {
  import opened Wrappers
  import opened Models
  import opened Tables
  import opened Ordering

  /** `owned_q(user)`: `Q(created_by=user) | Q(created_by__isnull=True)`. A
      row is visible to the user who created it, and to every user when it
      has no creator. */
  predicate OwnedQ(owner: Owner, user: UserId) {
    owner == Some(user) || owner == None
  }

  // How each table's rows name their creator, as function values the
  // queries below take.
  function RecipeOwner(r: Recipe): Owner { r.owner }
  function DishOwner(d: Dish): Owner { d.owner }
  function CookSessionOwner(s: CookSession): Owner { s.owner }
  function CookResultOwner(c: CookResult): Owner { c.owner }
  function NoteOwner(n: Note): Owner { n.owner }
  function TrackedImageOwner(i: TrackedImage): Owner { i.owner }
  function ReferenceURLOwner(u: ReferenceURL): Owner { u.owner }
  function PDFDocumentOwner(p: PDFDocument): Owner { p.owner }

  /** A row that belongs to a different user is never visible. */
  lemma OtherUsersHidden(owner: Owner, user: UserId, other: UserId)
    requires owner == Some(other) && other != user
    ensures !OwnedQ(owner, user)
  {
  }

  /** `qs.filter(owned_q(user))` over rows of any table, given how to read a
      row's `created_by`: exactly the visible rows, in their order. */
  function VisibleRows<T>(rows: seq<Row<T>>, owner: T -> Owner, user: UserId): (r: seq<Row<T>>)
    ensures |r| <= |rows|
    ensures forall i :: 0 <= i < |r| ==> r[i] in rows && OwnedQ(owner(r[i].val), user)
    ensures forall i :: 0 <= i < |rows| && OwnedQ(owner(rows[i].val), user) ==> rows[i] in r
  {
    var p := (row: Row<T>) => OwnedQ(owner(row.val), user);
    var r := Filter(rows, p);
    assert forall i :: 0 <= i < |r| ==> p(r[i]);
    r
  }

  /** Every visible row of a table, in key order. */
  function VisibleTableRows<T>(t: Table<T>, owner: T -> Owner, user: UserId): (r: seq<Row<T>>)
    ensures forall i :: 0 <= i < |r| ==>
              r[i].pk in t.rows && t.rows[r[i].pk] == r[i].val && OwnedQ(owner(r[i].val), user)
    ensures t.Valid() ==> forall pk :: pk in t.rows && OwnedQ(owner(t.rows[pk]), user) ==>
              Row(pk, t.rows[pk]) in r
  {
    var all := AllRows(t);
    var r := VisibleRows(all, owner, user);
    assert t.Valid() ==> forall pk :: pk in t.rows ==> Row(pk, t.rows[pk]) in all;
    r
  }

  /** A row is listed exactly when it is a row of the table visible to `user`. */
  lemma InVisibleTableRows<T>(t: Table<T>, owner: T -> Owner, user: UserId, row: Row<T>)
    requires t.Valid()
    ensures row in VisibleTableRows(t, owner, user) <==>
              row.pk in t.rows && t.rows[row.pk] == row.val && OwnedQ(owner(row.val), user)
  {
    var r := VisibleTableRows(t, owner, user);
    if row in r {
      var i :| 0 <= i < |r| && r[i] == row;
    }
  }

  /** `get_object_or_404(Model.objects.filter(owned_q(user)), pk=pk)`, the
      lookup behind every detail, update and delete view: the row when it
      exists and is visible to `user`, and `NotFound` otherwise. */
  function LookupOwned<T>(t: Table<T>, owner: T -> Owner, user: UserId, pk: nat): (r: Result<T, Failure>)
    ensures r.Ok? <==> pk in t.rows && OwnedQ(owner(t.rows[pk]), user)
    ensures r.Ok? ==> r.value == t.rows[pk] && (owner(r.value) == Some(user) || owner(r.value) == None)
    ensures r.Err? ==> r.error == NotFound
  {
    if pk in t.rows && OwnedQ(owner(t.rows[pk]), user) then Ok(t.rows[pk]) else Err(NotFound)
  }

  /** The owner stamp every create and update path applies before saving:
      a record without a creator gets the requesting user, and a recorded
      creator is kept. */
  function StampOwner(o: Owner, user: UserId): (r: Owner)
    ensures r.Some?
    ensures o.Some? ==> r == o
    ensures o.None? ==> r == Some(user)
  {
    if o.None? then Some(user) else o
  }

  /** Stamping never hides a record from the user who saved it, and a
      stamped record is visible to that user exactly when it was theirs or
      had no creator. */
  lemma StampKeepsVisible(o: Owner, user: UserId)
    ensures OwnedQ(StampOwner(o, user), user) <==> OwnedQ(o, user)
  {
  }

  /** Stamping a previously shared record takes it away from every other
      user. */
  lemma StampClaimsShared(user: UserId, other: UserId)
    requires other != user
    ensures OwnedQ(None, other) && !OwnedQ(StampOwner(None, user), other)
  {
  }

  /** Stamping twice is stamping once. */
  lemma StampIdempotent(o: Owner, user: UserId, other: UserId)
    ensures StampOwner(StampOwner(o, user), other) == StampOwner(o, user)
  {
  }
}
