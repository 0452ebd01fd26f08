/** A database table: rows keyed by an auto-incremented primary key. */
module Tables {

  /** One row of a query result: its primary key and its field values. */
  datatype Row<T> = Row(pk: nat, val: T)

  /** `rows` maps each primary key to its record; `next` is the value the
      auto-increment counter hands out next (it starts at 1 and never goes
      back, so a deleted key is never reused). */
  datatype Table<T> = Table(rows: map<nat, T>, next: nat) {

    ghost predicate Valid() {
      next >= 1 && forall pk :: pk in rows ==> 1 <= pk < next
    }

    /** `INSERT`: the new row gets the key `next`. */
    function Insert(v: T): (t: Table<T>)
      ensures t.rows == rows[next := v] && t.next == next + 1
      ensures Valid() ==> t.Valid() && next !in rows
    {
      Table(rows[next := v], next + 1)
    }

    /** `UPDATE ... WHERE pk = pk` of an existing row. */
    function Update(pk: nat, v: T): (t: Table<T>)
      requires pk in rows
      ensures t.rows == rows[pk := v] && t.rows.Keys == rows.Keys && t.next == next
      ensures Valid() ==> t.Valid()
    {
      Table(rows[pk := v], next)
    }

    /** `DELETE ... WHERE pk IN keys`. */
    function Remove(keys: set<nat>): (t: Table<T>)
      ensures t.rows.Keys == rows.Keys - keys && t.next == next
      ensures forall pk :: pk in t.rows ==> t.rows[pk] == rows[pk]
      ensures Valid() ==> t.Valid()
    {
      Table(map pk | pk in rows && pk !in keys :: rows[pk], next)
    }
  }

  /** A table with no rows. */
  function EmptyTable<T>(): (t: Table<T>)
    ensures t.Valid() && t.rows == map[]
  {
    Table(map[], 1)
  }

  /** The rows whose keys are below `n`, in key order. */
  function RowsBelow<T>(m: map<nat, T>, n: nat): (r: seq<Row<T>>)
    ensures forall i :: 0 <= i < |r| ==> r[i].pk in m && r[i].pk < n && m[r[i].pk] == r[i].val
    ensures forall i, j :: 0 <= i < j < |r| ==> r[i].pk < r[j].pk
    ensures forall pk :: pk in m && pk < n ==> Row(pk, m[pk]) in r
  {
    if n == 0 then []
    else
      var init := RowsBelow(m, n - 1);
      init + (if n - 1 in m then [Row(n - 1, m[n - 1])] else [])
  }

  /** `Model.objects.all()` in primary-key order: every row exactly once. */
  function AllRows<T>(t: Table<T>): (r: seq<Row<T>>)
    ensures forall i :: 0 <= i < |r| ==> r[i].pk in t.rows && t.rows[r[i].pk] == r[i].val
    ensures forall i, j :: 0 <= i < j < |r| ==> r[i].pk < r[j].pk
    ensures t.Valid() ==> forall pk :: pk in t.rows ==> Row(pk, t.rows[pk]) in r
  {
    RowsBelow(t.rows, t.next)
  }

  /** A row appears in `AllRows` exactly when it is in the table. */
  lemma InAllRows<T>(t: Table<T>, row: Row<T>)
    requires t.Valid()
    ensures row in AllRows(t) <==> row.pk in t.rows && t.rows[row.pk] == row.val
  {
  }
}
