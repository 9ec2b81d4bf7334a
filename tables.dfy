// Generic SQLite table behaviour shared by every model class in db.py:
// rows in rowid order, integer primary keys handed out as max(rowid) + 1,
// `query(...).filter(...).first()`, `.all()`, `db.delete` and assigning columns.
// `query(T).count()` of a whole table is the length of its sequence.

module Tables {
  import opened Wrappers

  /** A stored row: its integer primary key and its other columns. */
  datatype Row<T> = Row(id: nat, fields: T)

  /** `rel` holds of every earlier row and every later row: the shape of a UNIQUE constraint. */
  ghost predicate Pairwise<T>(t: seq<Row<T>>, rel: (Row<T>, Row<T>) -> bool) {
    forall i, j :: 0 <= i < j < |t| ==> rel(t[i], t[j])
  }

  /** Rows are kept in rowid order, so ids strictly increase. */
  ghost predicate IdsIncreasing<T>(t: seq<Row<T>>) {
    Pairwise(t, (a: Row<T>, b: Row<T>) => a.id < b.id)
  }

  /** Some row of `t` has primary key `id`. */
  predicate HasId<T>(t: seq<Row<T>>, id: int) {
    exists i :: 0 <= i < |t| && t[i].id == id
  }

  /** Under increasing ids, a primary key names one row. */
  lemma SameIdSameRow<T>(t: seq<Row<T>>, i: nat, j: nat)
    requires IdsIncreasing(t) && i < |t| && j < |t|
    ensures t[i].id == t[j].id ==> i == j
  {
    if i < j {
      assert t[i].id < t[j].id;
    } else if j < i {
      assert t[j].id < t[i].id;
    }
  }

  /** The largest primary key in use, 0 for an empty table. */
  function MaxId<T>(t: seq<Row<T>>): (m: nat)
    ensures forall i :: 0 <= i < |t| ==> t[i].id <= m
    ensures t != [] ==> exists i :: 0 <= i < |t| && t[i].id == m
  {
    if t == [] then 0
    else
      var m := MaxId(t[..|t| - 1]);
      var last := t[|t| - 1].id;
      if m < last then last else m
  }

  /**
   * The primary key SQLite gives the next inserted row of an
   * `INTEGER PRIMARY KEY` column without AUTOINCREMENT: one more than the
   * largest key in use, so the key of a deleted last row can come back.
   */
  function NextId<T>(t: seq<Row<T>>): (id: nat)
    ensures id >= 1 && !HasId(t, id)
    ensures forall i :: 0 <= i < |t| ==> t[i].id < id
  {
    MaxId(t) + 1
  }

  /** `db.add(row); db.commit()`: the row is stored under the next key. */
  function Insert<T>(t: seq<Row<T>>, fields: T): (r: seq<Row<T>>)
    ensures |r| == |t| + 1 && r[..|t|] == t
    ensures r[|t|] == Row(NextId(t), fields)
  {
    t + [Row(NextId(t), fields)]
  }

  /** Index of the first row satisfying `p`, scanning in rowid order. */
  function FindFirst<T>(t: seq<Row<T>>, p: Row<T> -> bool): (k: Option<nat>)
    ensures k.Some? ==> k.value < |t| && p(t[k.value])
    ensures k.Some? ==> forall j :: 0 <= j < k.value ==> !p(t[j])
    ensures k.None? <==> forall j :: 0 <= j < |t| ==> !p(t[j])
  {
    if t == [] then None
    else if p(t[0]) then Some(0)
    else
      match FindFirst(t[1..], p)
      case None => None
      case Some(k) => Some(k + 1)
  }

  /** Two tables whose rows match the filter at the same positions have the same first match. */
  lemma {:induction false} FindFirstSameMatches<T>(t: seq<Row<T>>, u: seq<Row<T>>, p: Row<T> -> bool)
    requires |t| == |u|
    requires forall j :: 0 <= j < |t| ==> (p(t[j]) <==> p(u[j]))
    ensures FindFirst(t, p) == FindFirst(u, p)
  {
    if t != [] && !p(t[0]) {
      FindFirstSameMatches(t[1..], u[1..], p);
    }
  }

  /** `query(T).filter(p).first()`. */
  function First<T>(t: seq<Row<T>>, p: Row<T> -> bool): (r: Option<Row<T>>)
    ensures r.None? <==> forall j :: 0 <= j < |t| ==> !p(t[j])
    ensures r.Some? ==> exists k :: 0 <= k < |t| && t[k] == r.value && p(r.value) &&
                                    forall j :: 0 <= j < k ==> !p(t[j])
  {
    match FindFirst(t, p)
    case None => None
    case Some(k) => Some(t[k])
  }

  /** `query(T).filter(p).all()`: the matching rows, in rowid order. */
  function Where<T>(t: seq<Row<T>>, p: Row<T> -> bool): (r: seq<Row<T>>)
    ensures |r| <= |t|
    ensures forall i :: 0 <= i < |r| ==> r[i] in t && p(r[i])
    ensures forall i :: 0 <= i < |t| && p(t[i]) ==> t[i] in r
  {
    if t == [] then []
    else if p(t[0]) then [t[0]] + Where(t[1..], p)
    else Where(t[1..], p)
  }

  /** `db.delete(row)`: every row but the one with primary key `id`. */
  function Delete<T>(t: seq<Row<T>>, id: nat): (r: seq<Row<T>>)
    ensures forall i :: 0 <= i < |r| ==> r[i] in t && r[i].id != id
    ensures forall i :: 0 <= i < |t| && t[i].id != id ==> t[i] in r
  {
    Where(t, (x: Row<T>) => x.id != id)
  }

  /** Assigning the columns of the row with key `id` and committing: keys and order stay. */
  function Update<T>(t: seq<Row<T>>, id: nat, fields: T): (r: seq<Row<T>>)
    ensures |r| == |t|
    ensures forall i :: 0 <= i < |t| ==> r[i].id == t[i].id
    ensures forall i :: 0 <= i < |t| ==> r[i].fields == if t[i].id == id then fields else t[i].fields
  {
    seq(|t|, i requires 0 <= i < |t| => if t[i].id == id then Row(id, fields) else t[i])
  }

  /** Filtering keeps the rowid order. */
  lemma WhereKeepsOrder<T>(t: seq<Row<T>>, p: Row<T> -> bool)
    requires IdsIncreasing(t)
    ensures IdsIncreasing(Where(t, p))
  {
    WhereKeepsPairwise(t, p, (a: Row<T>, b: Row<T>) => a.id < b.id);
  }

  /** Filtering keeps a pairwise constraint. */
  lemma {:induction false} WhereKeepsPairwise<T>(t: seq<Row<T>>, p: Row<T> -> bool, rel: (Row<T>, Row<T>) -> bool)
    requires Pairwise(t, rel)
    ensures Pairwise(Where(t, p), rel)
  {
    if t != [] {
      WhereKeepsPairwise(t[1..], p, rel);
      var rest := Where(t[1..], p);
      if p(t[0]) {
        forall x | x in rest ensures rel(t[0], x) {
          var k :| 0 <= k < |t[1..]| && t[1..][k] == x;
          assert t[k + 1] == x;
        }
        var r := [t[0]] + rest;
        forall i, j | 0 <= i < j < |r| ensures rel(r[i], r[j]) {
          if i > 0 {
            assert r[i] == rest[i - 1] && r[j] == rest[j - 1];
          } else {
            assert r[j] in rest;
          }
        }
      }
    }
  }

  /** Deleting a row keeps the rowid order. */
  lemma DeleteKeepsOrder<T>(t: seq<Row<T>>, id: nat)
    requires IdsIncreasing(t)
    ensures IdsIncreasing(Delete(t, id))
  {
    WhereKeepsOrder(t, (x: Row<T>) => x.id != id);
  }

  /** Appending a row that is related to every stored row keeps a pairwise constraint. */
  lemma InsertKeepsPairwise<T>(t: seq<Row<T>>, fields: T, rel: (Row<T>, Row<T>) -> bool)
    requires Pairwise(t, rel)
    requires forall i :: 0 <= i < |t| ==> rel(t[i], Row(NextId(t), fields))
    ensures Pairwise(Insert(t, fields), rel)
  {
    var r := Insert(t, fields);
    forall i, j | 0 <= i < j < |r| ensures rel(r[i], r[j]) {
      if j == |t| {
        assert r[i] == t[i];
      } else {
        assert r[i] == t[i] && r[j] == t[j];
      }
    }
  }

  /** Inserting keeps every stored key. */
  lemma InsertKeepsIds<T>(t: seq<Row<T>>, fields: T, id: int)
    requires HasId(t, id)
    ensures HasId(Insert(t, fields), id)
  {
    var k :| 0 <= k < |t| && t[k].id == id;
    assert Insert(t, fields)[k] == t[k];
  }

  /** Appending a row under the next key keeps the rowid order. */
  lemma InsertKeepsOrder<T>(t: seq<Row<T>>, fields: T)
    requires IdsIncreasing(t)
    ensures IdsIncreasing(Insert(t, fields))
  {
    InsertKeepsPairwise(t, fields, (a: Row<T>, b: Row<T>) => a.id < b.id);
  }

  /** A row appended to the table is appended to every filter it passes. */
  lemma {:induction false} WhereAppend<T>(t: seq<Row<T>>, x: Row<T>, p: Row<T> -> bool)
    ensures Where(t + [x], p) == Where(t, p) + (if p(x) then [x] else [])
  {
    if t == [] {
      assert [x][1..] == [];
    } else {
      assert (t + [x])[0] == t[0] && (t + [x])[1..] == t[1..] + [x];
      WhereAppend(t[1..], x, p);
    }
  }

  /** Deleting a stored key removes exactly one row when keys are unique. */
  lemma {:induction false} DeleteStoredRow<T>(t: seq<Row<T>>, id: nat)
    requires IdsIncreasing(t) && HasId(t, id)
    ensures |Delete(t, id)| == |t| - 1
  {
    var k :| 0 <= k < |t| && t[k].id == id;
    if k == 0 {
      assert forall x :: x in t[1..] ==> x.id != id by {
        forall x | x in t[1..] ensures x.id != id {
          var j :| 0 <= j < |t[1..]| && t[1..][j] == x;
          assert t[j + 1] == x;
        }
      }
      WhereAll(t[1..], (x: Row<T>) => x.id != id);
    } else {
      assert t[1..][k - 1].id == id;
      DeleteStoredRow(t[1..], id);
    }
  }

  /** A filter every row passes keeps the whole table. */
  lemma {:induction false} WhereAll<T>(t: seq<Row<T>>, p: Row<T> -> bool)
    requires forall x :: x in t ==> p(x)
    ensures Where(t, p) == t
  {
    if t != [] {
      assert t[0] in t;
      assert forall x :: x in t[1..] ==> x in t;
      WhereAll(t[1..], p);
    }
  }

  /** A new row is what `first()` finds when it is the only match. */
  lemma FirstAfterInsert<T>(t: seq<Row<T>>, fields: T, p: Row<T> -> bool)
    requires forall j :: 0 <= j < |t| ==> !p(t[j])
    requires p(Row(NextId(t), fields))
    ensures First(Insert(t, fields), p) == Some(Row(NextId(t), fields))
  {
    var r := Insert(t, fields);
    assert forall j :: 0 <= j < |t| ==> r[j] == t[j];
    var k := FindFirst(r, p).value;
    assert k == |t|;
  }

  /** A new row does not change what `first()` found before it. */
  lemma FirstKeptByInsert<T>(t: seq<Row<T>>, fields: T, p: Row<T> -> bool)
    requires First(t, p).Some?
    ensures First(Insert(t, fields), p) == First(t, p)
  {
    var r := Insert(t, fields);
    var k := FindFirst(t, p).value;
    assert r[k] == t[k];
    var k' := FindFirst(r, p).value;
    assert k' <= k;
    assert r[k'] == t[k'];
  }
}
