/** What every table model here uses: optional columns, the clock's units, bounded retention. */
module Tables {

  datatype Option<+T> = None | Some(value: T)

  // Times are in microseconds.
  const MINUTE: nat := 60_000_000
  const DAY: nat := 1440 * MINUTE
  const RETENTION: nat := 30 * DAY
  const PRUNE_LIMIT: nat := 50

  function Coalesce<T>(a: Option<T>, b: T): Option<T> { if a.Some? then a else Some(b) }

  function Least(a: nat, b: nat): nat { if a <= b then a else b }

  lemma {:induction false} SubsetSize<T>(a: set<T>, b: set<T>)
    requires a <= b
    ensures |a| <= |b|
  {
    if a != {} {
      var x :| x in a;
      SubsetSize(a - {x}, b - {x});
    }
  }

  // ----- ORDER BY … LIMIT -----

  /** A strict total order on these rows. */
  ghost predicate Sorts<T(!new)>(rows: set<T>, before: (T, T) -> bool)
  {
    (forall x :: x in rows ==> !before(x, x)) &&
    (forall x, y :: x in rows && y in rows && x != y ==> (before(x, y) <==> !before(y, x))) &&
    (forall x, y, z :: x in rows && y in rows && z in rows && before(x, y) && before(y, z) ==> before(x, z))
  }

  function Ahead<T(!new)>(rows: set<T>, before: (T, T) -> bool, x: T): set<T> { set y | y in rows && before(y, x) }

  /** The first `limit` rows: those with fewer than `limit` rows ahead of them. */
  function FirstFew<T(!new)>(rows: set<T>, before: (T, T) -> bool, limit: nat): set<T>
  {
    set x | x in rows && |Ahead(rows, before, x)| < limit
  }

  lemma {:induction false} LastRow<T(!new)>(rows: set<T>, before: (T, T) -> bool) returns (z: T)
    requires rows != {} && Sorts(rows, before)
    ensures z in rows && forall y :: y in rows && y != z ==> before(y, z)
    decreases |rows|
  {
    var x :| x in rows;
    var rest := rows - {x};
    z := x;
    if rest != {} {
      z := LastRow(rest, before);
      if before(z, x) { z := x; }
    }
    assert forall y :: y in rows && y != x ==> y in rest;
  }

  /** Without the last row, the others have the same rows ahead of them. */
  lemma LastApart<T(!new)>(rows: set<T>, before: (T, T) -> bool, z: T)
    requires Sorts(rows, before) && z in rows && forall y :: y in rows && y != z ==> before(y, z)
    ensures Sorts(rows - {z}, before) && Ahead(rows, before, z) == rows - {z}
    ensures forall x :: x in rows - {z} ==> Ahead(rows, before, x) == Ahead(rows - {z}, before, x)
  {
  }

  /** They are as many as there are, up to the limit. */
  lemma {:induction false} FirstFewCount<T(!new)>(rows: set<T>, before: (T, T) -> bool, limit: nat)
    requires Sorts(rows, before)
    ensures |FirstFew(rows, before, limit)| == Least(|rows|, limit)
    decreases |rows|
  {
    hide Sorts;
    if rows == {} {
      assert FirstFew(rows, before, limit) == {};
    } else {
      var z := LastRow(rows, before);
      var rest := rows - {z};
      LastApart(rows, before, z);
      FirstFewCount(rest, before, limit);
      hide Ahead;
      var few := FirstFew(rest, before, limit);
      assert FirstFew(rows, before, limit) == if |rest| < limit then few + {z} else few;
      assert z !in few;
    }
  }

  /** Each of them stands before every row left out. */
  lemma FirstFewLead<T(!new)>(rows: set<T>, before: (T, T) -> bool, limit: nat, x: T, y: T)
    requires Sorts(rows, before) && x in FirstFew(rows, before, limit) && y in rows && y !in FirstFew(rows, before, limit)
    ensures before(x, y)
  {
    if !before(x, y) {
      assert Ahead(rows, before, y) <= Ahead(rows, before, x);
      SubsetSize(Ahead(rows, before, y), Ahead(rows, before, x));
    }
  }
}
