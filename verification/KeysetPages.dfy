/** Keyset pages of a shelf and of a store: the cursor predicates against the ORDER BY. */
module KeysetPages {
  import opened Tables

  datatype Row = Row(id: nat, pinned: bool, votes: int, created: int)

  datatype Sort = Newest | Karma

  // ----- ORDER BY -----

  /** The sort columns, in order; every one is DESC. */
  function Columns(sort: Sort, r: Row): seq<int>
  {
    [if r.pinned then 1 else 0] + (if sort == Karma then [r.votes] else []) + [r.created, r.id]
  }

  /** Lexicographically greater. */
  predicate Greater(a: seq<int>, b: seq<int>)
    requires |a| == |b|
  {
    a != [] && (a[0] > b[0] || (a[0] == b[0] && Greater(a[1..], b[1..])))
  }

  /** `a` stands strictly before `b`. */
  predicate Before(sort: Sort, a: Row, b: Row) { Greater(Columns(sort, a), Columns(sort, b)) }

  /** An ordered result of rows with distinct ids. */
  ghost predicate Ordered(sort: Sort, rows: seq<Row>)
  {
    forall i, j :: 0 <= i < j < |rows| ==> Before(sort, rows[i], rows[j])
  }

  /** The primary key. */
  ghost predicate UniqueIds(rows: seq<Row>)
  {
    forall i, j :: 0 <= i < j < |rows| ==> rows[i].id != rows[j].id
  }

  // ----- The predicates as written -----

  /** false < true */
  predicate Less(a: bool, b: bool) { !a && b }

  /** `afterCursor` of a shelf, in both sorts. */
  predicate AfterCursor(sort: Sort, row: Row, c: Option<Row>)
  {
    if sort == Karma then
      c.None? || Less(row.pinned, c.value.pinned) ||
      (row.pinned == c.value.pinned && (row.votes < c.value.votes ||
        (row.votes == c.value.votes && (row.created < c.value.created ||
          (row.created == c.value.created && row.id < c.value.id)))))
    else
      c.None? || Less(row.pinned, c.value.pinned) ||
      (row.pinned == c.value.pinned && (row.created < c.value.created ||
        (row.created == c.value.created && row.id < c.value.id)))
  }

  /** The predicate of a store page: the cursor is an id, looked up among the eligible rows. */
  predicate AfterAnchor(eligible: seq<Row>, row: Row, before: Option<nat>)
  {
    before.None? ||
    exists i :: 0 <= i < |eligible| && eligible[i].id == before.value &&
      (Less(row.pinned, eligible[i].pinned) ||
       (row.pinned == eligible[i].pinned &&
         (row.created < eligible[i].created || (row.created == eligible[i].created && row.id < eligible[i].id))))
  }

  lemma GreaterStep(x: int, y: int, a: seq<int>, b: seq<int>)
    requires |a| == |b|
    ensures Greater([x] + a, [y] + b) <==> x > y || (x == y && Greater(a, b))
  {
    assert ([x] + a)[1..] == a && ([y] + b)[1..] == b;
  }

  lemma TailOrder(a: Row, b: Row)
    ensures Greater([a.created, a.id], [b.created, b.id]) <==> b.created < a.created || (b.created == a.created && b.id < a.id)
  {
    assert [a.created] + [a.id] == [a.created, a.id] && [b.created] + [b.id] == [b.created, b.id];
    GreaterStep(a.created, b.created, [a.id], [b.id]);
    assert Greater([a.id], [b.id]) <==> a.id > b.id;
  }

  /** The shelf predicate is exactly "strictly after" in the ORDER BY, for both sorts. */
  lemma AfterCursorExactly(sort: Sort, row: Row, c: Row)
    ensures AfterCursor(sort, row, Some(c)) <==> Before(sort, c, row)
  {
    var p, q := if c.pinned then 1 else 0, if row.pinned then 1 else 0;
    TailOrder(c, row);
    if sort == Karma {
      assert Columns(sort, c) == [p] + ([c.votes] + [c.created, c.id]);
      assert Columns(sort, row) == [q] + ([row.votes] + [row.created, row.id]);
      GreaterStep(p, q, [c.votes] + [c.created, c.id], [row.votes] + [row.created, row.id]);
      GreaterStep(c.votes, row.votes, [c.created, c.id], [row.created, row.id]);
    } else {
      assert Columns(sort, c) == [p] + [c.created, c.id];
      assert Columns(sort, row) == [q] + [row.created, row.id];
      GreaterStep(p, q, [c.created, c.id], [row.created, row.id]);
    }
  }

  /** So is the store predicate, when the cursor names an eligible row. */
  lemma AfterAnchorExactly(eligible: seq<Row>, row: Row, k: nat)
    requires Ordered(Newest, eligible) && k < |eligible| && UniqueIds(eligible)
    ensures AfterAnchor(eligible, row, Some(eligible[k].id)) <==> Before(Newest, eligible[k], row)
  {
    AfterCursorExactly(Newest, row, eligible[k]);
    hide Before;
    assert forall i :: 0 <= i < |eligible| && eligible[i].id == eligible[k].id ==> i == k;
  }

  lemma {:induction false} GreaterIrreflexive(a: seq<int>)
    ensures !Greater(a, a)
  {
    if a != [] { GreaterIrreflexive(a[1..]); }
  }

  lemma {:induction false} GreaterAsymmetric(a: seq<int>, b: seq<int>)
    requires |a| == |b| && Greater(a, b)
    ensures !Greater(b, a)
  {
    if a[0] == b[0] { GreaterAsymmetric(a[1..], b[1..]); }
  }

  // ----- Pages -----

  function Filter(sort: Sort, rows: seq<Row>, c: Option<Row>): seq<Row>
    decreases |rows|
  {
    if rows == [] then []
    else (if AfterCursor(sort, rows[0], c) then [rows[0]] else []) + Filter(sort, rows[1..], c)
  }

  /** LIMIT n */
  function First(n: nat, rows: seq<Row>): seq<Row> { if |rows| <= n then rows else rows[..n] }

  /** WHERE … ORDER BY … LIMIT n, on a snapshot whose rows are already in order. */
  function Query(sort: Sort, rows: seq<Row>, c: Option<Row>, n: nat): seq<Row> { First(n, Filter(sort, rows, c)) }

  datatype Page = Page(items: seq<Row>, next: Option<Row>)

  /** `finalizePage` and `countedPage`: one row more than the limit was fetched. */
  function Finalize(rows: seq<Row>, limit: nat): Page
    requires limit > 0
  {
    if |rows| > limit then Page(rows[..limit], Some(rows[limit - 1])) else Page(rows, None)
  }

  function PageAfter(sort: Sort, rows: seq<Row>, c: Option<Row>, limit: nat): Page
    requires limit > 0
  {
    Finalize(Query(sort, rows, c, limit + 1), limit)
  }

  lemma {:induction false} FilterNone(sort: Sort, rows: seq<Row>)
    ensures Filter(sort, rows, None) == rows
    decreases |rows|
  {
    if rows != [] { FilterNone(sort, rows[1..]); }
  }

  /** Rows that all stand after the cursor are all kept. */
  lemma {:induction false} FilterAfter(sort: Sort, rows: seq<Row>, c: Row)
    requires forall i :: 0 <= i < |rows| ==> Before(sort, c, rows[i])
    ensures Filter(sort, rows, Some(c)) == rows
    decreases |rows|
  {
    hide Before, AfterCursor;
    if rows != [] {
      AfterCursorExactly(sort, rows[0], c);
      assert forall i :: 0 <= i < |rows[1..]| ==> rows[1..][i] == rows[i + 1];
      FilterAfter(sort, rows[1..], c);
    }
  }

  /** In an ordered snapshot the rows after the one at `k` are exactly the rest. */
  lemma {:induction false} FilterFrom(sort: Sort, rows: seq<Row>, k: nat)
    requires Ordered(sort, rows) && k < |rows|
    ensures Filter(sort, rows, Some(rows[k])) == rows[k + 1..]
    decreases |rows|
  {
    hide Before, AfterCursor;
    var rest := rows[1..];
    AfterCursorExactly(sort, rows[0], rows[k]);
    assert forall i :: 0 <= i < |rest| ==> rest[i] == rows[i + 1];
    if k == 0 {
      NotBeforeItself(sort, rows[0]);
      FilterAfter(sort, rest, rows[0]);
    } else {
      NotBothWays(sort, rows[0], rows[k]);
      FilterFrom(sort, rest, k - 1);
    }
  }

  lemma NotBeforeItself(sort: Sort, a: Row)
    ensures !Before(sort, a, a)
  {
    GreaterIrreflexive(Columns(sort, a));
  }

  lemma NotBothWays(sort: Sort, a: Row, b: Row)
    requires Before(sort, a, b)
    ensures !Before(sort, b, a)
  {
    GreaterAsymmetric(Columns(sort, a), Columns(sort, b));
  }

  // ----- Following the cursors -----

  /** Where a cursor stands in the snapshot. */
  ghost predicate Stands(rows: seq<Row>, c: Option<Row>, at: nat)
  {
    at <= |rows| && match c
      case None => at == 0
      case Some(row) => at > 0 && rows[at - 1] == row
  }

  lemma PageAt(sort: Sort, rows: seq<Row>, c: Option<Row>, limit: nat, at: nat)
    requires Ordered(sort, rows) && limit > 0 && Stands(rows, c, at)
    ensures Filter(sort, rows, c) == rows[at..]
    ensures var p := PageAfter(sort, rows, c, limit);
            if |rows| - at > limit then p == Page(rows[at..at + limit], Some(rows[at + limit - 1]))
            else p == Page(rows[at..], None)
  {
    hide Ordered, Filter, First, Finalize;
    if c.None? { FilterNone(sort, rows); } else { FilterFrom(sort, rows, at - 1); }
    assert rows[0..] == rows;
    FinalizeFirst(rows[at..], limit);
    if |rows| - at > limit { assert rows[at..][..limit] == rows[at..at + limit]; }
  }

  /** One row more than the limit is fetched, and only tells whether more follow. */
  lemma FinalizeFirst(rest: seq<Row>, limit: nat)
    requires limit > 0
    ensures Finalize(First(limit + 1, rest), limit) ==
      if |rest| > limit then Page(rest[..limit], Some(rest[limit - 1])) else Page(rest, None)
  {
    if |rest| > limit + 1 { assert rest[..limit + 1][..limit] == rest[..limit]; }
  }

  /** The pages a reader sees by following every cursor it is given. */
  ghost function Walk(sort: Sort, rows: seq<Row>, c: Option<Row>, limit: nat, at: nat): (pages: seq<seq<Row>>)
    requires Ordered(sort, rows) && limit > 0 && Stands(rows, c, at)
    decreases |rows| - at
  {
    PageAt(sort, rows, c, limit, at);
    var p := PageAfter(sort, rows, c, limit);
    if p.next.None? then [p.items] else [p.items] + Walk(sort, rows, p.next, limit, at + limit)
  }

  function Flatten(pages: seq<seq<Row>>): seq<Row>
    decreases |pages|
  {
    if pages == [] then [] else pages[0] + Flatten(pages[1..])
  }

  lemma WalkStep(sort: Sort, rows: seq<Row>, c: Option<Row>, limit: nat, at: nat)
    requires Ordered(sort, rows) && limit > 0 && Stands(rows, c, at)
    ensures if |rows| - at > limit then
              Stands(rows, Some(rows[at + limit - 1]), at + limit) &&
              Walk(sort, rows, c, limit, at) == [rows[at..at + limit]] + Walk(sort, rows, Some(rows[at + limit - 1]), limit, at + limit)
            else Walk(sort, rows, c, limit, at) == [rows[at..]]
  {
    hide Ordered, PageAfter;
    PageAt(sort, rows, c, limit, at);
  }

  /** Every page but the last is full. */
  predicate Full(pages: seq<seq<Row>>, limit: nat)
  {
    pages != [] && |pages[|pages| - 1]| <= limit && forall i :: 0 <= i < |pages| - 1 ==> |pages[i]| == limit
  }

  lemma FullCons(page: seq<Row>, pages: seq<seq<Row>>, limit: nat)
    requires |page| == limit && Full(pages, limit)
    ensures Full([page] + pages, limit) && Flatten([page] + pages) == page + Flatten(pages)
  {
    var all := [page] + pages;
    assert all[1..] == pages;
    assert all[|all| - 1] == pages[|pages| - 1];
    assert forall i :: 0 < i < |all| - 1 ==> all[i] == pages[i - 1];
  }

  /** From a cursor on, the pages hold every remaining row once, in order; each but the last is full. */
  lemma {:induction false} WalkFrom(sort: Sort, rows: seq<Row>, c: Option<Row>, limit: nat, at: nat)
    requires Ordered(sort, rows) && limit > 0 && Stands(rows, c, at)
    ensures Flatten(Walk(sort, rows, c, limit, at)) == rows[at..] && Full(Walk(sort, rows, c, limit, at), limit)
    decreases |rows| - at
  {
    hide Ordered, Walk, PageAfter;
    WalkStep(sort, rows, c, limit, at);
    if |rows| - at > limit {
      var next := Some(rows[at + limit - 1]);
      WalkFrom(sort, rows, next, limit, at + limit);
      FullCons(rows[at..at + limit], Walk(sort, rows, next, limit, at + limit), limit);
      assert rows[at..at + limit] + rows[at + limit..] == rows[at..];
    } else {
      assert Flatten([rows[at..]]) == rows[at..] + Flatten([]);
    }
  }

  /**
    On a fixed snapshot, following cursors from the start visits every eligible row exactly once, in
    the order of the ORDER BY, and stops.
   */
  lemma WalkVisitsAll(sort: Sort, rows: seq<Row>, limit: nat)
    requires Ordered(sort, rows) && limit > 0
    ensures Flatten(Walk(sort, rows, None, limit, 0)) == rows && Full(Walk(sort, rows, None, limit, 0), limit)
  {
    hide Walk;
    WalkFrom(sort, rows, None, limit, 0);
    assert rows[0..] == rows;
  }

  // ----- A store -----

  function StoreFilter(eligible: seq<Row>, rows: seq<Row>, before: Option<nat>): seq<Row>
    decreases |rows|
  {
    if rows == [] then []
    else (if AfterAnchor(eligible, rows[0], before) then [rows[0]] else []) + StoreFilter(eligible, rows[1..], before)
  }

  /** A store page selects what a newest-first shelf page selects after the anchor's row. */
  lemma {:induction false} StoreIsNewest(eligible: seq<Row>, rows: seq<Row>, k: nat)
    requires Ordered(Newest, eligible) && k < |eligible| && UniqueIds(eligible)
    ensures StoreFilter(eligible, rows, Some(eligible[k].id)) == Filter(Newest, rows, Some(eligible[k]))
    decreases |rows|
  {
    hide AfterAnchor, AfterCursor, Before;
    if rows != [] {
      AfterAnchorExactly(eligible, rows[0], k);
      AfterCursorExactly(Newest, rows[0], eligible[k]);
      StoreIsNewest(eligible, rows[1..], k);
    }
  }

  // ----- Following a store's ids -----

  /** `__cursor_valid` */
  predicate CursorValid(eligible: seq<Row>, before: Option<nat>)
  {
    before.None? || exists i :: 0 <= i < |eligible| && eligible[i].id == before.value
  }

  datatype StoreAnswer = NotInThisStore | StorePage(items: seq<Row>, total: nat, next: Option<nat>)

  /** A store page: refused for an id outside the store, else the limit's rows, with the last one's id if more follow. */
  function StoreAfter(eligible: seq<Row>, before: Option<nat>, limit: nat): StoreAnswer
    requires limit > 0
  {
    if !CursorValid(eligible, before) then NotInThisStore
    else
      var p := Finalize(First(limit + 1, StoreFilter(eligible, eligible, before)), limit);
      StorePage(p.items, |eligible|, if p.next.Some? then Some(p.next.value.id) else None)
  }

  /** Exactly the ids outside the store are refused. */
  lemma StoreRefusesExactly(eligible: seq<Row>, id: nat, limit: nat)
    requires limit > 0
    ensures StoreAfter(eligible, Some(id), limit) == NotInThisStore <==> forall i :: 0 <= i < |eligible| ==> eligible[i].id != id
  {
    hide StoreFilter;
  }

  /** Where an id stands in the store, and the row it names. */
  ghost predicate StandsAt(eligible: seq<Row>, before: Option<nat>, at: nat)
  {
    at <= |eligible| && match before
      case None => at == 0
      case Some(id) => at > 0 && eligible[at - 1].id == id
  }

  lemma {:induction false} StoreFromTop(eligible: seq<Row>, rows: seq<Row>)
    ensures StoreFilter(eligible, rows, None) == rows
    decreases |rows|
  {
    if rows != [] { StoreFromTop(eligible, rows[1..]); }
  }

  lemma StoreRest(eligible: seq<Row>, before: Option<nat>, at: nat)
    requires Ordered(Newest, eligible) && UniqueIds(eligible) && StandsAt(eligible, before, at)
    ensures CursorValid(eligible, before) && StoreFilter(eligible, eligible, before) == eligible[at..]
  {
    hide Ordered, AfterAnchor, AfterCursor, StoreFilter;
    if before.None? {
      StoreFromTop(eligible, eligible);
      assert eligible[0..] == eligible;
    } else {
      StoreIsNewest(eligible, eligible, at - 1);
      FilterFrom(Newest, eligible, at - 1);
    }
  }

  /** A store page holds the rows that follow the id, as many as the limit allows. */
  lemma StorePageAt(eligible: seq<Row>, before: Option<nat>, limit: nat, at: nat)
    requires Ordered(Newest, eligible) && UniqueIds(eligible) && limit > 0 && StandsAt(eligible, before, at)
    ensures StoreAfter(eligible, before, limit) ==
      if |eligible| - at > limit
      then StorePage(eligible[at..at + limit], |eligible|, Some(eligible[at + limit - 1].id))
      else StorePage(eligible[at..], |eligible|, None)
  {
    StoreRest(eligible, before, at);
    var c := if at == 0 then None else Some(eligible[at - 1]);
    PageAt(Newest, eligible, c, limit, at);
    hide Ordered, UniqueIds, StoreFilter, Filter, CursorValid, Finalize, First;
  }

  /** The pages a reader sees by following every `before_id` it is given. */
  ghost function StoreWalk(eligible: seq<Row>, before: Option<nat>, limit: nat, at: nat): (pages: seq<seq<Row>>)
    requires Ordered(Newest, eligible) && UniqueIds(eligible) && limit > 0 && StandsAt(eligible, before, at)
    decreases |eligible| - at
  {
    StorePageAt(eligible, before, limit, at);
    var p := StoreAfter(eligible, before, limit);
    if p.next.None? then [p.items] else [p.items] + StoreWalk(eligible, p.next, limit, at + limit)
  }

  /** Following the ids of a store gives the pages of a newest-first shelf. */
  lemma {:induction false} StoreWalkIsWalk(eligible: seq<Row>, before: Option<nat>, c: Option<Row>, limit: nat, at: nat)
    requires Ordered(Newest, eligible) && UniqueIds(eligible) && limit > 0
    requires StandsAt(eligible, before, at) && Stands(eligible, c, at)
    ensures StoreWalk(eligible, before, limit, at) == Walk(Newest, eligible, c, limit, at)
    decreases |eligible| - at
  {
    hide Ordered, UniqueIds, StoreAfter, PageAfter;
    StorePageAt(eligible, before, limit, at);
    WalkStep(Newest, eligible, c, limit, at);
    hide Walk;
    if |eligible| - at > limit {
      var last := eligible[at + limit - 1];
      StoreWalkIsWalk(eligible, Some(last.id), Some(last), limit, at + limit);
    }
  }

  /**
    On a fixed snapshot, following `before_id` from the start visits every eligible row of the store
    exactly once, in the order of the ORDER BY, in full pages but for the last, and stops.
   */
  lemma StoreWalkVisitsAll(eligible: seq<Row>, limit: nat)
    requires Ordered(Newest, eligible) && UniqueIds(eligible) && limit > 0
    ensures var pages := StoreWalk(eligible, None, limit, 0); Flatten(pages) == eligible && Full(pages, limit)
  {
    hide StoreWalk, Walk, Full, Flatten, Ordered, UniqueIds;
    StoreWalkIsWalk(eligible, None, None, limit, 0);
    WalkVisitsAll(Newest, eligible, limit);
  }
}
