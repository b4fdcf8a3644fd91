/** Pages, one after another, are the whole sorted listing; and the methods that build them. */
module BrowseListing {
  import opened Bytes
  import opened Strings
  import opened SqlModel
  import opened Browse
  import opened BrowsePaging

  // ---------- A browse that can be paged

  /** What stays the same from page to page. */
  datatype View = View(filters: Compiled, order: Order, useOffset: bool)

  /** The compiled part of a request, when the request is one the table accepts. */
  function ViewOf(detail: Detail, request: Request): Result<View, Problem> {
    var filters := CompileFilters(detail, request.filters, Compiled([], []));
    if filters.Err? then Err(filters.problem)
    else
      var columns := OrderColumns(detail, request.sort);
      if columns.Err? then Err(columns.problem)
      else if columns.value == [] && detail.columns == [] then Err(NoColumns)
      else Ok(View(filters.value, OrderBy(detail, request, columns.value), UsesOffset(detail, columns.value)))
  }

  /** Everything the filters keep, in the listing's order. */
  function Listing(db: Db, detail: Detail, table: seq<Row>, request: Request, o: Order): seq<Row> {
    Sort(db, o, Satisfying(db, detail, table, request.filters))
  }

  /** The primary key is unique: two rows differ in one of its columns. */
  predicate KeyIsUnique(db: Db, detail: Detail, table: seq<Row>) {
    forall i, j :: 0 <= i < j < |table| ==> KeysDiffer(db, detail, table[i], table[j])
  }

  predicate KeysDiffer(db: Db, detail: Detail, a: Row, b: Row) {
    exists key :: key in detail.primaryKey && DifferAt(db, detail, key, a, b)
  }

  predicate DifferAt(db: Db, detail: Detail, key: Text, a: Row, b: Row) {
    var c := FindColumn(detail.columns, key);
    c.Some? && CmpCell(db, c.value.fullType, CellOf(a, key), CellOf(b, key)) != 0
  }

  /** Columns not marked nullable hold no NULL, and printed cells cast back to themselves. */
  predicate CellsAreSound(db: Db, detail: Detail, table: seq<Row>) {
    forall row, c :: row in table && c in detail.columns && !c.nullable ==> RoundTrips(db, [c], row)
  }

  /** Keyset paging relies on the key and on sound cells; OFFSET on neither. */
  ghost predicate Pageable(db: Db, detail: Detail, table: seq<Row>, useOffset: bool) {
    Lawful(db) && (useOffset || (KeyIsUnique(db, detail, table) && CellsAreSound(db, detail, table)))
  }

  // ---------- The order columns tell all rows apart

  predicate AllFound(detail: Detail, columns: seq<Column>) {
    forall c :: c in columns ==> FindColumn(detail.columns, c.name) == Some(c)
  }

  lemma {:induction false} AddKeysCovers(detail: Detail, keys: seq<Text>, columns: seq<Column>)
    requires AllFound(detail, columns) && AddKeys(detail, keys, columns).Ok?
    ensures var r := AddKeys(detail, keys, columns).value;
            && AllFound(detail, r) && columns <= r
            && (forall key :: key in keys ==> exists c :: c in r && c.name == key)
    decreases |keys|
  {
    if keys != [] {
      var key := keys[0];
      FoundByName(detail.columns, key);
      var next := if key in Names(columns) then columns else columns + [FindColumn(detail.columns, key).value];
      AddKeysCovers(detail, keys[1..], next);
      var r := AddKeys(detail, keys, columns).value;
      if key in Names(columns) {
        var i :| 0 <= i < |columns| && columns[i].name == key;
        assert r[i] == columns[i];
      } else {
        assert r[|columns|] == next[|columns|] && next[|columns|].name == key;
      }
      forall k | k in keys ensures exists c :: c in r && c.name == k {
        if k != key { assert k in keys[1..]; }
      }
    }
  }

  lemma OrderColumnsCover(detail: Detail, sort: Option<SortBy>)
    requires OrderColumns(detail, sort).Ok?
    ensures var r := OrderColumns(detail, sort).value;
            AllFound(detail, r) && forall key :: key in detail.primaryKey ==> exists c :: c in r && c.name == key
  {
    if sort.Some? { FoundByName(detail.columns, sort.value.column); }
    AddKeysCovers(detail, detail.primaryKey, SortColumns(detail, sort).value);
  }

  lemma {:induction false} TieMeansEqualCells(db: Db, columns: seq<Column>, a: Row, b: Row, c: Column)
    requires CmpRows(db, columns, a, b) == 0 && c in columns
    ensures CmpCell(db, c.fullType, CellOf(a, c.name), CellOf(b, c.name)) == 0
  {
    if c != columns[0] { TieMeansEqualCells(db, columns[1..], a, b, c); }
  }

  lemma KeyBreaksTies(db: Db, detail: Detail, sort: Option<SortBy>, a: Row, b: Row)
    requires OrderColumns(detail, sort).Ok? && KeysDiffer(db, detail, a, b)
    ensures CmpRows(db, OrderColumns(detail, sort).value, a, b) != 0
  {
    var columns := OrderColumns(detail, sort).value;
    OrderColumnsCover(detail, sort);
    var key :| key in detail.primaryKey && DifferAt(db, detail, key, a, b);
    var c :| c in columns && c.name == key;
    if CmpRows(db, columns, a, b) == 0 { TieMeansEqualCells(db, columns, a, b, c); }
  }

  // ---------- Keyset views

  /** What the keyset comparison relies on, for one order and the rows of one table. */
  ghost predicate Keyset(db: Db, o: Order, table: seq<Row>) {
    && Lawful(db) && Apart(db, o, table)
    && (forall row :: row in table ==> RoundTrips(db, o.columns, row))
  }

  lemma ViewIsKeyset(db: Db, detail: Detail, table: seq<Row>, request: Request)
    requires ViewOf(detail, request).Ok? && !ViewOf(detail, request).value.useOffset
    requires Pageable(db, detail, table, false)
    ensures Keyset(db, ViewOf(detail, request).value.order, table)
  {
    var columns := OrderColumns(detail, request.sort).value;
    OrderColumnsCover(detail, request.sort);
    var key := detail.primaryKey[0];
    assert key in detail.primaryKey;
    assert exists c :: c in columns && c.name == key;
    var o := ViewOf(detail, request).value.order;
    assert o.columns == columns;
    forall i, j | 0 <= i < j < |table| ensures CmpRows(db, o.columns, table[i], table[j]) != 0 {
      KeyBreaksTies(db, detail, request.sort, table[i], table[j]);
    }
    forall row, c | row in table && c in columns ensures RoundTrips(db, [c], row) {
      FoundByName(detail.columns, c.name);
    }
    forall row | row in table ensures RoundTrips(db, columns, row) {
      forall c | c in columns
        ensures CellOf(row, c.name).Some?
        ensures db.cmp(c.fullType, db.cast(c.fullType, CellOf(row, c.name).value), CellOf(row, c.name).value) == 0
      {
        assert RoundTrips(db, [c], row) && c in [c];
      }
    }
  }

  lemma ListingIn(db: Db, detail: Detail, table: seq<Row>, request: Request, o: Order, k: nat)
    requires Lawful(db) && k < |Listing(db, detail, table, request, o)|
    ensures Listing(db, detail, table, request, o)[k] in table
  {
    var kept := Satisfying(db, detail, table, request.filters);
    var r := Listing(db, detail, table, request, o)[k];
    SortSorts(db, o, kept);
    assert r in multiset(Sort(db, o, kept));
    SatisfyingIn(db, detail, table, request.filters, r);
  }

  /** The query with a cursor at row `k - 1` of the listing selects and sorts the rest of it. */
  lemma KeysetRest(db: Db, detail: Detail, table: seq<Row>, request: Request, v: View, k: nat)
    requires ViewOf(detail, request) == Ok(v) && Keyset(db, v.order, table)
    requires 0 < k <= |Listing(db, detail, table, request, v.order)|
    ensures var all := Listing(db, detail, table, request, v.order);
            var q := AfterCursor(v.order, CursorAt(v.order, all[k - 1]), v.filters);
            Bounded(q) && Sort(db, v.order, Select(db, table, q.params, q.clauses)) == all[k..]
  {
    var o, all := v.order, Listing(db, detail, table, request, v.order);
    var kept := Satisfying(db, detail, table, request.filters);
    var last := all[k - 1];
    SelectMeansFilters(db, detail, table, request.filters);
    ListingIn(db, detail, table, request, o, k - 1);
    SelectMeansAfter(db, o, last, table, v.filters);
    SortCommutes(db, o, last, kept);
    SortSorts(db, o, kept);
    SatisfyingStaysApart(db, o, detail, table, request.filters);
    SortStaysApart(db, o, kept);
    RowsAfterKth(db, o, all, k - 1);
  }

  // ---------- One page at a time

  /** The cursor that stands behind the first `k` rows. */
  function CursorTo(db: Db, v: View, all: seq<Row>, k: nat): Cursor
    requires 0 < k <= |all|
  {
    if v.useOffset then Cursor([Some(db.show(k))], v.order.descending, []) else CursorAt(v.order, all[k - 1])
  }

  function RequestAt(db: Db, v: View, all: seq<Row>, request: Request, k: nat): Request
    requires k <= |all|
  {
    request.(cursor := if k == 0 then None else Some(Readable(CursorTo(db, v, all, k))))
  }

  /** A request's view, the listing it pages through, and what its mode relies on. */
  ghost predicate Paging(db: Db, detail: Detail, table: seq<Row>, request: Request, v: View, all: seq<Row>) {
    && ViewOf(detail, request) == Ok(v) && all == Listing(db, detail, table, request, v.order)
    && Lawful(db) && (v.useOffset || Keyset(db, v.order, table))
  }

  lemma FetchFrom(db: Db, detail: Detail, table: seq<Row>, request: Request, v: View, all: seq<Row>, k: nat, limit: nat)
    returns (q: Query)
    requires Paging(db, detail, table, request, v, all) && k <= |all|
    ensures Position(db, v.order, v.useOffset, RequestAt(db, v, all, request, k).cursor, v.filters) == Ok(q)
    ensures Bounded(q.where) && (v.useOffset ==> q.offset == k)
    ensures Fetch(db, table, q, v.order, limit) == all[k..Min(k + limit, |all|)]
  {
    SelectMeansFilters(db, detail, table, request.filters);
    if v.useOffset || k == 0 {
      q := Query(v.filters, k);
    } else {
      q := FetchBehind(db, detail, table, request, v, all, k, limit);
    }
  }

  lemma FetchBehind(db: Db, detail: Detail, table: seq<Row>, request: Request, v: View, all: seq<Row>, k: nat, limit: nat)
    returns (q: Query)
    requires Paging(db, detail, table, request, v, all) && 0 < k <= |all| && !v.useOffset
    ensures Position(db, v.order, false, Some(Readable(CursorAt(v.order, all[k - 1]))), v.filters) == Ok(q)
    ensures Bounded(q.where) && Fetch(db, table, q, v.order, limit) == all[k..Min(k + limit, |all|)]
  {
    KeysetRest(db, detail, table, request, v, k);
    hide Sort, Select, AfterCursor, Listing, ViewOf;
    q := Query(AfterCursor(v.order, CursorAt(v.order, all[k - 1]), v.filters), 0);
    assert all[k..][..Min(k + limit, |all|) - k] == all[k..Min(k + limit, |all|)];
  }

  lemma BrowseIsPageOf(db: Db, detail: Detail, table: seq<Row>, request: Request, v: View, q: Query)
    requires ViewOf(detail, request) == Ok(v) && Bounded(v.filters) && Bounded(q.where)
    requires Position(db, v.order, v.useOffset, request.cursor, v.filters) == Ok(q)
    ensures BrowseTable(db, detail, table, request) ==
            Ok(PageOf(db, Fetch(db, table, q, v.order, Limit(request) + 1), v.order, v.useOffset, q.offset,
                      Limit(request), CountRows(db, detail, table, request, v.filters)))
  {
    hide Fetch, CountRows, Position, PageOf, CompileFilters, OrderColumns;
  }

  lemma PageOfCut(db: Db, v: View, all: seq<Row>, k: nat, limit: nat, offset: nat, total: Option<Total>)
    requires k <= |all| && limit > 0 && (v.useOffset ==> offset == k)
    ensures var end := k + limit;
            var page := PageOf(db, all[k..Min(end + 1, |all|)], v.order, v.useOffset, offset, limit, total);
            && page.rows == all[k..Min(end, |all|)]
            && page.nextCursor == if end < |all| then Some(CursorTo(db, v, all, end)) else None
  {
    var fetched := all[k..Min(k + limit + 1, |all|)];
    if |fetched| > limit {
      assert fetched[..limit] == all[k..k + limit] && fetched[limit - 1] == all[k + limit - 1];
    }
  }

  /** One page: the rows from `k` on, up to the limit, and a cursor behind them if any row is left. */
  predicate IsPageAt(db: Db, v: View, all: seq<Row>, k: nat, limit: nat, page: Page)
    requires k <= |all|
  {
    && page.rows == all[k..Min(k + limit, |all|)]
    && page.nextCursor == if k + limit < |all| && k + limit > 0 then Some(CursorTo(db, v, all, k + limit)) else None
  }

  lemma ViewAnywhere(detail: Detail, request: Request, v: View, cursor: Option<RawCursor>)
    requires ViewOf(detail, request) == Ok(v)
    ensures ViewOf(detail, request.(cursor := cursor)) == Ok(v) && Bounded(v.filters)
  {
    CompileBounds(detail, request.filters, Compiled([], []));
  }

  lemma BrowseAt(db: Db, detail: Detail, table: seq<Row>, request: Request, v: View, all: seq<Row>, k: nat)
    returns (offset: nat, total: Option<Total>)
    requires Paging(db, detail, table, request, v, all) && k <= |all|
    ensures v.useOffset ==> offset == k
    ensures BrowseTable(db, detail, table, RequestAt(db, v, all, request, k)) ==
            Ok(PageOf(db, all[k..Min(k + Limit(request) + 1, |all|)], v.order, v.useOffset, offset, Limit(request), total))
  {
    var here := RequestAt(db, v, all, request, k);
    var q := FetchFrom(db, detail, table, request, v, all, k, Limit(request) + 1);
    ViewAnywhere(detail, request, v, here.cursor);
    hide BrowseTable, Fetch, PageOf, Position, ViewOf, CursorTo, Paging;
    BrowseIsPageOf(db, detail, table, here, v, q);
    offset, total := q.offset, CountRows(db, detail, table, here, v.filters);
  }

  lemma PageAt(db: Db, detail: Detail, table: seq<Row>, request: Request, v: View, all: seq<Row>, k: nat)
    requires Paging(db, detail, table, request, v, all) && k <= |all|
    ensures var r := BrowseTable(db, detail, table, RequestAt(db, v, all, request, k));
            r.Ok? && IsPageAt(db, v, all, k, Limit(request), r.value)
  {
    hide BrowseTable, PageOf, CursorTo, Paging, RequestAt;
    var offset, total := BrowseAt(db, detail, table, request, v, all, k);
    PageOfCut(db, v, all, k, Limit(request), offset, total);
  }

  // ---------- Following the cursors

  /** Follow `nextCursor` for at most `fuel` more requests. */
  function Walk(db: Db, detail: Detail, table: seq<Row>, request: Request, fuel: nat): (seq<seq<Row>>, bool)
    decreases fuel
  {
    var r := BrowseTable(db, detail, table, request);
    if r.Err? then ([], false)
    else if r.value.nextCursor.None? then ([r.value.rows], true)
    else if fuel == 0 then ([r.value.rows], false)
    else
      var (later, done) :=
        Walk(db, detail, table, request.(cursor := Some(Readable(r.value.nextCursor.value))), fuel - 1);
      ([r.value.rows] + later, done)
  }

  function Concat(pages: seq<seq<Row>>): seq<Row> {
    if pages == [] then [] else pages[0] + Concat(pages[1..])
  }

  /** How many pages `n` rows take: at least one. */
  function PageCount(n: nat, limit: nat): nat
    requires limit > 0
    decreases n
  {
    if n <= limit then 1 else 1 + PageCount(n - limit, limit)
  }

  lemma WalkOn(db: Db, detail: Detail, table: seq<Row>, request: Request, fuel: nat, next: Cursor)
    requires BrowseTable(db, detail, table, request).Ok? && fuel > 0
    requires BrowseTable(db, detail, table, request).value.nextCursor == Some(next)
    ensures var page := BrowseTable(db, detail, table, request).value.rows;
            var (later, done) := Walk(db, detail, table, request.(cursor := Some(Readable(next))), fuel - 1);
            Walk(db, detail, table, request, fuel) == ([page] + later, done)
            && Concat([page] + later) == page + Concat(later)
  {
    hide BrowseTable;
    var page := BrowseTable(db, detail, table, request).value.rows;
    var later := Walk(db, detail, table, request.(cursor := Some(Readable(next))), fuel - 1).0;
    assert ([page] + later)[1..] == later;
  }

  lemma WalkStop(db: Db, detail: Detail, table: seq<Row>, request: Request, fuel: nat)
    requires BrowseTable(db, detail, table, request).Ok?
    requires BrowseTable(db, detail, table, request).value.nextCursor.None?
    ensures var page := BrowseTable(db, detail, table, request).value.rows;
            Walk(db, detail, table, request, fuel) == ([page], true) && Concat([page]) == page
  {
    hide BrowseTable;
    var page := BrowseTable(db, detail, table, request).value.rows;
    assert [page][1..] == [] && page + [] == page;
  }

  lemma {:induction false} WalkFrom(db: Db, detail: Detail, table: seq<Row>, request: Request, v: View, all: seq<Row>,
                                    k: nat, fuel: nat)
    requires Paging(db, detail, table, request, v, all) && k <= |all|
    requires fuel + 1 >= PageCount(|all| - k, Limit(request))
    ensures var (pages, done) := Walk(db, detail, table, RequestAt(db, v, all, request, k), fuel);
            done && Concat(pages) == all[k..] && |pages| == PageCount(|all| - k, Limit(request))
    decreases fuel
  {
    hide BrowseTable, Paging, CursorTo, Walk, Concat;
    var end := k + Limit(request);
    var here := RequestAt(db, v, all, request, k);
    PageAt(db, detail, table, request, v, all, k);
    if end < |all| {
      WalkOn(db, detail, table, here, fuel, CursorTo(db, v, all, end));
      WalkFrom(db, detail, table, request, v, all, end, fuel - 1);
      assert here.(cursor := Some(Readable(CursorTo(db, v, all, end)))) == RequestAt(db, v, all, request, end);
      assert all[k..end] + all[end..] == all[k..];
    } else {
      WalkStop(db, detail, table, here, fuel);
    }
  }

  /**
   * For a fixed table, with a unique key where pages are addressed by key, following the cursors of
   * any accepted request lists exactly what one big sorted query would, each row once, in
   * max(1, ceil(n / limit)) pages.
   */
  lemma PagingListsEverything(db: Db, detail: Detail, table: seq<Row>, request: Request, fuel: nat)
    requires ViewOf(detail, request).Ok? && Pageable(db, detail, table, ViewOf(detail, request).value.useOffset)
    ensures var v := ViewOf(detail, request).value;
            var all := Listing(db, detail, table, request, v.order);
            var (pages, done) := Walk(db, detail, table, request.(cursor := None), fuel);
            && multiset(all) == multiset(Satisfying(db, detail, table, request.filters))
            && Sorted(db, v.order, all)
            && (fuel + 1 >= PageCount(|all|, Limit(request)) ==>
                  done && Concat(pages) == all && |pages| == PageCount(|all|, Limit(request)))
  {
    var v := ViewOf(detail, request).value;
    var all := Listing(db, detail, table, request, v.order);
    SortSorts(db, v.order, Satisfying(db, detail, table, request.filters));
    if !v.useOffset { ViewIsKeyset(db, detail, table, request); }
    if fuel + 1 >= PageCount(|all|, Limit(request)) {
      WalkFrom(db, detail, table, request, v, all, 0, fuel);
      assert RequestAt(db, v, all, request, 0) == request.(cursor := None);
      assert all[0..] == all;
    }
  }

  /** ceil(n / limit), and 1 for an empty listing: the last page is neither empty nor overfull. */
  lemma {:induction false} PageCountIs(n: nat, limit: nat)
    requires limit > 0
    ensures var p := PageCount(n, limit); p >= 1 && n <= p * limit && (n > 0 ==> (p - 1) * limit < n)
    decreases n
  {
    if n > limit {
      var p := PageCount(n - limit, limit);
      PageCountIs(n - limit, limit);
      assert (p + 1) * limit == p * limit + limit && (p - 1) * limit + limit == p * limit;
    }
  }

  /** The exact count is of the rows that satisfy the filters, whatever the cursor adds to the query. */
  lemma CountIsOfTheFilters(db: Db, detail: Detail, table: seq<Row>, request: Request)
    requires BrowseTable(db, detail, table, request).Ok?
    ensures var total := BrowseTable(db, detail, table, request).value.total;
            if request.exact then total == Some(Exact(|Satisfying(db, detail, table, request.filters)|))
            else total == if request.filters != [] || detail.estimatedRows.None? then None
                          else Some(Estimate(detail.estimatedRows.value))
  {
    SelectMeansFilters(db, detail, table, request.filters);
    ClausePerFilter(detail, request.filters, Compiled([], []));
  }

  lemma {:induction false} ClausePerFilter(detail: Detail, filters: seq<Filter>, acc: Compiled)
    requires CompileFilters(detail, filters, acc).Ok?
    ensures |CompileFilters(detail, filters, acc).value.clauses| == |acc.clauses| + |filters|
    decreases |filters|
  {
    if filters != [] { ClausePerFilter(detail, filters[1..], CompileFilter(detail, filters[0], acc).value); }
  }
}
