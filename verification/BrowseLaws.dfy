/** What a browse request gets, said of the request itself. */
module BrowseLaws {
  import opened Bytes
  import opened Strings
  import opened SqlModel
  import opened Browse
  import opened BrowsePaging
  import opened BrowseListing

  // ---------------------------------------------------------------------------
  // Order

  /** Rows compared by the named columns in turn, each under its type; absent columns do not count. */
  function ByColumns(db: Db, detail: Detail, names: seq<Text>, a: Row, b: Row): int {
    if names == [] then 0
    else
      var found := FindColumn(detail.columns, names[0]);
      var c := if found.None? then 0
               else CmpCell(db, found.value.fullType, CellOf(a, names[0]), CellOf(b, names[0]));
      if c != 0 then c else ByColumns(db, detail, names[1..], a, b)
  }

  /** NULL stands behind every value, so first in a descending listing. */
  lemma NullsSortLast(db: Db, t: Text, a: Cell, b: Cell)
    ensures a.None? && b.None? ==> CmpCell(db, t, a, b) == 0
    ensures a.None? && b.Some? ==> CmpCell(db, t, a, b) > 0 && CmpCell(db, t, b, a) < 0
    ensures a.Some? && b.Some? ==> CmpCell(db, t, a, b) == db.cmp(t, a.value, b.value)
  {
  }

  lemma SameName(db: Db, detail: Detail, columns: seq<Column>, name: Text, a: Row, b: Row)
    requires AllFound(detail, columns) && name in Names(columns) && CmpRows(db, columns, a, b) == 0
    ensures var found := FindColumn(detail.columns, name);
            found.Some? && CmpCell(db, found.value.fullType, CellOf(a, name), CellOf(b, name)) == 0
  {
    var i :| 0 <= i < |columns| && columns[i].name == name;
    TieMeansEqualCells(db, columns, a, b, columns[i]);
  }

  lemma {:induction false} CmpRowsAppend(db: Db, columns: seq<Column>, last: Column, a: Row, b: Row)
    ensures CmpRows(db, columns + [last], a, b) ==
            if CmpRows(db, columns, a, b) != 0 then CmpRows(db, columns, a, b)
            else CmpCell(db, last.fullType, CellOf(a, last.name), CellOf(b, last.name))
  {
    if columns == [] {
      assert columns + [last] == [last] && [last][1..] == [];
    } else {
      CmpRowsAppend(db, columns[1..], last, a, b);
      assert (columns + [last])[1..] == columns[1..] + [last];
    }
  }

  /** Adding the key columns compares by the key wherever the columns so far tie. */
  lemma {:induction false} AddKeysCompares(db: Db, detail: Detail, keys: seq<Text>, columns: seq<Column>, a: Row, b: Row)
    requires AllFound(detail, columns) && AddKeys(detail, keys, columns).Ok?
    ensures CmpRows(db, AddKeys(detail, keys, columns).value, a, b) ==
            if CmpRows(db, columns, a, b) != 0 then CmpRows(db, columns, a, b)
            else ByColumns(db, detail, keys, a, b)
    decreases |keys|
  {
    if keys != [] {
      if keys[0] in Names(columns) {
        AddKeysCompares(db, detail, keys[1..], columns, a, b);
        if CmpRows(db, columns, a, b) == 0 { SameName(db, detail, columns, keys[0], a, b); }
      } else {
        FoundByName(detail.columns, keys[0]);
        var found := FindColumn(detail.columns, keys[0]).value;
        AddKeysCompares(db, detail, keys[1..], columns + [found], a, b);
        CmpRowsAppend(db, columns, found, a, b);
      }
    }
  }

  /** The columns a listing is ordered by: the one asked for, then the key; else the first column. */
  function OrderedBy(detail: Detail, request: Request): seq<Text> {
    var asked := (if request.sort.Some? then [request.sort.value.column] else []) + detail.primaryKey;
    if asked == [] && detail.columns != [] then [detail.columns[0].name] else asked
  }

  lemma FirstIsFound(columns: seq<Column>)
    requires columns != []
    ensures FindColumn(columns, columns[0].name) == Some(columns[0])
  {
  }

  lemma KeyIsKept(detail: Detail, keys: seq<Text>)
    requires keys != [] && AddKeys(detail, keys, []).Ok?
    ensures AddKeys(detail, keys, []).value != []
  {
    FoundByName(detail.columns, keys[0]);
    var found := FindColumn(detail.columns, keys[0]).value;
    assert AllFound(detail, [found]);
    assert [] + [found] == [found];
    AddKeysCovers(detail, keys[1..], [found]);
  }

  lemma OrderComparesByKey(db: Db, detail: Detail, request: Request, a: Row, b: Row)
    requires ViewOf(detail, request).Ok? && request.sort.None? && detail.primaryKey != []
    ensures CmpRows(db, ViewOf(detail, request).value.order.columns, a, b) ==
            ByColumns(db, detail, OrderedBy(detail, request), a, b)
  {
    var columns := AddKeys(detail, detail.primaryKey, []).value;
    KeyIsKept(detail, detail.primaryKey);
    AddKeysCompares(db, detail, detail.primaryKey, [], a, b);
    assert OrderedBy(detail, request) == detail.primaryKey;
    assert ViewOf(detail, request).value.order.columns == columns;
  }

  lemma OrderComparesAsAsked(db: Db, detail: Detail, request: Request, a: Row, b: Row)
    requires ViewOf(detail, request).Ok? && request.sort.Some?
    ensures CmpRows(db, ViewOf(detail, request).value.order.columns, a, b) ==
            ByColumns(db, detail, OrderedBy(detail, request), a, b)
  {
    var first := SortColumns(detail, request.sort).value;
    FoundByName(detail.columns, request.sort.value.column);
    var asked := [request.sort.value.column] + detail.primaryKey;
    assert asked[0] == request.sort.value.column && asked[1..] == detail.primaryKey;
    assert first[1..] == [];
    AddKeysCovers(detail, detail.primaryKey, first);
    AddKeysCompares(db, detail, detail.primaryKey, first, a, b);
  }

  lemma OrderCompares(db: Db, detail: Detail, request: Request, a: Row, b: Row)
    requires ViewOf(detail, request).Ok?
    ensures CmpRows(db, ViewOf(detail, request).value.order.columns, a, b) ==
            ByColumns(db, detail, OrderedBy(detail, request), a, b)
  {
    if request.sort.Some? {
      OrderComparesAsAsked(db, detail, request, a, b);
    } else if detail.primaryKey != [] {
      OrderComparesByKey(db, detail, request, a, b);
    } else {
      FirstIsFound(detail.columns);
      assert [detail.columns[0]][1..] == [];
      assert [detail.columns[0].name][1..] == [];
    }
  }

  /** `a` may stand before `b`: by the column asked for, in the direction asked for, then by the key. */
  predicate InOrder(db: Db, detail: Detail, request: Request, a: Row, b: Row) {
    var c := ByColumns(db, detail, OrderedBy(detail, request), a, b);
    if request.sort.Some? && request.sort.value.descending then c >= 0 else c <= 0
  }

  lemma SortedIsInOrder(db: Db, detail: Detail, request: Request, rows: seq<Row>, i: nat, j: nat)
    requires Lawful(db) && ViewOf(detail, request).Ok?
    requires Sorted(db, ViewOf(detail, request).value.order, rows) && i < j < |rows|
    ensures InOrder(db, detail, request, rows[i], rows[j])
  {
    var columns := ViewOf(detail, request).value.order.columns;
    OrderCompares(db, detail, request, rows[i], rows[j]);
    CmpRowsSwap(db, columns, rows[i], rows[j]);
    CmpRowsSwap(db, columns, rows[j], rows[i]);
  }

  lemma FirstPage(db: Db, detail: Detail, table: seq<Row>, request: Request)
    ensures var r := BrowseTable(db, detail, table, request.(cursor := None));
            && (r.Ok? <==> ViewOf(detail, request).Ok?)
            && (r.Ok? ==> r.value.usedOffset == ViewOf(detail, request).value.useOffset)
  {
    hide CompileFilters, OrderColumns, Fetch, CountRows;
  }

  /**
   * A request whose first page is given, followed to its last page: every two rows, on whatever
   * pages, are in the order asked for. `asked` is that comparison by the sort column alone.
   */
  lemma ListedAsAsked(db: Db, detail: Detail, table: seq<Row>, request: Request, fuel: nat, i: nat, j: nat)
    requires BrowseTable(db, detail, table, request.(cursor := None)).Ok?
    requires Pageable(db, detail, table, BrowseTable(db, detail, table, request.(cursor := None)).value.usedOffset)
    requires fuel >= |table| && i < j < |Concat(Walk(db, detail, table, request.(cursor := None), fuel).0)|
    ensures var rows := Concat(Walk(db, detail, table, request.(cursor := None), fuel).0);
            && InOrder(db, detail, request, rows[i], rows[j])
            && (request.sort.None? && detail.primaryKey != [] ==>
                  ByColumns(db, detail, detail.primaryKey, rows[i], rows[j]) <= 0)
            && (request.sort.Some? ==>
                  var found := FindColumn(detail.columns, request.sort.value.column);
                  && found.Some?
                  && var asked := CmpCell(db, found.value.fullType, CellOf(rows[i], found.value.name),
                                          CellOf(rows[j], found.value.name));
                     if request.sort.value.descending then asked >= 0 else asked <= 0)
  {
    FirstPage(db, detail, table, request);
    var v := ViewOf(detail, request).value;
    var all := Listing(db, detail, table, request, v.order);
    ListingFits(db, detail, table, request, v.order);
    PageCountFits(|all|, Limit(request));
    PagingListsEverything(db, detail, table, request, fuel);
    SortedIsInOrder(db, detail, request, all, i, j);
    if request.sort.Some? {
      FoundByName(detail.columns, request.sort.value.column);
    } else {
      assert detail.primaryKey != [] ==> OrderedBy(detail, request) == detail.primaryKey;
    }
  }

  lemma {:induction false} SatisfyingIsShorter(db: Db, detail: Detail, table: seq<Row>, filters: seq<Filter>)
    ensures |Satisfying(db, detail, table, filters)| <= |table|
  {
    if table != [] { SatisfyingIsShorter(db, detail, table[1..], filters); }
  }

  lemma ListingFits(db: Db, detail: Detail, table: seq<Row>, request: Request, o: Order)
    requires Lawful(db)
    ensures |Listing(db, detail, table, request, o)| <= |table|
  {
    var kept := Satisfying(db, detail, table, request.filters);
    SortSorts(db, o, kept);
    assert |multiset(Sort(db, o, kept))| == |multiset(kept)|;
    SatisfyingIsShorter(db, detail, table, request.filters);
  }

  lemma {:induction false} PageCountFits(n: nat, limit: nat)
    requires limit > 0
    ensures PageCount(n, limit) <= n + 1
    decreases n
  {
    if n > limit { PageCountFits(n - limit, limit); }
  }

  /** The rows listed are the table's rows that satisfy the filters, each as often as the table has it. */
  lemma {:induction false} SatisfyingIs(db: Db, detail: Detail, table: seq<Row>, filters: seq<Filter>, row: Row)
    ensures multiset(Satisfying(db, detail, table, filters))[row] ==
            if forall f :: f in filters ==> Satisfies(db, detail, row, f) then multiset(table)[row] else 0
  {
    if table != [] {
      var rest := Satisfying(db, detail, table[1..], filters);
      SatisfyingIs(db, detail, table[1..], filters, row);
      assert table == [table[0]] + table[1..];
      assert SatisfiesAll(db, detail, row, filters) <==> forall f :: f in filters ==> Satisfies(db, detail, row, f);
    }
  }

  // ---------------------------------------------------------------------------
  // Which requests are accepted, and how they page

  /** A filter names a column, and gives a value, or for `in` at least one, where its operator needs one. */
  predicate Usable(detail: Detail, f: Filter) {
    && (exists c :: c in detail.columns && c.name == f.column)
    && (f.operator == NullTest || f.operator == NotNullTest || f.value.Some?)
    && (f.operator == In ==> f.value.Some? && Items(f.value.value) != [])
  }

  lemma {:induction false} FiltersAcceptedIff(detail: Detail, filters: seq<Filter>, acc: Compiled)
    ensures CompileFilters(detail, filters, acc).Ok? <==> forall f :: f in filters ==> Usable(detail, f)
    decreases |filters|
  {
    if filters != [] {
      FoundByName(detail.columns, filters[0].column);
      var next := CompileFilter(detail, filters[0], acc);
      assert next.Ok? <==> Usable(detail, filters[0]);
      if next.Ok? { FiltersAcceptedIff(detail, filters[1..], next.value); }
      assert forall f :: f in filters <==> f == filters[0] || f in filters[1..];
    }
  }

  predicate HasColumn(detail: Detail, name: Text) { exists c :: c in detail.columns && c.name == name }

  lemma {:induction false} KeysAcceptedIff(detail: Detail, keys: seq<Text>, columns: seq<Column>)
    requires AllFound(detail, columns)
    ensures AddKeys(detail, keys, columns).Ok? <==> forall key :: key in keys ==> HasColumn(detail, key)
    decreases |keys|
  {
    if keys != [] {
      assert forall key :: key in keys <==> key == keys[0] || key in keys[1..];
      FoundByName(detail.columns, keys[0]);
      if keys[0] in Names(columns) {
        var i :| 0 <= i < |columns| && columns[i].name == keys[0];
        assert columns[i] in columns;
        KeysAcceptedIff(detail, keys[1..], columns);
        assert HasColumn(detail, keys[0]);
      } else if FindColumn(detail.columns, keys[0]).Some? {
        KeysAcceptedIff(detail, keys[1..], columns + [FindColumn(detail.columns, keys[0]).value]);
        assert HasColumn(detail, keys[0]);
      } else {
        assert !HasColumn(detail, keys[0]);
      }
    }
  }

  /** A first page is given exactly when every filter is usable and every column named is there. */
  lemma AcceptedIff(db: Db, detail: Detail, table: seq<Row>, request: Request)
    ensures BrowseTable(db, detail, table, request.(cursor := None)).Ok? <==>
              && (forall f :: f in request.filters ==> Usable(detail, f))
              && (request.sort.Some? ==> HasColumn(detail, request.sort.value.column))
              && (forall key :: key in detail.primaryKey ==> HasColumn(detail, key))
              && detail.columns != []
  {
    FirstPage(db, detail, table, request);
    FiltersAcceptedIff(detail, request.filters, Compiled([], []));
    if request.sort.Some? { FoundByName(detail.columns, request.sort.value.column); }
    if SortColumns(detail, request.sort).Ok? {
      KeysAcceptedIff(detail, detail.primaryKey, SortColumns(detail, request.sort).value);
      if detail.columns == [] && detail.primaryKey != [] { assert !HasColumn(detail, detail.primaryKey[0]); }
    }
  }

  predicate IsNullable(detail: Detail, name: Text) {
    var found := FindColumn(detail.columns, name);
    found.Some? && found.value.nullable
  }

  /** Pages are addressed by offset exactly without a key, or when the sort column or a key column may be NULL. */
  lemma OffsetIff(db: Db, detail: Detail, table: seq<Row>, request: Request)
    requires BrowseTable(db, detail, table, request.(cursor := None)).Ok?
    ensures BrowseTable(db, detail, table, request.(cursor := None)).value.usedOffset <==>
              || detail.primaryKey == []
              || (request.sort.Some? && IsNullable(detail, request.sort.value.column))
              || (exists key :: key in detail.primaryKey && IsNullable(detail, key))
  {
    FirstPage(db, detail, table, request);
    OrderIsOf(detail, request.sort);
  }

  /** The order columns are the sort column and the key columns. */
  lemma OrderIsOf(detail: Detail, sort: Option<SortBy>)
    requires OrderColumns(detail, sort).Ok?
    ensures var r := OrderColumns(detail, sort).value;
            (exists c :: c in r && c.nullable) <==>
              (sort.Some? && IsNullable(detail, sort.value.column))
              || (exists key :: key in detail.primaryKey && IsNullable(detail, key))
  {
    var first, r := SortColumns(detail, sort).value, OrderColumns(detail, sort).value;
    if sort.Some? { FoundByName(detail.columns, sort.value.column); }
    OrderColumnsCover(detail, sort);
    AddKeysCovers(detail, detail.primaryKey, first);
    AddKeysAdds(detail, detail.primaryKey, first);
    if sort.Some? { assert first[0] == r[0]; }
  }

  lemma {:induction false} AddKeysAdds(detail: Detail, keys: seq<Text>, columns: seq<Column>)
    requires AddKeys(detail, keys, columns).Ok?
    ensures forall c :: c in AddKeys(detail, keys, columns).value ==>
              c in columns || (c.name in keys && FindColumn(detail.columns, c.name) == Some(c))
    decreases |keys|
  {
    if keys != [] {
      FoundByName(detail.columns, keys[0]);
      AddKeysAdds(detail, keys[1..],
                  if keys[0] in Names(columns) then columns else columns + [FindColumn(detail.columns, keys[0]).value]);
    }
  }

  /** A page holds at most `max(1, limit)` rows, and exactly so many when another page follows. */
  lemma PageSizeIs(db: Db, detail: Detail, table: seq<Row>, request: Request)
    requires BrowseTable(db, detail, table, request).Ok?
    ensures var page, most := BrowseTable(db, detail, table, request).value, if request.limit > 1 then request.limit else 1;
            |page.rows| <= most && (page.nextCursor.Some? ==> |page.rows| == most)
  {
    hide CompileFilters, OrderColumns, Fetch, CountRows, Position, NextCursor;
  }

  // ---------------------------------------------------------------------------
  // Cursors of another listing

  predicate Plain(names: seq<Text>) { forall name :: name in names ==> ',' !in name }

  lemma {:induction false} JoinedSplits(names: seq<Text>)
    requires Plain(names) && names != []
    ensures SplitAt(JoinNames(names), ',') == names
  {
    if |names| == 1 {
      SplitAtNothing(names[0], ',');
    } else {
      JoinedSplits(names[1..]);
      SplitAtAppend(names[0], JoinNames(names[1..]), ',');
      SplitAtNothing(names[0], ',');
      assert [names[0]] + names[1..] == names;
    }
  }

  lemma JoinTellsApart(a: seq<Text>, b: seq<Text>)
    requires a != [] && b != [] && Plain(a) && Plain(b)
    ensures JoinNames(a) == JoinNames(b) <==> a == b
  {
    JoinedSplits(a);
    JoinedSplits(b);
  }

  /**
   * A cursor taken under other order columns is refused, if no column name has a comma in it. The
   * direction it was taken under is never compared.
   */
  lemma StaleCursorRefusedIff(db: Db, detail: Detail, table: seq<Row>, request: Request, cursor: Cursor)
    requires ViewOf(detail, request).Ok? && !ViewOf(detail, request).value.useOffset
    requires cursor.columns != [] && Plain(cursor.columns)
    requires Plain(Names(ViewOf(detail, request).value.order.columns))
    requires ViewOf(detail, request).value.order.columns != []
    ensures var r := BrowseTable(db, detail, table, request.(cursor := Some(Readable(cursor))));
            && (r == Err(SortChanged) <==> cursor.columns != Names(ViewOf(detail, request).value.order.columns))
            && (r.Ok? || r == Err(SortChanged))
  {
    var o := ViewOf(detail, request).value.order;
    JoinTellsApart(cursor.columns, Names(o.columns));
    hide CompileFilters, OrderColumns, Fetch, CountRows, AfterCursor, JoinNames, Names, UsesOffset;
  }

  /** With a comma in a name, another order's cursor can pass. */
  lemma CommaPasses()
    ensures JoinNames(["a,b"]) == JoinNames(["a", "b"])
  {
    assert ["a", "b"][1..] == ["b"];
  }

  /** What an offset cursor asks for: its first value as a number, and 0 for anything that is not one or is negative. */
  function AskedOffset(db: Db, cursor: Cursor): nat {
    if cursor.values == [] || cursor.values[0].None? then 0
    else
      match db.number(cursor.values[0].value)
      case None => 0
      case Some(n) => if n >= 0 then n else 0
  }

  /** In offset mode any readable cursor is accepted, and the page is that part of the whole listing. */
  lemma OffsetPageIs(db: Db, detail: Detail, table: seq<Row>, request: Request, cursor: Cursor)
    requires ViewOf(detail, request).Ok? && ViewOf(detail, request).value.useOffset
    ensures var all := Listing(db, detail, table, request, ViewOf(detail, request).value.order);
            var r := BrowseTable(db, detail, table, request.(cursor := Some(Readable(cursor))));
            var from := AskedOffset(db, cursor);
            && r.Ok?
            && r.value.rows == all[Min(from, |all|)..Min(from + Limit(request), |all|)]
            && (r.value.nextCursor.Some? <==> from + Limit(request) < |all|)
            && (r.value.nextCursor.Some? ==> r.value.nextCursor.value.values == [Some(db.show(from + Limit(request)))])
  {
    var v := ViewOf(detail, request).value;
    var here := request.(cursor := Some(Readable(cursor)));
    var q := Query(v.filters, AskedOffset(db, cursor));
    SelectMeansFilters(db, detail, table, request.filters);
    ViewAnywhere(detail, request, v, here.cursor);
    OffsetIsAsked(db, cursor);
    hide CompileFilters, OrderColumns, CountRows, Sort, Select, BrowseTable, ViewOf;
    BrowseIsPageOf(db, detail, table, here, v, q);
    CutPage(db, Listing(db, detail, table, request, v.order), v, q.offset, Limit(request),
            CountRows(db, detail, table, here, v.filters));
  }

  lemma OffsetIsAsked(db: Db, cursor: Cursor)
    ensures OffsetOf(db, cursor) == AskedOffset(db, cursor)
  {
  }

  lemma CutPage(db: Db, all: seq<Row>, v: View, from: nat, limit: nat, total: Option<Total>)
    requires limit > 0 && v.useOffset
    ensures var page := PageOf(db, all[Min(from, |all|)..Min(Min(from, |all|) + (limit + 1), |all|)], v.order, true, from, limit, total);
            && page.rows == all[Min(from, |all|)..Min(from + limit, |all|)]
            && (page.nextCursor.Some? <==> from + limit < |all|)
            && (page.nextCursor.Some? ==> page.nextCursor.value.values == [Some(db.show(from + limit))])
  {
  }

  lemma GarbledCursorRefused(db: Db, detail: Detail, table: seq<Row>, request: Request)
    requires ViewOf(detail, request).Ok?
    ensures BrowseTable(db, detail, table, request.(cursor := Some(Garbled))) == Err(InvalidCursor)
  {
    hide CompileFilters, OrderColumns, Fetch, CountRows;
  }
}
