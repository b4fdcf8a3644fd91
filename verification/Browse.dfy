/** Reading a page of a table, apps/control-plane/src/data/browse.ts. */
module Browse {
  import opened Bytes
  import opened Strings
  import opened SqlModel

  // ---------- Requests and results

  datatype FilterOp = EqualTo | NotEqualTo | LessThan | AtMost | GreaterThan | AtLeast
                    | Like | ILike | In | NullTest | NotNullTest

  predicate IsComparison(op: FilterOp) {
    op.EqualTo? || op.NotEqualTo? || op.LessThan? || op.AtMost? || op.GreaterThan? || op.AtLeast?
  }

  /** `SQL_OPERATORS`, pattern matching apart. */
  function SqlOperator(op: FilterOp): Op
    requires IsComparison(op)
  {
    match op
    case EqualTo => Eq
    case NotEqualTo => Neq
    case LessThan => Lt
    case AtMost => Lte
    case GreaterThan => Gt
    case AtLeast => Gte
  }

  datatype Filter = Filter(column: Text, operator: FilterOp, value: Option<Text>)

  datatype SortBy = SortBy(column: Text, descending: bool)

  datatype Cursor = Cursor(values: seq<Cell>, descending: bool, columns: seq<Text>)

  /** A cursor string either decodes to an object of the right shape or does not. */
  datatype RawCursor = Garbled | Readable(cursor: Cursor)

  datatype Request = Request(limit: int, filters: seq<Filter>, sort: Option<SortBy>, cursor: Option<RawCursor>,
                             exact: bool)

  datatype Total = Estimate(value: int) | Exact(value: int)

  datatype Page = Page(rows: seq<Row>, nextCursor: Option<Cursor>, usedOffset: bool, total: Option<Total>)

  datatype Problem = NoColumn(name: Text) | NeedsValue(name: Text) | NeedsItems(name: Text)
                   | InvalidCursor | SortChanged | NoColumns

  // ---------- Filters

  function AsCells(items: seq<Text>): seq<Cell> { seq(|items|, i requires 0 <= i < |items| => Some(items[i])) }

  /** The numbers of `count` parameters pushed after the first `before`. */
  function Numbers(before: nat, count: nat): seq<nat> { seq(count, i => before + 1 + i) }

  function CompileFilter(detail: Detail, f: Filter, acc: Compiled): Result<Compiled, Problem> {
    var found := FindColumn(detail.columns, f.column);
    if found.None? then Err(NoColumn(f.column))
    else
      var col, n := found.value, |acc.params|;
      match f.operator
      case NullTest => Ok(acc.(clauses := acc.clauses + [IsNull(col.name)]))
      case NotNullTest => Ok(acc.(clauses := acc.clauses + [IsNotNull(col.name)]))
      case In =>
        if f.value.None? then Err(NeedsValue(col.name))
        else
          var items := Items(f.value.value);
          if items == [] then Err(NeedsItems(col.name))
          else Ok(Compiled(acc.clauses + [IsIn(col.name, Numbers(n, |items|), col.fullType)],
                           acc.params + AsCells(items)))
      case _ =>
        if f.value.None? then Err(NeedsValue(col.name))
        else
          Ok(Compiled(acc.clauses + [if IsComparison(f.operator) then Compares(col.name, SqlOperator(f.operator), n + 1, col.fullType)
                                     else Matches(col.name, f.operator.ILike?, n + 1)],
                      acc.params + [f.value]))
  }

  function CompileFilters(detail: Detail, filters: seq<Filter>, acc: Compiled): Result<Compiled, Problem> {
    if filters == [] then Ok(acc)
    else
      var next := CompileFilter(detail, filters[0], acc);
      if next.Err? then next else CompileFilters(detail, filters[1..], next.value)
  }

  // ---------- Ordering

  function Names(columns: seq<Column>): seq<Text> { seq(|columns|, i requires 0 <= i < |columns| => columns[i].name) }

  function AddKeys(detail: Detail, keys: seq<Text>, columns: seq<Column>): Result<seq<Column>, Problem> {
    if keys == [] then Ok(columns)
    else if keys[0] in Names(columns) then AddKeys(detail, keys[1..], columns)
    else
      var found := FindColumn(detail.columns, keys[0]);
      if found.None? then Err(NoColumn(keys[0]))
      else AddKeys(detail, keys[1..], columns + [found.value])
  }

  function SortColumns(detail: Detail, sort: Option<SortBy>): Result<seq<Column>, Problem> {
    if sort.None? then Ok([])
    else
      var found := FindColumn(detail.columns, sort.value.column);
      if found.None? then Err(NoColumn(sort.value.column)) else Ok([found.value])
  }

  /** The sort column, then the primary key columns it does not already name. */
  function OrderColumns(detail: Detail, sort: Option<SortBy>): Result<seq<Column>, Problem> {
    var first := SortColumns(detail, sort);
    if first.Err? then first else AddKeys(detail, detail.primaryKey, first.value)
  }

  predicate UsesOffset(detail: Detail, columns: seq<Column>) {
    detail.primaryKey == [] || exists c :: c in columns && c.nullable
  }

  /** With nothing to order by, the first column is used. */
  function OrderBy(detail: Detail, request: Request, columns: seq<Column>): Order
    requires columns != [] || detail.columns != []
  {
    Order(if columns == [] then [detail.columns[0]] else columns,
          request.sort.Some? && request.sort.value.descending)
  }

  // ---------- Cursors

  function JoinNames(names: seq<Text>): Text {
    if names == [] then "" else if |names| == 1 then names[0] else names[0] + "," + JoinNames(names[1..])
  }

  /** `cursor.values[i]`; a missing value goes to the database as NULL. */
  function ValueAt(values: seq<Cell>, i: nat): Cell { if i < |values| then values[i] else None }

  function CursorCells(values: seq<Cell>, count: nat): seq<Cell> { seq(count, i requires i >= 0 => ValueAt(values, i)) }

  function OffsetOf(db: Db, cursor: Cursor): nat {
    var first := ValueAt(cursor.values, 0);
    if first.None? then 0
    else
      var n := db.number(first.value);
      if n.None? || n.value < 0 then 0 else n.value
  }

  /** The keyset comparison: rows after the cursor in the listing's own direction. */
  function AfterCursor(o: Order, cursor: Cursor, acc: Compiled): Compiled {
    var count := |o.columns|;
    Compiled(acc.clauses + [RowCompares(o.columns, !o.descending, Numbers(|acc.params|, count))],
             acc.params + CursorCells(cursor.values, count))
  }

  datatype Query = Query(where: Compiled, offset: nat)

  function Position(db: Db, o: Order, useOffset: bool, raw: Option<RawCursor>, filters: Compiled): Result<Query, Problem> {
    if raw.None? then Ok(Query(filters, 0))
    else if raw.value.Garbled? then Err(InvalidCursor)
    else
      var cursor := raw.value.cursor;
      if useOffset then Ok(Query(filters, OffsetOf(db, cursor)))
      else if JoinNames(cursor.columns) != JoinNames(Names(o.columns)) then Err(SortChanged)
      else Ok(Query(AfterCursor(o, cursor, filters), 0))
  }

  function NextCursor(db: Db, o: Order, useOffset: bool, offset: nat, limit: nat, last: Row): Cursor {
    if useOffset then Cursor([Some(db.show(offset + limit))], o.descending, [])
    else Cursor(seq(|o.columns|, i requires 0 <= i < |o.columns| => CellOf(last, o.columns[i].name)),
                o.descending, Names(o.columns))
  }

  // ---------- One page

  /** `SELECT ... WHERE ... ORDER BY ... LIMIT limit OFFSET offset`. */
  function Fetch(db: Db, table: seq<Row>, q: Query, o: Order, limit: nat): seq<Row>
    requires Bounded(q.where)
  {
    var rows := Sort(db, o, Select(db, table, q.where.params, q.where.clauses));
    var from := Min(q.offset, |rows|);
    rows[from..Min(from + limit, |rows|)]
  }

  function CountRows(db: Db, detail: Detail, table: seq<Row>, request: Request, filters: Compiled): Option<Total>
    requires Bounded(filters)
  {
    if request.exact then Some(Exact(|Select(db, table, filters.params, filters.clauses)|))
    else if filters.clauses != [] || detail.estimatedRows.None? then None
    else Some(Estimate(detail.estimatedRows.value))
  }

  function Limit(request: Request): nat { if request.limit > 1 then request.limit else 1 }

  /** What `browseTable` returns; the count sees only the filters and their parameters. */
  function BrowseTable(db: Db, detail: Detail, table: seq<Row>, request: Request): Result<Page, Problem> {
    var filters := CompileFilters(detail, request.filters, Compiled([], []));
    if filters.Err? then Err(filters.problem)
    else
      var columns := OrderColumns(detail, request.sort);
      if columns.Err? then Err(columns.problem)
      else if columns.value == [] && detail.columns == [] then Err(NoColumns)
      else
        var useOffset := UsesOffset(detail, columns.value);
        var o := OrderBy(detail, request, columns.value);
        var q := Position(db, o, useOffset, request.cursor, filters.value);
        if q.Err? then Err(q.problem)
        else
          CompileBounds(detail, request.filters, Compiled([], []));
          PositionBounds(db, o, useOffset, request.cursor, filters.value);
          Ok(PageOf(db, Fetch(db, table, q.value, o, Limit(request) + 1), o, useOffset, q.value.offset, Limit(request),
                    CountRows(db, detail, table, request, filters.value)))
  }

  /** One row more than the limit was asked for, to learn whether another page exists. */
  function PageOf(db: Db, fetched: seq<Row>, o: Order, useOffset: bool, offset: nat, limit: nat, total: Option<Total>): Page
    requires limit > 0
  {
    if |fetched| > limit then
      Page(fetched[..limit], Some(NextCursor(db, o, useOffset, offset, limit, fetched[limit - 1])), useOffset, total)
    else Page(fetched, None, useOffset, total)
  }

  // ---------- Parameters are numbered as they are pushed

  lemma CompileBounds(detail: Detail, filters: seq<Filter>, acc: Compiled)
    requires Bounded(acc)
    ensures var r := CompileFilters(detail, filters, acc);
            r.Ok? ==> Bounded(r.value) && acc.params <= r.value.params && acc.clauses <= r.value.clauses
    decreases |filters|
  {
    if filters != [] {
      var next := CompileFilter(detail, filters[0], acc);
      if next.Ok? {
        forall c | c in acc.clauses ensures Mentions(c, |next.value.params|) {
          MentionsMore(c, |acc.params|, |next.value.params| - |acc.params|);
        }
        CompileBounds(detail, filters[1..], next.value);
      }
    }
  }

  lemma PositionBounds(db: Db, o: Order, useOffset: bool, raw: Option<RawCursor>, filters: Compiled)
    requires Bounded(filters)
    ensures var q := Position(db, o, useOffset, raw, filters); q.Ok? ==> Bounded(q.value.where)
  {
    forall c | c in filters.clauses ensures Mentions(c, |filters.params| + |o.columns|) {
      MentionsMore(c, |filters.params|, |o.columns|);
    }
  }

  // ---------- The builder as it is written

  /** `items.map`: push each item and note its number. */
  method PushItems(items: seq<Text>, before: seq<Cell>) returns (params: seq<Cell>, numbers: seq<nat>)
    ensures params == before + AsCells(items) && numbers == Numbers(|before|, |items|)
  {
    params, numbers := before, [];
    for i := 0 to |items|
      invariant params == before + AsCells(items[..i]) && numbers == Numbers(|before|, i)
    {
      params := params + [Some(items[i])];
      numbers := numbers + [|params|];
      assert AsCells(items[..i + 1]) == AsCells(items[..i]) + [Some(items[i])];
    }
    assert items[..|items|] == items;
  }

  lemma CompileStep(detail: Detail, filters: seq<Filter>, i: nat, acc: Compiled)
    requires i < |filters|
    ensures CompileFilters(detail, filters[i..], acc) ==
            var next := CompileFilter(detail, filters[i], acc);
            if next.Err? then next else CompileFilters(detail, filters[i + 1..], next.value)
  {
    assert filters[i..][1..] == filters[i + 1..];
  }

  method BuildFilters(detail: Detail, filters: seq<Filter>) returns (r: Result<Compiled, Problem>)
    ensures r == CompileFilters(detail, filters, Compiled([], []))
  {
    var clauses: seq<Clause> := [];
    var params: seq<Cell> := [];
    assert filters[0..] == filters;
    for i := 0 to |filters|
      invariant CompileFilters(detail, filters, Compiled([], [])) ==
                CompileFilters(detail, filters[i..], Compiled(clauses, params))
    {
      CompileStep(detail, filters, i, Compiled(clauses, params));
      hide CompileFilters;
      var filter := filters[i];
      var found := FindColumn(detail.columns, filter.column);
      if found.None? { return Err(NoColumn(filter.column)); }
      var col := found.value;
      if filter.operator.NullTest? {
        clauses := clauses + [IsNull(col.name)];
        continue;
      }
      if filter.operator.NotNullTest? {
        clauses := clauses + [IsNotNull(col.name)];
        continue;
      }
      if filter.value.None? { return Err(NeedsValue(col.name)); }
      if filter.operator.In? {
        var items := Items(filter.value.value);
        if |items| == 0 { return Err(NeedsItems(col.name)); }
        var pushed, placeholders := PushItems(items, params);
        params := pushed;
        clauses := clauses + [IsIn(col.name, placeholders, col.fullType)];
        continue;
      }
      params := params + [filter.value];
      if filter.operator.Like? || filter.operator.ILike? {
        clauses := clauses + [Matches(col.name, filter.operator.ILike?, |params|)];
      } else {
        clauses := clauses + [Compares(col.name, SqlOperator(filter.operator), |params|, col.fullType)];
      }
    }
    assert filters[|filters|..] == [];
    return Ok(Compiled(clauses, params));
  }

  method BuildOrder(detail: Detail, sort: Option<SortBy>) returns (r: Result<seq<Column>, Problem>)
    ensures r == OrderColumns(detail, sort)
  {
    var columns: seq<Column> := [];
    if sort.Some? {
      var found := FindColumn(detail.columns, sort.value.column);
      if found.None? { return Err(NoColumn(sort.value.column)); }
      columns := [found.value];
    }
    var keys := detail.primaryKey;
    assert keys[0..] == keys;
    for i := 0 to |keys|
      invariant OrderColumns(detail, sort) == AddKeys(detail, keys[i..], columns)
    {
      assert keys[i..][1..] == keys[i + 1..];
      if keys[i] !in Names(columns) {
        var found := FindColumn(detail.columns, keys[i]);
        if found.None? { return Err(NoColumn(keys[i])); }
        columns := columns + [found.value];
      }
    }
    assert keys[|keys|..] == [];
    return Ok(columns);
  }

  method PushCursor(o: Order, cursor: Cursor, filters: Compiled) returns (r: Compiled)
    ensures r == AfterCursor(o, cursor, filters)
  {
    var params, rhs: seq<nat> := filters.params, [];
    for i := 0 to |o.columns|
      invariant params == filters.params + CursorCells(cursor.values, i) && rhs == Numbers(|filters.params|, i)
    {
      params := params + [ValueAt(cursor.values, i)];
      rhs := rhs + [|params|];
      assert CursorCells(cursor.values, i + 1) == CursorCells(cursor.values, i) + [ValueAt(cursor.values, i)];
    }
    return Compiled(filters.clauses + [RowCompares(o.columns, !o.descending, rhs)], params);
  }

  method ReadPage(db: Db, detail: Detail, table: seq<Row>, request: Request) returns (r: Result<Page, Problem>)
    ensures r == BrowseTable(db, detail, table, request)
  {
    hide CompileFilters, OrderColumns, Fetch, CountRows, AfterCursor;
    var filters := BuildFilters(detail, request.filters);
    if filters.Err? { return Err(filters.problem); }
    var columns := BuildOrder(detail, request.sort);
    if columns.Err? { return Err(columns.problem); }
    if columns.value == [] && detail.columns == [] { return Err(NoColumns); }
    var useOffset := UsesOffset(detail, columns.value);
    var o := OrderBy(detail, request, columns.value);
    var query := Query(filters.value, 0);
    if request.cursor.Some? {
      if request.cursor.value.Garbled? { return Err(InvalidCursor); }
      var cursor := request.cursor.value.cursor;
      if useOffset {
        query := Query(filters.value, OffsetOf(db, cursor));
      } else {
        if JoinNames(cursor.columns) != JoinNames(Names(o.columns)) { return Err(SortChanged); }
        var where := PushCursor(o, cursor, filters.value);
        query := Query(where, 0);
      }
    }
    var limit := Limit(request);
    CompileBounds(detail, request.filters, Compiled([], []));
    PositionBounds(db, o, useOffset, request.cursor, filters.value);
    var fetched := Fetch(db, table, query, o, limit + 1);
    var total := CountRows(db, detail, table, request, filters.value);
    var hasMore := |fetched| > limit;
    var rows := if hasMore then fetched[..limit] else fetched;
    var nextCursor: Option<Cursor> := None;
    if hasMore {
      nextCursor := Some(NextCursor(db, o, useOffset, query.offset, limit, rows[|rows| - 1]));
    }
    return Ok(Page(rows, nextCursor, useOffset, total));
  }
}
