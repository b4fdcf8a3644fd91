/** The generated conditions mean the filters, and following cursors lists what one big query would. */
module BrowsePaging {
  import opened Bytes
  import opened Strings
  import opened SqlModel
  import opened Browse

  // ---------- What a filter asks for

  /** A value that is not NULL, against the operand a filter names. */
  predicate Meets(db: Db, t: Text, v: Text, op: FilterOp, operand: Text) {
    match op
    case EqualTo => db.cmp(t, v, db.cast(t, operand)) == 0
    case NotEqualTo => db.cmp(t, v, db.cast(t, operand)) != 0
    case LessThan => db.cmp(t, v, db.cast(t, operand)) < 0
    case AtMost => db.cmp(t, v, db.cast(t, operand)) <= 0
    case GreaterThan => db.cmp(t, v, db.cast(t, operand)) > 0
    case AtLeast => db.cmp(t, v, db.cast(t, operand)) >= 0
    case Like => db.like(v, operand)
    case ILike => db.ilike(v, operand)
    case In => exists item :: item in Items(operand) && db.cmp(t, v, db.cast(t, item)) == 0
    case NullTest => false
    case NotNullTest => true
  }

  predicate Satisfies(db: Db, detail: Detail, row: Row, f: Filter) {
    var found := FindColumn(detail.columns, f.column);
    found.Some? &&
    var t, v := found.value.fullType, CellOf(row, f.column);
    if f.operator.NullTest? then v.None?
    else
      v.Some? && (f.operator.NotNullTest? || (f.value.Some? && Meets(db, t, v.value, f.operator, f.value.value)))
  }

  predicate SatisfiesAll(db: Db, detail: Detail, row: Row, filters: seq<Filter>) {
    forall f :: f in filters ==> Satisfies(db, detail, row, f)
  }

  function Satisfying(db: Db, detail: Detail, table: seq<Row>, filters: seq<Filter>): seq<Row> {
    if table == [] then []
    else (if SatisfiesAll(db, detail, table[0], filters) then [table[0]] else [])
         + Satisfying(db, detail, table[1..], filters)
  }

  lemma {:induction false} EvalInIs(db: Db, v: Text, params: seq<Cell>, ns: seq<nat>, items: seq<Text>, t: Text)
    requires |ns| == |items| && AllInRange(ns, |params|)
    requires forall i :: 0 <= i < |ns| ==> params[ns[i] - 1] == Some(items[i])
    ensures EvalIn(db, v, params, ns, t) == True <==> exists item :: item in items && db.cmp(t, v, db.cast(t, item)) == 0
  {
    if ns != [] {
      EvalInIs(db, v, params, ns[1..], items[1..], t);
      assert forall item :: item in items <==> item == items[0] || item in items[1..];
    }
  }

  /** The one clause a filter adds. */
  function AddedClause(detail: Detail, f: Filter, acc: Compiled): Clause
    requires CompileFilter(detail, f, acc).Ok? && |CompileFilter(detail, f, acc).value.clauses| > |acc.clauses|
  {
    CompileFilter(detail, f, acc).value.clauses[|acc.clauses|]
  }

  lemma AddsOneClause(detail: Detail, f: Filter, acc: Compiled)
    requires Bounded(acc) && CompileFilter(detail, f, acc).Ok?
    ensures var next := CompileFilter(detail, f, acc).value;
            && |next.clauses| == |acc.clauses| + 1
            && next.clauses == acc.clauses + [AddedClause(detail, f, acc)]
            && Mentions(AddedClause(detail, f, acc), |next.params|)
  {
  }

  lemma InMeansFilter(db: Db, detail: Detail, row: Row, f: Filter, acc: Compiled)
    requires Bounded(acc) && CompileFilter(detail, f, acc).Ok? && f.operator.In?
    requires |CompileFilter(detail, f, acc).value.clauses| > |acc.clauses|
    requires Mentions(AddedClause(detail, f, acc), |CompileFilter(detail, f, acc).value.params|)
    ensures Eval(db, row, CompileFilter(detail, f, acc).value.params, AddedClause(detail, f, acc)) == True
            <==> Satisfies(db, detail, row, f)
  {
    FoundByName(detail.columns, f.column);
    if CellOf(row, f.column).Some? {
      var next, items := CompileFilter(detail, f, acc).value, Items(f.value.value);
      var t := FindColumn(detail.columns, f.column).value.fullType;
      EvalInIs(db, CellOf(row, f.column).value, next.params, Numbers(|acc.params|, |items|), items, t);
    }
  }

  lemma OtherMeansFilter(db: Db, detail: Detail, row: Row, f: Filter, acc: Compiled)
    requires Bounded(acc) && CompileFilter(detail, f, acc).Ok? && !f.operator.In?
    requires |CompileFilter(detail, f, acc).value.clauses| > |acc.clauses|
    requires Mentions(AddedClause(detail, f, acc), |CompileFilter(detail, f, acc).value.params|)
    ensures Eval(db, row, CompileFilter(detail, f, acc).value.params, AddedClause(detail, f, acc)) == True
            <==> Satisfies(db, detail, row, f)
  {
    hide Items, EvalIn, EvalRow;
    FoundByName(detail.columns, f.column);
  }

  /** The clause a filter adds is true of a row exactly when the row satisfies the filter. */
  lemma ClauseMeansFilter(db: Db, detail: Detail, row: Row, f: Filter, acc: Compiled)
    requires Bounded(acc) && CompileFilter(detail, f, acc).Ok?
    ensures var next := CompileFilter(detail, f, acc).value;
            && |next.clauses| == |acc.clauses| + 1
            && next.clauses == acc.clauses + [next.clauses[|acc.clauses|]]
            && Mentions(next.clauses[|acc.clauses|], |next.params|)
            && (Eval(db, row, next.params, next.clauses[|acc.clauses|]) == True <==> Satisfies(db, detail, row, f))
  {
    AddsOneClause(detail, f, acc);
    hide CompileFilter, Eval, Satisfies, Mentions;
    if f.operator.In? {
      InMeansFilter(db, detail, row, f, acc);
    } else {
      OtherMeansFilter(db, detail, row, f, acc);
    }
  }

  lemma KeptExtends(db: Db, row: Row, params: seq<Cell>, more: seq<Cell>, where: seq<Clause>)
    requires AllMention(where, |params|)
    ensures AllMention(where, |params + more|)
    ensures Kept(db, row, params + more, where) <==> Kept(db, row, params, where)
  {
    forall c | c in where
      ensures Mentions(c, |params + more|) && Eval(db, row, params + more, c) == Eval(db, row, params, c)
    {
      EvalExtends(db, row, params, more, c);
    }
  }

  lemma KeptWithOneMore(db: Db, row: Row, params: seq<Cell>, where: seq<Clause>, c: Clause)
    requires AllMention(where, |params|) && Mentions(c, |params|)
    ensures Kept(db, row, params, where + [c]) <==> Kept(db, row, params, where) && Eval(db, row, params, c) == True
  {
  }

  lemma FilterStep(db: Db, detail: Detail, row: Row, f: Filter, acc: Compiled)
    requires Bounded(acc) && CompileFilter(detail, f, acc).Ok?
    ensures var next := CompileFilter(detail, f, acc).value;
            Bounded(next) && (Kept(db, row, next.params, next.clauses) <==>
                              Kept(db, row, acc.params, acc.clauses) && Satisfies(db, detail, row, f))
  {
    var next := CompileFilter(detail, f, acc).value;
    var more := next.params[|acc.params|..];
    assert next.params == acc.params + more;
    ClauseMeansFilter(db, detail, row, f, acc);
    KeptExtends(db, row, acc.params, more, acc.clauses);
    KeptWithOneMore(db, row, next.params, acc.clauses, next.clauses[|acc.clauses|]);
  }

  /** The WHERE clause keeps the rows that satisfy every filter. */
  lemma {:induction false} WhereMeansFilters(db: Db, detail: Detail, row: Row, filters: seq<Filter>, acc: Compiled)
    requires Bounded(acc) && CompileFilters(detail, filters, acc).Ok?
    ensures var r := CompileFilters(detail, filters, acc).value;
            Bounded(r) && (Kept(db, row, r.params, r.clauses) <==>
                           Kept(db, row, acc.params, acc.clauses) && SatisfiesAll(db, detail, row, filters))
    decreases |filters|
  {
    if filters != [] {
      FilterStep(db, detail, row, filters[0], acc);
      WhereMeansFilters(db, detail, row, filters[1..], CompileFilter(detail, filters[0], acc).value);
      assert forall f :: f in filters <==> f == filters[0] || f in filters[1..];
    }
  }

  lemma {:induction false} SelectMeansFilters(db: Db, detail: Detail, table: seq<Row>, filters: seq<Filter>)
    requires CompileFilters(detail, filters, Compiled([], [])).Ok?
    ensures var r := CompileFilters(detail, filters, Compiled([], [])).value;
            Bounded(r) && Select(db, table, r.params, r.clauses) == Satisfying(db, detail, table, filters)
    decreases |table|
  {
    if table == [] {
      CompileBounds(detail, filters, Compiled([], []));
    } else {
      WhereMeansFilters(db, detail, table[0], filters, Compiled([], []));
      SelectMeansFilters(db, detail, table[1..], filters);
    }
  }

  // ---------- The cursor comparison

  /** A cell's text, cast back to its column's type, is the cell. */
  predicate RoundTrips(db: Db, columns: seq<Column>, row: Row) {
    forall c :: c in columns ==>
      CellOf(row, c.name).Some? &&
      db.cmp(c.fullType, db.cast(c.fullType, CellOf(row, c.name).value), CellOf(row, c.name).value) == 0
  }

  /** Values that compare equal compare alike with everything. */
  lemma ComparesAlike(db: Db, t: Text, v: Text, a: Text, b: Text)
    requires Lawful(db) && db.cmp(t, a, b) == 0
    ensures (db.cmp(t, v, a) < 0 <==> db.cmp(t, v, b) < 0) && (db.cmp(t, v, a) > 0 <==> db.cmp(t, v, b) > 0)
  {
    assert db.cmp(t, b, a) == 0;
    assert db.cmp(t, v, a) <= 0 ==> db.cmp(t, v, b) <= 0;
    assert db.cmp(t, v, b) <= 0 ==> db.cmp(t, v, a) <= 0;
    assert db.cmp(t, a, v) <= 0 ==> db.cmp(t, b, v) <= 0;
    assert db.cmp(t, b, v) <= 0 ==> db.cmp(t, a, v) <= 0;
  }

  lemma {:induction false} EvalRowIs(db: Db, row: Row, last: Row, params: seq<Cell>, columns: seq<Column>,
                                     ns: seq<nat>, greater: bool)
    requires Lawful(db) && |columns| == |ns| && AllInRange(ns, |params|)
    requires forall i :: 0 <= i < |ns| ==> params[ns[i] - 1] == CellOf(last, columns[i].name)
    requires RoundTrips(db, columns, last) && forall c :: c in columns ==> CellOf(row, c.name).Some?
    ensures EvalRow(db, row, params, columns, ns, greater) ==
            Known(if greater then CmpRows(db, columns, row, last) > 0 else CmpRows(db, columns, row, last) < 0)
  {
    if columns != [] {
      var t, b := columns[0].fullType, CellOf(last, columns[0].name).value;
      ComparesAlike(db, t, CellOf(row, columns[0].name).value, db.cast(t, b), b);
      EvalRowIs(db, row, last, params, columns[1..], ns[1..], greater);
    }
  }

  function CursorAt(o: Order, last: Row): Cursor {
    Cursor(seq(|o.columns|, i requires 0 <= i < |o.columns| => CellOf(last, o.columns[i].name)),
           o.descending, Names(o.columns))
  }

  predicate NoNulls(o: Order, row: Row) { forall c :: c in o.columns ==> CellOf(row, c.name).Some? }

  /** The row comparison is true of exactly the rows after the cursor's in the listing's order. */
  lemma CursorClauseMeansAfter(db: Db, o: Order, last: Row, row: Row, before: seq<Cell>)
    requires Lawful(db) && RoundTrips(db, o.columns, last) && NoNulls(o, row)
    ensures var count := |o.columns|;
            var c := RowCompares(o.columns, !o.descending, Numbers(|before|, count));
            var params := before + CursorCells(CursorAt(o, last).values, count);
            Mentions(c, |params|) && (Eval(db, row, params, c) == True <==> Before(db, o, last, row))
  {
    var params := before + CursorCells(CursorAt(o, last).values, |o.columns|);
    EvalRowIs(db, row, last, params, o.columns, Numbers(|before|, |o.columns|), !o.descending);
    CmpRowsSwap(db, o.columns, row, last);
    CmpRowsSwap(db, o.columns, last, row);
  }

  lemma WhereMeansAfter(db: Db, o: Order, last: Row, row: Row, filters: Compiled)
    requires Lawful(db) && Bounded(filters) && RoundTrips(db, o.columns, last) && NoNulls(o, row)
    ensures var q := AfterCursor(o, CursorAt(o, last), filters);
            Bounded(q) && (Kept(db, row, q.params, q.clauses) <==>
                           Kept(db, row, filters.params, filters.clauses) && Before(db, o, last, row))
  {
    var q := AfterCursor(o, CursorAt(o, last), filters);
    CursorClauseMeansAfter(db, o, last, row, filters.params);
    KeptExtends(db, row, filters.params, CursorCells(CursorAt(o, last).values, |o.columns|), filters.clauses);
    KeptWithOneMore(db, row, q.params, filters.clauses, RowCompares(o.columns, !o.descending, Numbers(|filters.params|, |o.columns|)));
  }

  function RowsAfter(db: Db, o: Order, last: Row, rows: seq<Row>): seq<Row> {
    if rows == [] then []
    else (if Before(db, o, last, rows[0]) then [rows[0]] else []) + RowsAfter(db, o, last, rows[1..])
  }

  lemma {:induction false} SelectMeansAfter(db: Db, o: Order, last: Row, table: seq<Row>, filters: Compiled)
    requires Lawful(db) && Bounded(filters) && RoundTrips(db, o.columns, last)
    requires forall row :: row in table ==> NoNulls(o, row)
    ensures var q := AfterCursor(o, CursorAt(o, last), filters);
            Bounded(q) && Select(db, table, q.params, q.clauses)
                          == RowsAfter(db, o, last, Select(db, table, filters.params, filters.clauses))
    decreases |table|
  {
    if table == [] {
      PositionBounds(db, o, false, Some(Readable(CursorAt(o, last))), filters);
    } else {
      WhereMeansAfter(db, o, last, table[0], filters);
      SelectMeansAfter(db, o, last, table[1..], filters);
      var rest := Select(db, table[1..], filters.params, filters.clauses);
      assert ([table[0]] + rest)[1..] == rest && [] + rest == rest;
    }
  }

  // ---------- Sorting what comes after a row

  lemma {:induction false} RowsAfterIn(db: Db, o: Order, last: Row, rows: seq<Row>, r: Row)
    requires r in RowsAfter(db, o, last, rows)
    ensures r in rows && Before(db, o, last, r)
  {
    if r in RowsAfter(db, o, last, rows[1..]) { RowsAfterIn(db, o, last, rows[1..], r); }
  }

  lemma {:induction false} InsertCommutes(db: Db, o: Order, last: Row, r: Row, rows: seq<Row>)
    requires Lawful(db) && Sorted(db, o, rows)
    ensures RowsAfter(db, o, last, Insert(db, o, r, rows)) ==
            if Before(db, o, last, r) then Insert(db, o, r, RowsAfter(db, o, last, rows))
            else RowsAfter(db, o, last, rows)
  {
    if rows == [] {
      assert Insert(db, o, r, rows)[1..] == [];
    } else if !Before(db, o, rows[0], r) {
      InsertFirst(db, o, last, r, rows);
    } else {
      SortedTail(db, o, rows);
      InsertCommutes(db, o, last, r, rows[1..]);
      var rest := Insert(db, o, r, rows[1..]);
      assert Insert(db, o, r, rows)[1..] == rest;
      if Before(db, o, last, rows[0]) {
        AfterIsUpward(db, o, last, rows[0], r);
        assert RowsAfter(db, o, last, rows)[1..] == RowsAfter(db, o, last, rows[1..]);
      } else {
        assert RowsAfter(db, o, last, rows) == RowsAfter(db, o, last, rows[1..]);
        assert RowsAfter(db, o, last, Insert(db, o, r, rows)) == RowsAfter(db, o, last, rest);
      }
    }
  }

  /** Whatever comes after a row that is after `last` is after `last` too. */
  lemma AfterIsUpward(db: Db, o: Order, last: Row, a: Row, b: Row)
    requires Lawful(db) && Before(db, o, a, b)
    ensures Before(db, o, last, a) ==> Before(db, o, last, b)
  {
    CmpRowsSwap(db, o.columns, a, b);
    CmpRowsSwap(db, o.columns, b, a);
    CmpRowsSwap(db, o.columns, last, a);
    CmpRowsSwap(db, o.columns, a, last);
    if Before(db, o, last, a) { BeforeTransitive(db, o, last, a, b); }
  }

  lemma InsertFirst(db: Db, o: Order, last: Row, r: Row, rows: seq<Row>)
    requires Lawful(db) && Sorted(db, o, rows) && rows != [] && !Before(db, o, rows[0], r)
    ensures RowsAfter(db, o, last, Insert(db, o, r, rows)) ==
            if Before(db, o, last, r) then Insert(db, o, r, RowsAfter(db, o, last, rows))
            else RowsAfter(db, o, last, rows)
  {
    var after := RowsAfter(db, o, last, rows);
    assert ([r] + rows)[1..] == rows;
    if after != [] {
      RowsAfterIn(db, o, last, rows, after[0]);
      if after[0] != rows[0] {
        var k :| 0 <= k < |rows| && rows[k] == after[0];
        BeforeTransitive(db, o, r, rows[0], rows[k]);
      }
    }
  }

  /** Sorting only the rows after `last` gives the part of the whole listing after it. */
  lemma {:induction false} SortCommutes(db: Db, o: Order, last: Row, rows: seq<Row>)
    requires Lawful(db)
    ensures Sort(db, o, RowsAfter(db, o, last, rows)) == RowsAfter(db, o, last, Sort(db, o, rows))
  {
    if rows != [] {
      var rest := RowsAfter(db, o, last, rows[1..]);
      SortCommutes(db, o, last, rows[1..]);
      SortSorts(db, o, rows[1..]);
      InsertCommutes(db, o, last, rows[0], Sort(db, o, rows[1..]));
      if Before(db, o, last, rows[0]) {
        assert RowsAfter(db, o, last, rows)[1..] == rest;
      } else {
        assert RowsAfter(db, o, last, rows) == rest;
      }
    }
  }

  // ---------- No two rows of a listing tie

  predicate Apart(db: Db, o: Order, rows: seq<Row>) {
    forall i, j :: 0 <= i < j < |rows| ==> CmpRows(db, o.columns, rows[i], rows[j]) != 0
  }

  predicate ApartFrom(db: Db, o: Order, r: Row, rows: seq<Row>) {
    forall s :: s in rows ==> CmpRows(db, o.columns, r, s) != 0 && CmpRows(db, o.columns, s, r) != 0
  }

  lemma ApartCons(db: Db, o: Order, r: Row, rows: seq<Row>)
    requires Lawful(db)
    ensures Apart(db, o, [r] + rows) <==> Apart(db, o, rows) && ApartFrom(db, o, r, rows)
  {
    var all := [r] + rows;
    if Apart(db, o, all) {
      forall i, j | 0 <= i < j < |rows| ensures CmpRows(db, o.columns, rows[i], rows[j]) != 0 {
        assert all[i + 1] == rows[i] && all[j + 1] == rows[j];
      }
      forall s | s in rows ensures CmpRows(db, o.columns, r, s) != 0 && CmpRows(db, o.columns, s, r) != 0 {
        var k :| 0 <= k < |rows| && rows[k] == s;
        assert all[0] == r && all[k + 1] == s;
        CmpRowsSwap(db, o.columns, s, r);
        CmpRowsSwap(db, o.columns, r, s);
      }
    }
  }

  lemma {:induction false} InsertStaysApart(db: Db, o: Order, r: Row, rows: seq<Row>)
    requires Lawful(db) && Apart(db, o, rows) && ApartFrom(db, o, r, rows)
    ensures Apart(db, o, Insert(db, o, r, rows))
  {
    ApartCons(db, o, r, rows);
    if rows != [] && Before(db, o, rows[0], r) {
      var rest := Insert(db, o, r, rows[1..]);
      assert rows == [rows[0]] + rows[1..];
      ApartCons(db, o, rows[0], rows[1..]);
      InsertStaysApart(db, o, r, rows[1..]);
      InsertIsPermutation(db, o, r, rows[1..]);
      forall s | s in rest ensures s == r || s in rows[1..] {
        assert s in multiset(rest);
      }
      ApartCons(db, o, rows[0], rest);
    }
  }

  lemma {:induction false} SortStaysApart(db: Db, o: Order, rows: seq<Row>)
    requires Lawful(db) && Apart(db, o, rows)
    ensures Apart(db, o, Sort(db, o, rows))
  {
    if rows != [] {
      assert rows == [rows[0]] + rows[1..];
      ApartCons(db, o, rows[0], rows[1..]);
      SortStaysApart(db, o, rows[1..]);
      SortSorts(db, o, rows[1..]);
      forall s | s in Sort(db, o, rows[1..]) ensures s in rows[1..] {
        assert s in multiset(Sort(db, o, rows[1..]));
      }
      InsertStaysApart(db, o, rows[0], Sort(db, o, rows[1..]));
    }
  }

  lemma {:induction false} SatisfyingIn(db: Db, detail: Detail, table: seq<Row>, filters: seq<Filter>, r: Row)
    requires r in Satisfying(db, detail, table, filters)
    ensures r in table && SatisfiesAll(db, detail, r, filters)
  {
    if r in Satisfying(db, detail, table[1..], filters) { SatisfyingIn(db, detail, table[1..], filters, r); }
  }

  lemma {:induction false} SatisfyingStaysApart(db: Db, o: Order, detail: Detail, table: seq<Row>, filters: seq<Filter>)
    requires Lawful(db) && Apart(db, o, table)
    ensures Apart(db, o, Satisfying(db, detail, table, filters))
  {
    if table != [] {
      var rest := Satisfying(db, detail, table[1..], filters);
      assert table == [table[0]] + table[1..];
      ApartCons(db, o, table[0], table[1..]);
      SatisfyingStaysApart(db, o, detail, table[1..], filters);
      forall s | s in rest ensures s in table[1..] {
        SatisfyingIn(db, detail, table[1..], filters, s);
      }
      ApartCons(db, o, table[0], rest);
      assert Satisfying(db, detail, table, filters) ==
             if SatisfiesAll(db, detail, table[0], filters) then [table[0]] + rest else rest;
    }
  }

  /** In a listing without ties, what comes after its `k`-th row is the rest of it. */
  lemma {:induction false} RowsAfterKth(db: Db, o: Order, rows: seq<Row>, k: nat)
    requires Lawful(db) && Sorted(db, o, rows) && Apart(db, o, rows) && k < |rows|
    ensures RowsAfter(db, o, rows[k], rows) == rows[k + 1..]
  {
    forall j | 0 <= j <= k ensures !Before(db, o, rows[k], rows[j]) {
      CmpRowsSwap(db, o.columns, rows[k], rows[k]);
    }
    forall j | k < j < |rows| ensures Before(db, o, rows[k], rows[j]) {
      CmpRowsSwap(db, o.columns, rows[k], rows[j]);
      CmpRowsSwap(db, o.columns, rows[j], rows[k]);
    }
    RowsAfterSplit(db, o, rows[k], rows, k + 1);
  }

  lemma {:induction false} RowsAfterSplit(db: Db, o: Order, last: Row, rows: seq<Row>, n: nat)
    requires n <= |rows|
    requires forall j :: 0 <= j < n ==> !Before(db, o, last, rows[j])
    requires forall j :: n <= j < |rows| ==> Before(db, o, last, rows[j])
    ensures RowsAfter(db, o, last, rows) == rows[n..]
    decreases |rows|
  {
    if rows != [] {
      RowsAfterSplit(db, o, last, rows[1..], if n > 0 then n - 1 else 0);
    }
  }
}
