/**
 * The clauses that browse.ts and mutate.ts generate, with their numbered parameters, and what
 * Postgres makes of them: three-valued conditions over rows, ordering and sorting.
 *
 * A cell is the text Postgres prints for it, None for NULL, and a type is its printed name.
 */
module SqlModel {
  import opened Bytes
  import opened Strings

  type Cell = Option<Text>
  type Row = map<Text, Cell>

  /** Comparison and casts per type, pattern matching, and JavaScript's number conversions. */
  datatype Db = Db(cmp: (Text, Text, Text) -> int, cast: (Text, Text) -> Text,
                   like: (Text, Text) -> bool, ilike: (Text, Text) -> bool,
                   number: Text -> Option<int>, show: nat -> Text)

  /** Comparison is a total preorder, and printed numbers read back. */
  ghost predicate Lawful(db: Db) {
    && (forall t, a, b :: db.cmp(t, a, b) < 0 <==> db.cmp(t, b, a) > 0)
    && (forall t, a, b, c :: db.cmp(t, a, b) <= 0 && db.cmp(t, b, c) <= 0 ==> db.cmp(t, a, c) <= 0)
    && (forall n: nat :: db.number(db.show(n)) == Some(n))
  }

  /** The assumptions are consistent: comparing lengths and counting strokes has all of them. */
  lemma LawfulIsPossible() returns (db: Db)
    ensures Lawful(db)
  {
    db := Db((t, a: Text, b: Text) => |a| - |b|, (t, v) => v, (v, p) => v == p, (v, p) => v == p,
             t => Some(|t|), (n: nat) => seq(n, i => '1'));
    forall n: nat ensures db.number(db.show(n)) == Some(n) {
      assert |db.show(n)| == n;
    }
  }

  datatype Column = Column(name: Text, fullType: Text, nullable: bool)

  /** What introspection reports of a table. */
  datatype Detail = Detail(columns: seq<Column>, primaryKey: seq<Text>, estimatedRows: Option<int>, editable: bool)

  /** `columns.find`. */
  function FindColumn(columns: seq<Column>, name: Text): Option<Column> {
    if columns == [] then None
    else if columns[0].name == name then Some(columns[0])
    else FindColumn(columns[1..], name)
  }

  lemma {:induction false} FoundByName(columns: seq<Column>, name: Text)
    ensures var r := FindColumn(columns, name);
            if r.Some? then r.value in columns && r.value.name == name
            else forall c :: c in columns ==> c.name != name
  {
    if columns != [] && columns[0].name != name { FoundByName(columns[1..], name); }
  }

  function CellOf(row: Row, name: Text): Cell { if name in row then row[name] else None }

  datatype Op = Eq | Neq | Lt | Lte | Gt | Gte

  predicate OpHolds(op: Op, c: int) {
    match op
    case Eq => c == 0
    case Neq => c != 0
    case Lt => c < 0
    case Lte => c <= 0
    case Gt => c > 0
    case Gte => c >= 0
  }

  /** `$n` is written as its number; a `$n::text::type` operand carries its type. */
  datatype Clause =
    | IsNull(column: Text)
    | IsNotNull(column: Text)
    | Compares(column: Text, op: Op, param: nat, fullType: Text)
    | Matches(column: Text, insensitive: bool, param: nat)
    | IsIn(column: Text, params: seq<nat>, fullType: Text)
    | RowCompares(columns: seq<Column>, greater: bool, params: seq<nat>)

  predicate InRange(n: nat, count: nat) { 1 <= n <= count }

  predicate AllInRange(ns: seq<nat>, count: nat) { forall i :: 0 <= i < |ns| ==> InRange(ns[i], count) }

  /** Every parameter a clause mentions is among the first `count`. */
  predicate Mentions(c: Clause, count: nat) {
    match c
    case IsNull(_) => true
    case IsNotNull(_) => true
    case Compares(_, _, n, _) => InRange(n, count)
    case Matches(_, _, n) => InRange(n, count)
    case IsIn(_, ns, _) => AllInRange(ns, count)
    case RowCompares(cs, _, ns) => |cs| == |ns| && AllInRange(ns, count)
  }

  datatype Truth = True | False | Unknown

  function Known(b: bool): Truth { if b then True else False }

  /** `a = $x OR a = $y OR ...`, for a column and parameters that are not NULL. */
  function EvalIn(db: Db, v: Text, params: seq<Cell>, ns: seq<nat>, fullType: Text): Truth
    requires AllInRange(ns, |params|)
  {
    if ns == [] then False
    else
      var p := params[ns[0] - 1];
      var rest := EvalIn(db, v, params, ns[1..], fullType);
      if p.Some? && db.cmp(fullType, v, db.cast(fullType, p.value)) == 0 then True
      else if p.None? && rest == False then Unknown
      else rest
  }

  /** SQL row comparison: the first pair that is not equal decides, a NULL before it makes it unknown. */
  function EvalRow(db: Db, row: Row, params: seq<Cell>, columns: seq<Column>, ns: seq<nat>, greater: bool): Truth
    requires |columns| == |ns| && AllInRange(ns, |params|)
  {
    if columns == [] then False
    else
      var a, b := CellOf(row, columns[0].name), params[ns[0] - 1];
      if a.None? || b.None? then Unknown
      else
        var c := db.cmp(columns[0].fullType, a.value, db.cast(columns[0].fullType, b.value));
        if c != 0 then Known(if greater then c > 0 else c < 0)
        else EvalRow(db, row, params, columns[1..], ns[1..], greater)
  }

  function Eval(db: Db, row: Row, params: seq<Cell>, c: Clause): Truth
    requires Mentions(c, |params|)
  {
    match c
    case IsNull(name) => Known(CellOf(row, name).None?)
    case IsNotNull(name) => Known(CellOf(row, name).Some?)
    case Compares(name, op, n, fullType) =>
      var v, p := CellOf(row, name), params[n - 1];
      if v.None? || p.None? then Unknown
      else Known(OpHolds(op, db.cmp(fullType, v.value, db.cast(fullType, p.value))))
    case Matches(name, insensitive, n) =>
      var v, p := CellOf(row, name), params[n - 1];
      if v.None? || p.None? then Unknown
      else Known(if insensitive then db.ilike(v.value, p.value) else db.like(v.value, p.value))
    case IsIn(name, ns, fullType) =>
      var v := CellOf(row, name);
      if v.None? then Unknown else EvalIn(db, v.value, params, ns, fullType)
    case RowCompares(columns, greater, ns) => EvalRow(db, row, params, columns, ns, greater)
  }

  predicate AllMention(where: seq<Clause>, count: nat) { forall c :: c in where ==> Mentions(c, count) }

  /** A conjunction compiled so far and every parameter pushed so far. */
  datatype Compiled = Compiled(clauses: seq<Clause>, params: seq<Cell>)

  predicate Bounded(c: Compiled) { AllMention(c.clauses, |c.params|) }

  lemma MentionsMore(c: Clause, count: nat, more: nat)
    requires Mentions(c, count)
    ensures Mentions(c, count + more)
  {
  }

  /** `WHERE a AND b AND ...` keeps the rows for which every conjunct is true. */
  predicate Kept(db: Db, row: Row, params: seq<Cell>, where: seq<Clause>)
    requires AllMention(where, |params|)
  {
    forall c :: c in where ==> Eval(db, row, params, c) == True
  }

  function Select(db: Db, table: seq<Row>, params: seq<Cell>, where: seq<Clause>): seq<Row>
    requires AllMention(where, |params|)
  {
    if table == [] then []
    else (if Kept(db, table[0], params, where) then [table[0]] else []) + Select(db, table[1..], params, where)
  }

  /** Parameters beyond those mentioned make no difference. */
  lemma {:induction false} EvalInExtends(db: Db, v: Text, params: seq<Cell>, more: seq<Cell>, ns: seq<nat>, t: Text)
    requires AllInRange(ns, |params|)
    ensures EvalIn(db, v, params + more, ns, t) == EvalIn(db, v, params, ns, t)
  {
    if ns != [] { EvalInExtends(db, v, params, more, ns[1..], t); }
  }

  lemma {:induction false} EvalRowExtends(db: Db, row: Row, params: seq<Cell>, more: seq<Cell>,
                                         columns: seq<Column>, ns: seq<nat>, greater: bool)
    requires |columns| == |ns| && AllInRange(ns, |params|)
    ensures EvalRow(db, row, params + more, columns, ns, greater) == EvalRow(db, row, params, columns, ns, greater)
  {
    if columns != [] { EvalRowExtends(db, row, params, more, columns[1..], ns[1..], greater); }
  }

  lemma EvalExtends(db: Db, row: Row, params: seq<Cell>, more: seq<Cell>, c: Clause)
    requires Mentions(c, |params|)
    ensures Mentions(c, |params + more|)
    ensures Eval(db, row, params + more, c) == Eval(db, row, params, c)
  {
    match c
    case IsIn(name, ns, fullType) =>
      if CellOf(row, name).Some? { EvalInExtends(db, CellOf(row, name).value, params, more, ns, fullType); }
    case RowCompares(columns, greater, ns) => EvalRowExtends(db, row, params, more, columns, ns, greater);
    case _ =>
  }

  // ---------- ORDER BY

  /** NULL sorts after every value. */
  function CmpCell(db: Db, fullType: Text, a: Cell, b: Cell): int {
    if a.None? then (if b.None? then 0 else 1)
    else if b.None? then -1
    else db.cmp(fullType, a.value, b.value)
  }

  function CmpRows(db: Db, columns: seq<Column>, a: Row, b: Row): int {
    if columns == [] then 0
    else
      var c := CmpCell(db, columns[0].fullType, CellOf(a, columns[0].name), CellOf(b, columns[0].name));
      if c != 0 then c else CmpRows(db, columns[1..], a, b)
  }

  datatype Order = Order(columns: seq<Column>, descending: bool)

  predicate Before(db: Db, o: Order, a: Row, b: Row) {
    if o.descending then CmpRows(db, o.columns, a, b) > 0 else CmpRows(db, o.columns, a, b) < 0
  }

  function Insert(db: Db, o: Order, r: Row, rows: seq<Row>): seq<Row> {
    if rows == [] || !Before(db, o, rows[0], r) then [r] + rows
    else [rows[0]] + Insert(db, o, r, rows[1..])
  }

  function Sort(db: Db, o: Order, rows: seq<Row>): seq<Row> {
    if rows == [] then [] else Insert(db, o, rows[0], Sort(db, o, rows[1..]))
  }

  lemma {:induction false} CmpRowsSwap(db: Db, columns: seq<Column>, a: Row, b: Row)
    requires Lawful(db)
    ensures CmpRows(db, columns, a, b) < 0 <==> CmpRows(db, columns, b, a) > 0
  {
    if columns != [] { CmpRowsSwap(db, columns[1..], a, b); }
  }

  lemma CmpCellTransitive(db: Db, t: Text, a: Cell, b: Cell, c: Cell)
    requires Lawful(db)
    ensures CmpCell(db, t, a, b) <= 0 && CmpCell(db, t, b, c) <= 0 ==>
              CmpCell(db, t, a, c) <= 0 &&
              (CmpCell(db, t, a, c) == 0 ==> CmpCell(db, t, a, b) == 0 && CmpCell(db, t, b, c) == 0)
  {
    if a.Some? && b.Some? && c.Some? {
      assert db.cmp(t, c.value, a.value) <= 0 && db.cmp(t, a.value, b.value) <= 0 ==>
          db.cmp(t, c.value, b.value) <= 0;
      assert db.cmp(t, b.value, c.value) <= 0 && db.cmp(t, c.value, a.value) <= 0 ==>
          db.cmp(t, b.value, a.value) <= 0;
    }
  }

  lemma {:induction false} CmpRowsTransitive(db: Db, columns: seq<Column>, a: Row, b: Row, c: Row)
    requires Lawful(db)
    requires CmpRows(db, columns, a, b) <= 0 && CmpRows(db, columns, b, c) <= 0
    ensures CmpRows(db, columns, a, c) <= 0
    ensures CmpRows(db, columns, a, b) < 0 || CmpRows(db, columns, b, c) < 0 ==> CmpRows(db, columns, a, c) < 0
  {
    if columns != [] {
      var name, t := columns[0].name, columns[0].fullType;
      CmpCellTransitive(db, t, CellOf(a, name), CellOf(b, name), CellOf(c, name));
      if CmpCell(db, t, CellOf(a, name), CellOf(c, name)) == 0 {
        CmpRowsTransitive(db, columns[1..], a, b, c);
      }
    }
  }

  lemma BeforeTransitive(db: Db, o: Order, a: Row, b: Row, c: Row)
    requires Lawful(db) && !Before(db, o, b, a) && !Before(db, o, c, b)
    ensures !Before(db, o, c, a)
    ensures Before(db, o, a, b) || Before(db, o, b, c) ==> Before(db, o, a, c)
  {
    CmpRowsSwap(db, o.columns, a, b);
    CmpRowsSwap(db, o.columns, b, a);
    CmpRowsSwap(db, o.columns, b, c);
    CmpRowsSwap(db, o.columns, c, b);
    CmpRowsSwap(db, o.columns, a, c);
    CmpRowsSwap(db, o.columns, c, a);
    if o.descending {
      CmpRowsTransitive(db, o.columns, c, b, a);
    } else {
      CmpRowsTransitive(db, o.columns, a, b, c);
    }
  }

  /** No row comes before an earlier one. */
  predicate Sorted(db: Db, o: Order, rows: seq<Row>) {
    forall i, j :: 0 <= i < j < |rows| ==> !Before(db, o, rows[j], rows[i])
  }

  lemma {:induction false} InsertIsPermutation(db: Db, o: Order, r: Row, rows: seq<Row>)
    ensures multiset(Insert(db, o, r, rows)) == multiset([r] + rows)
  {
    if rows != [] && Before(db, o, rows[0], r) {
      InsertIsPermutation(db, o, r, rows[1..]);
      assert rows == [rows[0]] + rows[1..];
    }
  }

  lemma SortedCons(db: Db, o: Order, first: Row, rest: seq<Row>)
    requires Sorted(db, o, rest) && forall r :: r in rest ==> !Before(db, o, r, first)
    ensures Sorted(db, o, [first] + rest)
  {
  }

  lemma SortedTail(db: Db, o: Order, rows: seq<Row>)
    requires Sorted(db, o, rows) && rows != []
    ensures Sorted(db, o, rows[1..]) && forall r :: r in rows[1..] ==> !Before(db, o, r, rows[0])
  {
  }

  lemma {:induction false} InsertSorts(db: Db, o: Order, r: Row, rows: seq<Row>)
    requires Lawful(db) && Sorted(db, o, rows)
    ensures Sorted(db, o, Insert(db, o, r, rows))
  {
    if rows == [] {
      assert Insert(db, o, r, rows) == [r];
    } else if !Before(db, o, rows[0], r) {
      SortedTail(db, o, rows);
      forall s | s in rows ensures !Before(db, o, s, r) {
        if s != rows[0] { BeforeTransitive(db, o, r, rows[0], s); }
      }
      SortedCons(db, o, r, rows);
    } else {
      var rest := Insert(db, o, r, rows[1..]);
      SortedTail(db, o, rows);
      InsertSorts(db, o, r, rows[1..]);
      InsertIsPermutation(db, o, r, rows[1..]);
      CmpRowsSwap(db, o.columns, rows[0], r);
      CmpRowsSwap(db, o.columns, r, rows[0]);
      forall s | s in rest ensures !Before(db, o, s, rows[0]) {
        assert s in multiset(rest);
      }
      SortedCons(db, o, rows[0], rest);
    }
  }

  /** The listing is sorted and is the same rows. */
  lemma {:induction false} SortSorts(db: Db, o: Order, rows: seq<Row>)
    requires Lawful(db)
    ensures Sorted(db, o, Sort(db, o, rows)) && multiset(Sort(db, o, rows)) == multiset(rows)
  {
    if rows != [] {
      SortSorts(db, o, rows[1..]);
      InsertSorts(db, o, rows[0], Sort(db, o, rows[1..]));
      InsertIsPermutation(db, o, rows[0], Sort(db, o, rows[1..]));
      assert rows == [rows[0]] + rows[1..];
    }
  }
}
