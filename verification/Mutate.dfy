/** Addressing one row by its full primary key, apps/control-plane/src/data/mutate.ts. */
module Mutate {
  import opened Bytes
  import opened Strings
  import opened SqlModel
  import opened BrowsePaging
  import opened BrowseListing

  type RowKey = map<Text, Cell>

  /** One entry of the `changes` object, in the order the object lists its keys. */
  datatype Change = Change(column: Text, value: Cell)

  datatype Problem =
    | NotEditable | NoChanges | NoColumn(name: Text)
    | KeyMissing(names: seq<Text>) | KeyNull(name: Text)
    | EmptyPredicate
    | NoRowMatched | ManyRowsMatched(count: nat)

  function Missing(keys: seq<Text>, key: RowKey): seq<Text> {
    if keys == [] then []
    else (if keys[0] in key then [] else [keys[0]]) + Missing(keys[1..], key)
  }

  function KeyClauses(detail: Detail, keys: seq<Text>, key: RowKey, acc: Compiled): Result<Compiled, Problem> {
    if keys == [] then Ok(acc)
    else
      var found, value := FindColumn(detail.columns, keys[0]), CellOf(key, keys[0]);
      if value.None? then Err(KeyNull(keys[0]))
      else if found.None? then Err(NoColumn(keys[0]))
      else KeyClauses(detail, keys[1..], key,
                      Compiled(acc.clauses + [Compares(keys[0], Eq, |acc.params| + 1, found.value.fullType)],
                               acc.params + [value]))
  }

  /** `keyPredicate`; with no key column the text after WHERE is empty, which Postgres rejects. */
  function KeyPredicate(detail: Detail, key: RowKey, params: seq<Cell>): Result<Compiled, Problem> {
    var missing := Missing(detail.primaryKey, key);
    if missing != [] then Err(KeyMissing(missing))
    else if detail.primaryKey == [] then Err(EmptyPredicate)
    else KeyClauses(detail, detail.primaryKey, key, Compiled([], params))
  }

  /** `"column" = NULL`, or `"column" = $n::text::type`. */
  datatype Assignment = SetNull(column: Text) | SetParam(column: Text, param: nat, fullType: Text)

  datatype Assignments = Assignments(list: seq<Assignment>, params: seq<Cell>)

  function Assign(detail: Detail, changes: seq<Change>, acc: Assignments): Result<Assignments, Problem> {
    if changes == [] then Ok(acc)
    else
      var c := changes[0];
      var found := FindColumn(detail.columns, c.column);
      if found.None? then Err(NoColumn(c.column))
      else if c.value.None? then Assign(detail, changes[1..], acc.(list := acc.list + [SetNull(c.column)]))
      else Assign(detail, changes[1..],
                  Assignments(acc.list + [SetParam(c.column, |acc.params| + 1, found.value.fullType)],
                              acc.params + [c.value]))
  }

  datatype Update = Update(assignments: seq<Assignment>, where: seq<Clause>, params: seq<Cell>)

  function BuildUpdate(detail: Detail, key: RowKey, changes: seq<Change>): Result<Update, Problem> {
    if !detail.editable then Err(NotEditable)
    else if changes == [] then Err(NoChanges)
    else
      var sets := Assign(detail, changes, Assignments([], []));
      if sets.Err? then Err(sets.problem)
      else
        var where := KeyPredicate(detail, key, sets.value.params);
        if where.Err? then Err(where.problem)
        else Ok(Update(sets.value.list, where.value.clauses, where.value.params))
  }

  // ---------- What the statements do

  predicate AssignmentOk(a: Assignment, count: nat) { a.SetParam? ==> InRange(a.param, count) }

  predicate Sound(u: Update) {
    AllMention(u.where, |u.params|) && forall a :: a in u.assignments ==> AssignmentOk(a, |u.params|)
  }

  function SetOne(db: Db, row: Row, a: Assignment, params: seq<Cell>): Row
    requires AssignmentOk(a, |params|)
  {
    match a
    case SetNull(name) => row[name := None]
    case SetParam(name, n, fullType) =>
      row[name := if params[n - 1].None? then None else Some(db.cast(fullType, params[n - 1].value))]
  }

  function SetAll(db: Db, row: Row, list: seq<Assignment>, params: seq<Cell>): Row
    requires forall a :: a in list ==> AssignmentOk(a, |params|)
    decreases |list|
  {
    if list == [] then row else SetAll(db, SetOne(db, row, list[0], params), list[1..], params)
  }

  function Updated(db: Db, table: seq<Row>, u: Update): seq<Row>
    requires Sound(u)
  {
    if table == [] then []
    else [if Kept(db, table[0], u.params, u.where) then SetAll(db, table[0], u.assignments, u.params) else table[0]]
         + Updated(db, table[1..], u)
  }

  function Deleted(db: Db, table: seq<Row>, where: Compiled): seq<Row>
    requires Bounded(where)
  {
    if table == [] then []
    else (if Kept(db, table[0], where.params, where.clauses) then [] else [table[0]]) + Deleted(db, table[1..], where)
  }

  /** The outcome of a mutation, and the table it leaves behind. */
  datatype Outcome<+T> = Outcome(result: Result<T, Problem>, table: seq<Row>)

  function UpdateRow(db: Db, detail: Detail, table: seq<Row>, key: RowKey, changes: seq<Change>): Outcome<Row> {
    var u := BuildUpdate(detail, key, changes);
    if u.Err? then Outcome(Err(u.problem), table)
    else
      UpdateIsSound(detail, key, changes);
      var hit := Select(db, table, u.value.params, u.value.where);
      var after := Updated(db, table, u.value);
      if |hit| == 0 then Outcome(Err(NoRowMatched), after)
      else if |hit| > 1 then Outcome(Err(ManyRowsMatched(|hit|)), after)
      else Outcome(Ok(SetAll(db, hit[0], u.value.assignments, u.value.params)), after)
  }

  function DeleteRow(db: Db, detail: Detail, table: seq<Row>, key: RowKey): Outcome<()> {
    if !detail.editable then Outcome(Err(NotEditable), table)
    else
      var where := KeyPredicate(detail, key, []);
      if where.Err? then Outcome(Err(where.problem), table)
      else
        KeyBounds(detail, detail.primaryKey, key, Compiled([], []));
        var after := Deleted(db, table, where.value);
        if |Select(db, table, where.value.params, where.value.clauses)| == 0 then Outcome(Err(NoRowMatched), after)
        else Outcome(Ok(()), after)
  }

  // ---------- Parameters are numbered as they are pushed

  lemma {:induction false} KeyBounds(detail: Detail, keys: seq<Text>, key: RowKey, acc: Compiled)
    requires Bounded(acc)
    ensures var r := KeyClauses(detail, keys, key, acc);
            r.Ok? ==> Bounded(r.value) && acc.params <= r.value.params
    decreases |keys|
  {
    if keys != [] && CellOf(key, keys[0]).Some? && FindColumn(detail.columns, keys[0]).Some? {
      forall c | c in acc.clauses ensures Mentions(c, |acc.params| + 1) {
        MentionsMore(c, |acc.params|, 1);
      }
      KeyBounds(detail, keys[1..], key,
                Compiled(acc.clauses + [Compares(keys[0], Eq, |acc.params| + 1, FindColumn(detail.columns, keys[0]).value.fullType)],
                         acc.params + [CellOf(key, keys[0])]));
    }
  }

  lemma {:induction false} AssignBounds(detail: Detail, changes: seq<Change>, acc: Assignments)
    requires forall a :: a in acc.list ==> AssignmentOk(a, |acc.params|)
    ensures var r := Assign(detail, changes, acc);
            r.Ok? ==> forall a :: a in r.value.list ==> AssignmentOk(a, |r.value.params|)
    decreases |changes|
  {
    if changes != [] {
      var c := changes[0];
      var found := FindColumn(detail.columns, c.column);
      if found.Some? {
        AssignBounds(detail, changes[1..],
                     if c.value.None? then acc.(list := acc.list + [SetNull(c.column)])
                     else Assignments(acc.list + [SetParam(c.column, |acc.params| + 1, found.value.fullType)],
                                      acc.params + [c.value]));
      }
    }
  }

  lemma UpdateIsSound(detail: Detail, key: RowKey, changes: seq<Change>)
    requires BuildUpdate(detail, key, changes).Ok?
    ensures Sound(BuildUpdate(detail, key, changes).value)
  {
    AssignBounds(detail, changes, Assignments([], []));
    KeyBounds(detail, detail.primaryKey, key, Compiled([], Assign(detail, changes, Assignments([], [])).value.params));
  }

  // ---------- The predicate means the key

  predicate CellIs(db: Db, detail: Detail, row: Row, name: Text, value: Cell) {
    var c := FindColumn(detail.columns, name);
    && c.Some? && value.Some? && CellOf(row, name).Some?
    && db.cmp(c.value.fullType, CellOf(row, name).value, db.cast(c.value.fullType, value.value)) == 0
  }

  /** The row has the key's value in every primary key column. */
  predicate HasKey(db: Db, detail: Detail, row: Row, keys: seq<Text>, key: RowKey) {
    forall name :: name in keys ==> CellIs(db, detail, row, name, CellOf(key, name))
  }

  lemma KeyStep(db: Db, detail: Detail, row: Row, name: Text, key: RowKey, acc: Compiled)
    requires Bounded(acc)
    requires FindColumn(detail.columns, name).Some? && CellOf(key, name).Some?
    ensures var c := Compares(name, Eq, |acc.params| + 1, FindColumn(detail.columns, name).value.fullType);
            var params := acc.params + [CellOf(key, name)];
            && AllMention(acc.clauses + [c], |params|)
            && (Kept(db, row, params, acc.clauses + [c]) <==>
                Kept(db, row, acc.params, acc.clauses) && CellIs(db, detail, row, name, CellOf(key, name)))
  {
    var c := Compares(name, Eq, |acc.params| + 1, FindColumn(detail.columns, name).value.fullType);
    KeptExtends(db, row, acc.params, [CellOf(key, name)], acc.clauses);
    KeptWithOneMore(db, row, acc.params + [CellOf(key, name)], acc.clauses, c);
  }

  lemma {:induction false} KeyClausesMean(db: Db, detail: Detail, row: Row, keys: seq<Text>, key: RowKey, acc: Compiled)
    requires Bounded(acc) && KeyClauses(detail, keys, key, acc).Ok?
    ensures var r := KeyClauses(detail, keys, key, acc).value;
            Bounded(r) && (Kept(db, row, r.params, r.clauses) <==>
                                                Kept(db, row, acc.params, acc.clauses) && HasKey(db, detail, row, keys, key))
    decreases |keys|
  {
    if keys != [] {
      var name := keys[0];
      KeyStep(db, detail, row, name, key, acc);
      KeyClausesMean(db, detail, row, keys[1..], key,
                     Compiled(acc.clauses + [Compares(name, Eq, |acc.params| + 1, FindColumn(detail.columns, name).value.fullType)],
                              acc.params + [CellOf(key, name)]));
      assert forall n :: n in keys <==> n == name || n in keys[1..];
    }
  }

  /** Whatever parameters came before, the predicate is true of exactly the rows with that full key. */
  lemma PredicateMeansKey(db: Db, detail: Detail, row: Row, key: RowKey, params: seq<Cell>)
    requires KeyPredicate(detail, key, params).Ok?
    ensures var r := KeyPredicate(detail, key, params).value;
            Bounded(r) && (Kept(db, row, r.params, r.clauses) <==>
                                                HasKey(db, detail, row, detail.primaryKey, key))
  {
    KeyClausesMean(db, detail, row, detail.primaryKey, key, Compiled([], params));
  }

  lemma SameKeyAgrees(db: Db, detail: Detail, a: Row, b: Row, key: RowKey)
    requires Lawful(db) && HasKey(db, detail, a, detail.primaryKey, key) && HasKey(db, detail, b, detail.primaryKey, key)
    ensures !KeysDiffer(db, detail, a, b)
  {
    forall name | name in detail.primaryKey ensures !DifferAt(db, detail, name, a, b) {
      var t := FindColumn(detail.columns, name).value.fullType;
      assert CellIs(db, detail, a, name, CellOf(key, name)) && CellIs(db, detail, b, name, CellOf(key, name));
      ComparesAlike(db, t, CellOf(b, name).value, CellOf(a, name).value, db.cast(t, CellOf(key, name).value));
      assert db.cmp(t, CellOf(b, name).value, CellOf(a, name).value) == 0;
    }
  }

  lemma {:induction false} SelectedHaveKey(db: Db, detail: Detail, table: seq<Row>, key: RowKey, params: seq<Cell>)
    requires KeyPredicate(detail, key, params).Ok?
    ensures var r := KeyPredicate(detail, key, params).value;
            Bounded(r) && Select(db, table, r.params, r.clauses) == WithKey(db, detail, table, key)
    decreases |table|
  {
    if table == [] {
      KeyBounds(detail, detail.primaryKey, key, Compiled([], params));
    } else {
      PredicateMeansKey(db, detail, table[0], key, params);
      SelectedHaveKey(db, detail, table[1..], key, params);
    }
  }

  function WithKey(db: Db, detail: Detail, table: seq<Row>, key: RowKey): seq<Row> {
    if table == [] then []
    else (if HasKey(db, detail, table[0], detail.primaryKey, key) then [table[0]] else [])
         + WithKey(db, detail, table[1..], key)
  }

  lemma {:induction false} WithKeyIsOne(db: Db, detail: Detail, table: seq<Row>, key: RowKey, i: nat)
    requires Lawful(db) && KeyIsUnique(db, detail, table)
    requires i < |table| && HasKey(db, detail, table[i], detail.primaryKey, key)
    ensures WithKey(db, detail, table, key) == [table[i]]
    ensures forall j :: 0 <= j < |table| && j != i ==> !HasKey(db, detail, table[j], detail.primaryKey, key)
  {
    forall j | 0 <= j < |table| && j != i ensures !HasKey(db, detail, table[j], detail.primaryKey, key) {
      if HasKey(db, detail, table[j], detail.primaryKey, key) {
        SameKeyAgrees(db, detail, table[if i < j then i else j], table[if i < j then j else i], key);
      }
    }
    OnlyOne(db, detail, table, key, i);
  }

  lemma {:induction false} NoneWithKey(db: Db, detail: Detail, table: seq<Row>, key: RowKey)
    ensures WithKey(db, detail, table, key) == [] <==>
            forall j :: 0 <= j < |table| ==> !HasKey(db, detail, table[j], detail.primaryKey, key)
  {
    if table != [] {
      NoneWithKey(db, detail, table[1..], key);
      assert forall j :: 0 < j < |table| ==> table[j] == table[1..][j - 1];
    }
  }

  lemma {:induction false} OnlyOne(db: Db, detail: Detail, table: seq<Row>, key: RowKey, i: nat)
    requires i < |table| && HasKey(db, detail, table[i], detail.primaryKey, key)
    requires forall j :: 0 <= j < |table| && j != i ==> !HasKey(db, detail, table[j], detail.primaryKey, key)
    ensures WithKey(db, detail, table, key) == [table[i]]
  {
    if i == 0 {
      NoneWithKey(db, detail, table[1..], key);
    } else {
      OnlyOne(db, detail, table[1..], key, i - 1);
    }
  }

  // ---------- An UPDATE or DELETE touches exactly the row with that key

  lemma {:induction false} SetAllAppend(db: Db, row: Row, a: seq<Assignment>, b: seq<Assignment>, params: seq<Cell>)
    requires forall x :: x in a + b ==> AssignmentOk(x, |params|)
    ensures (forall x :: x in a ==> AssignmentOk(x, |params|)) && (forall x :: x in b ==> AssignmentOk(x, |params|))
    ensures SetAll(db, row, a + b, params) == SetAll(db, SetAll(db, row, a, params), b, params)
    decreases |a|
  {
    forall x | x in a || x in b ensures AssignmentOk(x, |params|) { assert x in a + b; }
    if a == [] {
      assert a + b == b;
    } else {
      assert (a + b)[0] == a[0] && (a + b)[1..] == a[1..] + b;
      SetAllAppend(db, SetOne(db, row, a[0], params), a[1..], b, params);
    }
  }

  /** The row with every change made: NULL, or the value as its column's type reads it. */
  function Changed(db: Db, detail: Detail, row: Row, changes: seq<Change>): Row
    decreases |changes|
  {
    if changes == [] then row
    else
      var c := changes[0];
      var found := FindColumn(detail.columns, c.column);
      var value := if c.value.None? || found.None? then None else Some(db.cast(found.value.fullType, c.value.value));
      Changed(db, detail, row[c.column := value], changes[1..])
  }

  /** Every named column takes its change, every other cell stays. */
  lemma {:induction false} ChangedCells(db: Db, detail: Detail, row: Row, changes: seq<Change>, name: Text)
    requires forall i, j :: 0 <= i < j < |changes| ==> changes[i].column != changes[j].column
    ensures forall c :: c in changes && c.column == name && FindColumn(detail.columns, name).Some? ==>
              CellOf(Changed(db, detail, row, changes), name) ==
              if c.value.None? then None else Some(db.cast(FindColumn(detail.columns, name).value.fullType, c.value.value))
    ensures (forall c :: c in changes ==> c.column != name) ==>
              CellOf(Changed(db, detail, row, changes), name) == CellOf(row, name)
    decreases |changes|
  {
    if changes != [] {
      var c := changes[0];
      var found := FindColumn(detail.columns, c.column);
      var value := if c.value.None? || found.None? then None else Some(db.cast(found.value.fullType, c.value.value));
      ChangedCells(db, detail, row[c.column := value], changes[1..], name);
      assert forall d :: d in changes <==> d == c || d in changes[1..];
      assert forall d :: d in changes[1..] ==> d.column != c.column;
    }
  }

  lemma {:induction false} AssignMeansChanges(db: Db, detail: Detail, row: Row, changes: seq<Change>, acc: Assignments, more: seq<Cell>)
    requires forall a :: a in acc.list ==> AssignmentOk(a, |acc.params|)
    requires Assign(detail, changes, acc).Ok?
    ensures var r := Assign(detail, changes, acc).value;
            && (forall a :: a in r.list ==> AssignmentOk(a, |r.params + more|))
            && (forall a :: a in acc.list ==> AssignmentOk(a, |r.params + more|))
            && SetAll(db, row, r.list, r.params + more) ==
               Changed(db, detail, SetAll(db, row, acc.list, r.params + more), changes)
    decreases |changes|
  {
    AssignBounds(detail, changes, acc);
    if changes != [] {
      var c, t := changes[0], FindColumn(detail.columns, changes[0].column).value.fullType;
      var set1 := if c.value.None? then SetNull(c.column) else SetParam(c.column, |acc.params| + 1, t);
      var next := Assignments(acc.list + [set1], if c.value.None? then acc.params else acc.params + [c.value]);
      AssignMeansChanges(db, detail, row, changes[1..], next, more);
      var r := Assign(detail, changes, acc).value;
      AssignExtends(detail, changes[1..], next);
      SetAllAppend(db, row, acc.list, [set1], r.params + more);
      assert [set1][1..] == [];
    }
  }

  lemma {:induction false} AssignExtends(detail: Detail, changes: seq<Change>, acc: Assignments)
    requires Assign(detail, changes, acc).Ok?
    ensures acc.params <= Assign(detail, changes, acc).value.params
    decreases |changes|
  {
    if changes != [] {
      var c, t := changes[0], FindColumn(detail.columns, changes[0].column).value.fullType;
      AssignExtends(detail, changes[1..],
                    if c.value.None? then acc.(list := acc.list + [SetNull(c.column)])
                    else Assignments(acc.list + [SetParam(c.column, |acc.params| + 1, t)], acc.params + [c.value]));
    }
  }

  /** A built UPDATE sets what the changes say, where the key says. */
  lemma UpdateMeans(db: Db, detail: Detail, row: Row, key: RowKey, changes: seq<Change>)
    requires BuildUpdate(detail, key, changes).Ok?
    ensures var u := BuildUpdate(detail, key, changes).value;
            && Sound(u)
            && (Kept(db, row, u.params, u.where) <==> HasKey(db, detail, row, detail.primaryKey, key))
            && SetAll(db, row, u.assignments, u.params) == Changed(db, detail, row, changes)
  {
    var u, sets := BuildUpdate(detail, key, changes).value, Assign(detail, changes, Assignments([], [])).value;
    UpdateIsSound(detail, key, changes);
    PredicateMeansKey(db, detail, row, key, sets.params);
    KeyBounds(detail, detail.primaryKey, key, Compiled([], sets.params));
    var more := u.params[|sets.params|..];
    assert u.params == sets.params + more;
    AssignMeansChanges(db, detail, row, changes, Assignments([], []), more);
  }

  lemma {:induction false} UpdatedIs(db: Db, detail: Detail, table: seq<Row>, key: RowKey, changes: seq<Change>)
    requires BuildUpdate(detail, key, changes).Ok?
    ensures var u := BuildUpdate(detail, key, changes).value;
            && Sound(u) && |Updated(db, table, u)| == |table|
            && (forall i :: 0 <= i < |table| ==>
                  Updated(db, table, u)[i] == if HasKey(db, detail, table[i], detail.primaryKey, key)
                                              then Changed(db, detail, table[i], changes) else table[i])
    decreases |table|
  {
    UpdateIsSound(detail, key, changes);
    if table != [] {
      UpdateMeans(db, detail, table[0], key, changes);
      UpdatedIs(db, detail, table[1..], key, changes);
    }
  }

  /**
   * With a unique key, an accepted update changes exactly the row that has it, as the changes
   * say, and returns it; when no row has it nothing changes and the caller is told.
   */
  lemma UpdateTouchesOneRow(db: Db, detail: Detail, table: seq<Row>, key: RowKey, changes: seq<Change>)
    requires Lawful(db) && KeyIsUnique(db, detail, table) && BuildUpdate(detail, key, changes).Ok?
    ensures var out := UpdateRow(db, detail, table, key, changes);
            && (forall i :: 0 <= i < |table| && HasKey(db, detail, table[i], detail.primaryKey, key) ==>
                  var row := Changed(db, detail, table[i], changes);
                  out.result == Ok(row) && out.table == table[i := row])
            && ((forall i :: 0 <= i < |table| ==> !HasKey(db, detail, table[i], detail.primaryKey, key)) ==>
                  out == Outcome(Err(NoRowMatched), table))
  {
    var u, out := BuildUpdate(detail, key, changes).value, UpdateRow(db, detail, table, key, changes);
    UpdatedIs(db, detail, table, key, changes);
    SelectedHaveKey(db, detail, table, key, Assign(detail, changes, Assignments([], [])).value.params);
    NoneWithKey(db, detail, table, key);
    forall i | 0 <= i < |table| && HasKey(db, detail, table[i], detail.primaryKey, key)
      ensures out.result == Ok(Changed(db, detail, table[i], changes))
      ensures out.table == table[i := Changed(db, detail, table[i], changes)]
    {
      WithKeyIsOne(db, detail, table, key, i);
      UpdateMeans(db, detail, table[i], key, changes);
    }
    if forall i :: 0 <= i < |table| ==> !HasKey(db, detail, table[i], detail.primaryKey, key) {
      assert Updated(db, table, u) == table;
    }
  }

  lemma {:induction false} DeletedIs(db: Db, detail: Detail, table: seq<Row>, key: RowKey, i: nat)
    requires KeyPredicate(detail, key, []).Ok? && i <= |table|
    requires i < |table| ==> HasKey(db, detail, table[i], detail.primaryKey, key)
    requires forall j :: 0 <= j < |table| && j != i ==> !HasKey(db, detail, table[j], detail.primaryKey, key)
    ensures var where := KeyPredicate(detail, key, []).value;
            && Bounded(where)
            && Deleted(db, table, where) == if i < |table| then table[..i] + table[i + 1..] else table
    decreases |table|
  {
    KeyBounds(detail, detail.primaryKey, key, Compiled([], []));
    if table != [] {
      var rest := table[1..];
      PredicateMeansKey(db, detail, table[0], key, []);
      hide KeyPredicate, HasKey;
      assert forall j :: 0 <= j < |rest| ==> rest[j] == table[j + 1];
      if i == 0 {
        DeletedIs(db, detail, rest, key, |rest|);
      } else {
        DeletedIs(db, detail, rest, key, i - 1);
        WithoutTail(table, i);
      }
    }
  }

  lemma WithoutTail(table: seq<Row>, i: nat)
    requires 0 < i <= |table|
    ensures [table[0]] + table[1..] == table
    ensures i < |table| ==>
              table[..i] + table[i + 1..] == [table[0]] + (table[1..][..i - 1] + table[1..][i..])
  {
  }

  /** With a unique key, an accepted delete removes exactly the row that has it, or reports that none has. */
  lemma DeleteTouchesOneRow(db: Db, detail: Detail, table: seq<Row>, key: RowKey)
    requires Lawful(db) && KeyIsUnique(db, detail, table)
    requires detail.editable && KeyPredicate(detail, key, []).Ok?
    ensures var out := DeleteRow(db, detail, table, key);
            && (forall i :: 0 <= i < |table| && HasKey(db, detail, table[i], detail.primaryKey, key) ==>
                  out == Outcome(Ok(()), table[..i] + table[i + 1..]))
            && ((forall i :: 0 <= i < |table| ==> !HasKey(db, detail, table[i], detail.primaryKey, key)) ==>
                  out == Outcome(Err(NoRowMatched), table))
  {
    var out := DeleteRow(db, detail, table, key);
    SelectedHaveKey(db, detail, table, key, []);
    NoneWithKey(db, detail, table, key);
    forall i | 0 <= i < |table| && HasKey(db, detail, table[i], detail.primaryKey, key)
      ensures out == Outcome(Ok(()), table[..i] + table[i + 1..])
    {
      WithKeyIsOne(db, detail, table, key, i);
      DeletedIs(db, detail, table, key, i);
    }
    if forall i :: 0 <= i < |table| ==> !HasKey(db, detail, table[i], detail.primaryKey, key) {
      DeletedIs(db, detail, table, key, |table|);
    }
  }

  lemma {:induction false} KeyClausesAccepted(detail: Detail, keys: seq<Text>, key: RowKey, acc: Compiled)
    ensures KeyClauses(detail, keys, key, acc).Ok? <==>
            forall name :: name in keys ==> CellOf(key, name).Some? && FindColumn(detail.columns, name).Some?
    decreases |keys|
  {
    if keys != [] && CellOf(key, keys[0]).Some? && FindColumn(detail.columns, keys[0]).Some? {
      KeyClausesAccepted(detail, keys[1..], key,
                         Compiled(acc.clauses + [Compares(keys[0], Eq, |acc.params| + 1, FindColumn(detail.columns, keys[0]).value.fullType)],
                                  acc.params + [CellOf(key, keys[0])]));
    }
  }

  lemma {:induction false} NoneMissing(keys: seq<Text>, key: RowKey)
    ensures Missing(keys, key) == [] <==> forall name :: name in keys ==> name in key
  {
    if keys != [] { NoneMissing(keys[1..], key); }
  }

  /** A key is accepted exactly when it gives every primary key column a value: no partial keys. */
  lemma KeyAcceptedIff(detail: Detail, key: RowKey, params: seq<Cell>)
    ensures KeyPredicate(detail, key, params).Ok? <==>
            && detail.primaryKey != []
            && forall name :: name in detail.primaryKey ==>
                 name in key && key[name].Some? && FindColumn(detail.columns, name).Some?
  {
    NoneMissing(detail.primaryKey, key);
    KeyClausesAccepted(detail, detail.primaryKey, key, Compiled([], params));
  }

  // ---------- The builders as they are written

  method PushKey(detail: Detail, key: RowKey, before: seq<Cell>) returns (r: Result<Compiled, Problem>)
    ensures r == KeyPredicate(detail, key, before)
  {
    var missing := Missing(detail.primaryKey, key);
    if |missing| > 0 { return Err(KeyMissing(missing)); }
    var keys := detail.primaryKey;
    if keys == [] { return Err(EmptyPredicate); }
    var params, where: seq<Clause> := before, [];
    assert keys[0..] == keys;
    for i := 0 to |keys|
      invariant KeyPredicate(detail, key, before) == KeyClauses(detail, keys[i..], key, Compiled(where, params))
    {
      assert keys[i..][1..] == keys[i + 1..];
      var column := FindColumn(detail.columns, keys[i]);
      var value := CellOf(key, keys[i]);
      if value.None? { return Err(KeyNull(keys[i])); }
      if column.None? { return Err(NoColumn(keys[i])); }
      params := params + [value];
      where := where + [Compares(keys[i], Eq, |params|, column.value.fullType)];
    }
    assert keys[|keys|..] == [];
    return Ok(Compiled(where, params));
  }

  method PushAssignments(detail: Detail, changes: seq<Change>) returns (r: Result<Assignments, Problem>)
    ensures r == Assign(detail, changes, Assignments([], []))
  {
    var list: seq<Assignment> := [];
    var params: seq<Cell> := [];
    assert changes[0..] == changes;
    for i := 0 to |changes|
      invariant Assign(detail, changes, Assignments([], [])) == Assign(detail, changes[i..], Assignments(list, params))
    {
      assert changes[i..][1..] == changes[i + 1..];
      var change := changes[i];
      var column := FindColumn(detail.columns, change.column);
      if column.None? { return Err(NoColumn(change.column)); }
      if change.value.None? {
        list := list + [SetNull(change.column)];
        continue;
      }
      params := params + [change.value];
      list := list + [SetParam(change.column, |params|, column.value.fullType)];
    }
    assert changes[|changes|..] == [];
    return Ok(Assignments(list, params));
  }

  method PrepareUpdate(detail: Detail, key: RowKey, changes: seq<Change>) returns (r: Result<Update, Problem>)
    ensures r == BuildUpdate(detail, key, changes)
  {
    if !detail.editable { return Err(NotEditable); }
    if |changes| == 0 { return Err(NoChanges); }
    var sets := PushAssignments(detail, changes);
    if sets.Err? { return Err(sets.problem); }
    var where := PushKey(detail, key, sets.value.params);
    if where.Err? { return Err(where.problem); }
    return Ok(Update(sets.value.list, where.value.clauses, where.value.params));
  }
}
