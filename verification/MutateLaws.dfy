/** Which edits are accepted, what a refusal says, and what an accepted edit does without a unique key. */
module MutateLaws {
  import opened Bytes
  import opened Strings
  import opened SqlModel
  import opened BrowsePaging
  import opened BrowseListing
  import opened Mutate

  predicate Known(detail: Detail, name: Text) { exists c :: c in detail.columns && c.name == name }

  /** Every primary key column is given, with a value that is not NULL. */
  predicate FullKey(detail: Detail, key: RowKey) {
    && detail.primaryKey != []
    && (forall name :: name in detail.primaryKey ==> name in key && key[name].Some? && Known(detail, name))
  }

  lemma KnownIff(detail: Detail, name: Text)
    ensures FindColumn(detail.columns, name).Some? <==> Known(detail, name)
  {
    FoundByName(detail.columns, name);
  }

  lemma FullKeyIff(detail: Detail, key: RowKey, params: seq<Cell>)
    ensures KeyPredicate(detail, key, params).Ok? <==> FullKey(detail, key)
  {
    KeyAcceptedIff(detail, key, params);
    forall name | name in detail.primaryKey ensures FindColumn(detail.columns, name).Some? <==> Known(detail, name) {
      KnownIff(detail, name);
    }
  }

  lemma {:induction false} AssignAcceptedIff(detail: Detail, changes: seq<Change>, acc: Assignments)
    ensures Assign(detail, changes, acc).Ok? <==> forall c :: c in changes ==> Known(detail, c.column)
    decreases |changes|
  {
    if changes != [] {
      var c := changes[0];
      KnownIff(detail, c.column);
      assert forall d :: d in changes <==> d == c || d in changes[1..];
      var found := FindColumn(detail.columns, c.column);
      if found.Some? {
        AssignAcceptedIff(detail, changes[1..],
                          if c.value.None? then acc.(list := acc.list + [SetNull(c.column)])
                          else Assignments(acc.list + [SetParam(c.column, |acc.params| + 1, found.value.fullType)],
                                           acc.params + [c.value]));
      }
    }
  }

  /** An update is built exactly for an editable relation, known columns, some change and a full key. */
  lemma UpdateAcceptedIff(detail: Detail, key: RowKey, changes: seq<Change>)
    ensures BuildUpdate(detail, key, changes).Ok? <==>
              && detail.editable && changes != []
              && (forall c :: c in changes ==> Known(detail, c.column))
              && FullKey(detail, key)
    ensures !detail.editable ==> BuildUpdate(detail, key, changes) == Err(NotEditable)
    ensures detail.editable && changes == [] ==> BuildUpdate(detail, key, changes) == Err(NoChanges)
  {
    AssignAcceptedIff(detail, changes, Assignments([], []));
    var sets := Assign(detail, changes, Assignments([], []));
    if sets.Ok? { FullKeyIff(detail, key, sets.value.params); }
  }

  /** A refused edit changes no row, and says neither that a row matched nor that none did. */
  lemma RefusedChangesNothing(db: Db, detail: Detail, table: seq<Row>, key: RowKey, changes: seq<Change>)
    ensures BuildUpdate(detail, key, changes).Err? ==>
              UpdateRow(db, detail, table, key, changes) == Outcome(Err(BuildUpdate(detail, key, changes).problem), table)
    ensures !detail.editable ==> DeleteRow(db, detail, table, key) == Outcome(Err(NotEditable), table)
    ensures detail.editable && !FullKey(detail, key) ==>
              DeleteRow(db, detail, table, key).table == table && DeleteRow(db, detail, table, key).result.Err?
              && DeleteRow(db, detail, table, key).result.problem != NoRowMatched
  {
    FullKeyIff(detail, key, []);
    KeyProblem(detail, key, []);
  }

  predicate Fine(detail: Detail, key: RowKey, name: Text) { CellOf(key, name).Some? && Known(detail, name) }

  /** Of the key columns, the first that is not fine is NULL, or the table does not have it. */
  predicate BlamesFirst(detail: Detail, keys: seq<Text>, key: RowKey, problem: Problem) {
    exists i :: 0 <= i < |keys| && (forall j :: 0 <= j < i ==> Fine(detail, key, keys[j])) && Blames(detail, keys[i], key, problem)
  }

  predicate Blames(detail: Detail, name: Text, key: RowKey, problem: Problem) {
    (problem == KeyNull(name) && CellOf(key, name).None?) || (problem == NoColumn(name) && !Known(detail, name))
  }

  lemma BlameMoves(detail: Detail, keys: seq<Text>, key: RowKey, problem: Problem)
    requires keys != [] && Fine(detail, key, keys[0]) && BlamesFirst(detail, keys[1..], key, problem)
    ensures BlamesFirst(detail, keys, key, problem)
  {
    var rest := keys[1..];
    var i :| 0 <= i < |rest| && (forall j :: 0 <= j < i ==> Fine(detail, key, rest[j])) && Blames(detail, rest[i], key, problem);
    forall j | 0 <= j < i + 1 ensures Fine(detail, key, keys[j]) {
      if j > 0 { assert keys[j] == rest[j - 1]; }
    }
    assert Blames(detail, keys[i + 1], key, problem);
  }

  lemma {:induction false} ClausesProblem(detail: Detail, keys: seq<Text>, key: RowKey, acc: Compiled)
    requires KeyClauses(detail, keys, key, acc).Err?
    ensures BlamesFirst(detail, keys, key, KeyClauses(detail, keys, key, acc).problem)
    decreases |keys|
  {
    KnownIff(detail, keys[0]);
    var found := FindColumn(detail.columns, keys[0]);
    if CellOf(key, keys[0]).Some? && found.Some? {
      var next := Compiled(acc.clauses + [Compares(keys[0], Eq, |acc.params| + 1, found.value.fullType)],
                           acc.params + [CellOf(key, keys[0])]);
      ClausesProblem(detail, keys[1..], key, next);
      BlameMoves(detail, keys, key, KeyClauses(detail, keys, key, acc).problem);
    } else {
      assert Blames(detail, keys[0], key, KeyClauses(detail, keys, key, acc).problem);
    }
  }

  lemma {:induction false} MissingAre(keys: seq<Text>, key: RowKey, name: Text)
    ensures name in Missing(keys, key) <==> name in keys && name !in key
  {
    if keys != [] { MissingAre(keys[1..], key, name); }
  }

  /** A partial key is refused with the names of the columns it lacks; a full one, with its first NULL or unknown column. */
  lemma KeyProblem(detail: Detail, key: RowKey, params: seq<Cell>)
    ensures var r := KeyPredicate(detail, key, params);
            if exists name :: name in detail.primaryKey && name !in key then
              r.Err? && r.problem.KeyMissing?
              && forall name :: name in r.problem.names <==> name in detail.primaryKey && name !in key
            else if detail.primaryKey == [] then r == Err(EmptyPredicate)
            else r.Err? ==> BlamesFirst(detail, detail.primaryKey, key, r.problem)
  {
    NoneMissing(detail.primaryKey, key);
    forall name ensures name in Missing(detail.primaryKey, key) <==> name in detail.primaryKey && name !in key {
      MissingAre(detail.primaryKey, key, name);
    }
    if Missing(detail.primaryKey, key) == [] && KeyClauses(detail, detail.primaryKey, key, Compiled([], params)).Err? {
      ClausesProblem(detail, detail.primaryKey, key, Compiled([], params));
    }
  }

  /**
   * If more than one row has the key the caller is told how many, and all of them have been changed.
   */
  lemma ManyAreChanged(db: Db, detail: Detail, table: seq<Row>, key: RowKey, changes: seq<Change>)
    requires BuildUpdate(detail, key, changes).Ok?
    ensures var out, n := UpdateRow(db, detail, table, key, changes), |WithKey(db, detail, table, key)|;
            && (out.result == Err(NoRowMatched) <==> n == 0)
            && (out.result.Ok? <==> n == 1)
            && (n > 1 ==> out.result == Err(ManyRowsMatched(n)))
            && |out.table| == |table|
            && (forall i :: 0 <= i < |table| ==>
                  out.table[i] == if HasKey(db, detail, table[i], detail.primaryKey, key)
                                  then Changed(db, detail, table[i], changes) else table[i])
  {
    UpdatedIs(db, detail, table, key, changes);
    SelectedHaveKey(db, detail, table, key, Assign(detail, changes, Assignments([], [])).value.params);
  }

  /** The rows counted are the table's rows whose every key column compares equal to the key's value. */
  lemma {:induction false} WithKeyCounts(db: Db, detail: Detail, table: seq<Row>, key: RowKey, row: Row)
    ensures multiset(WithKey(db, detail, table, key))[row] ==
            if HasKey(db, detail, row, detail.primaryKey, key) then multiset(table)[row] else 0
  {
    if table != [] {
      WithKeyCounts(db, detail, table[1..], key, row);
      assert table == [table[0]] + table[1..];
    }
  }

  lemma {:induction false} DeletedCounts(db: Db, detail: Detail, table: seq<Row>, key: RowKey, row: Row)
    requires KeyPredicate(detail, key, []).Ok?
    ensures var where := KeyPredicate(detail, key, []).value;
            && Bounded(where)
            && multiset(Deleted(db, table, where))[row] ==
               if HasKey(db, detail, row, detail.primaryKey, key) then 0 else multiset(table)[row]
  {
    PredicateMeansKey(db, detail, row, key, []);
    if table != [] {
      PredicateMeansKey(db, detail, table[0], key, []);
      DeletedCounts(db, detail, table[1..], key, row);
      assert table == [table[0]] + table[1..];
    }
  }

  /** A delete, unique key or not, removes every row with the key and no other. */
  lemma DeleteRemovesTheKey(db: Db, detail: Detail, table: seq<Row>, key: RowKey, row: Row)
    requires detail.editable && FullKey(detail, key)
    ensures var out := DeleteRow(db, detail, table, key);
            && (out.result == Err(NoRowMatched) <==> WithKey(db, detail, table, key) == [])
            && (out.result.Err? ==> out.result == Err(NoRowMatched))
            && multiset(out.table)[row] ==
               if HasKey(db, detail, row, detail.primaryKey, key) then 0 else multiset(table)[row]
  {
    FullKeyIff(detail, key, []);
    SelectedHaveKey(db, detail, table, key, []);
    DeletedCounts(db, detail, table, key, row);
  }
}
