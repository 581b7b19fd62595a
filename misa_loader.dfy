/** The CRM loader: table-name parsing, the load (whose bulk write raises before it starts, so the
  * row-wise fallback does the work: projection onto the target's columns, batches of 1000
  * committed one at a time), the multi-endpoint load and the post-load validation. The staging database is a map from (schema, table) to rows, with a
  * script saying which round-trips to the database fail. */
module MisaLoader {
  import opened Values
  import Settings

  const InsertBatchSize := 1000

  // ---------------------------------------------------------------------------------------------
  // Table names

  /** The number of occurrences of `c` in `s`. */
  function CountOf(s: string, c: char): nat
  {
    if s == [] then 0 else CountOf(s[..|s| - 1], c) + (if s[|s| - 1] == c then 1 else 0)
  }

  /** Python's `s.split(sep)` for a one-character separator. */
  function Split(s: string, sep: char): (parts: seq<string>)
    ensures |parts| >= 1
  {
    if s == [] then [""]
    else
      var init := Split(s[..|s| - 1], sep);
      var c := s[|s| - 1];
      if c == sep then init + [""] else init[..|init| - 1] + [init[|init| - 1] + [c]]
  }

  /** There is one more part than there are separators. */
  lemma {:induction false} SplitCount(s: string, sep: char)
    ensures |Split(s, sep)| == CountOf(s, sep) + 1
  {
    if s != [] {
      SplitCount(s[..|s| - 1], sep);
    }
  }

  /** No part holds a separator. */
  lemma {:induction false} SplitParts(s: string, sep: char)
    ensures forall i :: 0 <= i < |Split(s, sep)| ==> sep !in Split(s, sep)[i]
  {
    if s != [] {
      var init := Split(s[..|s| - 1], sep);
      var c := s[|s| - 1];
      SplitParts(s[..|s| - 1], sep);
      var parts := Split(s, sep);
      var n := |init|;
      forall i | 0 <= i < |parts| ensures sep !in parts[i] {
        if i < n - 1 || (c == sep && i < n) {
          assert parts[i] == init[i];
        } else if c != sep {
          assert parts[i] == init[n - 1] + [c];
        }
      }
    }
  }

  /** Joining the parts with the separator gives back the string. */
  lemma {:induction false} SplitJoin(s: string, sep: char)
    ensures Join([sep], Split(s, sep)) == s
  {
    if s != [] {
      var s' := s[..|s| - 1];
      var init := Split(s', sep);
      var c := s[|s| - 1];
      SplitJoin(s', sep);
      var parts := Split(s, sep);
      var n := |init|;
      assert s == s' + [c];
      if c == sep {
        assert parts == init + [""];
        assert parts[..n] == init;
        assert Join([sep], parts) == Join([sep], init) + [sep] + "";
      } else if n == 1 {
        assert parts == [init[0] + [c]];
        assert Join([sep], init) == init[0];
      } else {
        var last := init[n - 1];
        assert parts == init[..n - 1] + [last + [c]];
        assert parts[..n - 1] == init[..n - 1];
        assert Join([sep], parts) == Join([sep], init[..n - 1]) + [sep] + (last + [c]);
        assert Join([sep], init) == Join([sep], init[..n - 1]) + [sep] + last;
      }
    }
  }

  /** Two names with a dot-free part before a dot are equal only part by part. */
  lemma DotSplitUnique(a: string, b: string, c: string, d: string)
    requires a + "." + b == c + "." + d && '.' !in a && '.' !in c
    ensures a == c && b == d
  {
    var x := a + "." + b;
    assert x[|a|] == '.' && x[|c|] == '.';
    assert forall i :: 0 <= i < |a| ==> x[i] == a[i];
    assert forall i :: 0 <= i < |c| ==> x[i] == c[i];
    assert |a| == |c|;
    assert a == x[..|a|] == c;
    assert b == x[|a| + 1..] == d;
  }

  datatype TableName = TableName(schema: string, table: string)

  /** `_get_table_info`: a name with exactly two dot-separated parts is (schema, table); any
    * other name is a table in the `staging` schema. */
  function TableInfo(full: string): (r: TableName)
    ensures r == TableName("staging", full)
            || (r.schema + "." + r.table == full && '.' !in r.schema && '.' !in r.table)
  {
    var parts := Split(full, '.');
    if |parts| == 2 then
      SplitParts(full, '.');
      SplitJoin(full, '.');
      JoinTwo(".", parts[0], parts[1]);
      TableName(parts[0], parts[1])
    else TableName("staging", full)
  }

  /** Exactly one dot: the parts around it, which rejoin to the name. Otherwise the whole name
    * in `staging`. */
  lemma TableInfoDots(full: string)
    ensures CountOf(full, '.') == 1 ==>
      && TableInfo(full).schema + "." + TableInfo(full).table == full
      && '.' !in TableInfo(full).schema && '.' !in TableInfo(full).table
    ensures CountOf(full, '.') != 1 ==> TableInfo(full) == TableName("staging", full)
  {
    SplitCount(full, '.');
    SplitParts(full, '.');
    SplitJoin(full, '.');
    var parts := Split(full, '.');
    if |parts| == 2 {
      JoinTwo(".", parts[0], parts[1]);
    }
  }

  lemma {:induction false} CountAppend(a: string, b: string, c: char)
    ensures CountOf(a + b, c) == CountOf(a, c) + CountOf(b, c)
    decreases |b|
  {
    if b != [] {
      assert (a + b)[..|a + b| - 1] == a + b[..|b| - 1];
      CountAppend(a, b[..|b| - 1], c);
    } else {
      assert a + b == a;
    }
  }

  lemma {:induction false} CountAbsent(s: string, c: char)
    requires c !in s
    ensures CountOf(s, c) == 0
  {
    if s != [] {
      CountAbsent(s[..|s| - 1], c);
    }
  }

  /** Parsing undoes building: a name made from a dot-free schema and table parses back into them. */
  lemma TableInfoOfFullName(schema: string, table: string)
    requires '.' !in schema && '.' !in table
    ensures TableInfo(schema + "." + table) == TableName(schema, table)
  {
    var full := schema + "." + table;
    CountAbsent(schema, '.');
    CountAbsent(table, '.');
    CountAppend(schema, ".", '.');
    CountAppend(schema + ".", table, '.');
    assert CountOf(".", '.') == 1 by {
      assert "."[..0] == [];
    }
    TableInfoDots(full);
    var t := TableInfo(full);
    DotSplitUnique(t.schema, t.table, schema, table);
  }

  // ---------------------------------------------------------------------------------------------
  // The staging database

  /** The database as the loader sees it: the rows of each (schema, table), and the outcome of
    * each round-trip in turn (`true` = it raises; an exhausted script succeeds). */
  datatype Db = Db(tables: map<TableName, Table>, faults: seq<bool>)

  function Fails(faults: seq<bool>): bool
  {
    faults != [] && faults[0]
  }

  function Drop(faults: seq<bool>): (r: seq<bool>)
    ensures |r| == if faults == [] then 0 else |faults| - 1
  {
    if faults == [] then [] else faults[1..]
  }

  function Rows(d: Db, key: TableName): Table
  {
    if key in d.tables then d.tables[key] else []
  }

  function Append(d: Db, key: TableName, rows: Table): (r: Db)
    ensures Rows(r, key) == Rows(d, key) + rows
    ensures forall k :: k != key ==> Rows(r, k) == Rows(d, k)
  {
    d.(tables := d.tables[key := Rows(d, key) + rows])
  }

  // ---------------------------------------------------------------------------------------------
  // Row-wise fallback

  /** `[col for col in db_columns if col in df.columns]` */
  function Matching(dbColumns: seq<string>, frame: set<string>): (r: seq<string>)
    ensures forall c :: c in r <==> c in dbColumns && c in frame
    ensures |r| <= |dbColumns|
    ensures (forall c :: c in dbColumns ==> c in frame) ==> r == dbColumns
  {
    if dbColumns == [] then []
    else
      var rest := Matching(dbColumns[..|dbColumns| - 1], frame);
      var c := dbColumns[|dbColumns| - 1];
      assert dbColumns == dbColumns[..|dbColumns| - 1] + [c];
      if c in frame then rest + [c] else rest
  }

  /** `pd.isna(value)` is true: None or NaN, or a list that numpy reads as an array of one
    * null element (`[None]`, `[[None]]`). */
  predicate IsNa(v: Value)
  {
    v.Null? || (v.List? && |v.items| == 1 && IsNa(v.items[0]))
  }

  /** A cell that can go out as an `executemany` parameter. A list of two or more elements makes
    * the truth test of `pd.isna` raise; any other list that is not NA, and every dict, reaches
    * pyodbc, which rejects it as a parameter type. */
  predicate Bindable(v: Value)
  {
    IsNa(v) || !(v.List? || v.Obj?)
  }

  /** Every matching cell of the row can be bound. */
  predicate RowBindable(r: Row, columns: seq<string>)
  {
    forall c :: c in columns ==> Bindable(Get(r, c))
  }

  /** One inserted row: each matching column's cell, a missing or NA cell sent as NULL. */
  function Project(r: Row, columns: seq<string>): (p: Row)
    ensures p.Keys == set c | c in columns
    ensures forall c :: c in columns ==> (p[c] == Null <==> IsNa(Get(r, c)))
    ensures forall c :: c in columns && !IsNa(Get(r, c)) ==> p[c] == Get(r, c)
  {
    map c | c in columns :: if IsNa(Get(r, c)) then Null else Get(r, c)
  }

  function ProjectAll(rows: Table, columns: seq<string>): (ps: Table)
    ensures |ps| == |rows| && forall i :: 0 <= i < |rows| ==> ps[i] == Project(rows[i], columns)
  {
    if rows == [] then [] else ProjectAll(rows[..|rows| - 1], columns) + [Project(rows[|rows| - 1], columns)]
  }

  lemma ProjectAllAppend(a: Table, b: Table, columns: seq<string>)
    ensures ProjectAll(a + b, columns) == ProjectAll(a, columns) + ProjectAll(b, columns)
  {
  }

  /** Every row of the batch can be bound. */
  predicate BatchBindable(batch: Table, columns: seq<string>)
  {
    forall i :: 0 <= i < |batch| ==> RowBindable(batch[i], columns)
  }

  /** The batch loop from row `start`: a batch holding a cell that cannot be bound raises before
    * its `executemany` reaches the database; otherwise each `executemany` is a round-trip. Either
    * failure ends the load with False, and every batch before it stays committed. */
  function BatchesFrom(d: Db, key: TableName, rows: Table, columns: seq<string>, start: nat): (r: (bool, Db))
    decreases |rows| - start
  {
    if start >= |rows| then (true, d)
    else
      var batch := rows[start..Min(start + InsertBatchSize, |rows|)];
      if !BatchBindable(batch, columns) then (false, d)
      else if Fails(d.faults) then (false, d.(faults := Drop(d.faults)))
      else
        BatchesFrom(Append(d, key, ProjectAll(batch, columns)).(faults := Drop(d.faults)),
                    key, rows, columns, start + InsertBatchSize)
  }

  /** The batch loop changes no other table. */
  lemma {:induction false} BatchesTouchOneTable(d: Db, key: TableName, rows: Table, columns: seq<string>, start: nat)
    ensures forall k :: k != key ==> Rows(BatchesFrom(d, key, rows, columns, start).1, k) == Rows(d, k)
    decreases |rows| - start
  {
    if start < |rows| {
      var batch := rows[start..Min(start + InsertBatchSize, |rows|)];
      if BatchBindable(batch, columns) && !Fails(d.faults) {
        var d1 := Append(d, key, ProjectAll(batch, columns)).(faults := Drop(d.faults));
        BatchesTouchOneTable(d1, key, rows, columns, start + InsertBatchSize);
      }
    }
  }

  /** On success every row from `start` on is in the target, projected, in order. */
  lemma {:induction false} BatchesCommitAll(d: Db, key: TableName, rows: Table, columns: seq<string>, start: nat)
    requires start <= |rows|
    ensures var (ok, d') := BatchesFrom(d, key, rows, columns, start);
      ok ==> Rows(d', key) == Rows(d, key) + ProjectAll(rows[start..], columns)
    decreases |rows| - start
  {
    if start < |rows| {
      var end := Min(start + InsertBatchSize, |rows|);
      var batch := rows[start..end];
      if BatchBindable(batch, columns) && !Fails(d.faults) {
        var d1 := Append(d, key, ProjectAll(batch, columns)).(faults := Drop(d.faults));
        if start + InsertBatchSize <= |rows| {
          var after := rows[start + InsertBatchSize..];
          var (ok, d') := BatchesFrom(d1, key, rows, columns, start + InsertBatchSize);
          assert BatchesFrom(d, key, rows, columns, start) == (ok, d');
          BatchesCommitAll(d1, key, rows, columns, start + InsertBatchSize);
          DropSplit(rows, start, start + InsertBatchSize);
          ProjectAllAppend(batch, after, columns);
          assert Rows(d1, key) == Rows(d, key) + ProjectAll(batch, columns);
          if ok {
            AppendTwice(Rows(d, key), Rows(d1, key), Rows(d', key), ProjectAll(batch, columns),
                        ProjectAll(after, columns), ProjectAll(rows[start..], columns));
          }
        } else {
          assert rows[start..] == batch;
        }
      }
    }
  }

  /** On success every row from `start` on could be bound. */
  lemma {:induction false} BatchesOkBindable(d: Db, key: TableName, rows: Table, columns: seq<string>, start: nat)
    ensures BatchesFrom(d, key, rows, columns, start).0 ==>
      forall i :: start <= i < |rows| ==> RowBindable(rows[i], columns)
    decreases |rows| - start
  {
    if start < |rows| {
      var next := start + InsertBatchSize;
      var batch := rows[start..Min(next, |rows|)];
      if BatchBindable(batch, columns) && !Fails(d.faults) {
        var d1 := Append(d, key, ProjectAll(batch, columns)).(faults := Drop(d.faults));
        assert BatchesFrom(d, key, rows, columns, start) == BatchesFrom(d1, key, rows, columns, next);
        BatchesOkBindable(d1, key, rows, columns, next);
        forall i | start <= i < Min(next, |rows|) ensures RowBindable(rows[i], columns) {
          assert rows[i] == batch[i - start];
        }
      }
    }
  }

  lemma AppendTwice(t0: Table, t1: Table, t2: Table, a: Table, b: Table, ab: Table)
    requires t1 == t0 + a && t2 == t1 + b && ab == a + b
    ensures t2 == t0 + ab
  {
  }

  /** One more whole batch in front of `k` committed ones. */
  lemma CommitWholeStep(d: Db, d1: Db, d': Db, key: TableName, rows: Table, columns: seq<string>, start: nat, k: nat)
    requires start + InsertBatchSize + k * InsertBatchSize < |rows|
    requires Rows(d1, key) == Rows(d, key) + ProjectAll(rows[start..start + InsertBatchSize], columns)
    requires Rows(d', key) == Rows(d1, key)
               + ProjectAll(rows[start + InsertBatchSize..start + InsertBatchSize + k * InsertBatchSize], columns)
    ensures Rows(d', key) == Rows(d, key) + ProjectAll(rows[start..start + (k + 1) * InsertBatchSize], columns)
  {
    var next := start + InsertBatchSize;
    var m := next + k * InsertBatchSize;
    assert m == start + (k + 1) * InsertBatchSize;
    assert rows[start..m] == rows[start..next] + rows[next..m];
    ProjectAllAppend(rows[start..next], rows[next..m], columns);
    AppendTwice(Rows(d, key), Rows(d1, key), Rows(d', key), ProjectAll(rows[start..next], columns),
                ProjectAll(rows[next..m], columns), ProjectAll(rows[start..m], columns));
  }

  /** On failure the target holds whole batches only: the rows from `start` up to some
    * multiple of 1000 past it. */
  lemma {:induction false} BatchesCommitWhole(d: Db, key: TableName, rows: Table, columns: seq<string>, start: nat)
    requires start <= |rows|
    ensures var (ok, d') := BatchesFrom(d, key, rows, columns, start);
      !ok ==> exists k: nat :: start + k * InsertBatchSize < |rows|
                && Rows(d', key) == Rows(d, key) + ProjectAll(rows[start..start + k * InsertBatchSize], columns)
    decreases |rows| - start
  {
    var (ok, d') := BatchesFrom(d, key, rows, columns, start);
    var next := start + InsertBatchSize;
    if start < |rows| && (!BatchBindable(rows[start..Min(next, |rows|)], columns) || Fails(d.faults)) {
      assert rows[start..start + 0 * InsertBatchSize] == [];
      assert Rows(d', key) == Rows(d, key) + ProjectAll(rows[start..start + 0 * InsertBatchSize], columns);
    } else if start < |rows| {
      var batch := rows[start..Min(next, |rows|)];
      var d1 := Append(d, key, ProjectAll(batch, columns)).(faults := Drop(d.faults));
      assert BatchesFrom(d, key, rows, columns, start) == BatchesFrom(d1, key, rows, columns, next);
      if next <= |rows| {
        BatchesCommitWhole(d1, key, rows, columns, next);
        if !ok {
          var k: nat :| next + k * InsertBatchSize < |rows|
            && Rows(d', key) == Rows(d1, key) + ProjectAll(rows[next..next + k * InsertBatchSize], columns);
          CommitWholeStep(d, d1, d', key, rows, columns, start, k);
        }
      }
    }
  }

  /** A row holding a cell that cannot be bound stops the loop at its batch: the load fails, and
    * the target holds only whole batches from before that row. */
  lemma {:induction false} BatchesStopAtUnbindable(d: Db, key: TableName, rows: Table, columns: seq<string>,
                                                   start: nat, i: nat)
    requires start <= i < |rows| && !RowBindable(rows[i], columns)
    ensures var (ok, d') := BatchesFrom(d, key, rows, columns, start);
      && !ok
      && exists k: nat :: start + k * InsertBatchSize <= i
           && Rows(d', key) == Rows(d, key) + ProjectAll(rows[start..start + k * InsertBatchSize], columns)
    decreases |rows| - start
  {
    var (ok, d') := BatchesFrom(d, key, rows, columns, start);
    var next := start + InsertBatchSize;
    var batch := rows[start..Min(next, |rows|)];
    if !BatchBindable(batch, columns) || Fails(d.faults) {
      BatchStopsHere(d, key, rows, columns, start);
      assert start + 0 * InsertBatchSize <= i
        && Rows(d', key) == Rows(d, key) + ProjectAll(rows[start..start + 0 * InsertBatchSize], columns);
    } else {
      PastBindableBatch(rows, columns, start, Min(next, |rows|), i);
      var d1 := Append(d, key, ProjectAll(batch, columns)).(faults := Drop(d.faults));
      BatchCommits(d, key, rows, columns, start);
      BatchesStopAtUnbindable(d1, key, rows, columns, next, i);
      var k: nat :| next + k * InsertBatchSize <= i
        && Rows(d', key) == Rows(d1, key) + ProjectAll(rows[next..next + k * InsertBatchSize], columns);
      CommitWholeStep(d, d1, d', key, rows, columns, start, k);
      assert start + (k + 1) * InsertBatchSize <= i
        && Rows(d', key) == Rows(d, key) + ProjectAll(rows[start..start + (k + 1) * InsertBatchSize], columns);
    }
  }

  /** A bindable batch whose round-trip succeeds is committed, and the loop goes on. */
  lemma BatchCommits(d: Db, key: TableName, rows: Table, columns: seq<string>, start: nat)
    requires start < |rows|
    requires BatchBindable(rows[start..Min(start + InsertBatchSize, |rows|)], columns) && !Fails(d.faults)
    ensures var batch := rows[start..Min(start + InsertBatchSize, |rows|)];
      var d1 := Append(d, key, ProjectAll(batch, columns)).(faults := Drop(d.faults));
      && Rows(d1, key) == Rows(d, key) + ProjectAll(batch, columns)
      && BatchesFrom(d, key, rows, columns, start) == BatchesFrom(d1, key, rows, columns, start + InsertBatchSize)
  {
  }

  /** A batch that cannot be bound, or whose round-trip fails, ends the loop with nothing more
    * committed. */
  lemma BatchStopsHere(d: Db, key: TableName, rows: Table, columns: seq<string>, start: nat)
    requires start < |rows|
    requires !BatchBindable(rows[start..Min(start + InsertBatchSize, |rows|)], columns) || Fails(d.faults)
    ensures var (ok, d') := BatchesFrom(d, key, rows, columns, start);
      !ok && Rows(d', key) == Rows(d, key) + ProjectAll(rows[start..start + 0 * InsertBatchSize], columns)
  {
    assert rows[start..start + 0 * InsertBatchSize] == [];
  }

  /** An unbindable row lies past any bindable batch that starts at or before it. */
  lemma PastBindableBatch(rows: Table, columns: seq<string>, start: nat, end: nat, i: nat)
    requires start <= end <= |rows| && start <= i < |rows| && !RowBindable(rows[i], columns)
    requires BatchBindable(rows[start..end], columns)
    ensures i >= end
  {
  }

  /** No round-trip in the script raises. */
  predicate NoFaults(faults: seq<bool>)
  {
    forall j :: 0 <= j < |faults| ==> !faults[j]
  }

  /** With no failing round-trip and every row bindable, the loop succeeds. */
  lemma {:induction false} BatchesSucceed(d: Db, key: TableName, rows: Table, columns: seq<string>, start: nat)
    requires NoFaults(d.faults)
    requires forall i :: start <= i < |rows| ==> RowBindable(rows[i], columns)
    ensures BatchesFrom(d, key, rows, columns, start).0
    decreases |rows| - start
  {
    if start < |rows| {
      var next := start + InsertBatchSize;
      var batch := rows[start..Min(next, |rows|)];
      assert BatchBindable(batch, columns) by {
        forall j | 0 <= j < |batch| ensures RowBindable(batch[j], columns) {
          assert batch[j] == rows[start + j];
        }
      }
      var d1 := Append(d, key, ProjectAll(batch, columns)).(faults := Drop(d.faults));
      assert NoFaults(d1.faults);
      BatchesSucceed(d1, key, rows, columns, next);
    }
  }

  /** `_load_with_pyodbc`: connect (a round-trip), read the target's non-computed columns, keep
    * those the frame has, in the target's order; none in common fails; then the batch loop. */
  function FallbackSpec(d: Db, columns: map<TableName, seq<string>>, key: TableName, df: Table): (r: (bool, Db))
  {
    if Fails(d.faults) then (false, d.(faults := Drop(d.faults)))
    else
      var d1 := d.(faults := Drop(d.faults));
      var matching := Matching(if key in columns then columns[key] else [], Columns(df));
      if matching == [] then (false, d1) else BatchesFrom(d1, key, df, matching, 0)
  }

  // ---------------------------------------------------------------------------------------------
  // Bulk write, as the database manager's `insert_dataframe` performs it for the marketplace loader

  /** Whether `df.to_sql` raises: the round-trip fails, `if_exists` is not one of the three
    * modes, `fail` meets an existing table, or an append brings a column the existing target
    * does not have. A missing table is created, and `replace` recreates it from the frame. */
  predicate BulkRaises(d: Db, columns: map<TableName, seq<string>>, key: TableName, df: Table, ifExists: string)
  {
    || Fails(d.faults)
    || ifExists !in {"append", "replace", "fail"}
    || (key in columns && ifExists == "fail")
    || (key in columns && ifExists == "append" && !Fits(Columns(df), columns[key]))
  }

  /** Every column of the frame is a column of the target. */
  predicate Fits(frame: set<string>, target: seq<string>)
  {
    forall c :: c in frame ==> c in target
  }

  /** `df.to_sql(table, schema=..., if_exists=...)`: one round-trip; when it raises nothing is
    * written, otherwise `replace` leaves exactly the frame and the other modes append it. */
  function ToSql(d: Db, columns: map<TableName, seq<string>>, key: TableName, df: Table, ifExists: string): (r: (bool, Db))
    ensures r.1.faults == Drop(d.faults)
    ensures r.0 <==> !BulkRaises(d, columns, key, df, ifExists)
    ensures !r.0 ==> r.1.tables == d.tables
    ensures r.0 ==> Rows(r.1, key) == (if ifExists == "replace" then df else Rows(d, key) + df)
    ensures forall k :: k != key ==> Rows(r.1, k) == Rows(d, k)
  {
    var d1 := d.(faults := Drop(d.faults));
    if BulkRaises(d, columns, key, df, ifExists) then (false, d1)
    else if ifExists == "replace" then (true, d1.(tables := d1.tables[key := df]))
    else (true, Append(d1, key, df))
  }

  /** `TRUNCATE TABLE`: one round-trip that empties the table unless it raises. */
  function Truncated(d: Db, key: TableName): (r: (bool, Db))
    ensures r.1.faults == Drop(d.faults)
    ensures r.0 <==> !Fails(d.faults)
    ensures Rows(r.1, key) == if r.0 then [] else Rows(d, key)
    ensures forall k :: k != key ==> Rows(r.1, k) == Rows(d, k)
  {
    if Fails(d.faults) then (false, d.(faults := Drop(d.faults)))
    else (true, d.(tables := d.tables[key := []], faults := Drop(d.faults)))
  }

  /** The settings attribute `load_dataframe_to_staging` passes as `to_sql`'s `chunksize`. */
  const BulkChunkSizeSetting := "misa_crm_etl_batch_size"

  /** `load_dataframe_to_staging`: the result and the database afterwards. The settings object
    * has no `misa_crm_etl_batch_size`, so evaluating the `chunksize` argument raises
    * `AttributeError` before `to_sql` reaches the database; the except branch then hands every
    * non-empty mapped frame to the row-wise fallback, whatever `if_exists` says. */
  function LoadSpec(mappings: map<string, string>, columns: map<TableName, seq<string>>, d: Db,
                    df: Table, endpoint: string, ifExists: string): (r: (bool, Db))
  {
    if IsEmptyFrame(df) then (true, d)
    else if endpoint !in mappings then (false, d)
    else FallbackSpec(d, columns, TableInfo(mappings[endpoint]), df)
  }

  /** An empty frame is a success that touches nothing; an unmapped endpoint fails untouched. */
  lemma LoadGuards(mappings: map<string, string>, columns: map<TableName, seq<string>>, d: Db,
                   df: Table, endpoint: string, ifExists: string)
    ensures IsEmptyFrame(df) ==> LoadSpec(mappings, columns, d, df, endpoint, ifExists) == (true, d)
    ensures !IsEmptyFrame(df) && endpoint !in mappings ==> LoadSpec(mappings, columns, d, df, endpoint, ifExists) == (false, d)
  {
  }

  /** The chunk-size attribute is one of the names the settings object reads but never defines. */
  lemma ChunkSizeUndefined()
    ensures BulkChunkSizeSetting in Settings.ReadButUndefined
    ensures BulkChunkSizeSetting !in Settings.Attributes
  {
    Settings.UndefinedAttributes();
    assert Settings.ReadButUndefined[12] == BulkChunkSizeSetting;
  }

  /** The bulk write never happens: the chunk size it reads is not a setting, so no `to_sql`
    * round-trip is spent, `if_exists` has no effect (`replace` keeps the old rows), and a load
    * that succeeds has appended every row projected onto the matching columns, with list and
    * dict cells making it fail. */
  lemma LoadAlwaysFallsBack(mappings: map<string, string>, columns: map<TableName, seq<string>>,
                            d: Db, df: Table, endpoint: string, ifExists: string)
    requires !IsEmptyFrame(df) && endpoint in mappings
    ensures BulkChunkSizeSetting !in Settings.Attributes
    ensures var key := TableInfo(mappings[endpoint]);
      var (ok, d') := LoadSpec(mappings, columns, d, df, endpoint, ifExists);
      var matching := Matching(if key in columns then columns[key] else [], Columns(df));
      && (ok, d') == LoadSpec(mappings, columns, d, df, endpoint, "append")
      && (ok ==> && (forall i :: 0 <= i < |df| ==> RowBindable(df[i], matching))
                 && Rows(d', key) == Rows(d, key) + ProjectAll(df, matching))
  {
    ChunkSizeUndefined();
    FallbackInsertsAll(d, columns, TableInfo(mappings[endpoint]), df);
  }

  /** When the fallback succeeds, every matching cell could be bound and every row went in,
    * projected onto the matching columns in the target's order; a fallback failure leaves only
    * whole committed batches. */
  lemma FallbackInsertsAll(d: Db, columns: map<TableName, seq<string>>, key: TableName, df: Table)
    ensures var (ok, d') := FallbackSpec(d, columns, key, df);
      var matching := Matching(if key in columns then columns[key] else [], Columns(df));
      && (ok ==> && matching != []
                 && (forall i :: 0 <= i < |df| ==> RowBindable(df[i], matching))
                 && Rows(d', key) == Rows(d, key) + ProjectAll(df, matching))
      && (!ok ==> exists k: nat :: k * InsertBatchSize <= |df|
                    && Rows(d', key) == Rows(d, key) + ProjectAll(df[..k * InsertBatchSize], matching))
  {
    var matching := Matching(if key in columns then columns[key] else [], Columns(df));
    if !Fails(d.faults) && matching != [] {
      var d1 := d.(faults := Drop(d.faults));
      assert FallbackSpec(d, columns, key, df) == BatchesFrom(d1, key, df, matching, 0);
      assert Rows(d1, key) == Rows(d, key);
      FallbackBatches(d1, key, df, matching);
    } else {
      var (ok, d') := FallbackSpec(d, columns, key, df);
      assert Rows(d', key) == Rows(d, key);
      SliceEnds(df, 0);
      NoRowsProjected(matching);
      assert 0 * InsertBatchSize <= |df|
        && Rows(d', key) == Rows(d, key) + ProjectAll(df[..0 * InsertBatchSize], matching);
    }
  }

  /** The batch loop from the first row: all rows on success, whole batches otherwise. */
  lemma FallbackBatches(d: Db, key: TableName, df: Table, matching: seq<string>)
    ensures var (ok, d') := BatchesFrom(d, key, df, matching, 0);
      && (ok ==> (forall i :: 0 <= i < |df| ==> RowBindable(df[i], matching))
                 && Rows(d', key) == Rows(d, key) + ProjectAll(df, matching))
      && (!ok ==> exists k: nat :: k * InsertBatchSize <= |df|
                    && Rows(d', key) == Rows(d, key) + ProjectAll(df[..k * InsertBatchSize], matching))
  {
    var (ok, d') := BatchesFrom(d, key, df, matching, 0);
    SliceEnds(df, 0);
    if ok {
      BatchesCommitAll(d, key, df, matching, 0);
      BatchesOkBindable(d, key, df, matching, 0);
    } else {
      BatchesCommitWhole(d, key, df, matching, 0);
      var k: nat :| 0 + k * InsertBatchSize < |df|
        && Rows(d', key) == Rows(d, key) + ProjectAll(df[0..0 + k * InsertBatchSize], matching);
      SliceEnds(df, k * InsertBatchSize);
      assert k * InsertBatchSize <= |df|
        && Rows(d', key) == Rows(d, key) + ProjectAll(df[..k * InsertBatchSize], matching);
    }
  }

  /** A row with a matching cell that cannot be bound (a list or a dict that `pd.isna` does not
    * turn into None) makes the fallback return False, keeping only whole batches committed before
    * that row. */
  lemma FallbackStopsAtUnbindable(d: Db, columns: map<TableName, seq<string>>, key: TableName, df: Table, i: nat)
    requires i < |df|
    requires !RowBindable(df[i], Matching(if key in columns then columns[key] else [], Columns(df)))
    ensures var (ok, d') := FallbackSpec(d, columns, key, df);
      var matching := Matching(if key in columns then columns[key] else [], Columns(df));
      && !ok
      && exists k: nat :: k * InsertBatchSize <= i
           && Rows(d', key) == Rows(d, key) + ProjectAll(df[..k * InsertBatchSize], matching)
  {
    var matching := Matching(if key in columns then columns[key] else [], Columns(df));
    var (ok, d') := FallbackSpec(d, columns, key, df);
    if !Fails(d.faults) && matching != [] {
      var d1 := d.(faults := Drop(d.faults));
      assert FallbackSpec(d, columns, key, df) == BatchesFrom(d1, key, df, matching, 0);
      assert Rows(d1, key) == Rows(d, key);
      FallbackBatchesStop(d1, key, df, matching, i);
    } else {
      FallbackStopsBeforeBatches(d, columns, key, df);
      assert 0 * InsertBatchSize <= i
        && Rows(d', key) == Rows(d, key) + ProjectAll(df[..0 * InsertBatchSize], matching);
    }
  }

  /** A failed connection, or no matching column, ends the fallback with nothing committed. */
  lemma FallbackStopsBeforeBatches(d: Db, columns: map<TableName, seq<string>>, key: TableName, df: Table)
    requires Fails(d.faults) || Matching(if key in columns then columns[key] else [], Columns(df)) == []
    ensures var (ok, d') := FallbackSpec(d, columns, key, df);
      var matching := Matching(if key in columns then columns[key] else [], Columns(df));
      !ok && Rows(d', key) == Rows(d, key) + ProjectAll(df[..0 * InsertBatchSize], matching)
  {
    assert df[..0 * InsertBatchSize] == [];
  }

  /** The batch loop from the first row stops at an unbindable row, with whole batches before it. */
  lemma FallbackBatchesStop(d: Db, key: TableName, df: Table, matching: seq<string>, i: nat)
    requires i < |df| && !RowBindable(df[i], matching)
    ensures var (ok, d') := BatchesFrom(d, key, df, matching, 0);
      && !ok
      && exists k: nat :: k * InsertBatchSize <= i
           && Rows(d', key) == Rows(d, key) + ProjectAll(df[..k * InsertBatchSize], matching)
  {
    var (ok, d') := BatchesFrom(d, key, df, matching, 0);
    BatchesStopAtUnbindable(d, key, df, matching, 0, i);
    var k: nat :| 0 + k * InsertBatchSize <= i
      && Rows(d', key) == Rows(d, key) + ProjectAll(df[0..0 + k * InsertBatchSize], matching);
    SliceEnds(df, k * InsertBatchSize);
    assert k * InsertBatchSize <= i
      && Rows(d', key) == Rows(d, key) + ProjectAll(df[..k * InsertBatchSize], matching);
  }

  /** With no failing round-trip, the fallback succeeds exactly when some column matches and
    * every matching cell can be bound. */
  lemma FallbackSucceedsIff(d: Db, columns: map<TableName, seq<string>>, key: TableName, df: Table)
    requires NoFaults(d.faults)
    ensures var matching := Matching(if key in columns then columns[key] else [], Columns(df));
      FallbackSpec(d, columns, key, df).0 <==>
        matching != [] && forall i :: 0 <= i < |df| ==> RowBindable(df[i], matching)
  {
    var matching := Matching(if key in columns then columns[key] else [], Columns(df));
    FallbackInsertsAll(d, columns, key, df);
    if matching != [] && forall i :: 0 <= i < |df| ==> RowBindable(df[i], matching) {
      var d1 := d.(faults := Drop(d.faults));
      assert NoFaults(d1.faults);
      BatchesSucceed(d1, key, df, matching, 0);
    }
  }

  lemma NoRowsProjected(columns: seq<string>)
    ensures ProjectAll([], columns) == []
  {
  }


  // ---------------------------------------------------------------------------------------------
  // All endpoints

  /** `truncate_table`: unmapped fails; otherwise a round-trip that empties the table. */
  function TruncateSpec(mappings: map<string, string>, d: Db, endpoint: string): (r: (bool, Db))
  {
    if endpoint !in mappings then (false, d) else Truncated(d, TableInfo(mappings[endpoint]))
  }

  /** One endpoint of `load_all_data_to_staging`: its count and the database afterwards. */
  function LoadOneSpec(mappings: map<string, string>, columns: map<TableName, seq<string>>, d: Db,
                       df: Table, endpoint: string, truncateFirst: bool): (r: (int, Db))
  {
    if IsEmptyFrame(df) then (0, d)
    else
      var d1 := if truncateFirst then TruncateSpec(mappings, d, endpoint).1 else d;
      var (ok, d2) := LoadSpec(mappings, columns, d1, df, endpoint, "append");
      (if ok then |df| else 0, d2)
  }

  /** `load_all_data_to_staging` from entry `i` on, with the counts so far. */
  function LoadAllFrom(mappings: map<string, string>, columns: map<TableName, seq<string>>, d: Db,
                       data: seq<(string, Table)>, truncateFirst: bool, i: nat, counts: seq<(string, int)>)
    : (r: (seq<(string, int)>, Db))
    decreases |data| - i
  {
    if i >= |data| then (counts, d)
    else
      var (n, d1) := LoadOneSpec(mappings, columns, d, data[i].1, data[i].0, truncateFirst);
      LoadAllFrom(mappings, columns, d1, data, truncateFirst, i + 1, counts + [(data[i].0, n)])
  }

  /** One count per endpoint, in input order: the frame's row count when its load succeeded and
    * 0 when it was empty or its load failed. */
  lemma {:induction false} LoadAllCounts(mappings: map<string, string>, columns: map<TableName, seq<string>>, d: Db,
                                         data: seq<(string, Table)>, truncateFirst: bool, i: nat, counts: seq<(string, int)>)
    requires i <= |data| && |counts| == i
    ensures var (r, _) := LoadAllFrom(mappings, columns, d, data, truncateFirst, i, counts);
      && |r| == |data| && r[..i] == counts
      && (forall j :: i <= j < |data| ==> r[j].0 == data[j].0 && (r[j].1 == 0 || r[j].1 == |data[j].1|))
      && forall j :: i <= j < |data| && IsEmptyFrame(data[j].1) ==> r[j].1 == 0
    decreases |data| - i
  {
    if i < |data| {
      var (n, d1) := LoadOneSpec(mappings, columns, d, data[i].1, data[i].0, truncateFirst);
      LoadAllCounts(mappings, columns, d1, data, truncateFirst, i + 1, counts + [(data[i].0, n)]);
      var r := LoadAllFrom(mappings, columns, d, data, truncateFirst, i, counts).0;
      assert r[..i] == (r[..i + 1])[..i];
    }
  }

  /** The rows of a table are a prefix of its rows afterwards. */
  ghost predicate Grows(d: Db, d': Db)
  {
    forall k :: Rows(d, k) <= Rows(d', k)
  }

  lemma BatchesGrow(d: Db, key: TableName, rows: Table, columns: seq<string>, start: nat)
    requires start <= |rows|
    ensures Grows(d, BatchesFrom(d, key, rows, columns, start).1)
  {
    BatchesCommitAll(d, key, rows, columns, start);
    BatchesCommitWhole(d, key, rows, columns, start);
    BatchesTouchOneTable(d, key, rows, columns, start);
  }

  /** One appending load without truncation only adds rows. */
  lemma LoadOneGrows(mappings: map<string, string>, columns: map<TableName, seq<string>>, d: Db,
                     df: Table, endpoint: string)
    ensures Grows(d, LoadOneSpec(mappings, columns, d, df, endpoint, false).1)
  {
    if !IsEmptyFrame(df) && endpoint in mappings {
      var key := TableInfo(mappings[endpoint]);
      if !Fails(d.faults) {
        var matching := Matching(if key in columns then columns[key] else [], Columns(df));
        if matching != [] {
          var d1 := d.(faults := Drop(d.faults));
          assert forall k :: Rows(d1, k) == Rows(d, k);
          BatchesGrow(d1, key, df, matching, 0);
        }
      }
    }
  }

  /** Without `truncate_first`, appending loads only ever add rows at the end of a table. */
  lemma {:induction false} LoadAllOnlyAppends(mappings: map<string, string>, columns: map<TableName, seq<string>>, d: Db,
                                              data: seq<(string, Table)>, i: nat, counts: seq<(string, int)>)
    ensures Grows(d, LoadAllFrom(mappings, columns, d, data, false, i, counts).1)
    decreases |data| - i
  {
    if i < |data| {
      var (n, d1) := LoadOneSpec(mappings, columns, d, data[i].1, data[i].0, false);
      LoadOneGrows(mappings, columns, d, data[i].1, data[i].0);
      LoadAllOnlyAppends(mappings, columns, d1, data, i + 1, counts + [(data[i].0, n)]);
      var d2 := LoadAllFrom(mappings, columns, d, data, false, i, counts).1;
      forall k ensures Rows(d, k) <= Rows(d2, k) {
        assert Rows(d, k) <= Rows(d1, k);
      }
    }
  }

  // ---------------------------------------------------------------------------------------------
  // Validation

  /** The newest `etl_created_at` among the rows (`MAX`, NULL for no timestamps). */
  function LatestEtl(rows: Table): (r: Option<int>)
    ensures r.Some? ==> exists i :: 0 <= i < |rows| && Get(rows[i], "etl_created_at") == Time(r.value)
    ensures r.Some? ==> forall i :: 0 <= i < |rows| && Get(rows[i], "etl_created_at").Time? ==>
      Get(rows[i], "etl_created_at").t <= r.value
    ensures r.None? ==> forall i :: 0 <= i < |rows| ==> !Get(rows[i], "etl_created_at").Time?
  {
    if rows == [] then None
    else
      var prev := LatestEtl(rows[..|rows| - 1]);
      var v := Get(rows[|rows| - 1], "etl_created_at");
      assert forall i :: 0 <= i < |rows| - 1 ==> rows[i] == rows[..|rows| - 1][i];
      if !v.Time? then prev
      else if prev.Some? && prev.value >= v.t then prev
      else Some(v.t)
  }

  datatype TableCheck =
    | Checked(expected: int, actual: int, countMatch: bool, latest: Option<int>, recent: bool)
    | Errored

  datatype Validation = Validation(totalExpected: int, totalActual: int,
                                   tables: seq<(string, TableCheck)>, passed: bool)

  /** The check of one mapped table: a round-trip, then the count and the freshness rule. */
  function CheckTable(d: Db, key: TableName, expected: int, now: int): (r: (TableCheck, Db))
    ensures r.0.Checked? ==> r.0.countMatch == (|Rows(d, key)| >= expected)
    ensures r.0.Checked? ==> r.0.recent == (LatestEtl(Rows(d, key)).Some? && now - LatestEtl(Rows(d, key)).value < 3600)
  {
    if Fails(d.faults) then (Errored, d.(faults := Drop(d.faults)))
    else
      var rows := Rows(d, key);
      var latest := LatestEtl(rows);
      (Checked(expected, |rows|, |rows| >= expected, latest, latest.Some? && now - latest.value < 3600),
       d.(faults := Drop(d.faults)))
  }

  /** A table check that holds: the count is reached and the data is under an hour old. */
  predicate Passes(c: TableCheck)
  {
    c.Checked? && c.countMatch && c.recent
  }

  /** `validate_loaded_data` from entry `i` on. */
  function ValidateFrom(mappings: map<string, string>, d: Db, counts: seq<(string, int)>, now: int,
                        i: nat, acc: Validation): (r: (Validation, Db))
    decreases |counts| - i
  {
    if i >= |counts| then (acc, d)
    else
      var (endpoint, expected) := counts[i];
      if endpoint !in mappings then ValidateFrom(mappings, d, counts, now, i + 1, acc)
      else
        var (check, d1) := CheckTable(d, TableInfo(mappings[endpoint]), expected, now);
        var next := Validation(acc.totalExpected,
                               acc.totalActual + (if check.Checked? then check.actual else 0),
                               acc.tables + [(endpoint, check)],
                               acc.passed && Passes(check));
        ValidateFrom(mappings, d1, counts, now, i + 1, next)
  }

  function SumCounts(counts: seq<(string, int)>): int
  {
    if counts == [] then 0 else SumCounts(counts[..|counts| - 1]) + counts[|counts| - 1].1
  }

  function ValidateSpec(mappings: map<string, string>, d: Db, counts: seq<(string, int)>, now: int): (r: (Validation, Db))
  {
    ValidateFrom(mappings, d, counts, now, 0, Validation(SumCounts(counts), 0, [], true))
  }

  /** Unmapped endpoints get no entry; each mapped one gets exactly one, in order; the verdict
    * holds iff the starting verdict held and every entry passes; the expected total never moves. */
  lemma {:induction false} ValidateVerdict(mappings: map<string, string>, d: Db, counts: seq<(string, int)>, now: int,
                                           i: nat, acc: Validation)
    requires i <= |counts|
    ensures var (v, _) := ValidateFrom(mappings, d, counts, now, i, acc);
      && v.totalExpected == acc.totalExpected
      && |v.tables| == |acc.tables| + |MappedFrom(mappings, counts, i)|
      && v.tables[..|acc.tables|] == acc.tables
      && (forall j :: |acc.tables| <= j < |v.tables| ==> v.tables[j].0 == MappedFrom(mappings, counts, i)[j - |acc.tables|])
      && (v.passed <==> acc.passed && forall j :: |acc.tables| <= j < |v.tables| ==> Passes(v.tables[j].1))
    decreases |counts| - i, 1
  {
    if i < |counts| {
      if counts[i].0 !in mappings {
        ValidateVerdict(mappings, d, counts, now, i + 1, acc);
      } else {
        ValidateMapped(mappings, d, counts, now, i, acc);
      }
    }
  }

  /** The step of `ValidateVerdict` for an endpoint that has a table. */
  lemma {:induction false} ValidateMapped(mappings: map<string, string>, d: Db, counts: seq<(string, int)>, now: int,
                                          i: nat, acc: Validation)
    requires i < |counts| && counts[i].0 in mappings
    ensures var (v, _) := ValidateFrom(mappings, d, counts, now, i, acc);
      && v.totalExpected == acc.totalExpected
      && |v.tables| == |acc.tables| + |MappedFrom(mappings, counts, i)|
      && v.tables[..|acc.tables|] == acc.tables
      && (forall j :: |acc.tables| <= j < |v.tables| ==> v.tables[j].0 == MappedFrom(mappings, counts, i)[j - |acc.tables|])
      && (v.passed <==> acc.passed && forall j :: |acc.tables| <= j < |v.tables| ==> Passes(v.tables[j].1))
    decreases |counts| - i, 0
  {
    var (endpoint, expected) := counts[i];
    var (check, d1) := CheckTable(d, TableInfo(mappings[endpoint]), expected, now);
    var next := Validation(acc.totalExpected,
                           acc.totalActual + (if check.Checked? then check.actual else 0),
                           acc.tables + [(endpoint, check)],
                           acc.passed && Passes(check));
    ValidateVerdict(mappings, d1, counts, now, i + 1, next);
    var v := ValidateFrom(mappings, d, counts, now, i, acc).0;
    assert v == ValidateFrom(mappings, d1, counts, now, i + 1, next).0;
    TakeOfTake(v.tables, |acc.tables|, |next.tables|);
    TakeAppend(acc.tables, [(endpoint, check)]);
    assert v.tables[|acc.tables|] == v.tables[..|next.tables|][|acc.tables|];
    var rest := MappedFrom(mappings, counts, i + 1);
    assert MappedFrom(mappings, counts, i) == [endpoint] + rest;
    forall j | |acc.tables| < j < |v.tables|
      ensures v.tables[j].0 == MappedFrom(mappings, counts, i)[j - |acc.tables|]
    {
      assert MappedFrom(mappings, counts, i)[j - |acc.tables|] == rest[j - |next.tables|];
    }
  }


  /** The mapped endpoints of `counts` from `i` on, in order. */
  function MappedFrom(mappings: map<string, string>, counts: seq<(string, int)>, i: nat): seq<string>
    decreases |counts| - i
  {
    if i >= |counts| then []
    else if counts[i].0 in mappings then [counts[i].0] + MappedFrom(mappings, counts, i + 1)
    else MappedFrom(mappings, counts, i + 1)
  }

  // ---------------------------------------------------------------------------------------------
  // The loader

  class StagingDatabase {
    var tables: map<TableName, Table>
    var faults: seq<bool>
    /** The non-computed columns of each existing table, in ordinal order. */
    const columns: map<TableName, seq<string>>

    constructor (tables: map<TableName, Table>, columns: map<TableName, seq<string>>, faults: seq<bool>)
      ensures this.tables == tables && this.columns == columns && this.faults == faults
    {
      this.tables := tables;
      this.columns := columns;
      this.faults := faults;
    }

    function State(): Db
      reads this
    {
      Db(tables, faults)
    }

    /** One round-trip: whether it raised. */
    method RoundTrip() returns (failed: bool)
      modifies this
      ensures failed == Fails(old(faults)) && faults == Drop(old(faults)) && tables == old(tables)
    {
      failed := Fails(faults);
      faults := Drop(faults);
    }

    /** `db_manager.truncate_table` */
    method Truncate(key: TableName) returns (ok: bool)
      modifies this
      ensures (ok, State()) == Truncated(old(State()), key)
    {
      var failed := RoundTrip();
      if failed {
        return false;
      }
      tables := tables[key := []];
      return true;
    }

    /** `db_manager.insert_dataframe`, a bulk `to_sql` that reports False when it raises. */
    method InsertDataframe(key: TableName, df: Table, ifExists: string) returns (ok: bool)
      modifies this
      ensures (ok, State()) == ToSql(old(State()), columns, key, df, ifExists)
    {
      var raises := BulkRaises(State(), columns, key, df, ifExists);
      var _ := RoundTrip();
      if raises {
        return false;
      }
      if ifExists == "replace" {
        tables := tables[key := df];
      } else {
        tables := Append(State(), key, df).tables;
      }
      return true;
    }

    /** `executemany` of one batch and its commit. */
    method InsertBatch(key: TableName, rows: Table) returns (failed: bool)
      modifies this
      ensures failed == Fails(old(faults)) && faults == Drop(old(faults))
      ensures tables == if failed then old(tables) else Append(old(State()), key, rows).tables
    {
      failed := RoundTrip();
      if !failed {
        tables := Append(State(), key, rows).tables;
      }
    }
  }

  class MisaCrmLoader {
    /** endpoint -> `schema.table`; the settings method that would build it does not exist
      * (`Settings.UndefinedAttributes`), so the mapping is given. */
    const mappings: map<string, string>
    const db: StagingDatabase

    constructor (mappings: map<string, string>, db: StagingDatabase)
      ensures this.mappings == mappings && this.db == db
    {
      this.mappings := mappings;
      this.db := db;
    }

    /** `truncate_table` */
    method TruncateTable(endpoint: string) returns (ok: bool)
      modifies db
      ensures (ok, db.State()) == TruncateSpec(mappings, old(db.State()), endpoint)
    {
      if endpoint !in mappings {
        return false;
      }
      ok := db.Truncate(TableInfo(mappings[endpoint]));
    }

    /** `load_dataframe_to_staging` */
    method LoadDataframeToStaging(df: Table, endpoint: string, ifExists: string) returns (ok: bool)
      modifies db
      ensures (ok, db.State()) == LoadSpec(mappings, db.columns, old(db.State()), df, endpoint, ifExists)
    {
      if IsEmptyFrame(df) {
        return true;
      }
      if endpoint !in mappings {
        return false;
      }
      var key := TableInfo(mappings[endpoint]);
      // `df.to_sql(..., chunksize=settings.misa_crm_etl_batch_size)` raises AttributeError while
      // its arguments are evaluated, so control goes straight to the except branch.
      ok := LoadWithFallback(df, key);
    }

    /** `_load_with_pyodbc` */
    method LoadWithFallback(df: Table, key: TableName) returns (ok: bool)
      modifies db
      ensures (ok, db.State()) == FallbackSpec(old(db.State()), db.columns, key, df)
    {
      var failed := db.RoundTrip();
      if failed {
        return false;
      }
      var dbColumns := if key in db.columns then db.columns[key] else [];
      var matching := Matching(dbColumns, Columns(df));
      if matching == [] {
        return false;
      }
      ok := InsertBatches(key, df, matching);
    }

    /** The batch loop of `_load_with_pyodbc`. */
    method InsertBatches(key: TableName, df: Table, matching: seq<string>) returns (ok: bool)
      modifies db
      ensures (ok, db.State()) == BatchesFrom(old(db.State()), key, df, matching, 0)
    {
      ghost var target := BatchesFrom(db.State(), key, df, matching, 0);
      var i: nat := 0;
      var total := 0;
      while i < |df|
        invariant BatchesFrom(db.State(), key, df, matching, i) == target
        invariant total == Min(i, |df|)
        decreases |df| - i
      {
        var batch := df[i..Min(i + InsertBatchSize, |df|)];
        var batchData, bindable := ProjectBatch(batch, matching);
        if !bindable {
          return false;
        }
        var failed := db.InsertBatch(key, batchData);
        if failed {
          return false;
        }
        total := total + |batchData|;
        i := i + InsertBatchSize;
      }
      return true;
    }

    /** The `row_data` lists of one batch, or `bindable` false when some cell cannot be sent. */
    method ProjectBatch(batch: Table, matching: seq<string>) returns (data: Table, bindable: bool)
      ensures bindable == BatchBindable(batch, matching)
      ensures bindable ==> data == ProjectAll(batch, matching)
    {
      data := [];
      for j := 0 to |batch|
        invariant BatchBindable(batch[..j], matching)
        invariant data == ProjectAll(batch[..j], matching)
      {
        if !RowBindable(batch[j], matching) {
          return [], false;
        }
        assert batch[..j + 1][..j] == batch[..j];
        data := data + [Project(batch[j], matching)];
      }
      assert batch[..|batch|] == batch;
      bindable := true;
    }

    /** `load_all_data_to_staging` */
    method LoadAllDataToStaging(data: seq<(string, Table)>, truncateFirst: bool) returns (counts: seq<(string, int)>)
      modifies db
      ensures (counts, db.State()) == LoadAllFrom(mappings, db.columns, old(db.State()), data, truncateFirst, 0, [])
    {
      ghost var target := LoadAllFrom(mappings, db.columns, db.State(), data, truncateFirst, 0, []);
      counts := [];
      for i := 0 to |data|
        invariant LoadAllFrom(mappings, db.columns, db.State(), data, truncateFirst, i, counts) == target
      {
        var (endpoint, df) := data[i];
        if IsEmptyFrame(df) {
          counts := counts + [(endpoint, 0)];
          continue;
        }
        if truncateFirst {
          var _ := TruncateTable(endpoint);
        }
        var ok := LoadDataframeToStaging(df, endpoint, "append");
        counts := counts + [(endpoint, if ok then |df| else 0)];
      }
    }

    /** `validate_loaded_data` */
    method ValidateLoadedData(counts: seq<(string, int)>, now: int) returns (v: Validation)
      modifies db
      ensures (v, db.State()) == ValidateSpec(mappings, old(db.State()), counts, now)
    {
      v := Validation(SumCounts(counts), 0, [], true);
      ghost var target := ValidateFrom(mappings, db.State(), counts, now, 0, v);
      for i := 0 to |counts|
        invariant ValidateFrom(mappings, db.State(), counts, now, i, v) == target
      {
        var (endpoint, expected) := counts[i];
        if endpoint !in mappings {
          continue;
        }
        ghost var before := db.State();
        var key := TableInfo(mappings[endpoint]);
        var failed := db.RoundTrip();
        var check: TableCheck;
        if failed {
          check := Errored;
        } else {
          var rows := if key in db.tables then db.tables[key] else [];
          var latest := LatestEtl(rows);
          check := Checked(expected, |rows|, |rows| >= expected, latest, latest.Some? && now - latest.value < 3600);
        }
        assert (check, db.State()) == CheckTable(before, key, expected, now);
        v := Validation(v.totalExpected, v.totalActual + (if check.Checked? then check.actual else 0),
                        v.tables + [(endpoint, check)], v.passed && Passes(check));
      }
    }
  }
}
