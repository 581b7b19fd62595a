/** The historical backfill (run_historical_backfill.py): the batch arithmetic of its constructor,
  * the MERGE statement it builds, the per-row upsert with its counters, and the loop over date
  * windows. Dates are day numbers; the SQL server is a script of round-trip faults and of the
  * `OUTPUT $action` row each executed MERGE answers. */
module HistoricalBackfill {
  import opened Values
  import MisaLoader

  // ---------------------------------------------------------------------------------------------
  // Batch arithmetic

  /** Python's `a // b`, which rounds toward negative infinity. */
  function FloorDiv(a: int, b: int): int
    requires b != 0
  {
    if b > 0 then a / b else (-a) / (-b)
  }

  /** The quotient is the greatest `q` with `q * b <= a` for positive `b`, and the least with
    * `q * b >= a` for negative `b`. */
  lemma FloorDivBounds(a: int, b: int)
    requires b != 0
    ensures b > 0 ==> FloorDiv(a, b) * b <= a < FloorDiv(a, b) * b + b
    ensures b < 0 ==> FloorDiv(a, b) * b >= a > FloorDiv(a, b) * b + b
  {
  }

  /** `total_batches = total_days // batch_days + 1` */
  function TotalBatches(totalDays: int, batchDays: int): int
    requires batchDays != 0
  {
    FloorDiv(totalDays, batchDays) + 1
  }

  /** A start date one day after today with 30-day batches gives no batch at all. */
  lemma StartAfterTodayHasNoBatches()
    ensures TotalBatches(-1, 30) == 0
  {
  }

  // ---------------------------------------------------------------------------------------------
  // Date windows

  /** The windows the loop visits from `current` with `remaining` batch numbers left: each ends
    * `batchDays` days on or at `end`, and the next starts the day after; the loop stops when
    * the numbers run out or the next start passes `end`. */
  function WindowsFrom(current: int, end: int, batchDays: int, remaining: int): seq<(int, int)>
    decreases remaining
  {
    if remaining <= 0 then []
    else
      var last := Min(current + batchDays, end);
      [(current, last)] + (if last + 1 > end then [] else WindowsFrom(last + 1, end, batchDays, remaining - 1))
  }

  function Windows(start: int, end: int, batchDays: int): seq<(int, int)>
    requires batchDays != 0
  {
    WindowsFrom(start, end, batchDays, TotalBatches(end - start, batchDays))
  }

  /** The windows form a chain: the first starts at `current`, each ends at the earlier of its
    * start plus `batchDays` and `end`, each next one starts the day after the previous ended
    * (which is never past `end`), and there are at most `remaining` of them. */
  lemma {:induction false} WindowsChain(current: int, end: int, batchDays: int, remaining: int)
    ensures var w := WindowsFrom(current, end, batchDays, remaining);
      && |w| <= (if remaining <= 0 then 0 else remaining)
      && (w != [] ==> w[0].0 == current)
      && (forall i :: 0 <= i < |w| ==> w[i].1 == Min(w[i].0 + batchDays, end))
      && (forall i :: 0 <= i < |w| - 1 ==> w[i + 1].0 == w[i].1 + 1 && w[i].1 + 1 <= end)
    decreases remaining
  {
    if remaining > 0 {
      var last := Min(current + batchDays, end);
      if last + 1 <= end {
        WindowsChain(last + 1, end, batchDays, remaining - 1);
        var w := WindowsFrom(current, end, batchDays, remaining);
        var rest := WindowsFrom(last + 1, end, batchDays, remaining - 1);
        assert w == [(current, last)] + rest;
        assert forall i :: 0 < i < |w| ==> w[i] == rest[i - 1];
      }
    }
  }

  /** With enough batch numbers left, the last window ends exactly at `end`. */
  lemma {:induction false} WindowsReachEnd(current: int, end: int, batchDays: int, remaining: int)
    requires batchDays >= 1 && current <= end && remaining >= 1
    requires current + (remaining - 1) * (batchDays + 1) + batchDays >= end
    ensures var w := WindowsFrom(current, end, batchDays, remaining);
      w != [] && w[|w| - 1].1 == end
    decreases remaining
  {
    var last := Min(current + batchDays, end);
    if last + 1 <= end {
      assert remaining >= 2;
      assert (remaining - 1) * (batchDays + 1) == (remaining - 2) * (batchDays + 1) + batchDays + 1;
      WindowsReachEnd(last + 1, end, batchDays, remaining - 1);
    }
  }

  /** With a positive batch length and a start on or before the end, `total_batches` is always
    * enough: the windows run without a gap from the start date to the end date. */
  lemma WindowsCoverPeriod(start: int, end: int, batchDays: int)
    requires batchDays >= 1 && start <= end
    ensures var w := Windows(start, end, batchDays);
      && w != [] && w[0].0 == start && w[|w| - 1].1 == end
      && (forall i :: 0 <= i < |w| - 1 ==> w[i + 1].0 == w[i].1 + 1)
  {
    var q := FloorDiv(end - start, batchDays);
    FloorDivBounds(end - start, batchDays);
    assert q >= 0;
    assert q * (batchDays + 1) == q * batchDays + q;
    WindowsReachEnd(start, end, batchDays, q + 1);
    WindowsChain(start, end, batchDays, q + 1);
  }

  /** The records of the windows `w`, the first one carrying batch number `num`, the next `num + 1`
    * and so on: `process` gives `process_batch`'s `records_processed` for a window and its number. */
  function WindowRecords(process: (int, int, int) -> int, w: seq<(int, int)>, num: int): int
    decreases |w|
  {
    if w == [] then 0 else process(w[0].0, w[0].1, num) + WindowRecords(process, w[1..], num + 1)
  }

  /** What the window loop adds to `batches_completed` and `total_records_processed` from
    * `current` on, with batch number `num` and `remaining` numbers left. */
  function RunFrom(process: (int, int, int) -> int, current: int, end: int, batchDays: int, num: int, remaining: int): (int, int)
    decreases remaining
  {
    if remaining <= 0 then (0, 0)
    else
      var last := Min(current + batchDays, end);
      var here := process(current, last, num);
      if last + 1 > end then (1, here)
      else
        var rest := RunFrom(process, last + 1, end, batchDays, num + 1, remaining - 1);
        (1 + rest.0, here + rest.1)
  }

  /** The loop completes one batch per window and adds up the records of exactly those windows,
    * numbered from `num`. */
  lemma {:induction false} RunOverWindows(process: (int, int, int) -> int, current: int, end: int, batchDays: int,
                                          num: int, remaining: int)
    ensures var w := WindowsFrom(current, end, batchDays, remaining);
      RunFrom(process, current, end, batchDays, num, remaining) == (|w|, WindowRecords(process, w, num))
    decreases remaining
  {
    if remaining > 0 {
      var last := Min(current + batchDays, end);
      var w := WindowsFrom(current, end, batchDays, remaining);
      if last + 1 > end {
        assert w == [(current, last)];
        assert w[1..] == [];
      } else {
        var rest := WindowsFrom(last + 1, end, batchDays, remaining - 1);
        RunOverWindows(process, last + 1, end, batchDays, num + 1, remaining - 1);
        assert w == [(current, last)] + rest;
        assert w[1..] == rest;
      }
    }
  }

  // ---------------------------------------------------------------------------------------------
  // The MERGE statement

  /** `target.pk = source.pk` */
  function KeyCondition(pk: string): string
  {
    "target." + pk + " = source." + pk
  }

  /** `col = source.col` */
  function Assignment(col: string): string
  {
    col + " = source." + col
  }

  /** `source.col` */
  function Sourced(col: string): string
  {
    "source." + col
  }

  /** The primary keys that are among the columns, in key order. */
  function KeyColumns(columns: seq<string>, pks: seq<string>): (r: seq<string>)
    ensures forall c :: c in r <==> c in pks && c in columns
    ensures |r| <= |pks|
  {
    if pks == [] then []
    else
      var rest := KeyColumns(columns, pks[..|pks| - 1]);
      var pk := pks[|pks| - 1];
      assert pks == pks[..|pks| - 1] + [pk];
      if pk in columns then rest + [pk] else rest
  }

  /** The columns that are not primary keys, in column order. */
  function NonKeyColumns(columns: seq<string>, pks: seq<string>): (r: seq<string>)
    ensures forall c :: c in r <==> c in columns && c !in pks
    ensures |r| <= |columns|
    ensures (forall c :: c in columns ==> c !in pks) ==> r == columns
  {
    if columns == [] then []
    else
      var rest := NonKeyColumns(columns[..|columns| - 1], pks);
      var c := columns[|columns| - 1];
      assert columns == columns[..|columns| - 1] + [c];
      if c !in pks then rest + [c] else rest
  }

  function MapText(f: string -> string, xs: seq<string>): (r: seq<string>)
    ensures |r| == |xs| && forall i :: 0 <= i < |xs| ==> r[i] == f(xs[i])
  {
    if xs == [] then [] else MapText(f, xs[..|xs| - 1]) + [f(xs[|xs| - 1])]
  }

  /** The ON clause: the key conditions joined by AND, or a condition that never holds. */
  function OnClause(conditions: seq<string>): string
  {
    if conditions == [] then "1=0" else Join(" AND ", conditions)
  }

  /** One `?` marker per column. */
  function Placeholders(n: nat): string
  {
    Join(", ", seq(n, _ => "?"))
  }

  /** `_build_merge_statement` with the key conditions already collected (line breaks and
    * indentation aside): the head, the marker list, and the rest. */
  function MergeText(table: string, columns: seq<string>, pks: seq<string>, conditions: seq<string>): string
  {
    var columnList := Join(", ", columns);
    MergeHead(table) + Placeholders(|columns|)
      + SourcePart(columnList, OnClause(conditions))
      + MatchedPart(Join(", ", MapText(Assignment, NonKeyColumns(columns, pks))))
      + InsertPart(columnList, Join(", ", MapText(Sourced, columns)))
  }

  function MergeHead(table: string): string
  {
    "MERGE staging." + table + " AS target" + " USING (SELECT "
  }

  function SourcePart(columnList: string, on: string): string
  {
    " AS (" + columnList + ")) AS source ON " + on
  }

  /** Every non-key column is set from the source, and the update stamp to the current time. */
  function MatchedPart(updateSet: string): string
  {
    " WHEN MATCHED THEN UPDATE SET " + updateSet + ", etl_updated_at = GETUTCDATE()"
  }

  function InsertPart(columnList: string, values: string): string
  {
    " WHEN NOT MATCHED THEN INSERT (" + columnList + ") VALUES (" + values + ") OUTPUT $action;"
  }

  function MergeSql(table: string, columns: seq<string>, pks: seq<string>): string
  {
    MergeText(table, columns, pks, MapText(KeyCondition, KeyColumns(columns, pks)))
  }

  /** A join of non-empty parts starts with its first part. */
  lemma {:induction false} JoinStartsWithFirst(sep: string, xs: seq<string>)
    requires |xs| >= 1
    ensures StartsWith(Join(sep, xs), xs[0])
    decreases |xs|
  {
    if |xs| > 1 {
      JoinStartsWithFirst(sep, xs[..|xs| - 1]);
      var init := Join(sep, xs[..|xs| - 1]);
      assert Join(sep, xs) == init + (sep + xs[|xs| - 1]);
      assert Join(sep, xs)[..|xs[0]|] == init[..|xs[0]|];
    }
  }

  /** The ON clause holds a condition per primary key present among the columns, in key order,
    * and it is the never-true `1=0` exactly when no key is present. */
  lemma OnClauseKeys(columns: seq<string>, pks: seq<string>)
    ensures var conds := MapText(KeyCondition, KeyColumns(columns, pks));
      && |conds| == |KeyColumns(columns, pks)|
      && (forall i :: 0 <= i < |conds| ==> conds[i] == KeyCondition(KeyColumns(columns, pks)[i]))
      && (OnClause(conds) == "1=0" <==> forall pk :: pk in pks ==> pk !in columns)
  {
    var keys := KeyColumns(columns, pks);
    var conds := MapText(KeyCondition, keys);
    if keys != [] {
      JoinStartsWithFirst(" AND ", conds);
      assert StartsWith(KeyCondition(keys[0]), "target.");
      assert OnClause(conds)[..7] == "target.";
      assert keys[0] in pks && keys[0] in columns;
    }
  }

  /** A join of parts without `c`, by a separator without `c`, has no `c`. */
  lemma {:induction false} JoinAvoids(sep: string, xs: seq<string>, c: char)
    requires c !in sep && forall i :: 0 <= i < |xs| ==> c !in xs[i]
    ensures c !in Join(sep, xs)
    decreases |xs|
  {
    if |xs| > 1 {
      JoinAvoids(sep, xs[..|xs| - 1], c);
    }
  }

  /** The placeholder list holds exactly `n` markers. */
  lemma {:induction false} PlaceholdersCount(n: nat)
    ensures MisaLoader.CountOf(Placeholders(n), '?') == n
    decreases n
  {
    var qs := seq(n, _ => "?");
    if n == 1 {
      assert Placeholders(1) == "?";
    } else if n > 1 {
      assert qs[..n - 1] == seq(n - 1, _ => "?");
      PlaceholdersCount(n - 1);
      assert Placeholders(n) == Placeholders(n - 1) + ", " + "?";
      MisaLoader.CountAppend(Placeholders(n - 1), ", ", '?');
      MisaLoader.CountAppend(Placeholders(n - 1) + ", ", "?", '?');
    }
  }

  /** No `?` in a name. */
  predicate Plain(names: seq<string>)
  {
    forall i :: 0 <= i < |names| ==> '?' !in names[i]
  }

  lemma NamePlain(x: string)
    requires '?' !in x
    ensures '?' !in KeyCondition(x) && '?' !in Assignment(x) && '?' !in Sourced(x)
  {
  }

  lemma HeadPlain(table: string)
    requires '?' !in table
    ensures '?' !in MergeHead(table)
  {
  }

  lemma SourcePartPlain(columnList: string, on: string)
    requires '?' !in columnList && '?' !in on
    ensures '?' !in SourcePart(columnList, on)
  {
  }

  lemma MatchedPartPlain(updateSet: string)
    requires '?' !in updateSet
    ensures '?' !in MatchedPart(updateSet)
  {
  }

  lemma InsertPartPlain(columnList: string, values: string)
    requires '?' !in columnList && '?' !in values
    ensures '?' !in InsertPart(columnList, values)
  {
  }

  /** The text outside the placeholder list carries no marker. */
  lemma MergeTailPlain(table: string, columns: seq<string>, pks: seq<string>)
    requires '?' !in table && Plain(columns) && Plain(pks)
    ensures var conds := MapText(KeyCondition, KeyColumns(columns, pks));
      var columnList := Join(", ", columns);
      && '?' !in MergeHead(table)
      && '?' !in SourcePart(columnList, OnClause(conds))
      && '?' !in MatchedPart(Join(", ", MapText(Assignment, NonKeyColumns(columns, pks))))
      && '?' !in InsertPart(columnList, Join(", ", MapText(Sourced, columns)))
  {
    var keys := KeyColumns(columns, pks);
    var others := NonKeyColumns(columns, pks);
    var conds := MapText(KeyCondition, keys);
    var assigns := MapText(Assignment, others);
    var sourced := MapText(Sourced, columns);
    forall i | 0 <= i < |keys| ensures '?' !in conds[i] {
      assert keys[i] in pks;
      NamePlain(keys[i]);
    }
    forall i | 0 <= i < |others| ensures '?' !in assigns[i] {
      assert others[i] in columns;
      NamePlain(others[i]);
    }
    forall i | 0 <= i < |columns| ensures '?' !in sourced[i] {
      NamePlain(columns[i]);
    }
    JoinAvoids(", ", columns, '?');
    JoinAvoids(" AND ", conds, '?');
    JoinAvoids(", ", assigns, '?');
    JoinAvoids(", ", sourced, '?');
    HeadPlain(table);
    SourcePartPlain(Join(", ", columns), OnClause(conds));
    MatchedPartPlain(Join(", ", assigns));
    InsertPartPlain(Join(", ", columns), Join(", ", sourced));
  }

  /** When no name holds a `?`, the statement holds exactly one marker per column. */
  lemma MergeMarkers(table: string, columns: seq<string>, pks: seq<string>)
    requires '?' !in table && Plain(columns) && Plain(pks)
    ensures MisaLoader.CountOf(MergeSql(table, columns, pks), '?') == |columns|
  {
    var conds := MapText(KeyCondition, KeyColumns(columns, pks));
    var columnList := Join(", ", columns);
    var head := MergeHead(table);
    var p := Placeholders(|columns|);
    var a := SourcePart(columnList, OnClause(conds));
    var b := MatchedPart(Join(", ", MapText(Assignment, NonKeyColumns(columns, pks))));
    var c := InsertPart(columnList, Join(", ", MapText(Sourced, columns)));
    MergeTailPlain(table, columns, pks);
    assert MergeSql(table, columns, pks) == head + p + a + b + c;
    MisaLoader.CountAppend(head, p, '?');
    MisaLoader.CountAppend(head + p, a, '?');
    MisaLoader.CountAppend(head + p + a, b, '?');
    MisaLoader.CountAppend(head + p + a + b, c, '?');
    MisaLoader.CountAbsent(head, '?');
    MisaLoader.CountAbsent(a, '?');
    MisaLoader.CountAbsent(b, '?');
    MisaLoader.CountAbsent(c, '?');
    PlaceholdersCount(|columns|);
  }

  // ---------------------------------------------------------------------------------------------
  // The upsert

  /** The SQL server as seen through one pyodbc connection: a script of round-trip faults
    * (connect, the column query, the commit) and, per executed MERGE, its `OUTPUT $action` row,
    * `None` when the statement raises. */
  datatype Server = Server(faults: seq<bool>, outputs: seq<Option<string>>)

  function RoundTrip(s: Server): (bool, Server)
  {
    (MisaLoader.Fails(s.faults), s.(faults := MisaLoader.Drop(s.faults)))
  }

  /** `cursor.execute(sql, args)` then `fetchone()`: the driver rejects a parameter count that
    * differs from the markers in the text, before the server sees the statement. */
  function Execute(s: Server, sql: string, args: seq<Value>): (Option<string>, Server)
  {
    if |args| != MisaLoader.CountOf(sql, '?') then (None, s)
    else if s.outputs == [] then (None, s)
    else (s.outputs[0], s.(outputs := s.outputs[1..]))
  }

  /** The values of one row in column order; a missing or NaN cell is sent as None. */
  function RowValues(r: Row, columns: seq<string>): (vs: seq<Value>)
    ensures |vs| == |columns|
  {
    seq(|columns|, j requires 0 <= j < |columns| => Get(r, columns[j]))
  }

  /** The row loop from row `i` with the counters so far: each row's values go to the statement
    * twice; a row whose statement raises is skipped. */
  function RowsFrom(s: Server, sql: string, columns: seq<string>, df: Table, i: nat, inserted: nat, updated: nat)
    : (nat, nat, Server)
    decreases |df| - i
  {
    if i >= |df| then (inserted, updated, s)
    else
      var values := RowValues(df[i], columns);
      var (out, s1) := Execute(s, sql, values + values);
      RowsFrom(s1, sql, columns, df, i + 1,
               if out == Some("INSERT") then inserted + 1 else inserted,
               if out == Some("UPDATE") then updated + 1 else updated)
  }

  /** `upsert_misa_data`: its verdict, the two counters it logs, and the server afterwards.
    * `tableColumns` is what the column query returns for each staging table. */
  function UpsertSpec(s: Server, tableColumns: map<string, seq<string>>, df: Table, table: string, pks: seq<string>)
    : (bool, nat, nat, Server)
  {
    var (connectFails, s1) := RoundTrip(s);
    if connectFails then (false, 0, 0, s1)
    else
      var (queryFails, s2) := RoundTrip(s1);
      if queryFails then (false, 0, 0, s2)
      else
        var columns := MisaLoader.Matching(if table in tableColumns then tableColumns[table] else [], Columns(df));
        if columns == [] then (false, 0, 0, s2)
        else
          var (inserted, updated, s3) := RowsFrom(s2, MergeSql(table, columns, pks), columns, df, 0, 0, 0);
          var (commitFails, s4) := RoundTrip(s3);
          (!commitFails, inserted, updated, s4)
  }

  /** Each row adds to at most one counter. */
  lemma {:induction false} RowsCount(s: Server, sql: string, columns: seq<string>, df: Table, i: nat,
                                     inserted: nat, updated: nat)
    requires i <= |df|
    ensures var (ins, upd, _) := RowsFrom(s, sql, columns, df, i, inserted, updated);
      inserted <= ins && updated <= upd && ins + upd <= inserted + updated + (|df| - i)
    decreases |df| - i
  {
    if i < |df| {
      var values := RowValues(df[i], columns);
      var (out, s1) := Execute(s, sql, values + values);
      RowsCount(s1, sql, columns, df, i + 1,
                if out == Some("INSERT") then inserted + 1 else inserted,
                if out == Some("UPDATE") then updated + 1 else updated);
    }
  }

  /** With a statement holding one marker per column, every row's doubled values are rejected:
    * nothing is counted and the server executes none of the statements. */
  lemma {:induction false} RowsAllRejected(s: Server, sql: string, columns: seq<string>, df: Table, i: nat,
                                           inserted: nat, updated: nat)
    requires columns != [] && MisaLoader.CountOf(sql, '?') == |columns|
    ensures RowsFrom(s, sql, columns, df, i, inserted, updated) == (inserted, updated, s)
    decreases |df| - i
  {
    if i < |df| {
      RowsAllRejected(s, sql, columns, df, i + 1, inserted, updated);
    }
  }

  /** The upsert never counts more rows than the frame has; it fails when no column matches;
    * and, because each row's values are passed twice to a statement with one marker per
    * column, no row is ever merged, yet the upsert answers True whenever the connection, the
    * column query and the commit go through. */
  lemma UpsertOutcome(s: Server, tableColumns: map<string, seq<string>>, df: Table, table: string, pks: seq<string>)
    requires '?' !in table && Plain(pks)
    requires table in tableColumns ==> Plain(tableColumns[table])
    ensures var (ok, inserted, updated, s') := UpsertSpec(s, tableColumns, df, table, pks);
      var columns := MisaLoader.Matching(if table in tableColumns then tableColumns[table] else [], Columns(df));
      && inserted == 0 && updated == 0 && s'.outputs == s.outputs
      && (ok <==> columns != [] && !MisaLoader.Fails(s.faults) && !MisaLoader.Fails(MisaLoader.Drop(s.faults))
                  && !MisaLoader.Fails(MisaLoader.Drop(MisaLoader.Drop(s.faults))))
  {
    var columns := MisaLoader.Matching(if table in tableColumns then tableColumns[table] else [], Columns(df));
    if columns != [] {
      var dbColumns := if table in tableColumns then tableColumns[table] else [];
      assert forall i :: 0 <= i < |columns| ==> columns[i] in dbColumns;
      MergeMarkers(table, columns, pks);
      var s2 := RoundTrip(RoundTrip(s).1).1;
      RowsAllRejected(s2, MergeSql(table, columns, pks), columns, df, 0, 0, 0);
    }
  }

  /** Whatever the server answers, the counters never exceed the frame's rows. */
  lemma UpsertCountsBounded(s: Server, tableColumns: map<string, seq<string>>, df: Table, table: string, pks: seq<string>)
    ensures var (_, inserted, updated, _) := UpsertSpec(s, tableColumns, df, table, pks);
      inserted + updated <= |df|
  {
    var columns := MisaLoader.Matching(if table in tableColumns then tableColumns[table] else [], Columns(df));
    var s2 := RoundTrip(RoundTrip(s).1).1;
    RowsCount(s2, MergeSql(table, columns, pks), columns, df, 0, 0, 0);
  }

  // ---------------------------------------------------------------------------------------------
  // The orchestrator

  class HistoricalBackfillOrchestrator {
    const startDate: int
    const endDate: int
    const batchDays: int
    const totalDays: int
    const totalBatches: int
    /** What the column query returns per staging table, in ordinal order. */
    const tableColumns: map<string, seq<string>>
    var server: Server
    var batchesCompleted: int
    var totalRecordsProcessed: int

    /** The batch arithmetic fixed by the constructor. */
    predicate Valid()
    {
      batchDays != 0 && totalDays == endDate - startDate && totalBatches == TotalBatches(totalDays, batchDays)
    }

    /** `__init__`: the end date is today's date, given. A zero `batch_days` would raise
      * `ZeroDivisionError`. */
    constructor (startDate: int, today: int, batchDays: int, tableColumns: map<string, seq<string>>, server: Server)
      requires batchDays != 0
      ensures this.startDate == startDate && endDate == today && this.batchDays == batchDays
      ensures totalDays == today - startDate && totalBatches == TotalBatches(today - startDate, batchDays)
      ensures Valid()
      ensures this.tableColumns == tableColumns && this.server == server
      ensures batchesCompleted == 0 && totalRecordsProcessed == 0
    {
      this.startDate := startDate;
      endDate := today;
      this.batchDays := batchDays;
      totalDays := today - startDate;
      totalBatches := FloorDiv(today - startDate, batchDays) + 1;
      this.tableColumns := tableColumns;
      this.server := server;
      batchesCompleted := 0;
      totalRecordsProcessed := 0;
    }

    /** `_build_merge_statement`: the key conditions are collected by a loop over the keys. */
    method BuildMergeStatement(tableName: string, columns: seq<string>, primaryKeys: seq<string>) returns (sql: string)
      ensures sql == MergeSql(tableName, columns, primaryKeys)
    {
      var conditions: seq<string> := [];
      for i := 0 to |primaryKeys|
        invariant conditions == MapText(KeyCondition, KeyColumns(columns, primaryKeys[..i]))
      {
        assert primaryKeys[..i + 1][..i] == primaryKeys[..i];
        if primaryKeys[i] in columns {
          conditions := conditions + [KeyCondition(primaryKeys[i])];
        }
      }
      assert primaryKeys[..|primaryKeys|] == primaryKeys;
      sql := MergeText(tableName, columns, primaryKeys, conditions);
    }

    /** One round-trip on the connection: whether it raised. */
    method Exchange() returns (failed: bool)
      modifies this
      ensures (failed, server) == RoundTrip(old(server))
      ensures batchesCompleted == old(batchesCompleted) && totalRecordsProcessed == old(totalRecordsProcessed)
    {
      failed := MisaLoader.Fails(server.faults);
      server := server.(faults := MisaLoader.Drop(server.faults));
    }

    /** `upsert_misa_data`; besides the verdict it hands back the two counters it logs. */
    method UpsertMisaData(df: Table, tableName: string, primaryKeys: seq<string>)
      returns (ok: bool, inserted: nat, updated: nat)
      modifies this
      ensures (ok, inserted, updated, server) == UpsertSpec(old(server), tableColumns, df, tableName, primaryKeys)
      ensures batchesCompleted == old(batchesCompleted) && totalRecordsProcessed == old(totalRecordsProcessed)
    {
      var failed := Exchange();
      if failed {
        return false, 0, 0;
      }
      failed := Exchange();
      if failed {
        return false, 0, 0;
      }
      var dbColumns := if tableName in tableColumns then tableColumns[tableName] else [];
      var columns := MisaLoader.Matching(dbColumns, Columns(df));
      if columns == [] {
        return false, 0, 0;
      }
      var sql := BuildMergeStatement(tableName, columns, primaryKeys);
      inserted, updated := MergeRows(sql, columns, df);
      failed := Exchange();
      ok := !failed;
    }

    /** The row loop of `upsert_misa_data`. */
    method MergeRows(sql: string, columns: seq<string>, df: Table) returns (inserted: nat, updated: nat)
      modifies this
      ensures (inserted, updated, server) == RowsFrom(old(server), sql, columns, df, 0, 0, 0)
      ensures batchesCompleted == old(batchesCompleted) && totalRecordsProcessed == old(totalRecordsProcessed)
    {
      ghost var target := RowsFrom(server, sql, columns, df, 0, 0, 0);
      inserted, updated := 0, 0;
      for i := 0 to |df|
        invariant RowsFrom(server, sql, columns, df, i, inserted, updated) == target
        invariant batchesCompleted == old(batchesCompleted) && totalRecordsProcessed == old(totalRecordsProcessed)
      {
        var values := RowValues(df[i], columns);
        var (out, next) := Execute(server, sql, values + values);
        server := next;
        if out == Some("INSERT") {
          inserted := inserted + 1;
        } else if out == Some("UPDATE") {
          updated := updated + 1;
        }
      }
    }

    /** `run_historical_backfill`: `initialized` is whether the components could be built, and
      * `process` gives `process_batch`'s record count for a window and its batch number. The
      * final summary divides by the batch count, so with no batches (a start date after today)
      * it raises and the run answers False. */
    method RunHistoricalBackfill(initialized: bool, process: (int, int, int) -> int) returns (ok: bool)
      modifies this
      ensures ok == (initialized && totalBatches != 0) && server == old(server)
      ensures !initialized ==> batchesCompleted == old(batchesCompleted) && totalRecordsProcessed == old(totalRecordsProcessed)
      ensures initialized ==> var w := WindowsFrom(startDate, endDate, batchDays, totalBatches);
        && batchesCompleted == old(batchesCompleted) + |w|
        && totalRecordsProcessed == old(totalRecordsProcessed) + WindowRecords(process, w, 1)
    {
      if !initialized {
        return false;
      }
      ghost var tally := RunFrom(process, startDate, endDate, batchDays, 1, totalBatches);
      RunOverWindows(process, startDate, endDate, batchDays, 1, totalBatches);
      var current := startDate;
      var batchNum := 1;
      var stop := false;
      while batchNum <= totalBatches && !stop
        invariant stop ==> batchesCompleted == old(batchesCompleted) + tally.0
                           && totalRecordsProcessed == old(totalRecordsProcessed) + tally.1
        invariant !stop ==> var rest := RunFrom(process, current, endDate, batchDays, batchNum, totalBatches - batchNum + 1);
                            && batchesCompleted + rest.0 == old(batchesCompleted) + tally.0
                            && totalRecordsProcessed + rest.1 == old(totalRecordsProcessed) + tally.1
        invariant server == old(server)
        decreases totalBatches - batchNum + 1, if stop then 0 else 1
      {
        var batchEnd := Min(current + batchDays, endDate);
        var records := process(current, batchEnd, batchNum);
        batchesCompleted := batchesCompleted + 1;
        totalRecordsProcessed := totalRecordsProcessed + records;
        current := batchEnd + 1;
        if current > endDate {
          stop := true;
        } else {
          batchNum := batchNum + 1;
        }
      }
      return totalBatches != 0;
    }
  }
}
