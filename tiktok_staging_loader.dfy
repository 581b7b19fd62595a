/** The marketplace orders loader (src/loaders/tiktok_shop_staging_loader.py): validation of the
  * flattened frame, the text cast and truncation of string columns, and the load-mode dispatch
  * onto one staging table of the database shared with the CRM loader. */
module TikTokStagingLoader {
  import opened Values
  import opened MisaLoader
  import TikTokTransformer

  // ---------------------------------------------------------------------------------------------
  // Validation

  /** The four columns a loadable frame must have. */
  const RequiredColumns: seq<string> := ["order_id", "etl_batch_id", "etl_created_at", "etl_updated_at"]

  /** `df[col] < 0` can compare the cell with zero: a number, a boolean or a missing value
    * (which compares False). Text, timestamps, lists and dicts raise `TypeError`. */
  predicate ComparesWithZero(v: Value)
  {
    v.Null? || v.Bool? || v.Int? || v.Real?
  }

  /** `_validate_dataframe`: every required column present, no null `order_id`. The negative
    * `item_quantity` check only logs, but the comparison itself raises on a cell that cannot
    * be compared with zero, and the handler then answers False. */
  function ValidFrame(df: Table): (ok: bool)
    ensures ok ==> forall c :: c in RequiredColumns ==> c in Columns(df)
    ensures ok ==> forall i :: 0 <= i < |df| ==> "order_id" in df[i] && df[i]["order_id"] != Null
  {
    && (forall c :: c in RequiredColumns ==> c in Columns(df))
    && NoNullIds(df)
    && ("item_quantity" in Columns(df) ==> QuantitiesCompare(df))
  }

  predicate NoNullIds(df: Table)
  {
    forall i :: 0 <= i < |df| ==> Get(df[i], "order_id") != Null
  }

  predicate QuantitiesCompare(df: Table)
  {
    forall i :: 0 <= i < |df| ==> ComparesWithZero(Get(df[i], "item_quantity"))
  }

  /** A missing required column, or a null `order_id` in any row, fails validation. */
  lemma ValidFrameRejects(df: Table, c: string, i: nat)
    ensures c in RequiredColumns && c !in Columns(df) ==> !ValidFrame(df)
    ensures i < |df| && Get(df[i], "order_id") == Null ==> !ValidFrame(df)
  {
  }

  /** Negative quantities only warn: making one `item_quantity` negative leaves the verdict as it was. */
  lemma NegativeQuantityOnlyWarns(df: Table, i: nat, q: int)
    requires i < |df| && "item_quantity" in df[i] && df[i]["item_quantity"].Int?
    ensures ValidFrame(df[i := df[i]["item_quantity" := Int(-q)]]) == ValidFrame(df)
  {
    var df' := df[i := df[i]["item_quantity" := Int(-q)]];
    forall j | 0 <= j < |df|
      ensures df[j].Keys == df'[j].Keys
      ensures Get(df'[j], "order_id") == Get(df[j], "order_id")
      ensures ComparesWithZero(Get(df'[j], "item_quantity")) == ComparesWithZero(Get(df[j], "item_quantity"))
    {
      if j == i {
        assert "order_id" != "item_quantity";
      }
    }
    RowwiseSameVerdict(df, df');
  }

  /** Frames that agree row by row on keys, on `order_id` and on whether `item_quantity` compares
    * with zero get the same verdict. */
  lemma RowwiseSameVerdict(a: Table, b: Table)
    requires |a| == |b|
    requires forall j :: 0 <= j < |a| ==> a[j].Keys == b[j].Keys
    requires forall j :: 0 <= j < |a| ==> Get(b[j], "order_id") == Get(a[j], "order_id")
    requires forall j :: 0 <= j < |a| ==>
      ComparesWithZero(Get(b[j], "item_quantity")) == ComparesWithZero(Get(a[j], "item_quantity"))
    ensures ValidFrame(b) == ValidFrame(a)
  {
    SameKeysSameColumns(a, b);
    SameIds(a, b);
    SameQuantities(a, b);
  }

  lemma SameIds(a: Table, b: Table)
    requires |a| == |b|
    requires forall j :: 0 <= j < |a| ==> Get(b[j], "order_id") == Get(a[j], "order_id")
    ensures NoNullIds(a) == NoNullIds(b)
  {
    if NoNullIds(a) {
      forall j | 0 <= j < |b| ensures Get(b[j], "order_id") != Null {
        assert Get(a[j], "order_id") != Null;
      }
    }
    if NoNullIds(b) {
      forall j | 0 <= j < |a| ensures Get(a[j], "order_id") != Null {
        assert Get(b[j], "order_id") != Null;
      }
    }
  }

  lemma SameQuantities(a: Table, b: Table)
    requires |a| == |b|
    requires forall j :: 0 <= j < |a| ==>
      ComparesWithZero(Get(b[j], "item_quantity")) == ComparesWithZero(Get(a[j], "item_quantity"))
    ensures QuantitiesCompare(a) == QuantitiesCompare(b)
  {
    if QuantitiesCompare(a) {
      forall j | 0 <= j < |b| ensures ComparesWithZero(Get(b[j], "item_quantity")) {
        assert ComparesWithZero(Get(a[j], "item_quantity"));
      }
    }
    if QuantitiesCompare(b) {
      forall j | 0 <= j < |a| ensures ComparesWithZero(Get(a[j], "item_quantity")) {
        assert ComparesWithZero(Get(b[j], "item_quantity"));
      }
    }
  }

  /** Two frames whose rows have the same keys, row by row, have the same columns. */
  lemma SameKeysSameColumns(a: Table, b: Table)
    requires |a| == |b| && forall i :: 0 <= i < |a| ==> a[i].Keys == b[i].Keys
    ensures Columns(a) == Columns(b)
  {
    forall k ensures k in Columns(a) <==> k in Columns(b) {
      if k in Columns(a) {
        var i :| 0 <= i < |a| && k in a[i];
        assert k in b[i];
      }
      if k in Columns(b) {
        var i :| 0 <= i < |b| && k in b[i];
        assert k in a[i];
      }
    }
  }

  /** The two validators disagree both ways. Whatever the loader's accepts the transformer's
    * `validate_dataframe` accepts too unless an `order_id` is a list or dict (which the loader
    * never hashes, and the transformer's `nunique` raises on); a frame with a null `order_id`
    * passes the transformer's check and fails the loader's. */
  lemma ValidatorsDisagreeOnNullIds()
    ensures forall df :: ValidFrame(df) && HashableColumn(df, "order_id") ==>
      TikTokTransformer.ValidateDataframe(df)
    ensures var df := [map["order_id" := Null, "etl_batch_id" := Str("b"),
                           "etl_created_at" := Time(0), "etl_updated_at" := Time(0)]];
      TikTokTransformer.ValidateDataframe(df) && !ValidFrame(df)
    ensures var df := [map["order_id" := List([]), "etl_batch_id" := Str("b"),
                           "etl_created_at" := Time(0), "etl_updated_at" := Time(0)]];
      !TikTokTransformer.ValidateDataframe(df) && ValidFrame(df)
  {
    forall df | ValidFrame(df) && HashableColumn(df, "order_id") ensures TikTokTransformer.ValidateDataframe(df) {
      assert "order_id" in RequiredColumns && "etl_batch_id" in RequiredColumns;
    }
    var df: Table := [map["order_id" := Null, "etl_batch_id" := Str("b"),
                          "etl_created_at" := Time(0), "etl_updated_at" := Time(0)]];
    assert "order_id" in df[0] && "etl_batch_id" in df[0];
    assert Get(df[0], "order_id") == Null;
    var bad: Table := [map["order_id" := List([]), "etl_batch_id" := Str("b"),
                           "etl_created_at" := Time(0), "etl_updated_at" := Time(0)]];
    assert bad[1..] == [];
    assert Columns(bad) == bad[0].Keys;
    assert "item_quantity" !in Columns(bad);
    assert NoNullIds(bad);
    UnhashableCellRaises(bad, "order_id", 0);
  }

  // ---------------------------------------------------------------------------------------------
  // Preparing the frame

  /** The seven string columns and the width each is cut to. */
  const StringLimits: seq<(string, nat)> := [
    ("order_id", 50), ("order_status", 50), ("currency", 10), ("item_id", 50),
    ("item_sku_id", 50), ("item_name", 500), ("item_sku_name", 500)]

  lemma LimitsAtLeastTen(m: nat)
    requires m < |StringLimits|
    ensures StringLimits[m].1 >= 10
  {
  }

  predicate Listed(c: string)
  {
    exists j :: 0 <= j < |StringLimits| && StringLimits[j].0 == c
  }

  /** `astype(str)` on one cell: text stays, None reads "None", a cell the row lacks is NaN and
    * reads "nan", integers and booleans print as Python prints them, and any other value goes
    * through `pyStr`, Python's `str`. */
  function CellText(r: Row, col: string, pyStr: Value -> string): string
  {
    if col !in r then "nan"
    else match r[col]
      case Str(s) => s
      case Null => "None"
      case Int(i) => IntText(i)
      case Bool(b) => if b then "True" else "False"
      case _ => pyStr(r[col])
  }

  /** `.str[:n]` */
  function Cut(s: string, n: nat): (r: string)
    ensures |r| <= n && |r| <= |s| && r == s[..|r|]
    ensures |s| <= n ==> r == s
  {
    s[..Min(n, |s|)]
  }

  /** `df[col] = df[col].astype(str).str[:limit]` */
  function CastColumn(t: Table, col: string, limit: nat, pyStr: Value -> string): Table
  {
    seq(|t|, i requires 0 <= i < |t| => t[i][col := Str(Cut(CellText(t[i], col, pyStr), limit))])
  }

  /** The column loop from entry `j` of the limits on, over the whole frame. */
  function PrepareFrom(t: Table, pyStr: Value -> string, j: nat): Table
    decreases |StringLimits| - j
  {
    if j >= |StringLimits| then t
    else
      var (col, limit) := StringLimits[j];
      PrepareFrom(if col in Columns(t) then CastColumn(t, col, limit, pyStr) else t, pyStr, j + 1)
  }

  /** `_prepare_dataframe_for_load`: the cast applied to every listed column the frame has. */
  function Prepared(t: Table, pyStr: Value -> string): Table
  {
    PrepareFrom(t, pyStr, 0)
  }

  /** The same column loop seen from one row, given the frame's columns. */
  function RowFrom(r: Row, present: set<string>, pyStr: Value -> string, j: nat): Row
    decreases |StringLimits| - j
  {
    if j >= |StringLimits| then r
    else
      var (col, limit) := StringLimits[j];
      RowFrom(if col in present then r[col := Str(Cut(CellText(r, col, pyStr), limit))] else r, present, pyStr, j + 1)
  }

  /** Casting a column the frame has adds no column and removes none. */
  lemma CastKeepsColumns(t: Table, col: string, limit: nat, pyStr: Value -> string)
    requires col in Columns(t)
    ensures Columns(CastColumn(t, col, limit, pyStr)) == Columns(t)
  {
    var r := CastColumn(t, col, limit, pyStr);
    forall k ensures k in Columns(r) <==> k in Columns(t) {
      if k in Columns(r) {
        var i :| 0 <= i < |r| && k in r[i];
        assert k == col || k in t[i];
      }
      if k in Columns(t) {
        var i :| 0 <= i < |t| && k in t[i];
        assert k in r[i];
      }
    }
  }

  /** The frame loop is the row loop on every row, and keeps the frame's columns. */
  lemma {:induction false} PrepareFromRows(t: Table, pyStr: Value -> string, j: nat)
    ensures |PrepareFrom(t, pyStr, j)| == |t|
    ensures forall i :: 0 <= i < |t| ==> PrepareFrom(t, pyStr, j)[i] == RowFrom(t[i], Columns(t), pyStr, j)
    decreases |StringLimits| - j
  {
    if j < |StringLimits| {
      var (col, limit) := StringLimits[j];
      if col in Columns(t) {
        var t1 := CastColumn(t, col, limit, pyStr);
        CastKeepsColumns(t, col, limit, pyStr);
        PrepareFromRows(t1, pyStr, j + 1);
        forall i | 0 <= i < |t| ensures PrepareFrom(t, pyStr, j)[i] == RowFrom(t[i], Columns(t), pyStr, j) {
          assert t1[i] == t[i][col := Str(Cut(CellText(t[i], col, pyStr), limit))];
        }
      } else {
        PrepareFromRows(t, pyStr, j + 1);
      }
    }
  }

  /** A key no remaining entry names passes through the row loop untouched. */
  lemma {:induction false} RowFromKeeps(r: Row, present: set<string>, pyStr: Value -> string, j: nat, k: string)
    requires forall m :: j <= m < |StringLimits| ==> StringLimits[m].0 != k
    ensures k in RowFrom(r, present, pyStr, j) <==> k in r
    ensures k in r ==> RowFrom(r, present, pyStr, j)[k] == r[k]
    decreases |StringLimits| - j
  {
    if j < |StringLimits| {
      var (col, limit) := StringLimits[j];
      var r1 := if col in present then r[col := Str(Cut(CellText(r, col, pyStr), limit))] else r;
      RowFromKeeps(r1, present, pyStr, j + 1, k);
    }
  }

  /** A listed column the frame has ends up as the cut text of the row's original cell. */
  lemma {:induction false} RowFromListed(r: Row, present: set<string>, pyStr: Value -> string, j: nat, m: nat)
    requires j <= m < |StringLimits| && StringLimits[m].0 in present
    ensures var (col, limit) := StringLimits[m];
      col in RowFrom(r, present, pyStr, j)
      && RowFrom(r, present, pyStr, j)[col] == Str(Cut(CellText(r, col, pyStr), limit))
    decreases m - j
  {
    var (col, limit) := StringLimits[m];
    var (c, l) := StringLimits[j];
    var r1 := if c in present then r[c := Str(Cut(CellText(r, c, pyStr), l))] else r;
    if j == m {
      RowFromKeeps(r1, present, pyStr, j + 1, col);
    } else {
      assert CellText(r1, col, pyStr) == CellText(r, col, pyStr);
      RowFromListed(r1, present, pyStr, j + 1, m);
    }
  }

  /** Preparing keeps every row and every column. In each listed column the frame has, a cell
    * becomes the text of the original value, cut to the column's limit (so a null becomes the
    * text "None"); every other key of a row is untouched. */
  lemma PreparedCells(t: Table, pyStr: Value -> string, i: nat, m: nat, k: string)
    requires i < |t| && m < |StringLimits|
    ensures |Prepared(t, pyStr)| == |t|
    ensures var (col, limit) := StringLimits[m];
      col in Columns(t) ==>
        && col in Prepared(t, pyStr)[i]
        && Prepared(t, pyStr)[i][col] == Str(Cut(CellText(t[i], col, pyStr), limit))
        && (col in t[i] && t[i][col] == Null ==> Prepared(t, pyStr)[i][col] == Str("None"))
    ensures !Listed(k) ==> (k in Prepared(t, pyStr)[i] <==> k in t[i])
    ensures !Listed(k) && k in t[i] ==> Prepared(t, pyStr)[i][k] == t[i][k]
  {
    PrepareFromRows(t, pyStr, 0);
    var (col, limit) := StringLimits[m];
    if col in Columns(t) {
      RowFromListed(t[i], Columns(t), pyStr, 0, m);
      LimitsAtLeastTen(m);
      assert col in t[i] && t[i][col] == Null ==> Cut(CellText(t[i], col, pyStr), limit) == "None";
    }
    if !Listed(k) {
      RowFromKeeps(t[i], Columns(t), pyStr, 0, k);
    }
  }

  // ---------------------------------------------------------------------------------------------
  // Loading

  /** `load_orders`: the result and the database afterwards, on the staging table `key`. */
  function LoadOrdersSpec(columns: map<TableName, seq<string>>, key: TableName, pyStr: Value -> string,
                          d: Db, df: Table, mode: string, validate: bool): (r: (bool, Db))
  {
    if IsEmptyFrame(df) then (true, d)
    else if validate && !ValidFrame(df) then (false, d)
    else
      var prepared := Prepared(df, pyStr);
      if mode == "truncate_insert" then
        var (truncated, d1) := Truncated(d, key);
        if !truncated then (false, d1) else ToSql(d1, columns, key, prepared, "append")
      else if mode == "replace" || mode == "append" then ToSql(d, columns, key, prepared, mode)
      else (false, d)
  }

  /** An empty frame is a success that writes nothing; a frame that fails validation, or an
    * unknown mode, is a failure that writes nothing and makes no round-trip. */
  lemma LoadOrdersGuards(columns: map<TableName, seq<string>>, key: TableName, pyStr: Value -> string,
                         d: Db, df: Table, mode: string, validate: bool)
    ensures IsEmptyFrame(df) ==> LoadOrdersSpec(columns, key, pyStr, d, df, mode, validate) == (true, d)
    ensures !IsEmptyFrame(df) && validate && !ValidFrame(df) ==>
      LoadOrdersSpec(columns, key, pyStr, d, df, mode, validate) == (false, d)
    ensures !IsEmptyFrame(df) && (!validate || ValidFrame(df)) && mode !in {"truncate_insert", "replace", "append"} ==>
      LoadOrdersSpec(columns, key, pyStr, d, df, mode, validate) == (false, d)
  {
  }

  /** What each mode leaves in the staging table: `append` adds the prepared rows at the end,
    * `replace` and `truncate_insert` leave exactly the prepared rows; a failed truncation fails
    * the load with the table as it was; no other table changes. */
  lemma LoadOrdersModes(columns: map<TableName, seq<string>>, key: TableName, pyStr: Value -> string,
                        d: Db, df: Table, mode: string, validate: bool)
    requires !IsEmptyFrame(df) && (!validate || ValidFrame(df))
    ensures var (ok, d') := LoadOrdersSpec(columns, key, pyStr, d, df, mode, validate);
      && (forall k :: k != key ==> Rows(d', k) == Rows(d, k))
      && (ok && mode == "append" ==> Rows(d', key) == Rows(d, key) + Prepared(df, pyStr))
      && (ok && mode in {"replace", "truncate_insert"} ==> Rows(d', key) == Prepared(df, pyStr))
      && (mode == "truncate_insert" && Fails(d.faults) ==> !ok && Rows(d', key) == Rows(d, key))
      && (!ok && mode != "truncate_insert" ==> Rows(d', key) == Rows(d, key))
  {
    if mode == "truncate_insert" {
      var (truncated, d1) := Truncated(d, key);
      if truncated {
        var (ok, d2) := ToSql(d1, columns, key, Prepared(df, pyStr), "append");
        assert ok ==> Rows(d2, key) == [] + Prepared(df, pyStr);
      }
    }
  }

  /** `load_incremental_orders`: its own empty check, then an appending, validated load. */
  function LoadIncrementalSpec(columns: map<TableName, seq<string>>, key: TableName, pyStr: Value -> string,
                               d: Db, df: Table): (r: (bool, Db))
  {
    if IsEmptyFrame(df) then (true, d) else LoadOrdersSpec(columns, key, pyStr, d, df, "append", true)
  }

  /** The incremental load is exactly a validated append. */
  lemma IncrementalIsValidatedAppend(columns: map<TableName, seq<string>>, key: TableName, pyStr: Value -> string,
                                     d: Db, df: Table)
    ensures LoadIncrementalSpec(columns, key, pyStr, d, df) == LoadOrdersSpec(columns, key, pyStr, d, df, "append", true)
  {
  }

  class TikTokShopOrderLoader {
    const db: StagingDatabase
    /** The staging table; the settings attributes naming it do not exist
      * (`Settings.UndefinedAttributes`), so it is given. */
    const key: TableName
    const pyStr: Value -> string

    constructor (db: StagingDatabase, key: TableName, pyStr: Value -> string)
      ensures this.db == db && this.key == key && this.pyStr == pyStr
    {
      this.db := db;
      this.key := key;
      this.pyStr := pyStr;
    }

    /** `load_orders` */
    method LoadOrders(df: Table, loadMode: string, validateBeforeLoad: bool) returns (ok: bool)
      modifies db
      ensures (ok, db.State()) == LoadOrdersSpec(db.columns, key, pyStr, old(db.State()), df, loadMode, validateBeforeLoad)
    {
      if IsEmptyFrame(df) {
        return true;
      }
      if validateBeforeLoad && !ValidFrame(df) {
        return false;
      }
      var prepared := PrepareDataframeForLoad(df);
      var mode := loadMode;
      if mode == "truncate_insert" {
        var truncated := db.Truncate(key);
        if !truncated {
          return false;
        }
        mode := "append";
      } else if mode == "replace" {
      } else if mode == "append" {
      } else {
        return false;
      }
      ok := db.InsertDataframe(key, prepared, mode);
    }

    /** `load_incremental_orders` */
    method LoadIncrementalOrders(df: Table) returns (ok: bool)
      modifies db
      ensures (ok, db.State()) == LoadIncrementalSpec(db.columns, key, pyStr, old(db.State()), df)
    {
      if IsEmptyFrame(df) {
        return true;
      }
      ok := LoadOrders(df, "append", true);
    }

    /** `_prepare_dataframe_for_load`: a copy whose listed columns are rewritten one by one. */
    method PrepareDataframeForLoad(df: Table) returns (prepared: Table)
      ensures prepared == Prepared(df, pyStr)
    {
      prepared := df;
      for j := 0 to |StringLimits|
        invariant PrepareFrom(prepared, pyStr, j) == Prepared(df, pyStr)
      {
        var (col, limit) := StringLimits[j];
        if col in Columns(prepared) {
          prepared := CastColumn(prepared, col, limit, pyStr);
        }
      }
    }
  }
}
