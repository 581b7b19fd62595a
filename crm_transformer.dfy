/** The CRM transformer: sale orders with nested product mappings are flattened to one row per
  * item (or one row per childless order), columns are coerced, and lineage metadata is stamped. */
module CrmTransformer {
  import opened Values

  const MappingsKey: string := "sale_order_product_mappings"

  /** The item columns a childless order's row sets to null. */
  const NullItemFields: seq<string> :=
    ["id", "product_code", "unit", "price", "amount", "total",
     "tax_percent", "discount_percent", "stock_name", "description"]

  const OrderPrefix: string := "order_"
  const ItemPrefix: string := "item_"
  const HasMultipleKey: string := "has_multiple_items"
  const TotalItemsKey: string := "total_items_in_order"

  // ---------------------------------------------------------------------------------------------
  // Row shapes

  /** A key that starts with "order_" does not start with "item_", nor is it a count column. */
  lemma OrderKeyIsNotItemKey(k: string)
    requires StartsWith(k, OrderPrefix)
    ensures !StartsWith(k, ItemPrefix) && k != HasMultipleKey && k != TotalItemsKey
  {
    assert k[0] == 'o';
  }

  lemma ItemKeyIsNotOrderKey(k: string)
    requires StartsWith(k, ItemPrefix)
    ensures !StartsWith(k, OrderPrefix) && k != HasMultipleKey && k != TotalItemsKey
  {
    assert k[0] == 'i';
  }

  /** The order without its nested product mappings. */
  function OrderMain(order: Row): (m: Row)
    ensures MappingsKey !in m
    ensures forall k :: k in order && k != MappingsKey ==> k in m && m[k] == order[k]
  {
    order - {MappingsKey}
  }

  function ItemCountFields(k: nat): Row
  {
    map[HasMultipleKey := Bool(k > 1), TotalItemsKey := Int(k)]
  }

  /** The row of one item of an order with `k` items. */
  function ItemRow(main: Row, item: Row, k: nat): Row
  {
    Prefixed(OrderPrefix, main) + Prefixed(ItemPrefix, item) + ItemCountFields(k)
  }

  function NullItemRow(): (m: Row)
    ensures forall f :: f in NullItemFields ==> ItemPrefix + f in m && m[ItemPrefix + f] == Null
    ensures forall k :: k in m ==> exists f :: f in NullItemFields && k == ItemPrefix + f
  {
    var keys := set f | f in NullItemFields :: ItemPrefix + f;
    map k | k in keys :: Null
  }

  /** The single row of an order without items. */
  function ChildlessRow(main: Row): Row
  {
    Prefixed(OrderPrefix, main) + NullItemRow() + map[HasMultipleKey := Bool(false), TotalItemsKey := Int(0)]
  }

  /** The product mappings of an order when iterating them succeeds: a falsy or absent value
    * means no items; a truthy value that is not a list of dicts makes the source raise (None). */
  function Children(order: Row): Option<seq<Row>>
  {
    var v := Get(order, MappingsKey);
    if !Truthy(v) then Some([])
    else if v.List? && forall i :: 0 <= i < |v.items| ==> v.items[i].Obj? then
      Some(seq(|v.items|, i requires 0 <= i < |v.items| && v.items[i].Obj? => v.items[i].fields))
    else None
  }

  /** The rows one order contributes. */
  function OrderRows(order: Row): Option<Table>
  {
    match Children(order)
    case None => None
    case Some(items) => Some(RowsOf(OrderMain(order), items))
  }

  function RowsOf(main: Row, items: seq<Row>): (rows: Table)
    ensures |rows| == if |items| == 0 then 1 else |items|
  {
    if |items| == 0 then [ChildlessRow(main)]
    else seq(|items|, j requires 0 <= j < |items| => ItemRow(main, items[j], |items|))
  }

  /** The flattened rows of a list of orders, in order; None when some order's mappings raise. */
  function FlattenSpec(orders: seq<Row>): Option<Table>
  {
    if |orders| == 0 then Some([])
    else
      match FlattenSpec(orders[..|orders| - 1])
      case None => None
      case Some(t) =>
        match OrderRows(orders[|orders| - 1])
        case None => None
        case Some(rs) => Some(t + rs)
  }

  /** max(1, k) rows per order whose mappings can be iterated. */
  function RowCount(orders: seq<Row>): nat
  {
    if |orders| == 0 then 0
    else
      var last := orders[|orders| - 1];
      RowCount(orders[..|orders| - 1])
        + (if Children(last).Some? && |Children(last).value| > 0 then |Children(last).value| else 1)
  }

  predicate Flattenable(orders: seq<Row>)
  {
    forall i :: 0 <= i < |orders| ==> Children(orders[i]).Some?
  }

  // ---------------------------------------------------------------------------------------------
  // Properties of the flattened rows

  /** Flattening succeeds exactly when every order's mappings can be iterated, and then yields
    * max(1, k) rows per order. */
  lemma {:induction false} FlattenLength(orders: seq<Row>)
    ensures FlattenSpec(orders).Some? <==> Flattenable(orders)
    ensures FlattenSpec(orders).Some? ==> |FlattenSpec(orders).value| == RowCount(orders)
  {
    if |orders| > 0 {
      var init := orders[..|orders| - 1];
      FlattenLength(init);
      assert forall i :: 0 <= i < |init| ==> init[i] == orders[i];
    }
  }

  lemma {:induction false} FlattenPrefix(orders: seq<Row>, n: nat)
    requires n <= |orders|
    requires FlattenSpec(orders).Some?
    ensures FlattenSpec(orders[..n]).Some?
    ensures FlattenSpec(orders[..n]).value <= FlattenSpec(orders).value
  {
    if n < |orders| {
      var init := orders[..|orders| - 1];
      assert orders[..n] == init[..n];
      FlattenPrefix(init, n);
    } else {
      assert orders[..n] == orders;
    }
  }

  /** The rows of order `i` sit right after the rows of the orders before it: input order is kept,
    * and within an order the items keep their list order. */
  lemma FlattenRowsOfOrder(orders: seq<Row>, i: nat)
    requires i < |orders|
    requires FlattenSpec(orders).Some?
    ensures OrderRows(orders[i]).Some?
    ensures FlattenSpec(orders[..i]).Some?
    ensures
      var before := FlattenSpec(orders[..i]).value;
      var mine := OrderRows(orders[i]).value;
      |before| + |mine| <= |FlattenSpec(orders).value|
      && FlattenSpec(orders).value[|before|..|before| + |mine|] == mine
  {
    FlattenPrefix(orders, i + 1);
    FlattenStep(orders, i);
    SliceOfPrefix(FlattenSpec(orders[..i]).value, OrderRows(orders[i]).value, FlattenSpec(orders).value);
  }

  /** Every row of an order carries `order_<key>` = the order's value for every key except the
    * mappings, so those fields are identical across that order's rows. */
  lemma OrderFieldsOnEveryRow(order: Row, rows: Table, r: nat, key: string)
    requires OrderRows(order) == Some(rows) && r < |rows|
    requires key in order && key != MappingsKey
    ensures OrderPrefix + key in rows[r] && rows[r][OrderPrefix + key] == order[key]
  {
    var k := OrderPrefix + key;
    PrefixStarts(OrderPrefix, key);
    OrderKeyIsNotItemKey(k);
    forall f | f in NullItemFields ensures k != ItemPrefix + f {
      PrefixStarts(ItemPrefix, f);
    }
    assert k in Prefixed(OrderPrefix, OrderMain(order));
  }

  /** Item rows carry `item_<key>` for every key of their item. */
  lemma ItemFieldsOnItemRow(order: Row, rows: Table, j: nat, key: string)
    requires OrderRows(order) == Some(rows)
    requires Children(order).Some? && j < |Children(order).value|
    requires key in Children(order).value[j]
    ensures j < |rows|
    ensures ItemPrefix + key in rows[j] && rows[j][ItemPrefix + key] == Children(order).value[j][key]
  {
    var k := ItemPrefix + key;
    PrefixStarts(ItemPrefix, key);
    ItemKeyIsNotOrderKey(k);
  }

  /** `has_multiple_items` = (k > 1) and `total_items_in_order` = k on every row of an order with
    * k items; False and 0 on a childless order's row. */
  lemma ItemCountsOnEveryRow(order: Row, rows: Table, r: nat)
    requires OrderRows(order) == Some(rows) && r < |rows|
    ensures HasMultipleKey in rows[r] && TotalItemsKey in rows[r]
    ensures var k := |Children(order).value|;
      rows[r][HasMultipleKey] == Bool(k > 1) && rows[r][TotalItemsKey] == Int(k)
  {
    var items := Children(order).value;
    var main := OrderMain(order);
    OrderRowsOf(order);
    if |items| == 0 {
      assert rows[r] == ChildlessRow(main);
    } else {
      RowsOfAt(main, items, r);
      var counts := ItemCountFields(|items|);
      assert HasMultipleKey in counts && TotalItemsKey in counts;
    }
  }

  lemma OrderRowsOf(order: Row)
    requires Children(order).Some?
    ensures OrderRows(order) == Some(RowsOf(OrderMain(order), Children(order).value))
  {
  }

  lemma RowsOfAt(main: Row, items: seq<Row>, r: nat)
    requires r < |items|
    ensures RowsOf(main, items)[r] == ItemRow(main, items[r], |items|)
  {
  }

  /** A childless order contributes one row whose `item_` fields are exactly the ten listed
    * fields, all null. */
  lemma ChildlessRowItemFields(order: Row, rows: Table)
    requires OrderRows(order) == Some(rows) && Children(order) == Some([])
    ensures |rows| == 1
    ensures forall f :: f in NullItemFields ==> ItemPrefix + f in rows[0] && rows[0][ItemPrefix + f] == Null
    ensures forall k :: k in rows[0] && StartsWith(k, ItemPrefix) ==>
      exists f :: f in NullItemFields && k == ItemPrefix + f
  {
    var main := OrderMain(order);
    assert rows[0] == ChildlessRow(main);
    NullFieldsOnChildlessRow(main);
    ItemKeysOfChildlessRow(main);
  }

  lemma NullFieldsOnChildlessRow(main: Row)
    ensures forall f :: f in NullItemFields ==>
      ItemPrefix + f in ChildlessRow(main) && ChildlessRow(main)[ItemPrefix + f] == Null
  {
    forall f | f in NullItemFields
      ensures ItemPrefix + f in ChildlessRow(main) && ChildlessRow(main)[ItemPrefix + f] == Null
    {
      PrefixStarts(ItemPrefix, f);
      ItemKeyIsNotOrderKey(ItemPrefix + f);
    }
  }

  lemma ItemKeysOfChildlessRow(main: Row)
    ensures forall k :: k in ChildlessRow(main) && StartsWith(k, ItemPrefix) ==>
      exists f :: f in NullItemFields && k == ItemPrefix + f
  {
    forall k | k in ChildlessRow(main) && StartsWith(k, ItemPrefix)
      ensures exists f :: f in NullItemFields && k == ItemPrefix + f
    {
      ItemKeyIsNotOrderKey(k);
      if k in Prefixed(OrderPrefix, main) {
        PrefixedKeyStarts(OrderPrefix, main, k);
      }
    }
  }

  // ---------------------------------------------------------------------------------------------
  // The flattening loop

  lemma FlattenStep(orders: seq<Row>, i: nat)
    requires i < |orders|
    ensures FlattenSpec(orders[..i + 1]) ==
      match FlattenSpec(orders[..i])
      case None => None
      case Some(t) =>
        match OrderRows(orders[i])
        case None => None
        case Some(rs) => Some(t + rs)
  {
    var p := orders[..i + 1];
    assert p[..|p| - 1] == orders[..i];
  }

  lemma {:induction false} FlattenNoneStays(orders: seq<Row>, n: nat)
    requires n <= |orders|
    requires FlattenSpec(orders[..n]).None?
    ensures FlattenSpec(orders).None?
  {
    if FlattenSpec(orders).Some? {
      FlattenPrefix(orders, n);
    }
  }

  /** The nested loops of the flattening: one row per item, or one row for a childless order. */
  method FlattenOrders(orders: seq<Row>) returns (rows: Option<Table>)
    ensures rows == FlattenSpec(orders)
  {
    var acc: Table := [];
    var i := 0;
    while i < |orders|
      invariant 0 <= i <= |orders|
      invariant FlattenSpec(orders[..i]) == Some(acc)
    {
      var order := orders[i];
      var children := Children(order);
      FlattenStep(orders, i);
      if children.None? {
        FlattenNoneStays(orders, i + 1);
        return None;
      }
      acc := AppendOrderRows(acc, order, children.value);
      i := i + 1;
    }
    assert orders[..i] == orders;
    return Some(acc);
  }

  /** The inner loop: one row per item, or the single childless row. */
  method AppendOrderRows(acc0: Table, order: Row, items: seq<Row>) returns (acc: Table)
    requires Children(order) == Some(items)
    ensures acc == acc0 + OrderRows(order).value
  {
    acc := AppendRows(acc0, OrderMain(order), items);
  }

  method AppendRows(acc0: Table, main: Row, items: seq<Row>) returns (acc: Table)
    ensures acc == acc0 + RowsOf(main, items)
  {
    if |items| == 0 {
      return acc0 + [ChildlessRow(main)];
    }
    ghost var mine := RowsOf(main, items);
    acc := acc0;
    for j := 0 to |items|
      invariant acc == acc0 + mine[..j]
    {
      var row := ItemRow(main, items[j], |items|);
      assert mine[j] == row;
      TakeSnoc(acc0, mine, j);
      acc := acc + [row];
    }
    assert mine[..|items|] == mine;
  }

  // ---------------------------------------------------------------------------------------------
  // Column coercion

  /** A column conversion: `pd.to_numeric`/`pd.to_datetime` with errors='coerce' are total (an
    * unparsable cell becomes null inside `f`); `astype(bool, errors='ignore')` may fail on a cell,
    * and then the whole column is left as it was. */
  datatype Conversion = Coerce(f: Value -> Value) | IgnoreErrors(g: Value -> Option<Value>)

  /** A conversion step: the listed columns, converted one after another when present. */
  datatype Step = Step(cols: seq<string>, conv: Conversion)

  predicate Converts(t: Table, col: string, c: Conversion)
  {
    col in Columns(t) && (c.IgnoreErrors? ==> forall i :: 0 <= i < |t| ==> c.g(Get(t[i], col)).Some?)
  }

  function ConvertCell(v: Value, c: Conversion): Value
  {
    match c
    case Coerce(f) => f(v)
    case IgnoreErrors(g) => if g(v).Some? then g(v).value else v
  }

  /** `if col in df.columns: df[col] = <conversion of df[col]>` */
  function ConvertColumn(t: Table, col: string, c: Conversion): (r: Table)
    ensures |r| == |t|
  {
    if Converts(t, col, c) then seq(|t|, i requires 0 <= i < |t| => t[i][col := ConvertCell(Get(t[i], col), c)])
    else t
  }

  /** The columns of `cols`, converted in list order. */
  function ConvertColumns(t: Table, cols: seq<string>, c: Conversion): (r: Table)
    ensures |r| == |t|
  {
    if |cols| == 0 then t else ConvertColumn(ConvertColumns(t, cols[..|cols| - 1], c), cols[|cols| - 1], c)
  }

  function ApplySteps(t: Table, steps: seq<Step>): (r: Table)
    ensures |r| == |t|
  {
    if |steps| == 0 then t
    else
      var last := steps[|steps| - 1];
      ConvertColumns(ApplySteps(t, steps[..|steps| - 1]), last.cols, last.conv)
  }

  /** Adding one key to every row of a frame that already has that column leaves its columns as
    * they were. */
  lemma {:induction false} ColumnsAfterUpdate(t: Table, r: Table, col: string)
    requires |r| == |t|
    requires forall i :: 0 <= i < |t| ==> r[i].Keys == t[i].Keys + {col}
    ensures Columns(r) == Columns(t) + (if |t| == 0 then {} else {col})
  {
    if |t| > 0 {
      ColumnsAfterUpdate(t[1..], r[1..], col);
    }
  }

  /** Converting a column never changes the row count or the set of columns, and leaves every
    * other column's cells as they were; a present column's cells become the conversions of the old
    * cells (all of them, or none when the bool cast fails on some cell). */
  lemma ConvertColumnEffect(t: Table, col: string, c: Conversion)
    ensures Columns(ConvertColumn(t, col, c)) == Columns(t)
    ensures forall i, k :: 0 <= i < |t| && k != col ==> Get(ConvertColumn(t, col, c)[i], k) == Get(t[i], k)
    ensures forall i :: 0 <= i < |t| ==>
      Get(ConvertColumn(t, col, c)[i], col) == (if Converts(t, col, c) then ConvertCell(Get(t[i], col), c) else Get(t[i], col))
  {
    var r := ConvertColumn(t, col, c);
    if Converts(t, col, c) {
      ColumnsAfterUpdate(t, r, col);
    }
  }

  /** The conversions of a list of columns keep the row count, the columns, and every column that is
    * not listed. */
  lemma {:induction false} ConvertColumnsFrame(t: Table, cols: seq<string>, c: Conversion)
    ensures Columns(ConvertColumns(t, cols, c)) == Columns(t)
    ensures forall i, k :: 0 <= i < |t| && k !in cols ==> Get(ConvertColumns(t, cols, c)[i], k) == Get(t[i], k)
  {
    if |cols| > 0 {
      var init := cols[..|cols| - 1];
      var last := cols[|cols| - 1];
      var mid := ConvertColumns(t, init, c);
      var r := ConvertColumns(t, cols, c);
      assert r == ConvertColumn(mid, last, c);
      ConvertColumnsFrame(t, init, c);
      ConvertColumnEffect(mid, last, c);
      forall i, k | 0 <= i < |t| && k !in cols
        ensures Get(r[i], k) == Get(t[i], k)
      {
        assert k !in init && k != last;
      }
    }
  }

  /** When the listed columns are distinct, each listed column that is present holds, in every row,
    * the converted original cell (or the original column, when a bool cast fails). */
  lemma {:induction false} ConvertColumnsCells(t: Table, cols: seq<string>, c: Conversion, n: nat)
    requires n < |cols|
    requires forall a, b :: 0 <= a < b < |cols| ==> cols[a] != cols[b]
    ensures var r := ConvertColumns(t, cols, c);
      forall i :: 0 <= i < |t| ==>
        Get(r[i], cols[n]) == (if Converts(t, cols[n], c) then ConvertCell(Get(t[i], cols[n]), c) else Get(t[i], cols[n]))
  {
    var init := cols[..|cols| - 1];
    var last := cols[|cols| - 1];
    var mid := ConvertColumns(t, init, c);
    var r := ConvertColumns(t, cols, c);
    assert r == ConvertColumn(mid, last, c);
    ConvertColumnsFrame(t, init, c);
    ConvertColumnEffect(mid, last, c);
    if n == |cols| - 1 {
      assert last !in init;
      assert Converts(mid, last, c) == Converts(t, last, c) by {
        forall i | 0 <= i < |t| ensures Get(mid[i], last) == Get(t[i], last) {
        }
      }
    } else {
      ConvertColumnsCells(t, init, c, n);
      assert cols[n] == init[n] && cols[n] != last;
    }
  }

  /** The coercion loop `for col in cols: if col in df.columns: df[col] = ...`. */
  method ConvertColumnsLoop(t: Table, cols: seq<string>, c: Conversion) returns (r: Table)
    ensures r == ConvertColumns(t, cols, c)
  {
    r := t;
    var i := 0;
    while i < |cols|
      invariant 0 <= i <= |cols|
      invariant r == ConvertColumns(t, cols[..i], c)
    {
      assert cols[..i + 1][..i] == cols[..i];
      if cols[i] in Columns(r) {
        r := ConvertColumn(r, cols[i], c);
      }
      i := i + 1;
    }
    assert cols[..i] == cols;
  }

  // ---------------------------------------------------------------------------------------------
  // Lineage metadata

  const BatchIdKey: string := "etl_batch_id"
  const CreatedAtKey: string := "etl_created_at"
  const UpdatedAtKey: string := "etl_updated_at"
  const SourceKey: string := "etl_source"
  const SourceName: string := "misa_crm_api"

  /** The four lineage columns; the two timestamps come from two separate reads of the clock. */
  function EtlMetadata(batchId: Value, createdAt: int, updatedAt: int): Row
  {
    map[BatchIdKey := batchId, CreatedAtKey := Time(createdAt), UpdatedAtKey := Time(updatedAt),
        SourceKey := Str(SourceName)]
  }

  function Stamp(t: Table, meta: Row): (r: Table)
    ensures |r| == |t|
  {
    seq(|t|, i requires 0 <= i < |t| => t[i] + meta)
  }

  /** Stamping writes the lineage columns on every row of a copy and keeps every other cell. */
  lemma StampEffect(t: Table, batchId: Value, createdAt: int, updatedAt: int)
    ensures var r := Stamp(t, EtlMetadata(batchId, createdAt, updatedAt));
      forall i :: 0 <= i < |t| ==>
        && Get(r[i], BatchIdKey) == batchId
        && Get(r[i], SourceKey) == Str(SourceName)
        && Get(r[i], CreatedAtKey) == Time(createdAt)
        && Get(r[i], UpdatedAtKey) == Time(updatedAt)
        && forall k :: k !in {BatchIdKey, CreatedAtKey, UpdatedAtKey, SourceKey} ==> Get(r[i], k) == Get(t[i], k)
  {
  }

  // ---------------------------------------------------------------------------------------------
  // Endpoint transforms

  /** A plain endpoint transform: nothing for no records, else the records converted step by step
    * and stamped. */
  function TransformSpec(data: seq<Row>, steps: seq<Step>, meta: Row): Table
  {
    if |data| == 0 then [] else Stamp(ApplySteps(data, steps), meta)
  }

  /** The sale-orders transform: flattened, converted and stamped; a frame without columns is
    * returned unstamped; None when the source raises while iterating product mappings. */
  function SaleOrdersSpec(orders: seq<Row>, steps: seq<Step>, meta: Row): Option<Table>
  {
    if |orders| == 0 then Some([])
    else
      match FlattenSpec(orders)
      case None => None
      case Some(t) => if IsEmptyFrame(t) then Some(t) else Some(Stamp(ApplySteps(t, steps), meta))
  }

  lemma {:induction false} ApplyStepsFrame(t: Table, steps: seq<Step>)
    ensures Columns(ApplySteps(t, steps)) == Columns(t)
    ensures forall i, k :: 0 <= i < |t| && (forall s :: 0 <= s < |steps| ==> k !in steps[s].cols) ==>
      Get(ApplySteps(t, steps)[i], k) == Get(t[i], k)
  {
    if |steps| > 0 {
      var init := steps[..|steps| - 1];
      ApplyStepsFrame(t, init);
      ConvertColumnsFrame(ApplySteps(t, init), steps[|steps| - 1].cols, steps[|steps| - 1].conv);
    }
  }

  /** A plain transform keeps one row per record, in order; every row carries the lineage columns,
    * and every column no step lists keeps the record's value. */
  lemma TransformRows(data: seq<Row>, steps: seq<Step>, batchId: Value, createdAt: int, updatedAt: int)
    requires |data| > 0
    ensures var r := TransformSpec(data, steps, EtlMetadata(batchId, createdAt, updatedAt));
      && |r| == |data|
      && forall i :: 0 <= i < |r| ==>
        && Get(r[i], BatchIdKey) == batchId
        && Get(r[i], SourceKey) == Str(SourceName)
        && forall k ::
             (k !in {BatchIdKey, CreatedAtKey, UpdatedAtKey, SourceKey}
              && forall s :: 0 <= s < |steps| ==> k !in steps[s].cols)
             ==> Get(r[i], k) == Get(data[i], k)
  {
    ApplyStepsFrame(data, steps);
    StampEffect(ApplySteps(data, steps), batchId, createdAt, updatedAt);
  }

  const CustomerNumeric: seq<string> :=
    ["annual_revenue", "debt", "debt_limit", "number_of_days_owed", "number_orders", "order_sales",
     "average_order_value", "average_number_of_days_between_purchases", "number_days_without_purchase",
     "billing_long", "billing_lat", "shipping_long", "shipping_lat", "total_score"]
  const CustomerDates: seq<string> :=
    ["purchase_date_recent", "purchase_date_first", "customer_since_date", "last_interaction_date",
     "last_visit_date", "last_call_date", "issued_on", "celebrate_date", "created_date", "modified_date",
     "last_modified_date"]
  const CustomerBools: seq<string> := ["is_personal", "inactive", "is_public", "is_distributor", "is_portal_access"]

  const OrderNumeric: seq<string> :=
    ["order_sale_order_amount", "order_total_summary", "order_tax_summary", "order_discount_summary",
     "order_to_currency_summary", "order_total_receipted_amount", "order_balance_receipt_amount",
     "order_invoiced_amount", "order_un_invoiced_amount", "order_exchange_rate"]
  const ItemNumeric: seq<string> :=
    ["item_price", "item_amount", "item_usage_unit_amount", "item_usage_unit_price", "item_total",
     "item_to_currency", "item_discount", "item_tax", "item_discount_percent", "item_price_after_tax",
     "item_price_after_discount", "item_to_currency_after_discount", "item_height", "item_width",
     "item_length", "item_radius", "item_mass", "item_exist_amount", "item_shipping_amount", "item_ratio",
     "item_custom_field1", "item_produced_quantity", "item_quantity_ordered"]
  const OrderDates: seq<string> :=
    ["order_sale_order_date", "order_due_date", "order_book_date", "order_deadline_date",
     "order_delivery_date", "order_paid_date", "order_invoice_date", "order_production_date"]
  const ItemDates: seq<string> := ["item_expire_date"]
  const OrderBools: seq<string> := ["order_is_use_currency", "item_is_promotion"]

  const ContactNumeric: seq<string> :=
    ["mailing_long", "mailing_lat", "shipping_long", "shipping_lat", "total_score", "number_days_not_interacted"]
  const ContactDates: seq<string> :=
    ["date_of_birth", "customer_since_date", "last_interaction_date", "last_visit_date", "last_call_date",
     "created_date", "modified_date"]
  const ContactBools: seq<string> := ["email_opt_out", "phone_opt_out", "inactive", "is_public"]

  const StockDates: seq<string> := ["created_date", "modified_date"]
  const StockBools: seq<string> := ["inactive"]

  const ProductNumeric: seq<string> :=
    ["unit_price", "purchased_price", "unit_cost", "unit_price1", "unit_price2", "unit_price_fixed"]
  const ProductDates: seq<string> := ["created_date", "modified_date"]
  const ProductBools: seq<string> :=
    ["price_after_tax", "is_use_tax", "is_follow_serial_number", "is_set_product", "inactive", "is_public"]

  // ---------------------------------------------------------------------------------------------
  // Validation of the flattened frame

  datatype FlattenValidation = FlattenValidation(
    totalOriginalOrders: nat,
    totalFlattenedRows: nat,
    uniqueOrdersInFlattened: nat,
    ordersWithMultipleItems: nat,
    ordersWithoutItems: nat,
    totalItemsOriginal: nat,
    totalItemsFlattened: nat,
    validationPassed: bool)

  /** Python `len(v)`: defined for strings, lists and dicts; anything else raises. */
  function PyLen(v: Value): Option<nat>
  {
    match v
    case Str(s) => Some(|s|)
    case List(xs) => Some(|xs|)
    case Obj(m) => Some(|m|)
    case _ => None
  }

  /** `len(order.get('sale_order_product_mappings', []))` */
  function ItemsLen(order: Row): Option<nat>
  {
    if MappingsKey in order then PyLen(order[MappingsKey]) else Some(0)
  }

  datatype ItemTally = ItemTally(total: nat, multiple: nat, without: nat)

  /** The counting loop over the original orders; None when some `len` raises. */
  function TallyItems(orders: seq<Row>): Option<ItemTally>
  {
    if |orders| == 0 then Some(ItemTally(0, 0, 0))
    else
      match TallyItems(orders[..|orders| - 1])
      case None => None
      case Some(t) =>
        match ItemsLen(orders[|orders| - 1])
        case None => None
        case Some(n) =>
          Some(ItemTally(t.total + n, t.multiple + (if n > 1 then 1 else 0), t.without + (if n == 0 then 1 else 0)))
  }

  /** `len(df[df[c].notna()])` */
  function NotNullCount(t: Table, c: string): nat
  {
    if |t| == 0 then 0
    else NotNullCount(t[..|t| - 1], c) + (if Get(t[|t| - 1], c) != Null then 1 else 0)
  }

  const OrderIdCol: string := "order_id"
  const ItemIdCol: string := "item_id"

  function EmptyValidation(df: Table, orders: seq<Row>): FlattenValidation
  {
    FlattenValidation(|orders|, |df|, 0, 0, 0, 0, 0, false)
  }

  /** The validator's result for a non-empty frame; None where the source raises (a missing
    * `order_id`/`item_id` column, a list or dict `order_id` that `nunique` cannot hash, or an
    * order whose mappings have no length). Distinct order ids are counted under Python
    * equality, so `1` and `1.0` are one order. */
  function ValidationSpec(df: Table, orders: seq<Row>): Option<FlattenValidation>
  {
    if OrderIdCol !in Columns(df) then None
    else
      match NUnique(df, OrderIdCol)
      case None => None
      case Some(unique) =>
        match TallyItems(orders)
        case None => None
        case Some(tally) =>
          if ItemIdCol !in Columns(df) then None
          else
            var flattened := NotNullCount(df, ItemIdCol);
            Some(FlattenValidation(|orders|, |df|, unique, tally.multiple, tally.without, tally.total, flattened,
              unique == |orders| && flattened == tally.total))
  }

  /** `validate_flattened_data`: an empty frame fails at once; otherwise the counters are
    * accumulated over the original orders and the two checks decide. */
  method ValidateFlattenedData(df: Table, orders: seq<Row>) returns (res: Option<FlattenValidation>)
    ensures IsEmptyFrame(df) ==> res == Some(EmptyValidation(df, orders))
    ensures !IsEmptyFrame(df) ==> res == ValidationSpec(df, orders)
    ensures res.Some? ==> (res.value.validationPassed <==>
      !IsEmptyFrame(df) && res.value.uniqueOrdersInFlattened == |orders|
      && res.value.totalItemsFlattened == res.value.totalItemsOriginal)
  {
    if Columns(df) == {} {
      return Some(EmptyValidation(df, orders));
    }
    if OrderIdCol !in Columns(df) {
      return None;
    }
    var unique := NUnique(df, OrderIdCol);
    if unique.None? {
      return None;
    }
    var total: nat, multiple: nat, without: nat := 0, 0, 0;
    var i := 0;
    while i < |orders|
      invariant 0 <= i <= |orders|
      invariant TallyItems(orders[..i]) == Some(ItemTally(total, multiple, without))
    {
      assert orders[..i + 1][..i] == orders[..i];
      var n := ItemsLen(orders[i]);
      if n.None? {
        TallyNoneStays(orders, i + 1);
        return None;
      }
      total := total + n.value;
      if n.value > 1 {
        multiple := multiple + 1;
      } else if n.value == 0 {
        without := without + 1;
      }
      i := i + 1;
    }
    assert orders[..i] == orders;
    if ItemIdCol !in Columns(df) {
      return None;
    }
    var flattened := NotNullCount(df, ItemIdCol);
    res := Some(FlattenValidation(|orders|, |df|, unique.value, multiple, without, total, flattened,
      unique.value == |orders| && flattened == total));
  }

  /** A list or dict `order_id` makes `nunique` raise, and nothing in the validator catches it. */
  lemma UnhashableOrderIdRaises(df: Table, orders: seq<Row>, i: nat)
    requires OrderIdCol in Columns(df) && i < |df| && !Hashable(Get(df[i], OrderIdCol))
    ensures ValidationSpec(df, orders).None?
  {
    UnhashableCellRaises(df, OrderIdCol, i);
  }

  lemma {:induction false} TallyNoneStays(orders: seq<Row>, n: nat)
    requires n <= |orders|
    requires TallyItems(orders[..n]).None?
    ensures TallyItems(orders).None?
  {
    if n < |orders| {
      var init := orders[..|orders| - 1];
      assert init[..n] == orders[..n];
      TallyNoneStays(init, n);
    } else {
      assert orders[..n] == orders;
    }
  }

  // ---------------------------------------------------------------------------------------------
  // The validator accepts what the flattening produces

  const IdKey: string := "id"

  /** Orders shaped as the API sends them: every order has a non-null hashable `id`, distinct
    * from the other orders' ids under Python equality, and its mappings are absent or a list of
    * dicts, each with a non-null `id`. */
  predicate WellFormedOrders(orders: seq<Row>)
  {
    && (forall i :: 0 <= i < |orders| ==> WellFormedOrder(orders[i]))
    && (forall i, j :: 0 <= i < j < |orders| ==> PyKey(Get(orders[i], IdKey)) != PyKey(Get(orders[j], IdKey)))
  }

  predicate WellFormedOrder(order: Row)
  {
    && PyKey(Get(order, IdKey)).Some?
    && (MappingsKey in order ==> order[MappingsKey].List?)
    && Children(order).Some?
    && forall j :: 0 <= j < |Children(order).value| ==> Get(Children(order).value[j], IdKey) != Null
  }

  /** The hash keys of the orders' ids. */
  function IdSet(orders: seq<Row>): set<HashKey>
  {
    if |orders| == 0 then {}
    else
      IdSet(orders[..|orders| - 1]) + match PyKey(Get(orders[|orders| - 1], IdKey)) { case Some(k) => {k} case None => {} }
  }

  lemma {:induction false} IdSetSize(orders: seq<Row>)
    requires forall i :: 0 <= i < |orders| ==> PyKey(Get(orders[i], IdKey)).Some?
    requires forall i, j :: 0 <= i < j < |orders| ==> PyKey(Get(orders[i], IdKey)) != PyKey(Get(orders[j], IdKey))
    ensures |IdSet(orders)| == |orders|
  {
    if |orders| > 0 {
      var init := orders[..|orders| - 1];
      IdSetSize(init);
      var last := PyKey(Get(orders[|orders| - 1], IdKey)).value;
      if last in IdSet(init) {
        IdSetMembers(init, last);
        assert false;
      }
    }
  }

  lemma {:induction false} IdSetMembers(orders: seq<Row>, k: HashKey)
    requires k in IdSet(orders)
    ensures exists i :: 0 <= i < |orders| && PyKey(Get(orders[i], IdKey)) == Some(k)
  {
    var init := orders[..|orders| - 1];
    if PyKey(Get(orders[|orders| - 1], IdKey)) != Some(k) {
      IdSetMembers(init, k);
      var i :| 0 <= i < |init| && PyKey(Get(init[i], IdKey)) == Some(k);
      assert orders[i] == init[i];
    }
  }

  lemma {:induction false} NotNullCountAppend(t: Table, u: Table, c: string)
    ensures NotNullCount(t + u, c) == NotNullCount(t, c) + NotNullCount(u, c)
  {
    if |u| > 0 {
      var init := u[..|u| - 1];
      assert (t + u)[..|t + u| - 1] == t + init;
      NotNullCountAppend(t, init, c);
    } else {
      assert t + u == t;
    }
  }

  lemma {:induction false} ConstantColumn(t: Table, c: string, v: Value)
    requires |t| > 0 && PyKey(v).Some?
    requires forall i :: 0 <= i < |t| ==> Get(t[i], c) == v
    ensures ColumnKeys(t, c) == {PyKey(v).value}
  {
    if |t| > 1 {
      ConstantColumn(t[..|t| - 1], c, v);
    }
  }

  lemma {:induction false} NonNullColumn(t: Table, c: string)
    requires forall i :: 0 <= i < |t| ==> Get(t[i], c) != Null
    ensures NotNullCount(t, c) == |t|
  {
    if |t| > 0 {
      NonNullColumn(t[..|t| - 1], c);
    }
  }

  /** One well-formed order's rows all carry its id as `order_id`. */
  lemma OneOrderIds(order: Row)
    requires WellFormedOrder(order)
    ensures OrderRows(order).Some? && |OrderRows(order).value| > 0
    ensures ColumnKeys(OrderRows(order).value, OrderIdCol) == {PyKey(Get(order, IdKey)).value}
    ensures forall r :: 0 <= r < |OrderRows(order).value| ==> Get(OrderRows(order).value[r], OrderIdCol) == Get(order, IdKey)
    ensures OrderIdCol in OrderRows(order).value[0]
  {
    var rows := OrderRows(order).value;
    assert OrderIdCol == OrderPrefix + IdKey;
    assert IdKey in order;
    forall r | 0 <= r < |rows| ensures Get(rows[r], OrderIdCol) == Get(order, IdKey) {
      OrderFieldsOnEveryRow(order, rows, r, IdKey);
    }
    ConstantColumn(rows, OrderIdCol, Get(order, IdKey));
    OrderFieldsOnEveryRow(order, rows, 0, IdKey);
  }

  /** Exactly the items of a well-formed order have a non-null `item_id` among its rows. */
  lemma OneOrderItems(order: Row)
    requires WellFormedOrder(order)
    ensures OrderRows(order).Some? && |OrderRows(order).value| > 0
    ensures NotNullCount(OrderRows(order).value, ItemIdCol) == |Children(order).value|
    ensures ItemsLen(order) == Some(|Children(order).value|)
    ensures ItemIdCol in OrderRows(order).value[0]
  {
    var rows := OrderRows(order).value;
    var items := Children(order).value;
    assert ItemIdCol == ItemPrefix + IdKey;
    if |items| == 0 {
      ChildlessRowItemFields(order, rows);
      assert IdKey in NullItemFields;
      assert |rows[..0]| == 0;
    } else {
      forall j | 0 <= j < |rows| ensures Get(rows[j], ItemIdCol) != Null {
        ItemFieldsOnItemRow(order, rows, j, IdKey);
      }
      NonNullColumn(rows, ItemIdCol);
      ItemFieldsOnItemRow(order, rows, 0, IdKey);
    }
    ItemsLenMatchesChildren(order);
  }


  lemma ItemsLenMatchesChildren(order: Row)
    requires MappingsKey in order ==> order[MappingsKey].List?
    requires Children(order).Some?
    ensures ItemsLen(order) == Some(|Children(order).value|)
  {
    if MappingsKey in order {
      var xs := order[MappingsKey].items;
      if xs != [] {
        assert Truthy(order[MappingsKey]);
      }
    }
  }

  /** The `order_id` cells of the first n orders' rows are hashable, and their distinct keys
    * are those orders' ids. */
  lemma {:induction false} PrefixOrderIds(orders: seq<Row>, n: nat)
    requires n <= |orders| && WellFormedOrders(orders)
    ensures FlattenSpec(orders[..n]).Some?
    ensures HashableColumn(FlattenSpec(orders[..n]).value, OrderIdCol)
    ensures ColumnKeys(FlattenSpec(orders[..n]).value, OrderIdCol) == IdSet(orders[..n])
  {
    if n > 0 {
      PrefixOrderIds(orders, n - 1);
      var p := orders[..n];
      TakeOfTake(orders, n - 1, n);
      var order := orders[n - 1];
      assert p[n - 1] == order;
      OneOrderIds(order);
      var before := FlattenSpec(orders[..n - 1]).value;
      var mine := OrderRows(order).value;
      assert FlattenSpec(p) == Some(before + mine);
      ColumnKeysAppend(before, mine, OrderIdCol);
      forall i | 0 <= i < |before + mine|
        ensures Hashable(Get((before + mine)[i], OrderIdCol))
      {
        if i >= |before| {
          assert (before + mine)[i] == mine[i - |before|];
        }
      }
    }
  }

  /** The non-null `item_id` cells of the first n orders' rows number their items. */
  lemma {:induction false} PrefixItemIds(orders: seq<Row>, n: nat)
    requires n <= |orders| && WellFormedOrders(orders)
    ensures FlattenSpec(orders[..n]).Some? && TallyItems(orders[..n]).Some?
    ensures NotNullCount(FlattenSpec(orders[..n]).value, ItemIdCol) == TallyItems(orders[..n]).value.total
  {
    if n > 0 {
      PrefixItemIds(orders, n - 1);
      var p := orders[..n];
      TakeOfTake(orders, n - 1, n);
      var order := orders[n - 1];
      assert p[n - 1] == order;
      OneOrderItems(order);
      var before := FlattenSpec(orders[..n - 1]).value;
      var mine := OrderRows(order).value;
      assert FlattenSpec(p) == Some(before + mine);
      NotNullCountAppend(before, mine, ItemIdCol);
    }
  }

  /** Orders as the API sends them flatten into a frame that `validate_flattened_data` passes:
    * one distinct `order_id` per order and one non-null `item_id` per original item. */
  lemma FlattenedDataValidates(orders: seq<Row>)
    requires |orders| > 0 && WellFormedOrders(orders)
    ensures FlattenSpec(orders).Some?
    ensures !IsEmptyFrame(FlattenSpec(orders).value)
    ensures ValidationSpec(FlattenSpec(orders).value, orders).Some?
    ensures ValidationSpec(FlattenSpec(orders).value, orders).value.validationPassed
  {
    PrefixOrderIds(orders, |orders|);
    PrefixItemIds(orders, |orders|);
    TakeAll(orders);
    IdSetSize(orders);
    FirstRowColumns(orders);
    var df := FlattenSpec(orders).value;
    var tally := TallyItems(orders).value;
    assert NUnique(df, OrderIdCol) == Some(|orders|);
    assert NotNullCount(df, ItemIdCol) == tally.total;
    assert ValidationSpec(df, orders) ==
      Some(FlattenValidation(|orders|, |df|, |orders|, tally.multiple, tally.without, tally.total, tally.total, true));
  }

  lemma FirstRowColumns(orders: seq<Row>)
    requires |orders| > 0 && WellFormedOrders(orders)
    requires FlattenSpec(orders).Some?
    ensures OrderIdCol in Columns(FlattenSpec(orders).value)
    ensures ItemIdCol in Columns(FlattenSpec(orders).value)
  {
    var t := FlattenSpec(orders).value;
    FlattenRowsOfOrder(orders, 0);
    OneOrderIds(orders[0]);
    OneOrderItems(orders[0]);
    assert orders[..0] == [];
    assert t[0] == OrderRows(orders[0]).value[0];
    assert OrderIdCol in t[0] && ItemIdCol in t[0];
  }

  // ---------------------------------------------------------------------------------------------
  // The transformer object

  const CustomersKey: string := "customers"
  const SaleOrdersKey: string := "sale_orders"
  const SaleOrdersFlattenedKey: string := "sale_orders_flattened"
  const ContactsKey: string := "contacts"
  const StocksKey: string := "stocks"
  const ProductsKey: string := "products"

  /** `transform_all_endpoints` emits `e` exactly when its raw endpoint is present with records. */
  predicate Emits(raw: map<string, seq<Row>>, e: string)
  {
    if e == SaleOrdersFlattenedKey then SaleOrdersKey in raw && raw[SaleOrdersKey] != []
    else e in {CustomersKey, ContactsKey, StocksKey, ProductsKey} && e in raw && raw[e] != []
  }

  class MisaCrmTransformer {
    /** The batch id of the current transformation session (None until set). */
    var batchId: Value
    const toNumeric: Value -> Value
    const toDatetime: Value -> Value
    const toBool: Value -> Option<Value>

    constructor (toNumeric: Value -> Value, toDatetime: Value -> Value, toBool: Value -> Option<Value>)
      ensures batchId == Null
      ensures this.toNumeric == toNumeric && this.toDatetime == toDatetime && this.toBool == toBool
    {
      batchId := Null;
      this.toNumeric := toNumeric;
      this.toDatetime := toDatetime;
      this.toBool := toBool;
    }

    method SetBatchId(id: Value)
      modifies this
      ensures batchId == id
    {
      batchId := id;
    }

    function CustomerSteps(): seq<Step>
    {
      [Step(CustomerNumeric, Coerce(toNumeric)), Step(CustomerDates, Coerce(toDatetime)),
       Step(CustomerBools, IgnoreErrors(toBool))]
    }

    function SaleOrderSteps(): seq<Step>
    {
      [Step(OrderNumeric, Coerce(toNumeric)), Step(ItemNumeric, Coerce(toNumeric)),
       Step(OrderDates, Coerce(toDatetime)), Step(ItemDates, Coerce(toDatetime)),
       Step(OrderBools, IgnoreErrors(toBool))]
    }

    function ContactSteps(): seq<Step>
    {
      [Step(ContactNumeric, Coerce(toNumeric)), Step(ContactDates, Coerce(toDatetime)),
       Step(ContactBools, IgnoreErrors(toBool))]
    }

    function StockSteps(): seq<Step>
    {
      [Step(StockDates, Coerce(toDatetime)), Step(StockBools, IgnoreErrors(toBool))]
    }

    function ProductSteps(): seq<Step>
    {
      [Step(ProductNumeric, Coerce(toNumeric)), Step(ProductDates, Coerce(toDatetime)),
       Step(ProductBools, IgnoreErrors(toBool))]
    }

    function StepsFor(e: string): seq<Step>
    {
      if e == CustomersKey then CustomerSteps()
      else if e == ContactsKey then ContactSteps()
      else if e == StocksKey then StockSteps()
      else ProductSteps()
    }

    /** `_add_etl_metadata`: a stamped copy carrying the current batch id. */
    function AddEtlMetadata(df: Table, createdAt: int, updatedAt: int): (r: Table)
      reads this
      ensures |r| == |df|
      ensures forall i :: 0 <= i < |r| ==> Get(r[i], BatchIdKey) == batchId && Get(r[i], SourceKey) == Str(SourceName)
    {
      StampEffect(df, batchId, createdAt, updatedAt);
      Stamp(df, EtlMetadata(batchId, createdAt, updatedAt))
    }

    /** The body shared by the plain endpoint transforms: each step's conversion loop, then the
      * metadata. */
    method TransformRecords(data: seq<Row>, steps: seq<Step>, createdAt: int, updatedAt: int) returns (df: Table)
      ensures df == TransformSpec(data, steps, EtlMetadata(batchId, createdAt, updatedAt))
    {
      if |data| == 0 {
        return [];
      }
      df := data;
      var s := 0;
      while s < |steps|
        invariant 0 <= s <= |steps|
        invariant df == ApplySteps(data, steps[..s])
      {
        assert steps[..s + 1][..s] == steps[..s];
        df := ConvertColumnsLoop(df, steps[s].cols, steps[s].conv);
        s := s + 1;
      }
      assert steps[..s] == steps;
      df := AddEtlMetadata(df, createdAt, updatedAt);
    }

    method TransformCustomers(data: seq<Row>, createdAt: int, updatedAt: int) returns (df: Table)
      ensures df == TransformSpec(data, CustomerSteps(), EtlMetadata(batchId, createdAt, updatedAt))
    {
      df := TransformRecords(data, CustomerSteps(), createdAt, updatedAt);
    }

    method TransformContacts(data: seq<Row>, createdAt: int, updatedAt: int) returns (df: Table)
      ensures df == TransformSpec(data, ContactSteps(), EtlMetadata(batchId, createdAt, updatedAt))
    {
      df := TransformRecords(data, ContactSteps(), createdAt, updatedAt);
    }

    method TransformStocks(data: seq<Row>, createdAt: int, updatedAt: int) returns (df: Table)
      ensures df == TransformSpec(data, StockSteps(), EtlMetadata(batchId, createdAt, updatedAt))
    {
      df := TransformRecords(data, StockSteps(), createdAt, updatedAt);
    }

    method TransformProducts(data: seq<Row>, createdAt: int, updatedAt: int) returns (df: Table)
      ensures df == TransformSpec(data, ProductSteps(), EtlMetadata(batchId, createdAt, updatedAt))
    {
      df := TransformRecords(data, ProductSteps(), createdAt, updatedAt);
    }

    /** `transform_sale_orders_flattened`; None stands for the exception raised by a product
      * mapping that cannot be iterated. */
    method TransformSaleOrdersFlattened(orders: seq<Row>, createdAt: int, updatedAt: int) returns (df: Option<Table>)
      ensures df == SaleOrdersSpec(orders, SaleOrderSteps(), EtlMetadata(batchId, createdAt, updatedAt))
      ensures orders == [] ==> df == Some([])
      ensures df.Some? && orders != [] ==> |df.value| == RowCount(orders)
    {
      if |orders| == 0 {
        return Some([]);
      }
      FlattenLength(orders);
      var flat := FlattenOrders(orders);
      if flat.None? {
        return None;
      }
      var t := flat.value;
      if Columns(t) == {} {
        return Some(t);
      }
      var steps := SaleOrderSteps();
      var s := 0;
      while s < |steps|
        invariant 0 <= s <= |steps|
        invariant |t| == |flat.value|
        invariant t == ApplySteps(flat.value, steps[..s])
      {
        assert steps[..s + 1][..s] == steps[..s];
        t := ConvertColumnsLoop(t, steps[s].cols, steps[s].conv);
        s := s + 1;
      }
      assert steps[..s] == steps;
      return Some(AddEtlMetadata(t, createdAt, updatedAt));
    }

    /** The lineage row of one endpoint's `_add_etl_metadata` call, which reads the clock itself:
      * `stamps(e)` is the (created, updated) pair that call read for output key `e`. */
    function EndpointMeta(id: Value, stamps: string -> (int, int), e: string): Row
    {
      EtlMetadata(id, stamps(e).0, stamps(e).1)
    }

    /** The map `transform_all_endpoints` returns for a given batch id and clock readings. */
    function AllEndpointsSpec(raw: map<string, seq<Row>>, id: Value, stamps: string -> (int, int))
      : Option<map<string, Table>>
    {
      var m1: map<string, Table> :=
        if Emits(raw, CustomersKey)
        then map[CustomersKey := TransformSpec(raw[CustomersKey], CustomerSteps(), EndpointMeta(id, stamps, CustomersKey))]
        else map[];
      var so := if Emits(raw, SaleOrdersFlattenedKey)
        then SaleOrdersSpec(raw[SaleOrdersKey], SaleOrderSteps(), EndpointMeta(id, stamps, SaleOrdersFlattenedKey))
        else Some([]);
      if so.None? then None
      else
        var m2 := if Emits(raw, SaleOrdersFlattenedKey) then m1[SaleOrdersFlattenedKey := so.value] else m1;
        var m3 := if Emits(raw, ContactsKey)
          then m2[ContactsKey := TransformSpec(raw[ContactsKey], ContactSteps(), EndpointMeta(id, stamps, ContactsKey))]
          else m2;
        var m4 := if Emits(raw, StocksKey)
          then m3[StocksKey := TransformSpec(raw[StocksKey], StockSteps(), EndpointMeta(id, stamps, StocksKey))]
          else m3;
        var m5 := if Emits(raw, ProductsKey)
          then m4[ProductsKey := TransformSpec(raw[ProductsKey], ProductSteps(), EndpointMeta(id, stamps, ProductsKey))]
          else m4;
        Some(m5)
    }

    /** The whole call fails exactly when the sale orders are present and cannot be flattened. */
    lemma AllEndpointsFailure(raw: map<string, seq<Row>>, id: Value, stamps: string -> (int, int))
      ensures AllEndpointsSpec(raw, id, stamps).None? <==>
        Emits(raw, SaleOrdersFlattenedKey) && FlattenSpec(raw[SaleOrdersKey]).None?
    {
    }

    /** The endpoints emitted are exactly those present with records, `sale_orders` under its
      * flattened name, each holding that endpoint's transform stamped with its own clock reading. */
    lemma AllEndpointsShape(raw: map<string, seq<Row>>, id: Value, stamps: string -> (int, int), e: string)
      requires AllEndpointsSpec(raw, id, stamps).Some?
      ensures e in AllEndpointsSpec(raw, id, stamps).value <==> Emits(raw, e)
      ensures e in AllEndpointsSpec(raw, id, stamps).value && e != SaleOrdersFlattenedKey ==>
        e in raw && AllEndpointsSpec(raw, id, stamps).value[e] == TransformSpec(raw[e], StepsFor(e), EndpointMeta(id, stamps, e))
      ensures e == SaleOrdersFlattenedKey && e in AllEndpointsSpec(raw, id, stamps).value ==>
        Some(AllEndpointsSpec(raw, id, stamps).value[e])
          == SaleOrdersSpec(raw[SaleOrdersKey], SaleOrderSteps(), EndpointMeta(id, stamps, e))
    {
      var out := AllEndpointsSpec(raw, id, stamps).value;
      if e !in {CustomersKey, SaleOrdersFlattenedKey, ContactsKey, StocksKey, ProductsKey} {
        assert !Emits(raw, e);
        assert e !in out;
      }
    }

    /** `transform_all_endpoints`: sets the batch id first, then transforms each endpoint that is
      * present with records, each with the clock reading of its own metadata call. None when the
      * sale-orders flattening raises. */
    method TransformAllEndpoints(raw: map<string, seq<Row>>, id: Value, stamps: string -> (int, int))
      returns (out: Option<map<string, Table>>)
      modifies this
      ensures batchId == id
      ensures out == AllEndpointsSpec(raw, id, stamps)
    {
      SetBatchId(id);
      var result: map<string, Table> := map[];
      if CustomersKey in raw && raw[CustomersKey] != [] {
        var df := TransformCustomers(raw[CustomersKey], stamps(CustomersKey).0, stamps(CustomersKey).1);
        result := result[CustomersKey := df];
      }
      if SaleOrdersKey in raw && raw[SaleOrdersKey] != [] {
        var df := TransformSaleOrdersFlattened(raw[SaleOrdersKey], stamps(SaleOrdersFlattenedKey).0, stamps(SaleOrdersFlattenedKey).1);
        if df.None? {
          return None;
        }
        result := result[SaleOrdersFlattenedKey := df.value];
      }
      if ContactsKey in raw && raw[ContactsKey] != [] {
        var df := TransformContacts(raw[ContactsKey], stamps(ContactsKey).0, stamps(ContactsKey).1);
        result := result[ContactsKey := df];
      }
      if StocksKey in raw && raw[StocksKey] != [] {
        var df := TransformStocks(raw[StocksKey], stamps(StocksKey).0, stamps(StocksKey).1);
        result := result[StocksKey := df];
      }
      if ProductsKey in raw && raw[ProductsKey] != [] {
        var df := TransformProducts(raw[ProductsKey], stamps(ProductsKey).0, stamps(ProductsKey).1);
        result := result[ProductsKey := df];
      }
      return Some(result);
    }
  }
}
