/** The marketplace order transformer: each order becomes one row per line item (or one row with
  * null item fields), carrying the order's and the recipient's fields, then lineage columns. */
module TikTokTransformer {
  import opened Values

  const LineItemsKey: string := "line_items"
  const OrderIdKey: string := "order_id"
  const BatchIdKey: string := "etl_batch_id"
  const CreatedAtKey: string := "etl_created_at"
  const UpdatedAtKey: string := "etl_updated_at"
  const SalesAttributesKey: string := "item_sku_sales_attributes"

  /** `order.get(k, {})`-style lookup: the default when absent. */
  function GetOr(r: map<string, Value>, k: string, default: Value): Value
  {
    if k in r then r[k] else default
  }

  const ItemPrefix: string := "item_"

  /** `_get_empty_item_fields`: the twelve item columns, all null. */
  function EmptyItemFields(): (r: Row)
    ensures forall k :: k in r ==> r[k] == Null && StartsWith(k, ItemPrefix) && k[0] == 'i'
  {
    var r := map[
      "item_id" := Null,
      "item_name" := Null,
      "item_sku_id" := Null,
      "item_sku_image" := Null,
      "item_sku_name" := Null,
      "item_quantity" := Null,
      "item_unit_price" := Null,
      "item_currency" := Null,
      "item_is_gift" := Null,
      "item_platform_discount" := Null,
      "item_seller_discount" := Null,
      "item_sku_sales_attributes" := Null];
    assert forall k :: k in r ==> k[..5] == ItemPrefix;
    r
  }

  /** A column whose name does not start with 'i' is not an item column. */
  lemma NotItemField(k: string)
    requires |k| > 0 && k[0] != 'i'
    ensures k !in EmptyItemFields()
  {
  }

  /** `_extract_recipient_info`; None when `recipient_address` is present but not a dict. */
  function RecipientInfo(order: Row): (r: Option<Row>)
    ensures r.Some? ==> forall k :: k in r.value ==> |k| > 0 && k[0] == 'r'
  {
    var rec := GetOr(order, "recipient_address", Obj(map[]));
    if !rec.Obj? then None
    else
      var a := rec.fields;
      Some(map[
        "recipient_address_detail" := Get(a, "detail"),
        "recipient_address_region_code" := Get(a, "region_code"),
        "recipient_address_state" := Get(a, "state"),
        "recipient_address_city" := Get(a, "city"),
        "recipient_address_town" := Get(a, "town"),
        "recipient_address_district" := Get(a, "district"),
        "recipient_address_zipcode" := Get(a, "zipcode"),
        "recipient_name" := Get(a, "name"),
        "recipient_phone" := Get(a, "phone"),
        "recipient_phone_number" := Get(a, "phone_number")])
  }

  /** The three lineage columns; one clock read serves both timestamps. */
  function EtlMetadata(batchId: string, now: int): Row
  {
    map[BatchIdKey := Str(batchId), CreatedAtKey := Time(now), UpdatedAtKey := Time(now)]
  }

  function Stamp(t: Table, meta: Row): (r: Table)
    ensures |r| == |t|
    ensures forall i :: 0 <= i < |t| ==> r[i] == t[i] + meta
  {
    seq(|t|, i requires 0 <= i < |t| => t[i] + meta)
  }

  lemma StampCarriesMetadata(t: Table, batchId: string, now: int)
    ensures forall i :: 0 <= i < |t| ==>
      var row := Stamp(t, EtlMetadata(batchId, now))[i];
      && Get(row, BatchIdKey) == Str(batchId)
      && Get(row, CreatedAtKey) == Time(now)
      && Get(row, UpdatedAtKey) == Time(now)
  {
  }

  /** `validate_dataframe`: a non-empty frame with `order_id` and `etl_batch_id` columns passes;
    * null order ids only produce a warning. The `nunique` it logs raises on a list or dict
    * `order_id`, and the handler then answers False. */
  function ValidateDataframe(df: Table): (ok: bool)
    ensures ok <==> && !IsEmptyFrame(df) && OrderIdKey in Columns(df) && BatchIdKey in Columns(df)
                    && forall i :: 0 <= i < |df| ==> !Get(df[i], OrderIdKey).List? && !Get(df[i], OrderIdKey).Obj?
  {
    !IsEmptyFrame(df) && OrderIdKey in Columns(df) && BatchIdKey in Columns(df)
    && NUnique(df, OrderIdKey).Some?
  }

  /** The lineage columns leave `order_id` alone. */
  lemma StampKeepsIds(t: Table, meta: Row)
    requires OrderIdKey !in meta
    ensures HashableColumn(Stamp(t, meta), OrderIdKey) <==> HashableColumn(t, OrderIdKey)
  {
    var r := Stamp(t, meta);
    forall i | 0 <= i < |t|
      ensures Get(r[i], OrderIdKey) == Get(t[i], OrderIdKey)
    {
    }
  }

  /** A frame with both columns passes exactly when its `order_id` column can be hashed. */
  lemma ValidatedIffHashable(df: Table)
    requires !IsEmptyFrame(df) && OrderIdKey in Columns(df) && BatchIdKey in Columns(df)
    ensures ValidateDataframe(df) <==> HashableColumn(df, OrderIdKey)
  {
  }

  class TikTokShopOrderTransformer {
    /** Fixed at construction (a fresh UUID in the source). */
    const batchId: string
    /** Python's `float(value)` and `int(value)`; None where they raise ValueError/TypeError. */
    const parseFloat: Value -> Option<Value>
    const parseInt: Value -> Option<Value>
    /** `json.dumps` */
    const jsonDumps: Value -> string

    constructor (batchId: string, parseFloat: Value -> Option<Value>, parseInt: Value -> Option<Value>,
                 jsonDumps: Value -> string)
      ensures this.batchId == batchId && this.parseFloat == parseFloat
      ensures this.parseInt == parseInt && this.jsonDumps == jsonDumps
    {
      this.batchId := batchId;
      this.parseFloat := parseFloat;
      this.parseInt := parseInt;
      this.jsonDumps := jsonDumps;
    }

    /** `_safe_float`: null for None, '' and anything `float` rejects; it never raises. */
    function SafeFloat(v: Value): (r: Value)
      ensures v == Null || v == Str("") || parseFloat(v).None? ==> r == Null
      ensures r != Null ==> parseFloat(v) == Some(r)
    {
      if v == Null || v == Str("") then Null
      else match parseFloat(v)
        case None => Null
        case Some(x) => x
    }

    /** `_safe_int`: null for None, '' and anything `int` rejects; it never raises. */
    function SafeInt(v: Value): (r: Value)
      ensures v == Null || v == Str("") || parseInt(v).None? ==> r == Null
      ensures r != Null ==> parseInt(v) == Some(r)
    {
      if v == Null || v == Str("") then Null
      else match parseInt(v)
        case None => Null
        case Some(x) => x
    }

    /** `_extract_order_info`; None when `order_amount` is present but not a dict. */
    function OrderInfo(order: Row): (r: Option<Row>)
      ensures r.Some? ==> OrderIdKey in r.value && r.value[OrderIdKey] == Get(order, OrderIdKey)
      ensures r.Some? ==> forall k :: k in r.value ==> |k| > 0 && k[0] != 'i'
    {
      var amount := GetOr(order, "order_amount", Obj(map[]));
      if !amount.Obj? then None
      else
        var a := amount.fields;
        Some(map[
          "order_id" := Get(order, "order_id"),
          "order_status" := Get(order, "order_status"),
          "buyer_message" := Get(order, "buyer_message"),
          "cancel_reason" := Get(order, "cancel_reason"),
          "cancel_user" := Get(order, "cancel_user"),
          "collection_time" := Get(order, "collection_time"),
          "create_time" := Get(order, "create_time"),
          "delivery_due_time" := Get(order, "delivery_due_time"),
          "delivery_time" := Get(order, "delivery_time"),
          "fulfillment_type" := Get(order, "fulfillment_type"),
          "order_line_type" := Get(order, "order_line_type"),
          "payment_method" := Get(order, "payment_method"),
          "payment_method_name" := Get(order, "payment_method_name"),
          "remark" := Get(order, "remark"),
          "request_cancel_reason" := Get(order, "request_cancel_reason"),
          "split_or_combine_tag" := Get(order, "split_or_combine_tag"),
          "update_time" := Get(order, "update_time"),
          "warehouse_id" := Get(order, "warehouse_id"),
          "currency" := Get(a, "currency"),
          "original_shipping_fee" := SafeFloat(Get(a, "original_shipping_fee")),
          "original_total_product_price" := SafeFloat(Get(a, "original_total_product_price")),
          "seller_discount" := SafeFloat(Get(a, "seller_discount")),
          "shipping_fee" := SafeFloat(Get(a, "shipping_fee")),
          "shipping_fee_platform_discount" := SafeFloat(Get(a, "shipping_fee_platform_discount")),
          "shipping_fee_seller_discount" := SafeFloat(Get(a, "shipping_fee_seller_discount")),
          "subtotal_after_seller_discounts" := SafeFloat(Get(a, "subtotal_after_seller_discounts")),
          "tax_amount" := SafeFloat(Get(a, "tax_amount")),
          "total_amount" := SafeFloat(Get(a, "total_amount"))])
    }

    /** `_extract_item_info`; None when the item or its `sku_info` is not a dict. */
    function ItemInfo(item: Value): (r: Option<Row>)
      ensures r.Some? ==> r.value.Keys == EmptyItemFields().Keys
    {
      if !item.Obj? then None
      else
        var it := item.fields;
        var sku := GetOr(it, "sku_info", Obj(map[]));
        if !sku.Obj? then None
        else
          var sa := GetOr(sku.fields, "sales_attributes", List([]));
          Some(map[
            "item_id" := Get(it, "product_id"),
            "item_name" := Get(it, "product_name"),
            "item_sku_id" := Get(it, "sku_id"),
            "item_sku_image" := Get(sku.fields, "sku_image"),
            "item_sku_name" := Get(sku.fields, "sku_name"),
            "item_quantity" := SafeInt(Get(it, "quantity")),
            "item_unit_price" := SafeFloat(Get(it, "unit_price")),
            "item_currency" := Get(it, "currency"),
            "item_is_gift" := Get(it, "is_gift"),
            "item_platform_discount" := SafeFloat(Get(it, "platform_discount")),
            "item_seller_discount" := SafeFloat(Get(it, "seller_discount")),
            "item_sku_sales_attributes" := if Truthy(sa) then Str(jsonDumps(sa)) else Null])
    }

    /** `item_sku_sales_attributes` is null exactly when `sales_attributes` is missing or empty
      * (falsy), and its JSON text otherwise. */
    lemma SalesAttributesText(item: Value)
      requires ItemInfo(item).Some?
      ensures var sku := GetOr(item.fields, "sku_info", Obj(map[]));
        var sa := GetOr(sku.fields, "sales_attributes", List([]));
        ItemInfo(item).value[SalesAttributesKey] == (if Truthy(sa) then Str(jsonDumps(sa)) else Null)
    {
    }

    /** The order-level part of every row of an order: order info merged with recipient info. */
    function OrderPart(order: Row): (r: Option<Row>)
      ensures r.Some? ==> forall k :: k in r.value ==> |k| > 0 && k[0] != 'i'
      ensures r.Some? ==> OrderIdKey in r.value && r.value[OrderIdKey] == Get(order, OrderIdKey)
    {
      match OrderInfo(order)
      case None => None
      case Some(oi) =>
        match RecipientInfo(order)
        case None => None
        case Some(ri) =>
          assert OrderIdKey !in ri by {
            assert OrderIdKey[0] == 'o';
          }
          Some(oi + ri)
    }

    /** The rows of the items `items[..n]`; None when one of them is not a proper item. */
    function ItemRows(part: Row, items: seq<Value>): Option<Table>
    {
      if |items| == 0 then Some([])
      else
        match ItemRows(part, items[..|items| - 1])
        case None => None
        case Some(t) =>
          match ItemInfo(items[|items| - 1])
          case None => None
          case Some(ii) => Some(t + [part + ii])
    }

    /** The number of line items an order is flattened into (0 for none). */
    function LineItems(order: Row): Option<seq<Value>>
    {
      var li := GetOr(order, LineItemsKey, List([]));
      if !Truthy(li) then Some([])
      else if li.List? then Some(li.items)
      else None
    }

    /** The rows of one order; None where the source raises. */
    function OrderRows(order: Row): Option<Table>
    {
      match OrderPart(order)
      case None => None
      case Some(part) =>
        match LineItems(order)
        case None => None
        case Some(items) =>
          if |items| == 0 then Some([part + EmptyItemFields()])
          else ItemRows(part, items)
    }

    function FlattenSpec(orders: seq<Row>): Option<Table>
    {
      if |orders| == 0 then Some([])
      else
        match FlattenSpec(orders[..|orders| - 1])
        case None => None
        case Some(t) =>
          match OrderRows(orders[|orders| - 1])
          case None => None
          case Some(rs) => Some(t + rs)
    }

    /** `transform_orders_to_dataframe`: an empty table for no orders and for any exception. */
    function TransformSpec(orders: seq<Row>, now: int): Table
    {
      if |orders| == 0 then []
      else
        match FlattenSpec(orders)
        case None => []
        case Some(t) => Stamp(t, EtlMetadata(batchId, now))
    }

    // -------------------------------------------------------------------------------------------
    // Properties

    lemma {:induction false} ItemRowsLength(part: Row, items: seq<Value>)
      requires ItemRows(part, items).Some?
      ensures |ItemRows(part, items).value| == |items|
      ensures forall j :: 0 <= j < |items| ==>
        ItemInfo(items[j]).Some? && ItemRows(part, items).value[j] == part + ItemInfo(items[j]).value
    {
      if |items| > 0 {
        var init := items[..|items| - 1];
        ItemRowsLength(part, init);
        var t := ItemRows(part, init).value;
        var last := items[|items| - 1];
        var r := ItemRows(part, items).value;
        assert r == t + [part + ItemInfo(last).value];
        forall j | 0 <= j < |items|
          ensures ItemInfo(items[j]).Some? && r[j] == part + ItemInfo(items[j]).value
        {
          if j < |init| {
            assert items[j] == init[j];
            assert r[j] == t[j];
          }
        }
      }
    }

    /** max(1, number of line items) per order. */
    function RowCount(orders: seq<Row>): nat
    {
      if |orders| == 0 then 0
      else
        var li := LineItems(orders[|orders| - 1]);
        RowCount(orders[..|orders| - 1]) + (if li.Some? && |li.value| > 0 then |li.value| else 1)
    }

    lemma OrderRowsLength(order: Row)
      requires OrderRows(order).Some?
      ensures LineItems(order).Some?
      ensures |OrderRows(order).value| == if |LineItems(order).value| == 0 then 1 else |LineItems(order).value|
    {
      var items := LineItems(order).value;
      if |items| > 0 {
        ItemRowsLength(OrderPart(order).value, items);
      }
    }

    /** Output rows = the sum over orders of max(1, line items), orders kept in input order. */
    lemma {:induction false} FlattenLength(orders: seq<Row>)
      requires FlattenSpec(orders).Some?
      ensures |FlattenSpec(orders).value| == RowCount(orders)
    {
      if |orders| > 0 {
        var init := orders[..|orders| - 1];
        FlattenLength(init);
        OrderRowsLength(orders[|orders| - 1]);
      }
    }

    /** A childless order yields one row: its order-info and recipient-info fields, and the twelve
      * item columns, all null. */
    lemma ChildlessOrderRow(order: Row)
      requires OrderRows(order).Some? && LineItems(order) == Some([])
      ensures OrderPart(order).Some? && |OrderRows(order).value| == 1
      ensures var row := OrderRows(order).value[0];
        var part := OrderPart(order).value;
        && (forall k :: k in part ==> k in row && row[k] == part[k])
        && (forall k :: k in EmptyItemFields() ==> k in row && row[k] == Null)
    {
      var part := OrderPart(order).value;
      var empty := EmptyItemFields();
      assert OrderRows(order).value == [part + empty];
      forall k | k in part
        ensures k !in empty
      {
        NotItemField(k);
      }
      DisjointUnion(part, empty);
    }

    /** The row of line item `j` holds the order's order-info and recipient-info fields, identical
      * across its items, and that item's twelve item fields. */
    lemma ItemRowContents(order: Row, j: nat)
      requires OrderRows(order).Some? && LineItems(order).Some? && j < |LineItems(order).value|
      ensures OrderPart(order).Some? && j < |OrderRows(order).value|
      ensures ItemInfo(LineItems(order).value[j]).Some?
      ensures var row := OrderRows(order).value[j];
        var part := OrderPart(order).value;
        var info := ItemInfo(LineItems(order).value[j]).value;
        && (forall k :: k in part ==> k in row && row[k] == part[k])
        && (forall k :: k in EmptyItemFields() ==> k in row && row[k] == info[k])
    {
      var items := LineItems(order).value;
      var part := OrderPart(order).value;
      assert OrderRows(order) == ItemRows(part, items);
      ItemRowsLength(part, items);
      var info := ItemInfo(items[j]).value;
      var row := OrderRows(order).value[j];
      assert row == part + info;
      assert forall k :: k in part ==> k !in info;
    }

    /** All rows of one call share the instance's batch id and a single timestamp. */
    lemma TransformStampsRows(orders: seq<Row>, now: int)
      ensures forall i :: 0 <= i < |TransformSpec(orders, now)| ==>
        var row := TransformSpec(orders, now)[i];
        && Get(row, BatchIdKey) == Str(batchId)
        && Get(row, CreatedAtKey) == Time(now)
        && Get(row, CreatedAtKey) == Get(row, UpdatedAtKey)
    {
      if |orders| > 0 && FlattenSpec(orders).Some? {
        StampCarriesMetadata(FlattenSpec(orders).value, batchId, now);
      }
    }

    /** Empty input, or any order the source cannot read, yields an empty table. */
    lemma TransformEmptyCases(orders: seq<Row>, now: int)
      ensures |orders| == 0 || FlattenSpec(orders).None? ==> TransformSpec(orders, now) == []
      ensures |orders| > 0 && FlattenSpec(orders).Some? ==>
        |TransformSpec(orders, now)| == RowCount(orders) && RowCount(orders) >= |orders|
    {
      if |orders| > 0 && FlattenSpec(orders).Some? {
        FlattenLength(orders);
        RowCountAtLeast(orders);
      }
    }

    lemma {:induction false} RowCountAtLeast(orders: seq<Row>)
      ensures RowCount(orders) >= |orders|
    {
      if |orders| > 0 {
        RowCountAtLeast(orders[..|orders| - 1]);
      }
    }

    /** A non-empty output of the transform passes `validate_dataframe` exactly when no order's
      * `order_id` is a list or dict; orders with no `order_id` pass (their rows hold a null). */
    lemma TransformOutputValidates(orders: seq<Row>, now: int)
      requires TransformSpec(orders, now) != []
      ensures ValidateDataframe(TransformSpec(orders, now)) <==>
        forall j :: 0 <= j < |orders| ==> Hashable(Get(orders[j], OrderIdKey))
    {
      var df := TransformSpec(orders, now);
      var t := FlattenSpec(orders).value;
      var meta := EtlMetadata(batchId, now);
      assert df == Stamp(t, meta);
      OutputColumns(orders, now);
      ValidatedIffHashable(df);
      StampKeepsIds(t, meta);
      FlattenOrderIds(orders);
    }

    /** The transform's non-empty output has both columns the validator looks for. */
    lemma OutputColumns(orders: seq<Row>, now: int)
      requires TransformSpec(orders, now) != []
      ensures !IsEmptyFrame(TransformSpec(orders, now))
      ensures OrderIdKey in Columns(TransformSpec(orders, now)) && BatchIdKey in Columns(TransformSpec(orders, now))
    {
      var df := TransformSpec(orders, now);
      TransformEmptyCases(orders, now);
      FirstRowHasOrderId(orders);
      var row := df[0];
      assert OrderIdKey in row && BatchIdKey in row;
    }

    /** Every row of one order carries that order's `order_id`. */
    lemma OrderRowIds(order: Row)
      requires OrderRows(order).Some?
      ensures |OrderRows(order).value| > 0
      ensures forall r :: 0 <= r < |OrderRows(order).value| ==>
        Get(OrderRows(order).value[r], OrderIdKey) == Get(order, OrderIdKey)
    {
      OrderRowsLength(order);
      forall r | 0 <= r < |OrderRows(order).value|
        ensures Get(OrderRows(order).value[r], OrderIdKey) == Get(order, OrderIdKey)
      {
        RowOrderId(order, r);
      }
    }

    lemma RowOrderId(order: Row, r: nat)
      requires OrderRows(order).Some? && r < |OrderRows(order).value|
      ensures Get(OrderRows(order).value[r], OrderIdKey) == Get(order, OrderIdKey)
    {
      OrderRowsLength(order);
      if |LineItems(order).value| == 0 {
        ChildlessRowOrderId(order);
      } else {
        ItemRowOrderId(order, r);
      }
    }

    lemma ChildlessRowOrderId(order: Row)
      requires OrderRows(order).Some? && LineItems(order) == Some([])
      ensures |OrderRows(order).value| == 1
      ensures Get(OrderRows(order).value[0], OrderIdKey) == Get(order, OrderIdKey)
    {
      ChildlessOrderRow(order);
    }

    lemma ItemRowOrderId(order: Row, r: nat)
      requires OrderRows(order).Some? && LineItems(order).Some? && r < |LineItems(order).value|
      ensures r < |OrderRows(order).value| && Get(OrderRows(order).value[r], OrderIdKey) == Get(order, OrderIdKey)
    {
      ItemOrderRows(order);
      assert OrderIdKey[0] == 'o';
      ItemRowsKeepPart(OrderPart(order).value, LineItems(order).value, r, OrderIdKey);
    }

    /** An order with line items is flattened by `ItemRows` over its order-level part. */
    lemma ItemOrderRows(order: Row)
      requires OrderRows(order).Some? && LineItems(order).Some? && |LineItems(order).value| > 0
      ensures OrderPart(order).Some? && OrderRows(order) == ItemRows(OrderPart(order).value, LineItems(order).value)
    {
    }

    /** An item row holds every order-level field of `part` unchanged. */
    lemma ItemRowsKeepPart(part: Row, items: seq<Value>, j: nat, k: string)
      requires ItemRows(part, items).Some? && j < |items|
      requires k in part && |k| > 0 && k[0] != 'i'
      ensures j < |ItemRows(part, items).value|
      ensures k in ItemRows(part, items).value[j] && ItemRows(part, items).value[j][k] == part[k]
    {
      ItemRowsLength(part, items);
      NotItemField(k);
      assert k !in ItemInfo(items[j]).value;
    }

    lemma HashableSnoc(before: Table, mine: Table, init: seq<Row>, orders: seq<Row>, c: string)
      requires |orders| > 0 && init == orders[..|orders| - 1]
      requires HashableColumn(before, c) <==> forall j :: 0 <= j < |init| ==> Hashable(Get(init[j], c))
      requires HashableColumn(mine, c) <==> Hashable(Get(orders[|orders| - 1], c))
      ensures HashableColumn(before + mine, c) <==> forall j :: 0 <= j < |orders| ==> Hashable(Get(orders[j], c))
    {
      HashableColumnAppend(before, mine, c);
      forall j | 0 <= j < |init| ensures init[j] == orders[j] { }
    }

    /** The rows of `orders` are those of all but the last order, then the last order's. */
    lemma FlattenSnoc(orders: seq<Row>)
      requires FlattenSpec(orders).Some? && |orders| > 0
      ensures FlattenSpec(orders[..|orders| - 1]).Some? && OrderRows(orders[|orders| - 1]).Some?
      ensures FlattenSpec(orders).value ==
        FlattenSpec(orders[..|orders| - 1]).value + OrderRows(orders[|orders| - 1]).value
    {
    }

    /** The `order_id` column of the flattened rows is hashable exactly when every order's is. */
    lemma {:induction false} FlattenOrderIds(orders: seq<Row>)
      requires FlattenSpec(orders).Some?
      ensures HashableColumn(FlattenSpec(orders).value, OrderIdKey) <==>
        forall j :: 0 <= j < |orders| ==> Hashable(Get(orders[j], OrderIdKey))
    {
      if |orders| > 0 {
        var init := orders[..|orders| - 1];
        var last := orders[|orders| - 1];
        FlattenSnoc(orders);
        FlattenOrderIds(init);
        OrderRowIds(last);
        var before := FlattenSpec(init).value;
        var mine := OrderRows(last).value;
        ConstantColumnHashable(mine, OrderIdKey, Get(last, OrderIdKey));
        HashableSnoc(before, mine, init, orders, OrderIdKey);
      }
    }

    lemma {:induction false} FirstRowHasOrderId(orders: seq<Row>)
      requires FlattenSpec(orders).Some? && |FlattenSpec(orders).value| > 0
      ensures OrderIdKey in FlattenSpec(orders).value[0]
    {
      var init := orders[..|orders| - 1];
      var t := FlattenSpec(init).value;
      if |t| > 0 {
        FirstRowHasOrderId(init);
      } else {
        var o := orders[|orders| - 1];
        OrderRowsLength(o);
        if |LineItems(o).value| == 0 {
          ChildlessOrderRow(o);
        } else {
          ItemRowContents(o, 0);
        }
      }
    }

    // -------------------------------------------------------------------------------------------
    // The flattening loop

    /** `transform_orders_to_dataframe`: the flattened rows with lineage columns, or an empty
      * table for no orders and wherever the source's `try` block catches an exception. */
    method TransformOrdersToDataframe(orders: seq<Row>, now: int) returns (df: Table)
      ensures df == TransformSpec(orders, now)
    {
      if |orders| == 0 {
        return [];
      }
      var rows := FlattenOrders(orders);
      if rows.None? {
        return [];
      }
      df := Stamp(rows.value, EtlMetadata(batchId, now));
    }

    /** The loop over orders. */
    method FlattenOrders(orders: seq<Row>) returns (rows: Option<Table>)
      ensures rows == FlattenSpec(orders)
    {
      var acc: Table := [];
      var i := 0;
      while i < |orders|
        invariant 0 <= i <= |orders|
        invariant FlattenSpec(orders[..i]) == Some(acc)
      {
        var next := FlattenNext(orders, i, acc);
        if next.None? {
          FlattenNoneStays(orders, i + 1);
          return None;
        }
        acc := next.value;
        i := i + 1;
      }
      TakeAll(orders);
      return Some(acc);
    }

    /** One pass of the outer loop: the rows so far followed by order `i`'s rows. */
    method FlattenNext(orders: seq<Row>, i: nat, acc: Table) returns (next: Option<Table>)
      requires i < |orders| && FlattenSpec(orders[..i]) == Some(acc)
      ensures next == FlattenSpec(orders[..i + 1])
    {
      var orderRows := BuildOrderRows(orders[i]);
      FlattenStep(orders, i, acc);
      if orderRows.None? {
        return None;
      }
      return Some(acc + orderRows.value);
    }

    /** The rows of one order: a single childless row, or one row per line item. */
    method BuildOrderRows(order: Row) returns (rows: Option<Table>)
      ensures rows == OrderRows(order)
    {
      var part := OrderPart(order);
      var items := LineItems(order);
      if part.None? || items.None? {
        return None;
      }
      if |items.value| == 0 {
        return Some([part.value + EmptyItemFields()]);
      }
      rows := AppendItemRows(part.value, items.value);
    }

    lemma FlattenStep(orders: seq<Row>, i: nat, rows: Table)
      requires i < |orders| && FlattenSpec(orders[..i]) == Some(rows)
      ensures FlattenSpec(orders[..i + 1]) ==
        match OrderRows(orders[i])
        case None => None
        case Some(rs) => Some(rows + rs)
    {
      TakeOfTake(orders, i, i + 1);
      assert orders[..i + 1][i] == orders[i];
    }

    /** The inner loop over line items. */
    method AppendItemRows(part: Row, items: seq<Value>) returns (rows: Option<Table>)
      ensures rows == ItemRows(part, items)
    {
      var acc: Table := [];
      var j := 0;
      while j < |items|
        invariant 0 <= j <= |items|
        invariant ItemRows(part, items[..j]) == Some(acc)
      {
        TakeOfTake(items, j, j + 1);
        var info := ItemInfo(items[j]);
        if info.None? {
          ItemRowsNoneStays(part, items, j + 1);
          return None;
        }
        acc := acc + [part + info.value];
        j := j + 1;
      }
      TakeAll(items);
      return Some(acc);
    }

    lemma {:induction false} FlattenNoneStays(orders: seq<Row>, n: nat)
      requires n <= |orders|
      requires FlattenSpec(orders[..n]).None?
      ensures FlattenSpec(orders).None?
    {
      if n < |orders| {
        var init := orders[..|orders| - 1];
        assert init[..n] == orders[..n];
        FlattenNoneStays(init, n);
      } else {
        assert orders[..n] == orders;
      }
    }

    lemma {:induction false} ItemRowsNoneStays(part: Row, items: seq<Value>, n: nat)
      requires n <= |items|
      requires ItemRows(part, items[..n]).None?
      ensures ItemRows(part, items).None?
    {
      if n < |items| {
        var init := items[..|items| - 1];
        assert init[..n] == items[..n];
        ItemRowsNoneStays(part, init, n);
      } else {
        assert items[..n] == items;
      }
    }
  }
}
