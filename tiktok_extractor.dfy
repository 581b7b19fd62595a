/** The marketplace order extractor: a cursor loop that collects order ids page by page, then
  * one detail request per 50 ids, and the period and recent-days entry points. */
module TikTokExtractor {
  import opened Values
  import opened Net
  import opened TikTokAuth

  const SearchPath := "/order/202309/orders/search"
  const DetailsPath := "/order/202309/orders"
  const BatchSize := 50
  const DefaultPageSize := 50

  /** `d.get(k, default)` */
  function GetOr(d: map<string, Value>, k: string, default: Value): Value
  {
    if k in d then d[k] else default
  }

  // ---------------------------------------------------------------------------------------------
  // Search

  /** The search parameters before `cursor` and `order_status`. */
  function SearchBase(keys: Keys, tokens: Tokens, start: int, end: int, pageSize: int, now: int): Assoc
  {
    [("app_key", keys.appKey), ("timestamp", Str(IntText(now))),
     ("access_token", tokens.accessToken), ("shop_cipher", tokens.shopCipher),
     ("version", Str("202309")), ("create_time_from", Str(IntText(start))),
     ("create_time_to", Str(IntText(end))), ("page_size", Str(IntText(pageSize))),
     ("sort_field", Str("create_time")), ("sort_order", Str("ASC"))]
  }

  /** The search parameters before signing. */
  function SearchParams(keys: Keys, tokens: Tokens, start: int, end: int, pageSize: int,
                        cursor: Value, status: Option<string>, now: int): Assoc
  {
    var base := SearchBase(keys, tokens, start, end, pageSize, now);
    var withCursor := if Truthy(cursor) then AssocPut(base, "cursor", cursor) else base;
    if status.Some? && status.value != "" then AssocPut(withCursor, "order_status", Str(status.value)) else withCursor
  }

  /** The search request for a cursor, signed; the tokens are fixed for the whole loop. */
  function SearchRequestFor(keys: Keys, tokens: Tokens, start: int, end: int, pageSize: int,
                            status: Option<string>, now: int): Value -> Request
  {
    cursor => Request("GET", BaseUrl + SearchPath,
      Signed(keys, SearchPath, SearchParams(keys, tokens, start, end, pageSize, cursor, status, now), now), Null)
  }

  /** The optional search parameters: `cursor` only once a non-empty cursor was received,
    * `order_status` only when a non-empty one was given; no signature yet. */
  lemma SearchParamsOptional(keys: Keys, tokens: Tokens, start: int, end: int, pageSize: int,
                             status: Option<string>, cursor: Value, now: int)
    ensures var ps := SearchParams(keys, tokens, start, end, pageSize, cursor, status, now);
      && AssocGet(ps, "cursor") == (if Truthy(cursor) then Some(cursor) else None)
      && AssocGet(ps, "order_status") == (if status.Some? && status.value != "" then Some(Str(status.value)) else None)
      && AssocGet(ps, "sign") == None
  {
    SearchBaseLacks(keys, tokens, start, end, pageSize, now);
  }

  /** The fixed search parameters carry no cursor, status or signature. */
  lemma SearchBaseLacks(keys: Keys, tokens: Tokens, start: int, end: int, pageSize: int, now: int)
    ensures var base := SearchBase(keys, tokens, start, end, pageSize, now);
      AssocGet(base, "cursor") == None && AssocGet(base, "order_status") == None && AssocGet(base, "sign") == None
  {
    var base := SearchBase(keys, tokens, start, end, pageSize, now);
    AssocGetAbsent(base, "cursor");
    AssocGetAbsent(base, "order_status");
    AssocGetAbsent(base, "sign");
  }

  /** The window and page size go out as decimal text, with the caller's timestamp. */
  lemma SearchParamsWindow(keys: Keys, tokens: Tokens, start: int, end: int, pageSize: int,
                           status: Option<string>, cursor: Value, now: int)
    ensures var ps := SearchParams(keys, tokens, start, end, pageSize, cursor, status, now);
      && AssocGet(ps, "create_time_from") == Some(Str(IntText(start)))
      && AssocGet(ps, "create_time_to") == Some(Str(IntText(end)))
      && AssocGet(ps, "page_size") == Some(Str(IntText(pageSize)))
      && AssocGet(ps, "timestamp") == Some(Str(IntText(now)))
  {
    var base := SearchBase(keys, tokens, start, end, pageSize, now);
    AssocGetFirst(base, "timestamp", 1);
    AssocGetFirst(base, "create_time_from", 5);
    AssocGetFirst(base, "create_time_to", 6);
    AssocGetFirst(base, "page_size", 7);
  }

  /** The request sends those parameters, and a signature. */
  lemma SearchRequestShape(keys: Keys, tokens: Tokens, start: int, end: int, pageSize: int,
                           status: Option<string>, cursor: Value, now: int)
    ensures var ps := SearchRequestFor(keys, tokens, start, end, pageSize, status, now)(cursor).params;
      && AssocGet(ps, "cursor") == (if Truthy(cursor) then Some(cursor) else None)
      && AssocGet(ps, "order_status") == (if status.Some? && status.value != "" then Some(Str(status.value)) else None)
      && AssocGet(ps, "sign").Some?
  {
    var ps := SearchParams(keys, tokens, start, end, pageSize, cursor, status, now);
    SearchParamsOptional(keys, tokens, start, end, pageSize, status, cursor, now);
    SearchParamsWindow(keys, tokens, start, end, pageSize, status, cursor, now);
    SignedKeeps(keys, SearchPath, ps, now, "cursor");
    SignedKeeps(keys, SearchPath, ps, now, "order_status");
  }

  /** How one search response ends a pass: an exception (the whole call returns `[]`), a `break`
    * (the ids so far are returned), or a page of ids with `has_more` and `cursor`. */
  datatype SearchStep = Failed | Halt | Page(ids: seq<Value>, hasMore: Value, cursor: Value)

  /** `[order['order_id'] for order in orders]`; None where an order is not an object with
    * `order_id`. */
  function IdsOfList(orders: seq<Value>): (r: Option<seq<Value>>)
    ensures r.Some? <==> forall i :: 0 <= i < |orders| ==> orders[i].Obj? && "order_id" in orders[i].fields
    ensures r.Some? ==> (|r.value| == |orders|
      && forall i :: 0 <= i < |orders| ==> r.value[i] == orders[i].fields["order_id"])
  {
    if orders == [] then Some([])
    else
      var rest := IdsOfList(orders[1..]);
      if !(orders[0].Obj? && "order_id" in orders[0].fields) || rest.None? then
        assert rest.None? ==> exists i :: 1 <= i < |orders| && !(orders[i].Obj? && "order_id" in orders[i].fields) by {
          if rest.None? {
            var j :| 0 <= j < |orders[1..]| && !(orders[1..][j].Obj? && "order_id" in orders[1..][j].fields);
            assert orders[j + 1] == orders[1..][j];
          }
        }
        None
      else
        Some([orders[0].fields["order_id"]] + rest.value)
  }

  /** The ids of an `orders` value: a list is walked; an empty object or string has no items;
    * anything else raises. */
  function IdsOf(orders: Value): Option<seq<Value>>
  {
    if orders.List? then IdsOfList(orders.items)
    else if orders == Obj(map[]) || orders == Str("") then Some([])
    else None
  }

  function SearchPage(o: Outcome): SearchStep
  {
    match o
    case Raised => Failed
    case Response(status, body) =>
      if status != 200 then Halt
      else if !body.Obj? then Failed
      else if !EqualsZero(Get(body.fields, "code")) then Halt
      else
        var data := GetOr(body.fields, "data", Obj(map[]));
        if !data.Obj? then Failed
        else match IdsOf(GetOr(data.fields, "orders", List([])))
          case None => Failed
          case Some(ids) => Page(ids, GetOr(data.fields, "has_more", Bool(false)), GetOr(data.fields, "cursor", Str("")))
  }

  /** The `while has_more` loop from a given cursor, with `acc` collected so far: the ids
    * returned and the new session. It is stated for any request builder and any reading of a
    * response; `SearchSpec` supplies the real ones. */
  function SearchFrom(s: Session, request: Value -> Request, page: Outcome -> SearchStep,
                      cursor: Value, acc: seq<Value>): (r: (seq<Value>, Session))
    decreases |s.pending|
    ensures r.1.tokens == s.tokens
    ensures Suffix(r.1.pending, s.pending)
  {
    var s1 := SendOn(s, request(cursor));
    SuffixRest(s.pending);
    match page(Next(s.pending))
    case Failed => ([], s1)
    case Halt => (acc, s1)
    case Page(ids, hasMore, next) =>
      if !Truthy(hasMore) || s.pending == [] then (acc + ids, s1)
      else
        var r := SearchFrom(s1, request, page, next, acc + ids);
        SuffixTrans(r.1.pending, s1.pending, s.pending);
        r
  }

  /** `search_orders_for_ids`: the token check, then the cursor loop from an empty cursor. */
  function SearchSpec(keys: Keys, s: Session, start: int, end: int, pageSize: int, status: Option<string>, now: int)
    : (r: (seq<Value>, Session))
  {
    var (ok, s1) := EnsureSpec(keys, s, now);
    if !ok then ([], s1)
    else SearchFrom(s1, SearchRequestFor(keys, s1.tokens, start, end, pageSize, status, now), SearchPage, Str(""), [])
  }

  /** The ids the responses `ps` carry, page after page. */
  function IdsIn(page: Outcome -> SearchStep, ps: seq<Outcome>): seq<Value>
  {
    if ps == [] then []
    else (if page(ps[0]).Page? then page(ps[0]).ids else []) + IdsIn(page, ps[1..])
  }

  lemma IdsInFront(page: Outcome -> SearchStep, ps: seq<Outcome>, n: nat)
    requires 1 <= n <= |ps|
    ensures IdsIn(page, ps[..n]) == (if page(ps[0]).Page? then page(ps[0]).ids else []) + IdsIn(page, ps[1..][..n - 1])
  {
    DropOneTake(ps, n);
  }

  /** A response that ends the loop normally: a `break`, or a last page. */
  predicate EndsSearch(step: SearchStep)
  {
    step.Halt? || (step.Page? && !Truthy(step.hasMore))
  }

  /** Of the scripted responses `ps`, the loop consumed the first n and left `rest`: every one but
    * the last is a page with a truthy `has_more`. If the last one ends the loop normally, the
    * result `out` is `acc` followed by the ids of all n pages, in order; otherwise (an exception,
    * or the script ran out) it is `[]`. */
  predicate ConsumedInOrder(ps: seq<Outcome>, page: Outcome -> SearchStep, acc: seq<Value>,
                            out: seq<Value>, rest: seq<Outcome>)
  {
    var n := |ps| - |rest|;
    && 0 <= n && rest == ps[n..]
    && (forall i :: 0 <= i < n - 1 ==> page(ps[i]).Page? && Truthy(page(ps[i]).hasMore))
    && (n > 0 && EndsSearch(page(ps[n - 1])) ==> out == acc + IdsIn(page, ps[..n]))
    && (!(n > 0 && EndsSearch(page(ps[n - 1]))) ==> out == [])
  }

  /** The cursor loop consumes its responses in order, as `ConsumedInOrder` describes. */
  lemma {:induction false} SearchCollectsInOrder(s: Session, request: Value -> Request, page: Outcome -> SearchStep,
                                                 cursor: Value, acc: seq<Value>)
    requires page(Raised) == Failed
    ensures var r := SearchFrom(s, request, page, cursor, acc);
      ConsumedInOrder(s.pending, page, acc, r.0, r.1.pending)
    decreases |s.pending|
  {
    if s.pending != [] {
      var step := page(s.pending[0]);
      var s1 := SendOn(s, request(cursor));
      assert s1.pending == s.pending[1..];
      if step.Page? && Truthy(step.hasMore) {
        var r := SearchFrom(s1, request, page, step.cursor, acc + step.ids);
        assert SearchFrom(s, request, page, cursor, acc) == r;
        SearchCollectsInOrder(s1, request, page, step.cursor, acc + step.ids);
        ConsumedAfterPage(s.pending, page, acc, r.0, r.1.pending);
      } else {
        var r := SearchFrom(s, request, page, cursor, acc);
        assert |r.1.pending| == |s.pending| - 1;
        assert s.pending[..1][1..] == [];
        assert IdsIn(page, s.pending[..1]) == (if step.Page? then step.ids else []);
      }
    }
  }

  /** A first response that is a page with more to come adds its ids in front of what the rest of
    * the responses give. */
  lemma ConsumedAfterPage(ps: seq<Outcome>, page: Outcome -> SearchStep, acc: seq<Value>,
                          out: seq<Value>, rest: seq<Outcome>)
    requires ps != [] && page(ps[0]).Page? && Truthy(page(ps[0]).hasMore)
    requires ConsumedInOrder(ps[1..], page, acc + page(ps[0]).ids, out, rest)
    ensures ConsumedInOrder(ps, page, acc, out, rest)
  {
    var ids := page(ps[0]).ids;
    var n1 := |ps| - 1 - |rest|;
    var n := n1 + 1;
    forall i | 0 <= i < n - 1
      ensures page(ps[i]).Page? && Truthy(page(ps[i]).hasMore)
    {
      if i > 0 {
        assert ps[i] == ps[1..][i - 1];
      }
    }
    if n1 > 0 {
      assert ps[n - 1] == ps[1..][n1 - 1];
      if EndsSearch(page(ps[n - 1])) {
        IdsInFront(page, ps, n);
        AppendAssoc(acc, ids, IdsIn(page, ps[1..][..n1]));
      }
    }
  }

  /** The loop only appends to the log; its first request carries the starting cursor and the
    * request after each consumed page carries that page's cursor. */
  lemma {:induction false} SearchFollowsCursor(s: Session, request: Value -> Request, page: Outcome -> SearchStep,
                                               cursor: Value, acc: seq<Value>)
    requires page(Raised) == Failed
    ensures var r := SearchFrom(s, request, page, cursor, acc);
      var n := |s.pending| - |r.1.pending|;
      && |r.1.log| >= |s.log| + 1 && |r.1.log| >= |s.log| + n
      && r.1.log[..|s.log|] == s.log
      && r.1.log[|s.log|] == Sent(request(cursor))
      && forall j :: 0 <= j < n - 1 ==>
           page(s.pending[j]).Page? && r.1.log[|s.log| + 1 + j] == Sent(request(page(s.pending[j]).cursor))
    decreases |s.pending|
  {
    var r := SearchFrom(s, request, page, cursor, acc);
    var n := |s.pending| - |r.1.pending|;
    var s1 := SendOn(s, request(cursor));
    if s.pending == [] {
      assert r.1 == s1;
    } else {
      var step := page(s.pending[0]);
      assert s1.pending == s.pending[1..];
      if step.Page? && Truthy(step.hasMore) {
        var r1 := SearchFrom(s1, request, page, step.cursor, acc + step.ids);
        assert r == r1;
        SearchFollowsCursor(s1, request, page, step.cursor, acc + step.ids);
        var n1 := |s1.pending| - |r.1.pending|;
        assert n == n1 + 1;
        assert |r.1.log| >= |s1.log| + n1;
        assert r.1.log[..|s.log|] == r.1.log[..|s1.log|][..|s.log|];
        forall j | 0 <= j < n - 1
          ensures page(s.pending[j]).Page? && r.1.log[|s.log| + 1 + j] == Sent(request(page(s.pending[j]).cursor))
        {
          if j > 0 {
            assert s.pending[j] == s1.pending[j - 1];
          }
        }
      } else {
        assert r.1 == s1;
        assert n == 1;
      }
    }
  }

  /** A failed token check means no search request at all. */
  lemma SearchNeedsToken(keys: Keys, s: Session, start: int, end: int, pageSize: int, status: Option<string>, now: int)
    requires !EnsureSpec(keys, s, now).0
    ensures var r := SearchSpec(keys, s, start, end, pageSize, status, now);
      r.0 == [] && r.1.log == EnsureSpec(keys, s, now).1.log
  {
  }

  // ---------------------------------------------------------------------------------------------
  // Details

  /** The slices `order_ids[i:i + 50]` for `i` in `range(0, len(order_ids), 50)` from `start`. */
  function Slices(ids: seq<Value>, start: nat): seq<seq<Value>>
    decreases |ids| - start
  {
    if start >= |ids| then [] else [ids[start..Min(start + BatchSize, |ids|)]] + Slices(ids, start + BatchSize)
  }

  /** The slices partition the ids, in order, into runs of 50 and a shorter non-empty last run. */
  lemma {:induction false} SlicesPartition(ids: seq<Value>, start: nat)
    requires start <= |ids|
    ensures Concat(Slices(ids, start)) == ids[start..]
    ensures |Slices(ids, start)| == (|ids| - start + BatchSize - 1) / BatchSize
    ensures forall k :: 0 <= k < |Slices(ids, start)| ==> 0 < |Slices(ids, start)[k]| <= BatchSize
    ensures forall k :: 0 <= k < |Slices(ids, start)| - 1 ==> |Slices(ids, start)[k]| == BatchSize
    decreases |ids| - start
  {
    if start < |ids| {
      var next := start + BatchSize;
      var head := ids[start..Min(next, |ids|)];
      var sl := Slices(ids, start);
      assert sl == [head] + Slices(ids, next);
      if next <= |ids| {
        SlicesPartition(ids, next);
        assert ids[start..] == head + ids[next..];
      } else {
        assert Slices(ids, next) == [];
        assert head == ids[start..];
      }
      ConcatCons(head, Slices(ids, next));
      forall k | 0 <= k < |sl| ensures 0 < |sl[k]| <= BatchSize {
        if k > 0 {
          assert sl[k] == Slices(ids, next)[k - 1];
        }
      }
      forall k | 0 <= k < |sl| - 1 ensures |sl[k]| == BatchSize {
        if k > 0 {
          assert sl[k] == Slices(ids, next)[k - 1];
        }
      }
    }
  }

  /** `','.join(batch_ids)`; None where an id is not a string. */
  function JoinIds(batch: seq<Value>): (r: Option<string>)
    ensures r.Some? <==> forall i :: 0 <= i < |batch| ==> batch[i].Str?
  {
    if batch == [] then Some("")
    else
      var init := JoinIds(batch[..|batch| - 1]);
      var last := batch[|batch| - 1];
      if init.None? || !last.Str? then
        assert init.None? ==> exists i :: 0 <= i < |batch| - 1 && !batch[i].Str? by {
          if init.None? {
            var j :| 0 <= j < |batch[..|batch| - 1]| && !batch[..|batch| - 1][j].Str?;
            assert batch[j] == batch[..|batch| - 1][j];
          }
        }
        None
      else
        assert forall i :: 0 <= i < |batch| - 1 ==> batch[i] == batch[..|batch| - 1][i];
        Some(if |batch| == 1 then last.s else init.value + "," + last.s)
  }

  /** The details request for a comma-joined id list, signed; the tokens are fixed for the whole loop. */
  function DetailsRequestFor(keys: Keys, tokens: Tokens, now: int): string -> Request
  {
    idList =>
      var ps := [("app_key", keys.appKey), ("timestamp", Str(IntText(now))),
                 ("access_token", tokens.accessToken), ("shop_cipher", tokens.shopCipher),
                 ("version", Str("202309")), ("order_id_list", Str(idList))];
      Request("GET", BaseUrl + DetailsPath, Signed(keys, DetailsPath, ps, now), Null)
  }

  /** How one detail response ends a pass: an exception (the whole call returns `[]`), a skipped
    * chunk (non-200 or non-zero code), or its orders. */
  datatype DetailStep = Crashed | Skipped | Orders(orders: seq<Value>)

  function DetailPage(o: Outcome): DetailStep
  {
    match o
    case Raised => Crashed
    case Response(status, body) =>
      if status != 200 then Skipped
      else if !body.Obj? then Crashed
      else if !EqualsZero(Get(body.fields, "code")) then Skipped
      else
        var data := GetOr(body.fields, "data", Obj(map[]));
        if !data.Obj? then Crashed
        else
          var list := GetOr(data.fields, "order_list", List([]));
          if list.List? then Orders(list.items)
          else if list == Obj(map[]) || list == Str("") then Orders([])
          else Crashed
  }

  /** The chunk loop from offset `start`, with `acc` collected so far. */
  function DetailsFrom(s: Session, request: string -> Request, ids: seq<Value>, start: nat, acc: seq<Value>)
    : (r: (seq<Value>, Session))
    decreases |ids| - start
    ensures r.1.tokens == s.tokens
  {
    if start >= |ids| then (acc, s)
    else
      match JoinIds(ids[start..Min(start + BatchSize, |ids|)])
      case None => ([], s)
      case Some(idList) =>
        var s1 := SendOn(s, request(idList));
        match DetailPage(Next(s.pending))
        case Crashed => ([], s1)
        case Skipped => DetailsFrom(s1, request, ids, start + BatchSize, acc)
        case Orders(orders) => DetailsFrom(s1, request, ids, start + BatchSize, acc + orders)
  }

  /** `get_order_details_with_ids`: the token check, then the chunk loop. */
  function DetailsSpec(keys: Keys, s: Session, ids: seq<Value>, now: int): (r: (seq<Value>, Session))
  {
    var (ok, s1) := EnsureSpec(keys, s, now);
    if !ok then ([], s1) else DetailsFrom(s1, DetailsRequestFor(keys, s1.tokens, now), ids, 0, [])
  }

  /** The orders the responses `ps` carry; a skipped response carries none. */
  function OrdersIn(ps: seq<Outcome>): seq<Value>
  {
    if ps == [] then []
    else (if DetailPage(ps[0]).Orders? then DetailPage(ps[0]).orders else []) + OrdersIn(ps[1..])
  }

  /** One request per slice, in order, each for the slice's ids joined by commas. */
  function SliceRequests(request: string -> Request, slices: seq<seq<Value>>): seq<Event>
  {
    if slices == [] then []
    else
      var idList := JoinIds(slices[0]);
      [Sent(request(if idList.Some? then idList.value else ""))] + SliceRequests(request, slices[1..])
  }

  /** With string ids and no response that raises, every slice gets exactly one request, in
    * order, and the result is the orders of every non-skipped response in chunk order. */
  lemma {:induction false} DetailsOneRequestPerChunk(s: Session, request: string -> Request, ids: seq<Value>,
                                                     start: nat, acc: seq<Value>)
    requires start <= |ids| && forall i :: 0 <= i < |ids| ==> ids[i].Str?
    requires |Slices(ids, start)| <= |s.pending|
    requires forall k :: 0 <= k < |Slices(ids, start)| ==> !DetailPage(s.pending[k]).Crashed?
    ensures var r := DetailsFrom(s, request, ids, start, acc);
      var n := |Slices(ids, start)|;
      && r.0 == acc + OrdersIn(s.pending[..n])
      && r.1.log == s.log + SliceRequests(request, Slices(ids, start))
      && r.1.pending == s.pending[n..]
    decreases |ids| - start
  {
    var sl := Slices(ids, start);
    var n := |sl|;
    if start < |ids| {
      var next := start + BatchSize;
      var batch := ids[start..Min(next, |ids|)];
      DetailsUnfold(s, request, ids, start, acc);
      var idList := JoinIds(batch).value;
      var s1 := SendOn(s, request(idList));
      var step := DetailPage(s.pending[0]);
      var acc1 := if step.Orders? then acc + step.orders else acc;
      if next <= |ids| {
        forall k | 0 <= k < |Slices(ids, next)| ensures !DetailPage(s1.pending[k]).Crashed? {
          assert s1.pending[k] == s.pending[k + 1];
        }
        DetailsOneRequestPerChunk(s1, request, ids, next, acc1);
      } else {
        assert Slices(ids, next) == [];
      }
      var r1 := DetailsFrom(s1, request, ids, next, acc1);
      assert r1.0 == acc1 + OrdersIn(s1.pending[..n - 1]);
      assert r1.1.log == s1.log + SliceRequests(request, Slices(ids, next));
      assert r1.1.pending == s1.pending[n - 1..];
      DropOneTake(s.pending, n);
      assert OrdersIn(s.pending[..n]) ==
        (if step.Orders? then step.orders else []) + OrdersIn(s1.pending[..n - 1]);
      assert SliceRequests(request, sl) == [Sent(request(idList))] + SliceRequests(request, Slices(ids, next));
      AppendAssoc(s.log, [Sent(request(idList))], SliceRequests(request, Slices(ids, next)));
      if step.Orders? {
        AppendAssoc(acc, step.orders, OrdersIn(s1.pending[..n - 1]));
      } else {
        assert [] + OrdersIn(s1.pending[..n - 1]) == OrdersIn(s1.pending[..n - 1]);
      }
    } else {
      assert s.pending[..0] == [];
    }
  }

  /** One pass of the detail loop: the first slice is requested, the first response consumed. */
  lemma DetailsUnfold(s: Session, request: string -> Request, ids: seq<Value>, start: nat, acc: seq<Value>)
    requires start < |ids| && forall i :: 0 <= i < |ids| ==> ids[i].Str?
    requires 0 < |s.pending| && !DetailPage(s.pending[0]).Crashed?
    ensures var next := start + BatchSize;
      var batch := ids[start..Min(next, |ids|)];
      && JoinIds(batch).Some?
      && var s1 := SendOn(s, request(JoinIds(batch).value));
      var step := DetailPage(s.pending[0]);
      var acc1 := if step.Orders? then acc + step.orders else acc;
      && DetailsFrom(s, request, ids, start, acc) == DetailsFrom(s1, request, ids, next, acc1)
      && Slices(ids, start) == [batch] + Slices(ids, next)
      && s1.pending == s.pending[1..]
  {
    var batch := ids[start..Min(start + BatchSize, |ids|)];
    assert forall i :: 0 <= i < |batch| ==> batch[i] == ids[start + i];
  }


  /** A response that raises makes the whole call return `[]`, whatever was collected before. */
  lemma DetailsCrashLosesAll(s: Session, request: string -> Request, ids: seq<Value>, start: nat, acc: seq<Value>)
    requires start < |ids| && JoinIds(ids[start..Min(start + BatchSize, |ids|)]).Some?
    requires DetailPage(Next(s.pending)).Crashed?
    ensures DetailsFrom(s, request, ids, start, acc).0 == []
  {
  }

  // ---------------------------------------------------------------------------------------------
  // Periods

  /** `extract_orders_for_period`: search, then details only when there are ids. */
  function PeriodSpec(keys: Keys, s: Session, start: int, end: int, now: int): (r: (seq<Value>, Session))
  {
    var (ids, s1) := SearchSpec(keys, s, start, end, DefaultPageSize, None, now);
    if ids == [] then ([], s1) else DetailsSpec(keys, s1, ids, now)
  }

  /** No ids, no details: the result is empty and the session is the one the search left. */
  lemma PeriodSkipsDetailsWithoutIds(keys: Keys, s: Session, start: int, end: int, now: int)
    requires SearchSpec(keys, s, start, end, DefaultPageSize, None, now).0 == []
    ensures PeriodSpec(keys, s, start, end, now) == ([], SearchSpec(keys, s, start, end, DefaultPageSize, None, now).1)
  {
  }

  /** With ids, the details call sees exactly those ids, in the order the search returned them. */
  lemma PeriodFetchesFoundIds(keys: Keys, s: Session, start: int, end: int, now: int)
    requires SearchSpec(keys, s, start, end, DefaultPageSize, None, now).0 != []
    ensures var (ids, s1) := SearchSpec(keys, s, start, end, DefaultPageSize, None, now);
      PeriodSpec(keys, s, start, end, now) == DetailsSpec(keys, s1, ids, now)
  {
  }

  /** `datetime.now() - timedelta(days=days_back)`, in epoch seconds. */
  function DaysBefore(now: int, days: int): int
  {
    now - days * 86400
  }

  // ---------------------------------------------------------------------------------------------
  // The extractor

  class TikTokShopOrderExtractor {
    const auth: TikTokAuthenticator

    constructor (auth: TikTokAuthenticator)
      ensures this.auth == auth
    {
      this.auth := auth;
    }

    /** `search_orders_for_ids` */
    method SearchOrdersForIds(start: int, end: int, status: Option<string>, pageSize: int, now: int)
      returns (ids: seq<Value>)
      modifies auth, auth.net
      ensures (ids, auth.Snapshot()) == SearchSpec(auth.keys, old(auth.Snapshot()), start, end, pageSize, status, now)
    {
      var ok := auth.EnsureValidToken(now);
      if !ok {
        return [];
      }
      var tokens := Tokens(auth.accessToken, auth.refreshToken, auth.shopCipher);
      ids := CollectIds(SearchRequestFor(auth.keys, tokens, start, end, pageSize, status, now));
    }

    /** The `while has_more` loop of `search_orders_for_ids`. */
    method CollectIds(request: Value -> Request) returns (ids: seq<Value>)
      modifies auth.net
      ensures (ids, auth.Snapshot()) == SearchFrom(old(auth.Snapshot()), request, SearchPage, Str(""), [])
    {
      ghost var target := SearchFrom(auth.Snapshot(), request, SearchPage, Str(""), []);
      var all: seq<Value> := [];
      var cursor := Str("");
      var hasMore := Bool(true);
      while Truthy(hasMore)
        invariant Truthy(hasMore) ==> SearchFrom(auth.Snapshot(), request, SearchPage, cursor, all) == target
        invariant !Truthy(hasMore) ==> (all, auth.Snapshot()) == target
        decreases |auth.net.pending|, Truthy(hasMore)
      {
        var step := SearchNext(request, cursor);
        if step.Failed? {
          return [];
        }
        if step.Halt? {
          return all;
        }
        all := all + step.ids;
        hasMore := step.hasMore;
        cursor := step.cursor;
      }
      return all;
    }
    /** One request of the cursor loop and the page it answers with. */
    method SearchNext(request: Value -> Request, cursor: Value) returns (step: SearchStep)
      modifies auth.net
      ensures step == SearchPage(Next(old(auth.net.pending)))
      ensures auth.Snapshot() == SendOn(old(auth.Snapshot()), request(cursor))
    {
      var o := auth.net.Send(request(cursor));
      step := SearchPage(o);
    }


    /** `get_order_details_with_ids` */
    method GetOrderDetailsWithIds(ids: seq<Value>, now: int) returns (orders: seq<Value>)
      modifies auth, auth.net
      ensures (orders, auth.Snapshot()) == DetailsSpec(auth.keys, old(auth.Snapshot()), ids, now)
    {
      var ok := auth.EnsureValidToken(now);
      if !ok {
        return [];
      }
      var tokens := Tokens(auth.accessToken, auth.refreshToken, auth.shopCipher);
      orders := CollectDetails(DetailsRequestFor(auth.keys, tokens, now), ids);
    }

    /** The batch loop of `get_order_details_with_ids`. */
    method CollectDetails(request: string -> Request, ids: seq<Value>) returns (orders: seq<Value>)
      modifies auth.net
      ensures (orders, auth.Snapshot()) == DetailsFrom(old(auth.Snapshot()), request, ids, 0, [])
    {
      ghost var target := DetailsFrom(auth.Snapshot(), request, ids, 0, []);
      var all: seq<Value> := [];
      var i: nat := 0;
      while i < |ids|
        invariant DetailsFrom(auth.Snapshot(), request, ids, i, all) == target
        decreases |ids| - i
      {
        var idList := JoinIds(ids[i..Min(i + BatchSize, |ids|)]);
        if idList.None? {
          return [];
        }
        var o := auth.net.Send(request(idList.value));
        var step := DetailPage(o);
        if step.Crashed? {
          return [];
        }
        if step.Orders? {
          all := all + step.orders;
        }
        i := i + BatchSize;
      }
      return all;
    }

    /** `extract_orders_for_period` */
    method ExtractOrdersForPeriod(start: int, end: int, now: int) returns (orders: seq<Value>)
      modifies auth, auth.net
      ensures (orders, auth.Snapshot()) == PeriodSpec(auth.keys, old(auth.Snapshot()), start, end, now)
    {
      var ids := SearchOrdersForIds(start, end, None, DefaultPageSize, now);
      if ids == [] {
        return [];
      }
      orders := GetOrderDetailsWithIds(ids, now);
    }

    /** `extract_recent_orders`: the window is the `days_back` days up to now, in epoch seconds. */
    method ExtractRecentOrders(daysBack: int, now: int) returns (orders: seq<Value>)
      modifies auth, auth.net
      ensures (orders, auth.Snapshot()) == PeriodSpec(auth.keys, old(auth.Snapshot()), DaysBefore(now, daysBack), now, now)
    {
      orders := ExtractOrdersForPeriod(DaysBefore(now, daysBack), now, now);
    }
  }
}
