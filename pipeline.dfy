/** What the two multi-endpoint drivers (the production cycle and the complete backfill) share:
  * the CRM endpoint list and its ordering by priority, the outcome of running one endpoint
  * through extract, transform and load, and the row count over the six staging tables. */
module Pipeline {
  import opened Values

  // ---------------------------------------------------------------------------------------------
  // Endpoints and their priority order
  // ---------------------------------------------------------------------------------------------

  datatype Endpoint = Endpoint(name: string, table: string, priority: int)

  function Names(es: seq<Endpoint>): (r: seq<string>)
    ensures |r| == |es| && forall i :: 0 <= i < |es| ==> r[i] == es[i].name
  {
    if es == [] then [] else Names(es[..|es| - 1]) + [es[|es| - 1].name]
  }

  predicate SortedByPriority(s: seq<Endpoint>)
  {
    forall i, j :: 0 <= i < j < |s| ==> s[i].priority <= s[j].priority
  }

  /** Puts `e` after every element whose priority is not greater than its own. */
  function Insert(e: Endpoint, s: seq<Endpoint>): seq<Endpoint>
  {
    if s == [] then [e]
    else if e.priority < s[0].priority then [e] + s
    else [s[0]] + Insert(e, s[1..])
  }

  /** `list.sort(key=lambda x: x['priority'])`: a stable sort by priority, written as an insertion
    * sort that takes the elements in list order. */
  function SortByPriority(es: seq<Endpoint>): seq<Endpoint>
  {
    if es == [] then [] else Insert(es[|es| - 1], SortByPriority(es[..|es| - 1]))
  }

  lemma {:induction false} InsertKeepsOrder(e: Endpoint, s: seq<Endpoint>)
    requires SortedByPriority(s)
    ensures var r := Insert(e, s);
      SortedByPriority(r) && (r[0] == e || r[0] == s[0])
    decreases |s|
  {
    if s != [] && e.priority >= s[0].priority {
      var tail := s[1..];
      InsertKeepsOrder(e, tail);
      var rt := Insert(e, tail);
      assert Insert(e, s) == [s[0]] + rt;
      assert s[0].priority <= rt[0].priority;
    }
  }

  lemma {:induction false} InsertAddsOne(e: Endpoint, s: seq<Endpoint>)
    ensures multiset(Insert(e, s)) == multiset(s) + multiset{e}
    decreases |s|
  {
    if s != [] && e.priority >= s[0].priority {
      InsertAddsOne(e, s[1..]);
      assert s == [s[0]] + s[1..];
    }
  }

  /** The sort gives a list ordered by priority holding the same endpoints. */
  lemma {:induction false} SortIsOrderedPermutation(es: seq<Endpoint>)
    ensures var r := SortByPriority(es);
      SortedByPriority(r) && multiset(r) == multiset(es)
    decreases |es|
  {
    if es != [] {
      var init := es[..|es| - 1];
      SortIsOrderedPermutation(init);
      InsertKeepsOrder(es[|es| - 1], SortByPriority(init));
      InsertAddsOne(es[|es| - 1], SortByPriority(init));
      assert es == init + [es[|es| - 1]];
    }
  }

  /** A list already ordered by priority is left as it is. */
  lemma {:induction false} SortKeepsSorted(es: seq<Endpoint>)
    requires SortedByPriority(es)
    ensures SortByPriority(es) == es
    decreases |es|
  {
    if es != [] {
      var init := es[..|es| - 1];
      var last := es[|es| - 1];
      SortKeepsSorted(init);
      AppendInsert(last, init);
      assert init + [last] == es;
    }
  }

  lemma {:induction false} AppendInsert(e: Endpoint, s: seq<Endpoint>)
    requires forall i :: 0 <= i < |s| ==> s[i].priority <= e.priority
    ensures Insert(e, s) == s + [e]
    decreases |s|
  {
    if s != [] {
      AppendInsert(e, s[1..]);
      assert [s[0]] + (s[1..] + [e]) == s + [e];
    }
  }

  // ---------------------------------------------------------------------------------------------
  // One endpoint's run
  // ---------------------------------------------------------------------------------------------

  /** What extracting, transforming and loading one endpoint came to: an exception somewhere on the
    * way, an empty extraction, or the extracted and transformed row counts with the loader's
    * answer. */
  datatype Attempt =
    | Raises(error: string)
    | NoData
    | Ran(extracted: nat, transformed: nat, loaded: bool)

  // ---------------------------------------------------------------------------------------------
  // Row counts of the staging tables
  // ---------------------------------------------------------------------------------------------

  /** The six staging tables, in the order both drivers count them. */
  const StagingTables: seq<string> :=
    ["misa_customers", "misa_sale_orders_flattened", "misa_contacts", "misa_stocks", "misa_products",
     "tiktok_shop_order_detail"]

  /** The database as the count loop sees it: whether connecting raises, and each table's
    * `SELECT COUNT(*)` answer (an error when the query raises, e.g. for a missing table). */
  datatype StagingCounts = StagingCounts(connectError: Option<string>, count: string -> Result<nat>)

  datatype Tally = Tally(totalRecords: int, tablesWithData: nat, tableCounts: seq<(string, int)>)

  /** The tally over `tables`, or the first query error. */
  function TallyOf(tables: seq<string>, count: string -> Result<nat>): Result<Tally>
  {
    if tables == [] then Ok(Tally(0, 0, []))
    else
      match TallyOf(tables[..|tables| - 1], count)
      case Err(e) => Err(e)
      case Ok(t) =>
        var name := tables[|tables| - 1];
        match count(name)
        case Err(e) => Err(e)
        case Ok(n) => Ok(Tally(t.totalRecords + n, t.tablesWithData + (if n > 0 then 1 else 0), t.tableCounts + [(name, n)]))
  }

  /** The number of tables whose count is zero. */
  function EmptyTables(tables: seq<string>, count: string -> Result<nat>): nat
  {
    if tables == [] then 0
    else EmptyTables(tables[..|tables| - 1], count) + (if count(tables[|tables| - 1]) == Ok(0) then 1 else 0)
  }

  /** The sum of the tables' counts, a table whose query raises counting 0. */
  function CountSum(tables: seq<string>, count: string -> Result<nat>): int
  {
    if tables == [] then 0
    else CountSum(tables[..|tables| - 1], count)
         + (if count(tables[|tables| - 1]).Ok? then count(tables[|tables| - 1]).value else 0)
  }

  /** When every query answers, the tally records each table's count in order, adds them up, and
    * counts as having data exactly the tables that are not empty; when one raises, the tally is
    * that error. */
  lemma {:induction false} TallyCounts(tables: seq<string>, count: string -> Result<nat>)
    ensures var r := TallyOf(tables, count);
      && (r.Ok? <==> forall i :: 0 <= i < |tables| ==> count(tables[i]).Ok?)
      && (r.Ok? ==>
            && |r.value.tableCounts| == |tables|
            && (forall i :: 0 <= i < |tables| ==> r.value.tableCounts[i] == (tables[i], count(tables[i]).value))
            && r.value.totalRecords == CountSum(tables, count)
            && r.value.tablesWithData == |tables| - EmptyTables(tables, count))
    decreases |tables|
  {
    if tables != [] {
      var init := tables[..|tables| - 1];
      TallyCounts(init, count);
      assert forall i :: 0 <= i < |init| ==> init[i] == tables[i];
      EmptyTablesBound(init, count);
    }
  }

  lemma {:induction false} EmptyTablesBound(tables: seq<string>, count: string -> Result<nat>)
    ensures EmptyTables(tables, count) <= |tables|
    decreases |tables|
  {
    if tables != [] {
      EmptyTablesBound(tables[..|tables| - 1], count);
    }
  }

  /** `COUNT(*)` over the staging tables, stopping at the first error: connecting first, then one
    * query per table in order. */
  method CountTables(tables: seq<string>, db: StagingCounts) returns (r: Result<Tally>)
    ensures r == if db.connectError.Some? then Err(db.connectError.value) else TallyOf(tables, db.count)
  {
    if db.connectError.Some? {
      return Err(db.connectError.value);
    }
    var total := 0;
    var withData := 0;
    var counts: seq<(string, int)> := [];
    for i := 0 to |tables|
      invariant TallyOf(tables[..i], db.count) == Ok(Tally(total, withData, counts))
    {
      assert tables[..i + 1][..i] == tables[..i];
      match db.count(tables[i]) {
        case Err(e) =>
          TallyStopsAtError(tables, db.count, i + 1);
          return Err(e);
        case Ok(n) =>
          total := total + n;
          if n > 0 {
            withData := withData + 1;
          }
          counts := counts + [(tables[i], n)];
      }
    }
    assert tables[..|tables|] == tables;
    return Ok(Tally(total, withData, counts));
  }

  /** Once a prefix of the tables fails, the whole tally fails with the same error. */
  lemma {:induction false} TallyStopsAtError(tables: seq<string>, count: string -> Result<nat>, k: nat)
    requires k <= |tables| && TallyOf(tables[..k], count).Err?
    ensures TallyOf(tables, count) == TallyOf(tables[..k], count)
    decreases |tables| - k
  {
    if k < |tables| {
      assert tables[..k + 1][..k] == tables[..k];
      TallyStopsAtError(tables, count, k + 1);
    } else {
      assert tables[..k] == tables;
    }
  }

  /** Of six tables, at least five have data exactly when at most one is empty. */
  lemma FiveOfSix(count: string -> Result<nat>)
    requires TallyOf(StagingTables, count).Ok?
    ensures TallyOf(StagingTables, count).value.tablesWithData >= 5 <==> EmptyTables(StagingTables, count) <= 1
  {
    TallyCounts(StagingTables, count);
  }
}
