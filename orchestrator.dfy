/** The production ETL cycle: the five CRM endpoints in priority order, then the marketplace
  * orders, then the data-quality check; each endpoint gets exactly one status, a failing endpoint
  * does not stop the others, and the cycle's record total and success verdict are derived from
  * the statuses. The components are represented by what running them comes to (`Attempt`). */
module ProductionOrchestrator {
  import opened Values
  import opened Pipeline
  import opened ProductionMonitor

  /** The CRM endpoints of a cycle, in the order they are declared. */
  const CycleEndpoints: seq<Endpoint> :=
    [Endpoint("sale_orders", "sale_orders_flattened", 1), Endpoint("customers", "customers", 2),
     Endpoint("contacts", "contacts", 3), Endpoint("stocks", "stocks", 4), Endpoint("products", "products", 5)]

  /** The declaration is already in priority order, so sorting keeps it: sale orders first,
    * products last. */
  lemma CycleOrder()
    ensures SortByPriority(CycleEndpoints) == CycleEndpoints
    ensures Names(SortByPriority(CycleEndpoints)) == ["sale_orders", "customers", "contacts", "stocks", "products"]
  {
    SortKeepsSorted(CycleEndpoints);
  }

  // ---------------------------------------------------------------------------------------------
  // Statuses
  // ---------------------------------------------------------------------------------------------

  /** The entry a CRM endpoint gets. */
  function CrmEntry(a: Attempt): EndpointResult
  {
    match a
    case Raises(msg) => Errored(msg)
    case NoData => Counted("no_data", 0, 0, 0)
    case Ran(extracted, transformed, loaded) =>
      if loaded then Counted("success", transformed, extracted, transformed)
      else Counted("duplicate_skipped", 0, extracted, transformed)
  }

  /** The marketplace 'orders' entry. */
  function OrdersEntry(a: Attempt): EndpointResult
  {
    match a
    case Raises(msg) => Errored(msg)
    case NoData => Counted("no_data", 0, 0, 0)
    case Ran(extracted, transformed, loaded) =>
      if loaded then Counted("success", transformed, extracted, transformed)
      else Counted("load_failed", 0, extracted, transformed)
  }

  /** The row count an attempt loaded: the transformed rows when the loader accepted them. */
  function LoadedRows(a: Attempt): nat
  {
    if a.Ran? && a.loaded then a.transformed else 0
  }

  /** Every endpoint ends with exactly one of four statuses, and its `records` is the loaded row
    * count when it succeeded and 0 otherwise. */
  lemma EntryStatuses(a: Attempt)
    ensures StatusOf(CrmEntry(a)) in {"no_data", "success", "duplicate_skipped", "error"}
    ensures StatusOf(OrdersEntry(a)) in {"no_data", "success", "load_failed", "error"}
    ensures StatusOf(CrmEntry(a)) == "success" <==> a.Ran? && a.loaded
    ensures StatusOf(OrdersEntry(a)) == "success" <==> a.Ran? && a.loaded
    ensures StatusOf(CrmEntry(a)) == "error" <==> a.Raises?
    ensures StatusOf(CrmEntry(a)) == "no_data" <==> a.NoData?
    ensures RecordsOf(CrmEntry(a)) == LoadedRows(a) && RecordsOf(OrdersEntry(a)) == LoadedRows(a)
  {
  }

  // ---------------------------------------------------------------------------------------------
  // Totals and the success verdict
  // ---------------------------------------------------------------------------------------------

  function RecordsSum(r: seq<(string, EndpointResult)>): int
  {
    if r == [] then 0 else RecordsSum(r[..|r| - 1]) + RecordsOf(r[|r| - 1].1)
  }

  /** `_calculate_total_records`: the CRM entries' records plus the orders entry's. */
  function TotalRecords(c: CycleResults): int
  {
    RecordsSum(c.misaCrm) + (if c.orders.Some? then RecordsOf(c.orders.value) else 0)
  }

  /** The CRM entries a cycle builds from its attempts. */
  function CrmEntries(names: seq<string>, run: string -> Attempt): (r: seq<(string, EndpointResult)>)
    ensures |r| == |names| && forall i :: 0 <= i < |names| ==> r[i] == (names[i], CrmEntry(run(names[i])))
  {
    if names == [] then [] else CrmEntries(names[..|names| - 1], run) + [(names[|names| - 1], CrmEntry(run(names[|names| - 1])))]
  }

  function LoadedSum(names: seq<string>, run: string -> Attempt): nat
  {
    if names == [] then 0 else LoadedSum(names[..|names| - 1], run) + LoadedRows(run(names[|names| - 1]))
  }

  /** The CRM records add up to the rows loaded by the endpoints that succeeded: no other status
    * contributes. */
  lemma {:induction false} CrmTotalIsLoadedRows(names: seq<string>, run: string -> Attempt)
    ensures RecordsSum(CrmEntries(names, run)) == LoadedSum(names, run)
    decreases |names|
  {
    if names != [] {
      var init := names[..|names| - 1];
      CrmTotalIsLoadedRows(init, run);
      EntryStatuses(run(names[|names| - 1]));
      assert CrmEntries(names, run)[..|names| - 1] == CrmEntries(init, run);
    }
  }

  /** Some CRM entry has status 'success' (`any(...)`). */
  function AnySuccess(r: seq<(string, EndpointResult)>): bool
  {
    if r == [] then false else AnySuccess(r[..|r| - 1]) || StatusOf(r[|r| - 1].1) == "success"
  }

  lemma {:induction false} AnySuccessIff(r: seq<(string, EndpointResult)>)
    ensures AnySuccess(r) <==> exists i :: 0 <= i < |r| && StatusOf(r[i].1) == "success"
    decreases |r|
  {
    if r != [] {
      var init := r[..|r| - 1];
      AnySuccessIff(init);
      assert forall i :: 0 <= i < |init| ==> init[i] == r[i];
    }
  }

  /** `_determine_cycle_success`. */
  function DetermineCycleSuccess(c: CycleResults): (r: bool)
    ensures r <==> && c.errors == [] && QualityPassed(c.dataQuality)
                   && ((exists i :: 0 <= i < |c.misaCrm| && StatusOf(c.misaCrm[i].1) == "success") || OrdersSucceeded(c))
  {
    AnySuccessIff(c.misaCrm);
    if c.errors != [] then false
    else if !QualityPassed(c.dataQuality) then false
    else AnySuccess(c.misaCrm) || OrdersSucceeded(c)
  }

  /** The quality phase's verdict from the table tally. */
  function QualityOf(t: Result<Tally>): (q: Quality)
    ensures q.Checked? <==> t.Ok?
    ensures q.Checked? ==> (q.passed <==> t.value.tablesWithData >= 5)
  {
    match t
    case Err(e) => QualityFailed(e)
    case Ok(tally) =>
      Checked(tally.totalRecords, tally.tablesWithData, tally.tableCounts,
              (tally.tablesWithData as real) / 6.0 * 100.0, tally.tablesWithData >= 5)
  }

  /** The quality check passes exactly when every table answers and at most one of the six is
    * empty. */
  lemma QualityFiveOfSix(db: StagingCounts)
    ensures var q := QualityOf(if db.connectError.Some? then Err(db.connectError.value) else TallyOf(StagingTables, db.count));
      q.Checked? && q.passed
      <==> db.connectError.None? && TallyOf(StagingTables, db.count).Ok? && EmptyTables(StagingTables, db.count) <= 1
  {
    if db.connectError.None? && TallyOf(StagingTables, db.count).Ok? {
      FiveOfSix(db.count);
    }
  }

  // ---------------------------------------------------------------------------------------------
  // The orchestrator
  // ---------------------------------------------------------------------------------------------

  class ProductionETLOrchestrator {
    const monitor: ProductionETLMonitor
    /** Whether the CRM extractor was built (the guard of the initialisation step). */
    var initialized: bool
    var cycleCount: nat
    var startTime: int

    constructor(monitor: ProductionETLMonitor)
      ensures this.monitor == monitor && !initialized && cycleCount == 0
    {
      this.monitor := monitor;
      initialized := false;
      cycleCount := 0;
      startTime := 0;
    }

    /** `initialize_components`: the six components are built in order until one raises; `built`
      * is how many were built. */
    method InitializeComponents(built: nat) returns (ok: bool)
      modifies this
      ensures ok <==> built >= 6
      ensures initialized == (built >= 1) && cycleCount == old(cycleCount) && startTime == old(startTime)
    {
      initialized := built >= 1;
      ok := built >= 6;
    }

    /** `_process_misa_crm_endpoints`: every endpoint in priority order gets its entry, whatever
      * happened to the ones before it. */
    method ProcessMisaCrmEndpoints(run: string -> Attempt) returns (results: seq<(string, EndpointResult)>)
      ensures results == CrmEntries(["sale_orders", "customers", "contacts", "stocks", "products"], run)
    {
      var endpoints := SortByPriority(CycleEndpoints);
      CycleOrder();
      ghost var names := Names(endpoints);
      results := [];
      for i := 0 to |endpoints|
        invariant results == CrmEntries(names[..i], run)
      {
        assert names[..i + 1][..i] == names[..i];
        results := results + [(endpoints[i].name, CrmEntry(run(endpoints[i].name)))];
      }
      assert names[..|endpoints|] == names;
    }

    /** `_process_tiktok_shop_data`. */
    method ProcessTikTokShopData(orders: Attempt) returns (entry: EndpointResult)
      ensures entry == OrdersEntry(orders)
      ensures StatusOf(entry) == "success" <==> orders.Ran? && orders.loaded
    {
      match orders {
        case Raises(msg) => entry := Errored(msg);
        case NoData => entry := Counted("no_data", 0, 0, 0);
        case Ran(extracted, transformed, loaded) =>
          if loaded {
            entry := Counted("success", transformed, extracted, transformed);
          } else {
            entry := Counted("load_failed", 0, extracted, transformed);
          }
      }
    }

    /** `_verify_data_quality`. */
    method VerifyDataQuality(db: StagingCounts) returns (q: Quality)
      ensures q == QualityOf(if db.connectError.Some? then Err(db.connectError.value) else TallyOf(StagingTables, db.count))
    {
      var tally := CountTables(StagingTables, db);
      q := QualityOf(tally);
    }

    /** `_calculate_total_records`. */
    method CalculateTotalRecords(c: CycleResults) returns (total: int)
      ensures total == TotalRecords(c)
    {
      total := 0;
      for i := 0 to |c.misaCrm|
        invariant total == RecordsSum(c.misaCrm[..i])
      {
        assert c.misaCrm[..i + 1][..i] == c.misaCrm[..i];
        total := total + RecordsOf(c.misaCrm[i].1);
      }
      assert c.misaCrm[..|c.misaCrm|] == c.misaCrm;
      if c.orders.Some? {
        total := total + RecordsOf(c.orders.value);
      }
    }

    /** `run_production_cycle`, started at `now` and finalised at `endTime`. `built` is how many
      * components an initialisation would build, `run` and `orders` what each endpoint's run comes
      * to, and `db` what the quality phase's queries answer. */
    method RunProductionCycle(now: int, endTime: int, built: nat, run: string -> Attempt, orders: Attempt, db: StagingCounts)
      returns (c: CycleResults, m: Metrics)
      modifies this, monitor
      ensures cycleCount == old(cycleCount) + 1 && c.cycleNumber == cycleCount && startTime == now
      ensures c.startTime == now && c.durationSeconds == (endTime - now) as real
      ensures var failed := !old(initialized) && built < 6;
        && (failed ==> c.errors == ["Component initialization failed"] && c.misaCrm == [] && c.orders == None
                       && c.dataQuality == None && c.totalRecords == 0 && !c.success)
        && (!failed ==>
              && c.errors == []
              && c.misaCrm == CrmEntries(["sale_orders", "customers", "contacts", "stocks", "products"], run)
              && c.orders == Some(OrdersEntry(orders))
              && c.dataQuality == Some(QualityOf(if db.connectError.Some? then Err(db.connectError.value)
                                                 else TallyOf(StagingTables, db.count)))
              && c.totalRecords == TotalRecords(c)
              && c.success == DetermineCycleSuccess(c))
      ensures m == MetricsOf(c, endTime)
      ensures monitor.metricsHistory == Appended(old(monitor.metricsHistory), m)
    {
      cycleCount := cycleCount + 1;
      startTime := now;
      c := CycleResults(cycleCount, now, [], None, None, 0, 0.0, false, []);
      if !initialized {
        var ok := InitializeComponents(built);
        if !ok {
          c := c.(errors := c.errors + ["Component initialization failed"]);
          m := FinalizeCycleResults(c, endTime);
          c := c.(durationSeconds := (endTime - startTime) as real);
          return;
        }
      }
      c := ProcessSources(c, run, orders, db);
      m := FinalizeCycleResults(c, endTime);
      c := c.(durationSeconds := (endTime - startTime) as real);
    }

    /** The body of a cycle once the components are up: the CRM endpoints, the TikTok Shop
      * orders, the quality check, the total and the verdict, filled into `c0`. */
    method ProcessSources(c0: CycleResults, run: string -> Attempt, orders: Attempt, db: StagingCounts)
      returns (c: CycleResults)
      ensures c.cycleNumber == c0.cycleNumber && c.startTime == c0.startTime
      ensures c.durationSeconds == c0.durationSeconds && c.errors == c0.errors
      ensures c.misaCrm == CrmEntries(["sale_orders", "customers", "contacts", "stocks", "products"], run)
      ensures c.orders == Some(OrdersEntry(orders))
      ensures c.dataQuality == Some(QualityOf(if db.connectError.Some? then Err(db.connectError.value)
                                              else TallyOf(StagingTables, db.count)))
      ensures c.totalRecords == TotalRecords(c) && c.success == DetermineCycleSuccess(c)
    {
      c := c0;
      var misa := ProcessMisaCrmEndpoints(run);
      c := c.(misaCrm := misa);
      var entry := ProcessTikTokShopData(orders);
      c := c.(orders := Some(entry));
      var quality := VerifyDataQuality(db);
      c := c.(dataQuality := Some(quality));
      var total := CalculateTotalRecords(c);
      c := c.(totalRecords := total);
      c := c.(success := DetermineCycleSuccess(c));
    }

    /** `_finalize_cycle_results`: stamps the duration and records the cycle with the monitor. */
    method FinalizeCycleResults(c: CycleResults, endTime: int) returns (m: Metrics)
      modifies monitor
      ensures m == MetricsOf(c.(durationSeconds := (endTime - startTime) as real), endTime)
      ensures monitor.metricsHistory == Appended(old(monitor.metricsHistory), m)
    {
      var finished := c.(durationSeconds := (endTime - startTime) as real);
      m := monitor.RecordCycleMetrics(finished, endTime);
    }
  }
}
