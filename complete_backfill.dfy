/** The complete backfill: after initialisation and a connection test, the five CRM endpoints in
  * priority order, then the marketplace orders, then the verification count over the six staging
  * tables, whose verdict is the run's answer; the final summary counts only the endpoints that
  * succeeded. */
module CompleteBackfill {
  import opened Values
  import opened Pipeline

  /** The CRM endpoints as the backfill declares them: customers before sale orders. */
  const BackfillEndpoints: seq<Endpoint> :=
    [Endpoint("customers", "customers", 2), Endpoint("sale_orders", "sale_orders_flattened", 1),
     Endpoint("contacts", "contacts", 3), Endpoint("stocks", "stocks", 4), Endpoint("products", "products", 5)]

  const PriorityOrder: seq<string> := ["sale_orders", "customers", "contacts", "stocks", "products"]

  /** Sorting moves sale orders (priority 1) ahead of customers; products stay last. */
  lemma BackfillOrder()
    ensures Names(SortByPriority(BackfillEndpoints)) == PriorityOrder
  {
    var e := BackfillEndpoints;
    assert SortByPriority(e[..1]) == [e[0]];
    assert SortByPriority(e[..2]) == [e[1], e[0]] by {
      assert e[..2][..1] == e[..1];
    }
    assert SortByPriority(e[..3]) == [e[1], e[0], e[2]] by {
      assert e[..3][..2] == e[..2];
      assert Insert(e[2], [e[0]]) == [e[0], e[2]];
    }
    assert SortByPriority(e[..4]) == [e[1], e[0], e[2], e[3]] by {
      assert e[..4][..3] == e[..3];
      assert Insert(e[3], [e[2]]) == [e[2], e[3]];
      assert Insert(e[3], [e[0], e[2]]) == [e[0], e[2], e[3]];
    }
    assert SortByPriority(e) == [e[1], e[0], e[2], e[3], e[4]] by {
      assert e[..5] == e;
      assert e[..5][..4] == e[..4];
      assert Insert(e[4], [e[3]]) == [e[3], e[4]];
      assert Insert(e[4], [e[2], e[3]]) == [e[2], e[3], e[4]];
      assert Insert(e[4], [e[0], e[2], e[3]]) == [e[0], e[2], e[3], e[4]];
    }
  }

  // ---------------------------------------------------------------------------------------------
  // Entries
  // ---------------------------------------------------------------------------------------------

  /** An endpoint's entry: `no_data` (with `records` 0), `success` (with a `loaded` count),
    * `load_failed` (without one) or `error`. */
  datatype Entry =
    | NoDataEntry
    | Success(extracted: nat, transformed: nat, loaded: nat)
    | LoadFailed(extracted: nat, transformed: nat)
    | Failed(error: string)

  function Status(e: Entry): string
  {
    match e
    case NoDataEntry => "no_data"
    case Success(_, _, _) => "success"
    case LoadFailed(_, _) => "load_failed"
    case Failed(_) => "error"
  }

  /** `result.get('loaded')`. */
  function LoadedOf(e: Entry): Option<nat>
  {
    if e.Success? then Some(e.loaded) else None
  }

  /** The entry for one endpoint's run, CRM or marketplace alike. */
  function EntryOf(a: Attempt): Entry
  {
    match a
    case Raises(msg) => Failed(msg)
    case NoData => NoDataEntry
    case Ran(extracted, transformed, loaded) =>
      if loaded then Success(extracted, transformed, transformed) else LoadFailed(extracted, transformed)
  }

  /** Each run ends in exactly one status; a success records the transformed row count as loaded,
    * and no other status has a 'loaded' key. */
  lemma EntryRules(a: Attempt)
    ensures var e := EntryOf(a);
      && Status(e) in {"no_data", "success", "load_failed", "error"}
      && (Status(e) == "success" <==> a.Ran? && a.loaded)
      && (Status(e) == "load_failed" <==> a.Ran? && !a.loaded)
      && (Status(e) == "error" <==> a.Raises?)
      && (LoadedOf(e).Some? <==> Status(e) == "success")
      && (Status(e) == "success" ==> LoadedOf(e).value == a.transformed == e.transformed)
  {
  }

  /** The CRM entries the backfill builds from its attempts, in the given order. */
  function Entries(names: seq<string>, run: string -> Attempt): (r: seq<(string, Entry)>)
    ensures |r| == |names| && forall i :: 0 <= i < |names| ==> r[i] == (names[i], EntryOf(run(names[i])))
  {
    if names == [] then [] else Entries(names[..|names| - 1], run) + [(names[|names| - 1], EntryOf(run(names[|names| - 1])))]
  }

  /** `results['misa_crm'].get(name)`. */
  function Lookup(r: seq<(string, Entry)>, name: string): Option<Entry>
  {
    if r == [] then None
    else if r[|r| - 1].0 == name then Some(r[|r| - 1].1)
    else Lookup(r[..|r| - 1], name)
  }

  lemma {:induction false} LookupEntries(names: seq<string>, run: string -> Attempt, i: nat)
    requires i < |names| && forall j, k :: 0 <= j < k < |names| ==> names[j] != names[k]
    ensures Lookup(Entries(names, run), names[i]) == Some(EntryOf(run(names[i])))
    decreases |names|
  {
    if i < |names| - 1 {
      var init := names[..|names| - 1];
      LookupEntries(init, run, i);
      assert Entries(names, run)[..|names| - 1] == Entries(init, run);
    }
  }

  // ---------------------------------------------------------------------------------------------
  // Verification and the summary
  // ---------------------------------------------------------------------------------------------

  datatype Verification =
    | Verified(totalRecords: int, tablesWithData: nat, tableCounts: seq<(string, int)>, success: bool)
    | VerificationFailed(error: string)

  /** `verify_all_data`'s result from the table tally. */
  function VerificationOf(t: Result<Tally>): (v: Verification)
    ensures v.Verified? <==> t.Ok?
    ensures v.Verified? ==> v.success == (t.value.tablesWithData >= 5)
  {
    match t
    case Err(e) => VerificationFailed(e)
    case Ok(tally) => Verified(tally.totalRecords, tally.tablesWithData, tally.tableCounts, tally.tablesWithData >= 5)
  }

  /** `verification_results.get('success', False)`. */
  predicate VerificationSucceeded(v: Verification)
  {
    v.Verified? && v.success
  }

  /** The figures `generate_final_summary` reports. */
  datatype FinalSummary = FinalSummary(
    totalMisaLoaded: int,
    successfulMisa: nat,
    tiktokStatus: string,
    tiktokLoaded: int,
    totalInDb: int,
    tablesWithData: int,
    overallSuccess: bool)

  /** The CRM success count and loaded total over `names`, looking each name up in `r`. */
  function MisaFigures(r: seq<(string, Entry)>, names: seq<string>): (int, nat)
  {
    if names == [] then (0, 0)
    else
      var (loaded, successes) := MisaFigures(r, names[..|names| - 1]);
      var e := Lookup(r, names[|names| - 1]);
      if e.Some? && Status(e.value) == "success" then (loaded + e.value.loaded, successes + 1) else (loaded, successes)
  }

  function SummaryOf(r: seq<(string, Entry)>, tiktok: Option<Entry>, v: Option<Verification>): FinalSummary
  {
    var (loaded, successes) := MisaFigures(r, PriorityOrder);
    var tiktokStatus := if tiktok.Some? then Status(tiktok.value) else "unknown";
    var tiktokLoaded := if tiktok.Some? && LoadedOf(tiktok.value).Some? then LoadedOf(tiktok.value).value else 0;
    var totalInDb := if v.Some? && v.value.Verified? then v.value.totalRecords else 0;
    var withData := if v.Some? && v.value.Verified? then v.value.tablesWithData else 0;
    FinalSummary(loaded, successes, tiktokStatus, tiktokLoaded, totalInDb, withData, withData >= 5 && totalInDb > 0)
  }

  function SuccessNames(r: seq<(string, Entry)>, names: seq<string>): nat
  {
    if names == [] then 0
    else
      var e := Lookup(r, names[|names| - 1]);
      SuccessNames(r, names[..|names| - 1]) + (if e.Some? && Status(e.value) == "success" then 1 else 0)
  }

  function LoadedNames(names: seq<string>, run: string -> Attempt): nat
  {
    if names == [] then 0
    else LoadedNames(names[..|names| - 1], run) + (if run(names[|names| - 1]).Ran? && run(names[|names| - 1]).loaded then run(names[|names| - 1]).transformed else 0)
  }

  /** The summary counts an endpoint only when its entry is a success, and then adds its loaded
    * rows; nothing else adds to `successful_misa` or `total_misa_loaded`. */
  lemma {:induction false} FiguresCountSuccesses(r: seq<(string, Entry)>, names: seq<string>)
    ensures var (loaded, successes) := MisaFigures(r, names);
      successes == SuccessNames(r, names) && successes <= |names|
    decreases |names|
  {
    if names != [] {
      FiguresCountSuccesses(r, names[..|names| - 1]);
    }
  }

  /** After a backfill of the five endpoints, the summary's CRM total is the rows the accepted loads
    * took in, over every endpoint. */
  lemma {:induction false} FiguresOfEntries(names: seq<string>, run: string -> Attempt, k: nat)
    requires k <= |names| && forall j, l :: 0 <= j < l < |names| ==> names[j] != names[l]
    ensures MisaFigures(Entries(names, run), names[..k]).0 == LoadedNames(names[..k], run)
    decreases k
  {
    if k > 0 {
      assert names[..k][..k - 1] == names[..k - 1];
      FiguresOfEntries(names, run, k - 1);
      LookupEntries(names, run, k - 1);
    }
  }

  // ---------------------------------------------------------------------------------------------
  // The backfill
  // ---------------------------------------------------------------------------------------------

  class CompleteBackfillOrchestrator {
    const daysBack: int
    const endDate: int
    const startDate: int
    var misaCrm: seq<(string, Entry)>
    var tiktokShop: Option<Entry>
    var verification: Option<Verification>

    /** The period ends at `now` and starts `daysBack` days earlier (times in seconds). */
    constructor(daysBack: int, now: int)
      ensures this.daysBack == daysBack && endDate == now && startDate == now - daysBack * 86400
      ensures misaCrm == [] && tiktokShop == None && verification == None
    {
      this.daysBack := daysBack;
      endDate := now;
      startDate := now - daysBack * 86400;
      misaCrm := [];
      tiktokShop := None;
      verification := None;
    }

    /** `backfill_misa_crm_data`: sorts the endpoints by priority and gives each its entry; a
      * failing endpoint does not stop the rest. */
    method BackfillMisaCrmData(run: string -> Attempt) returns (results: seq<(string, Entry)>)
      ensures results == Entries(PriorityOrder, run)
    {
      var endpoints := SortByPriority(BackfillEndpoints);
      BackfillOrder();
      results := [];
      for i := 0 to |endpoints|
        invariant results == Entries(PriorityOrder[..i], run)
      {
        assert PriorityOrder[..i + 1][..i] == PriorityOrder[..i];
        var name := endpoints[i].name;
        var entry: Entry;
        match run(name) {
          case Raises(msg) => entry := Failed(msg);
          case NoData => entry := NoDataEntry;
          case Ran(extracted, transformed, loaded) =>
            if loaded {
              entry := Success(extracted, transformed, transformed);
            } else {
              entry := LoadFailed(extracted, transformed);
            }
        }
        results := results + [(name, entry)];
      }
      assert PriorityOrder[..|endpoints|] == PriorityOrder;
    }

    /** `verify_all_data`. */
    method VerifyAllData(db: StagingCounts) returns (v: Verification)
      ensures v == VerificationOf(if db.connectError.Some? then Err(db.connectError.value) else TallyOf(StagingTables, db.count))
    {
      var tally := CountTables(StagingTables, db);
      v := VerificationOf(tally);
    }

    /** `run_complete_backfill`: `built` is how many of the six components an initialisation builds,
      * `crmToken` and `shopHealthy` what the connection test sees, `run` and `orders` what each
      * endpoint's run comes to and `db` what the verification queries answer. */
    method RunCompleteBackfill(built: nat, crmToken: bool, shopHealthy: bool, run: string -> Attempt, orders: Attempt,
                               db: StagingCounts)
      returns (ok: bool, summary: Option<FinalSummary>)
      modifies this
      ensures built < 6 || !crmToken || !shopHealthy ==>
                !ok && summary == None && misaCrm == old(misaCrm) && tiktokShop == old(tiktokShop)
                && verification == old(verification)
      ensures built >= 6 && crmToken && shopHealthy ==>
                && misaCrm == Entries(PriorityOrder, run)
                && tiktokShop == Some(EntryOf(orders))
                && verification == Some(VerificationOf(if db.connectError.Some? then Err(db.connectError.value)
                                                       else TallyOf(StagingTables, db.count)))
                && ok == VerificationSucceeded(verification.value)
                && summary == Some(SummaryOf(misaCrm, tiktokShop, verification))
    {
      if built < 6 {
        return false, None;
      }
      if !crmToken || !shopHealthy {
        return false, None;
      }
      misaCrm := BackfillMisaCrmData(run);
      tiktokShop := Some(EntryOf(orders));
      var v := VerifyAllData(db);
      verification := Some(v);
      var s := GenerateFinalSummary();
      return VerificationSucceeded(v), Some(s);
    }

    /** `generate_final_summary`: the reported figures, counting the CRM endpoints in priority
      * order. */
    method GenerateFinalSummary() returns (s: FinalSummary)
      ensures s == SummaryOf(misaCrm, tiktokShop, verification)
      ensures s.overallSuccess <==> s.tablesWithData >= 5 && s.totalInDb > 0
      ensures s.successfulMisa == SuccessNames(misaCrm, PriorityOrder) <= 5
    {
      var totalMisaLoaded := 0;
      var successfulMisa := 0;
      for i := 0 to |PriorityOrder|
        invariant (totalMisaLoaded, successfulMisa) == MisaFigures(misaCrm, PriorityOrder[..i])
      {
        assert PriorityOrder[..i + 1][..i] == PriorityOrder[..i];
        var result := Lookup(misaCrm, PriorityOrder[i]);
        if result.Some? && Status(result.value) == "success" {
          successfulMisa := successfulMisa + 1;
          totalMisaLoaded := totalMisaLoaded + result.value.loaded;
        }
      }
      assert PriorityOrder[..|PriorityOrder|] == PriorityOrder;
      FiguresCountSuccesses(misaCrm, PriorityOrder);
      var tiktokStatus := if tiktokShop.Some? then Status(tiktokShop.value) else "unknown";
      var tiktokLoaded := if tiktokShop.Some? && LoadedOf(tiktokShop.value).Some? then LoadedOf(tiktokShop.value).value else 0;
      var totalInDb := if verification.Some? && verification.value.Verified? then verification.value.totalRecords else 0;
      var withData := if verification.Some? && verification.value.Verified? then verification.value.tablesWithData else 0;
      s := FinalSummary(totalMisaLoaded, successfulMisa, tiktokStatus, tiktokLoaded, totalInDb, withData,
                        withData >= 5 && totalInDb > 0);
    }
  }

  /** A full run's CRM total is the rows of the accepted loads over the five endpoints. */
  lemma SummaryOfBackfill(run: string -> Attempt, tiktok: Option<Entry>, v: Option<Verification>)
    ensures SummaryOf(Entries(PriorityOrder, run), tiktok, v).totalMisaLoaded == LoadedNames(PriorityOrder, run)
  {
    FiguresOfEntries(PriorityOrder, run, 5);
    assert PriorityOrder[..5] == PriorityOrder;
  }
}
