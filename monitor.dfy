/** The production monitor: a bounded history of per-cycle metrics, the consecutive-failure and
  * no-data counters, the alert rules with their one-hour de-duplication, and the health verdict.
  * Times are whole seconds passed in by the caller; durations are seconds as reals. */
module ProductionMonitor {
  import opened Values

  // ---------------------------------------------------------------------------------------------
  // What a cycle hands to the monitor
  // ---------------------------------------------------------------------------------------------

  /** One endpoint's entry in a cycle's results: a counted outcome (`no_data`, `success`,
    * `duplicate_skipped`, `load_failed`) or an `error` entry, which carries no counts. */
  datatype EndpointResult =
    | Counted(status: string, records: int, extracted: int, transformed: int)
    | Errored(error: string)

  function StatusOf(e: EndpointResult): string
  {
    if e.Counted? then e.status else "error"
  }

  predicate Succeeded(e: EndpointResult)
  {
    StatusOf(e) == "success"
  }

  /** The entry's `records`; an error entry has `records` 0. */
  function RecordsOf(e: EndpointResult): int
  {
    if e.Counted? then e.records else 0
  }

  /** The data-quality phase's answer: the table counts, or the error that stopped it. */
  datatype Quality =
    | Checked(totalRecords: int, tablesWithData: nat, tableCounts: seq<(string, int)>, qualityScore: real, passed: bool)
    | QualityFailed(error: string)

  /** `cycle_results.get('data_quality', {}).get('quality_check_passed', False)` */
  predicate QualityPassed(q: Option<Quality>)
  {
    q.Some? && q.value.Checked? && q.value.passed
  }

  /** A cycle's results. `misaCrm` holds the CRM entries in the order they were added; `orders` is
    * the marketplace 'orders' entry, `None` when the cycle ended before the marketplace phase;
    * `dataQuality` is `None` when the cycle ended before the quality phase. */
  datatype CycleResults = CycleResults(
    cycleNumber: nat,
    startTime: int,
    misaCrm: seq<(string, EndpointResult)>,
    orders: Option<EndpointResult>,
    dataQuality: Option<Quality>,
    totalRecords: int,
    durationSeconds: real,
    success: bool,
    errors: seq<string>)

  predicate OrdersSucceeded(c: CycleResults)
  {
    c.orders.Some? && StatusOf(c.orders.value) == "success"
  }

  // ---------------------------------------------------------------------------------------------
  // Metrics of one cycle
  // ---------------------------------------------------------------------------------------------

  datatype Metrics = Metrics(
    timestamp: int,
    cycleDuration: real,
    totalRecords: int,
    misaSuccessCount: nat,
    tiktokSuccess: bool,
    errors: seq<string>,
    dataQualityPassed: bool,
    misaSuccessRate: real,
    overallSuccess: bool)

  /** The number of CRM entries whose status is 'success'. */
  function SuccessCount(r: seq<(string, EndpointResult)>): nat
  {
    if r == [] then 0 else SuccessCount(r[..|r| - 1]) + (if Succeeded(r[|r| - 1].1) then 1 else 0)
  }

  /** The success count is at most the number of entries; it is zero exactly when no entry
    * succeeded and equals the number of entries exactly when every entry succeeded. */
  lemma {:induction false} SuccessCountBounds(r: seq<(string, EndpointResult)>)
    ensures SuccessCount(r) <= |r|
    ensures SuccessCount(r) == 0 <==> forall i :: 0 <= i < |r| ==> !Succeeded(r[i].1)
    ensures SuccessCount(r) == |r| <==> forall i :: 0 <= i < |r| ==> Succeeded(r[i].1)
  {
    SuccessCountNone(r);
    SuccessCountAll(r);
  }

  lemma {:induction false} SuccessCountNone(r: seq<(string, EndpointResult)>)
    ensures SuccessCount(r) == 0 <==> forall i :: 0 <= i < |r| ==> !Succeeded(r[i].1)
    decreases |r|
  {
    if r != [] {
      var init := r[..|r| - 1];
      SuccessCountNone(init);
      assert forall i :: 0 <= i < |init| ==> init[i] == r[i];
    }
  }

  lemma {:induction false} SuccessCountAll(r: seq<(string, EndpointResult)>)
    ensures SuccessCount(r) <= |r|
    ensures SuccessCount(r) == |r| <==> forall i :: 0 <= i < |r| ==> Succeeded(r[i].1)
    decreases |r|
  {
    if r != [] {
      var init := r[..|r| - 1];
      SuccessCountAll(init);
      assert forall i :: 0 <= i < |init| ==> init[i] == r[i];
    }
  }


  /** The metrics `record_cycle_metrics` builds from a cycle's results at time `now`. */
  function MetricsOf(c: CycleResults, now: int): Metrics
  {
    var count := SuccessCount(c.misaCrm);
    Metrics(now, c.durationSeconds, c.totalRecords, count, OrdersSucceeded(c), c.errors,
            QualityPassed(c.dataQuality), (count as real) / 5.0, c.success)
  }

  // ---------------------------------------------------------------------------------------------
  // The bounded history
  // ---------------------------------------------------------------------------------------------

  const HistoryLimit := 100

  /** The last `n` elements of `s` (all of them when there are fewer). */
  function Last<T>(s: seq<T>, n: nat): seq<T>
  {
    if |s| > n then s[|s| - n..] else s
  }

  /** The history after one more cycle: appended, then cut to the last hundred. */
  function Appended(h: seq<Metrics>, m: Metrics): seq<Metrics>
  {
    Last(h + [m], HistoryLimit)
  }

  /** One append keeps at most a hundred entries, ends with the new one, and drops only the
    * oldest entries. */
  lemma AppendedKeepsRecent(h: seq<Metrics>, m: Metrics)
    ensures var r := Appended(h, m);
      && |r| == Min(|h| + 1, HistoryLimit)
      && r[|r| - 1] == m
      && r == (h + [m])[|h| + 1 - |r|..]
  {
  }

  lemma LastSnoc<T>(s: seq<T>, x: T, n: nat)
    requires n >= 1
    ensures Last(Last(s, n) + [x], n) == Last(s + [x], n)
  {
    if |s| > n {
      var t := s[|s| - n..];
      assert (t + [x])[1..] == (s + [x])[|s| + 1 - n..];
    }
  }

  /** The history after recording the cycles `ms` one by one. */
  function AppendedAll(h: seq<Metrics>, ms: seq<Metrics>): seq<Metrics>
  {
    if ms == [] then h else Appended(AppendedAll(h, ms[..|ms| - 1]), ms[|ms| - 1])
  }

  /** Whatever cycles are recorded, the history is the hundred most recent metrics of all the
    * cycles ever recorded, in the order they were recorded. */
  lemma {:induction false} HistoryIsMostRecent(h: seq<Metrics>, ms: seq<Metrics>)
    requires |h| <= HistoryLimit
    ensures AppendedAll(h, ms) == Last(h + ms, HistoryLimit)
    decreases |ms|
  {
    if ms != [] {
      var init := ms[..|ms| - 1];
      HistoryIsMostRecent(h, init);
      LastSnoc(h + init, ms[|ms| - 1], HistoryLimit);
      assert h + init + [ms[|ms| - 1]] == h + ms;
    }
  }

  // ---------------------------------------------------------------------------------------------
  // Counters
  // ---------------------------------------------------------------------------------------------

  /** `consecutive_failures` and `consecutive_no_data` after a cycle with metrics `m`. */
  function CountersAfter(failures: nat, noData: nat, m: Metrics): (nat, nat)
  {
    if m.overallSuccess then (0, if m.totalRecords > 0 then 0 else noData + 1)
    else (failures + 1, noData)
  }

  /** A successful cycle clears the failure count and clears or advances the no-data count by
    * whether it brought records; a failed one advances the failure count and leaves the no-data
    * count alone. */
  lemma CounterRules(failures: nat, noData: nat, m: Metrics)
    ensures var (f, n) := CountersAfter(failures, noData, m);
      && (m.overallSuccess ==> f == 0 && (n == 0 <==> m.totalRecords > 0) && (n != 0 ==> n == noData + 1))
      && (!m.overallSuccess ==> f == failures + 1 && n == noData)
  {
  }

  /** The counters after the cycles `ms`: the failure count is the number of failed cycles at the
    * end of `ms`. */
  function CountersAll(failures: nat, noData: nat, ms: seq<Metrics>): (nat, nat)
  {
    if ms == [] then (failures, noData)
    else
      var (f, n) := CountersAll(failures, noData, ms[..|ms| - 1]);
      CountersAfter(f, n, ms[|ms| - 1])
  }

  /** The length of the run of failed cycles at the end of `ms`. */
  function TrailingFailures(ms: seq<Metrics>): nat
  {
    if ms == [] || ms[|ms| - 1].overallSuccess then 0 else TrailingFailures(ms[..|ms| - 1]) + 1
  }

  /** After any cycles that include a success, `consecutive_failures` counts exactly the failed
    * cycles since the last success. */
  lemma {:induction false} FailuresCountTrailing(failures: nat, noData: nat, ms: seq<Metrics>)
    ensures CountersAll(failures, noData, ms).0
            == if exists i :: 0 <= i < |ms| && ms[i].overallSuccess then TrailingFailures(ms)
               else failures + |ms|
    decreases |ms|
  {
    if ms != [] {
      var init := ms[..|ms| - 1];
      FailuresCountTrailing(failures, noData, init);
      assert forall i :: 0 <= i < |init| ==> init[i] == ms[i];
      if !ms[|ms| - 1].overallSuccess && exists i :: 0 <= i < |ms| && ms[i].overallSuccess {
        var i :| 0 <= i < |ms| && ms[i].overallSuccess;
        assert i < |init| && init[i].overallSuccess;
      }
    }
  }

  // ---------------------------------------------------------------------------------------------
  // Alert rules
  // ---------------------------------------------------------------------------------------------

  /** `max_execution_time`: ten minutes, in seconds. */
  const MaxExecutionTime := 600

  datatype Alert = Alert(kind: string, severity: string)

  /** The number of successful cycles in `ms`. */
  function Successes(ms: seq<Metrics>): nat
  {
    if ms == [] then 0 else Successes(ms[..|ms| - 1]) + (if ms[|ms| - 1].overallSuccess then 1 else 0)
  }

  /** The success rate of the last ten cycles, as a fraction. */
  function RecentSuccessRate(h: seq<Metrics>): real
    requires |h| >= 10
  {
    (Successes(h[|h| - 10..]) as real) / 10.0
  }

  /** The alerts `_check_alert_conditions` raises, in order, for metrics `m` given the counters and
    * the history after the cycle was recorded. */
  function AlertsFor(m: Metrics, failures: nat, noData: nat, h: seq<Metrics>): seq<Alert>
  {
    (if m.cycleDuration > MaxExecutionTime as real then [Alert("PERFORMANCE", "WARNING")] else [])
    + (if failures >= 3 then [Alert("RELIABILITY", "CRITICAL")] else [])
    + (if noData >= 5 then [Alert("DATA_QUALITY", "WARNING")] else [])
    + (if |h| >= 10 && RecentSuccessRate(h) < 0.8 then [Alert("RELIABILITY", "WARNING")] else [])
  }

  lemma RateBelowEight(s: nat)
    ensures (s as real) / 10.0 < 0.8 <==> s < 8
  {
  }

  /** Each rule fires exactly under its condition: critical reliability at three failures, data
    * quality at five empty cycles, performance past ten minutes, and low success when at least
    * ten cycles are recorded and fewer than eight of the last ten succeeded. */
  lemma AlertRules(m: Metrics, failures: nat, noData: nat, h: seq<Metrics>)
    ensures var a := AlertsFor(m, failures, noData, h);
      && (Alert("RELIABILITY", "CRITICAL") in a <==> failures >= 3)
      && (Alert("DATA_QUALITY", "WARNING") in a <==> noData >= 5)
      && (Alert("PERFORMANCE", "WARNING") in a <==> m.cycleDuration > 600.0)
      && (Alert("RELIABILITY", "WARNING") in a <==> |h| >= 10 && Successes(h[|h| - 10..]) < 8)
      && |a| <= 4
  {
    if |h| >= 10 {
      RateBelowEight(Successes(h[|h| - 10..]));
    }
  }

  /** A recorded alert. */
  datatype AlertRecord = AlertRecord(id: string, timestamp: int, kind: string, severity: string, metrics: Metrics)

  /** An alert of the same type and severity was recorded within the hour before `now`. */
  predicate RecentlyAlerted(history: seq<AlertRecord>, a: Alert, now: int)
  {
    exists i :: 0 <= i < |history| && history[i].timestamp > now - 3600
                && history[i].kind == a.kind && history[i].severity == a.severity
  }

  /** The alert history after `_send_alert`. */
  function Sent(history: seq<AlertRecord>, a: Alert, m: Metrics, now: int): seq<AlertRecord>
  {
    if RecentlyAlerted(history, a, now) then history
    else history + [AlertRecord(a.kind + "_" + a.severity + "_" + IntText(now), now, a.kind, a.severity, m)]
  }

  /** An alert is recorded exactly when none of its type and severity was recorded in the past
    * hour; otherwise the history is unchanged. */
  lemma SentRecordsUnlessRecent(history: seq<AlertRecord>, a: Alert, m: Metrics, now: int)
    ensures var r := Sent(history, a, m, now);
      && (RecentlyAlerted(history, a, now) ==> r == history)
      && (!RecentlyAlerted(history, a, now) ==>
            (&& |r| == |history| + 1 && r[..|history|] == history
             && r[|history|].kind == a.kind && r[|history|].severity == a.severity && r[|history|].timestamp == now))
  {
  }

  /** Once recorded, the same alert is not recorded again for an hour. */
  lemma {:induction false} NoRepeatWithinHour(history: seq<AlertRecord>, a: Alert, m: Metrics, m': Metrics, now: int, later: int)
    requires !RecentlyAlerted(history, a, now)
    requires later < now + 3600
    ensures var r := Sent(history, a, m, now);
      Sent(r, a, m', later) == r
  {
    var r := Sent(history, a, m, now);
    assert r[|history|].timestamp > later - 3600;
    assert RecentlyAlerted(r, a, later);
  }

  /** The alert history after sending each of `alerts` in turn. */
  function SentAll(history: seq<AlertRecord>, alerts: seq<Alert>, m: Metrics, now: int): seq<AlertRecord>
    decreases |alerts|
  {
    if alerts == [] then history else SentAll(Sent(history, alerts[0], m, now), alerts[1..], m, now)
  }

  /** Sending only appends, at most one record per alert. */
  lemma {:induction false} SentAllAppends(history: seq<AlertRecord>, alerts: seq<Alert>, m: Metrics, now: int)
    ensures var r := SentAll(history, alerts, m, now);
      |history| <= |r| <= |history| + |alerts| && r[..|history|] == history
    decreases |alerts|
  {
    if alerts != [] {
      var s := Sent(history, alerts[0], m, now);
      SentRecordsUnlessRecent(history, alerts[0], m, now);
      SentAllAppends(s, alerts[1..], m, now);
      var r := SentAll(history, alerts, m, now);
      assert r[..|s|] == s;
      assert r[..|history|] == r[..|s|][..|history|];
    }
  }

  // ---------------------------------------------------------------------------------------------
  // Summaries and health
  // ---------------------------------------------------------------------------------------------

  /** The metrics recorded after `cutoff`. */
  function MetricsAfter(h: seq<Metrics>, cutoff: int): seq<Metrics>
  {
    if h == [] then []
    else MetricsAfter(h[..|h| - 1], cutoff) + (if h[|h| - 1].timestamp > cutoff then [h[|h| - 1]] else [])
  }

  function RecordsTotal(ms: seq<Metrics>): int
  {
    if ms == [] then 0 else RecordsTotal(ms[..|ms| - 1]) + ms[|ms| - 1].totalRecords
  }

  function DurationTotal(ms: seq<Metrics>): real
  {
    if ms == [] then 0.0 else DurationTotal(ms[..|ms| - 1]) + ms[|ms| - 1].cycleDuration
  }

  function AlertsAfter(history: seq<AlertRecord>, cutoff: int): nat
  {
    if history == [] then 0
    else AlertsAfter(history[..|history| - 1], cutoff) + (if history[|history| - 1].timestamp > cutoff then 1 else 0)
  }

  datatype Summary = Summary(
    periodHours: int,
    totalCycles: nat,
    successfulCycles: nat,
    successRate: real,
    totalRecordsProcessed: int,
    avgRecordsPerCycle: real,
    avgCycleDuration: real,
    consecutiveFailures: nat,
    consecutiveNoData: nat,
    lastSuccessfulRun: Option<int>,
    alertCount: nat)

  /** `success_rate` read from a summary, 100 when the period had no metrics. */
  function SuccessRateOr100(s: Option<Summary>): real
  {
    if s.Some? then s.value.successRate else 100.0
  }

  /** The health status from the failure count and the last hour's summary. */
  function HealthStatus(failures: nat, lastHour: Option<Summary>): string
  {
    if failures >= 3 then "CRITICAL"
    else if failures >= 1 || SuccessRateOr100(lastHour) < 80.0 then "WARNING"
    else "HEALTHY"
  }

  lemma ScalePositive(x: real, y: real, c: real)
    requires c > 0.0
    ensures x < y <==> x * c < y * c
  {
  }

  lemma RateBelowEighty(s: nat, t: nat)
    requires 0 < t
    ensures (s as real) / (t as real) * 100.0 < 80.0 <==> 5 * s < 4 * t
  {
    var tr := t as real;
    var q := (s as real) / tr;
    assert q * tr == s as real;
    ScalePositive(q * 100.0, 80.0, tr);
    assert q * 100.0 * tr == (s * 100) as real by {
      assert q * 100.0 * tr == (q * tr) * 100.0;
    }
    assert 80.0 * tr == (t * 80) as real;
    assert (s * 100) as real < (t * 80) as real <==> s * 100 < t * 80;
  }

  datatype HealthReport = HealthReport(
    timestamp: int,
    healthStatus: string,
    summary24h: Option<Summary>,
    summary1h: Option<Summary>,
    recentAlerts: seq<AlertRecord>)

  // ---------------------------------------------------------------------------------------------
  // The monitor
  // ---------------------------------------------------------------------------------------------

  class ProductionETLMonitor {
    var metricsHistory: seq<Metrics>
    var alertHistory: seq<AlertRecord>
    var consecutiveFailures: nat
    var consecutiveNoData: nat
    var lastSuccessfulRun: Option<int>

    constructor()
      ensures metricsHistory == [] && alertHistory == []
      ensures consecutiveFailures == 0 && consecutiveNoData == 0 && lastSuccessfulRun == None
    {
      metricsHistory := [];
      alertHistory := [];
      consecutiveFailures := 0;
      consecutiveNoData := 0;
      lastSuccessfulRun := None;
    }

    /** The history holds at most a hundred cycles. */
    predicate Valid()
      reads this
    {
      |metricsHistory| <= HistoryLimit
    }

    /** `record_cycle_metrics` at time `now`. */
    method RecordCycleMetrics(c: CycleResults, now: int) returns (m: Metrics)
      modifies this
      ensures m == MetricsOf(c, now)
      ensures metricsHistory == Appended(old(metricsHistory), m) && Valid()
      ensures (consecutiveFailures, consecutiveNoData) == CountersAfter(old(consecutiveFailures), old(consecutiveNoData), m)
      ensures lastSuccessfulRun == if c.success then Some(now) else old(lastSuccessfulRun)
      ensures alertHistory == SentAll(old(alertHistory), AlertsFor(m, consecutiveFailures, consecutiveNoData, metricsHistory), m, now)
    {
      m := MetricsOf(c, now);
      metricsHistory := metricsHistory + [m];
      if |metricsHistory| > HistoryLimit {
        metricsHistory := metricsHistory[|metricsHistory| - HistoryLimit..];
      }
      if m.overallSuccess {
        consecutiveFailures := 0;
        lastSuccessfulRun := Some(now);
        if m.totalRecords > 0 {
          consecutiveNoData := 0;
        } else {
          consecutiveNoData := consecutiveNoData + 1;
        }
      } else {
        consecutiveFailures := consecutiveFailures + 1;
      }
      CheckAlertConditions(m, now);
    }

    /** `_check_alert_conditions`: the rules are evaluated on the current counters and history,
      * then each alert is sent in turn. */
    method CheckAlertConditions(m: Metrics, now: int)
      modifies this
      ensures alertHistory == SentAll(old(alertHistory), AlertsFor(m, consecutiveFailures, consecutiveNoData, metricsHistory), m, now)
      ensures metricsHistory == old(metricsHistory) && consecutiveFailures == old(consecutiveFailures)
      ensures consecutiveNoData == old(consecutiveNoData) && lastSuccessfulRun == old(lastSuccessfulRun)
    {
      var alerts: seq<Alert> := [];
      if m.cycleDuration > MaxExecutionTime as real {
        alerts := alerts + [Alert("PERFORMANCE", "WARNING")];
      }
      if consecutiveFailures >= 3 {
        alerts := alerts + [Alert("RELIABILITY", "CRITICAL")];
      }
      if consecutiveNoData >= 5 {
        alerts := alerts + [Alert("DATA_QUALITY", "WARNING")];
      }
      if |metricsHistory| >= 10 {
        var rate := RecentSuccessRate(metricsHistory);
        if rate < 0.8 {
          alerts := alerts + [Alert("RELIABILITY", "WARNING")];
        }
      }
      assert alerts == AlertsFor(m, consecutiveFailures, consecutiveNoData, metricsHistory);
      SendAlerts(alerts, m, now);
    }

    /** Sends the alerts one after another, each checked against the history as the earlier ones
      * left it. */
    method SendAlerts(alerts: seq<Alert>, m: Metrics, now: int)
      modifies this
      ensures alertHistory == SentAll(old(alertHistory), alerts, m, now)
      ensures metricsHistory == old(metricsHistory) && consecutiveFailures == old(consecutiveFailures)
      ensures consecutiveNoData == old(consecutiveNoData) && lastSuccessfulRun == old(lastSuccessfulRun)
    {
      for i := 0 to |alerts|
        invariant SentAll(alertHistory, alerts[i..], m, now) == SentAll(old(alertHistory), alerts, m, now)
        invariant metricsHistory == old(metricsHistory) && consecutiveFailures == old(consecutiveFailures)
        invariant consecutiveNoData == old(consecutiveNoData) && lastSuccessfulRun == old(lastSuccessfulRun)
      {
        assert alerts[i..][1..] == alerts[i + 1..];
        SendAlert(alerts[i], m, now);
      }
    }

    /** `_send_alert`: records the alert unless the same type and severity was recorded within the
      * past hour. */
    method SendAlert(a: Alert, m: Metrics, now: int)
      modifies this
      ensures alertHistory == Sent(old(alertHistory), a, m, now)
      ensures metricsHistory == old(metricsHistory) && consecutiveFailures == old(consecutiveFailures)
      ensures consecutiveNoData == old(consecutiveNoData) && lastSuccessfulRun == old(lastSuccessfulRun)
    {
      var recent: seq<AlertRecord> := [];
      for i := 0 to |alertHistory|
        invariant forall r :: r in recent <==> r in alertHistory[..i] && r.timestamp > now - 3600
      {
        assert alertHistory[..i + 1] == alertHistory[..i] + [alertHistory[i]];
        if alertHistory[i].timestamp > now - 3600 {
          recent := recent + [alertHistory[i]];
        }
      }
      assert alertHistory[..|alertHistory|] == alertHistory;
      var duplicate := false;
      for j := 0 to |recent|
        invariant duplicate <==> exists k :: 0 <= k < j && recent[k].kind == a.kind && recent[k].severity == a.severity
      {
        if recent[j].kind == a.kind && recent[j].severity == a.severity {
          duplicate := true;
        }
      }
      assert duplicate <==> RecentlyAlerted(alertHistory, a, now) by {
        if RecentlyAlerted(alertHistory, a, now) {
          var i :| 0 <= i < |alertHistory| && alertHistory[i].timestamp > now - 3600
                   && alertHistory[i].kind == a.kind && alertHistory[i].severity == a.severity;
          assert alertHistory[i] in recent;
        }
        if duplicate {
          var k :| 0 <= k < |recent| && recent[k].kind == a.kind && recent[k].severity == a.severity;
          assert recent[k] in alertHistory;
        }
      }
      if duplicate {
        return;
      }
      var id := a.kind + "_" + a.severity + "_" + IntText(now);
      alertHistory := alertHistory + [AlertRecord(id, now, a.kind, a.severity, m)];
    }

    /** `get_performance_summary(hours)` at time `now`: `None` when no metrics fall in the period. */
    function PerformanceSummary(hours: int, now: int): (s: Option<Summary>)
      reads this
      ensures s.Some? <==> MetricsAfter(metricsHistory, now - hours * 3600) != []
      ensures s.Some? ==> s.value.successfulCycles <= s.value.totalCycles
    {
      var cutoff := now - hours * 3600;
      var recent := MetricsAfter(metricsHistory, cutoff);
      if recent == [] then None
      else
        var total := |recent|;
        var successful := Successes(recent);
        SuccessesBound(recent);
        var records := RecordsTotal(recent);
        Some(Summary(hours, total, successful, (successful as real) / (total as real) * 100.0,
                     records, (records as real) / (total as real), DurationTotal(recent) / (total as real),
                     consecutiveFailures, consecutiveNoData, lastSuccessfulRun, AlertsAfter(alertHistory, cutoff)))
    }

    /** `generate_health_report` at time `now`: CRITICAL exactly at three consecutive failures;
      * HEALTHY exactly when there is no failure in a row and, if the past hour recorded cycles,
      * at least four in five of them succeeded; WARNING otherwise. */
    function GenerateHealthReport(now: int): (r: HealthReport)
      reads this
      ensures r.healthStatus == "CRITICAL" <==> consecutiveFailures >= 3
      ensures var recent := MetricsAfter(metricsHistory, now - 3600);
        r.healthStatus == "HEALTHY"
        <==> consecutiveFailures == 0 && (recent == [] || 5 * Successes(recent) >= 4 * |recent|)
      ensures r.healthStatus in {"CRITICAL", "WARNING", "HEALTHY"}
      ensures |r.recentAlerts| <= 10
    {
      var lastHour := PerformanceSummary(1, now);
      var recent := MetricsAfter(metricsHistory, now - 3600);
      var report := HealthReport(now, HealthStatus(consecutiveFailures, lastHour), PerformanceSummary(24, now), lastHour,
                                 Last(alertHistory, 10));
      if recent == [] then report
      else
        RateBelowEighty(Successes(recent), |recent|);
        report
    }
  }

  lemma {:induction false} SuccessesBound(ms: seq<Metrics>)
    ensures Successes(ms) <= |ms|
    decreases |ms|
  {
    if ms != [] {
      SuccessesBound(ms[..|ms| - 1]);
    }
  }
}
