/** The metric recorder (src/lib/performance.ts): a process-wide monitor keeping, per metric
    name, the last 100 samples in arrival order, with average, count and latest, the timing
    wrappers that record under a derived name, and the two threshold alerts.

    Samples are JavaScript numbers (doubles); they are modelled as exact reals, so rounding
    in the sum and the division is not modelled. Elapsed time is a parameter. */
module Performance {
  import opened Common

  const WINDOW: nat := 100

  /** The buffer after `push(value)` and, once it holds more than 100 samples, `shift()`. */
  function Window(buf: seq<real>, value: real): (r: seq<real>)
    requires |buf| <= WINDOW
    ensures |r| <= WINDOW
    ensures r != [] && r[|r| - 1] == value
    ensures |buf| < WINDOW ==> r == buf + [value]
    ensures |buf| == WINDOW ==> r == buf[1..] + [value]
  {
    var pushed := buf + [value];
    if |pushed| > WINDOW then pushed[1..] else pushed
  }

  /** The last n elements of s (all of them when there are fewer). */
  function LastN<T>(s: seq<T>, n: nat): (r: seq<T>)
    ensures |r| == if |s| <= n then |s| else n
  {
    if |s| <= n then s else s[|s| - n..]
  }

  /** The buffer after recording every sample of `samples` in order, starting from `buf`. */
  function RecordAll(buf: seq<real>, samples: seq<real>): (r: seq<real>)
    requires |buf| <= WINDOW
    ensures |r| <= WINDOW
    decreases |samples|
  {
    if samples == [] then buf
    else Window(RecordAll(buf, samples[..|samples| - 1]), samples[|samples| - 1])
  }

  /** FIFO: whatever was recorded under a name, its buffer is exactly the 100 most recent
      samples in arrival order; older ones have been dropped one at a time. */
  lemma {:induction false} RecordAllKeepsMostRecent(samples: seq<real>)
    ensures RecordAll([], samples) == LastN(samples, WINDOW)
    decreases |samples|
  {
    if samples != [] {
      var init, v := samples[..|samples| - 1], samples[|samples| - 1];
      RecordAllKeepsMostRecent(init);
      assert init + [v] == samples;
      if |init| >= WINDOW {
        assert LastN(init, WINDOW)[1..] + [v] == samples[|samples| - WINDOW..];
      }
    }
  }

  /** `measurements.reduce((sum, val) => sum + val, 0)`. */
  function Sum(s: seq<real>): real
  {
    if s == [] then 0.0 else Sum(s[..|s| - 1]) + s[|s| - 1]
  }

  /** The average of a buffer: 0 for an empty one, otherwise sum / length. */
  function Average(s: seq<real>): (r: real)
    ensures s == [] ==> r == 0.0
    ensures s != [] ==> r * (|s| as real) == Sum(s)
  {
    if |s| == 0 then 0.0 else Sum(s) / (|s| as real)
  }

  lemma {:induction false} SumBounds(s: seq<real>, lo: real, hi: real)
    requires forall i :: 0 <= i < |s| ==> lo <= s[i] <= hi
    ensures (|s| as real) * lo <= Sum(s) <= (|s| as real) * hi
  {
    if s != [] {
      SumBounds(s[..|s| - 1], lo, hi);
    }
  }

  /** The average of samples that all lie in [lo, hi] lies in [lo, hi] as well. */
  lemma AverageBounds(s: seq<real>, lo: real, hi: real)
    requires s != []
    requires forall i :: 0 <= i < |s| ==> lo <= s[i] <= hi
    ensures lo <= Average(s) <= hi
  {
    SumBounds(s, lo, hi);
    var n := |s| as real;
    assert Average(s) * n == Sum(s);
  }

  /** One row of `getAllMetrics()`. */
  datatype MetricSummary = MetricSummary(average: real, count: nat, latest: real)

  /** `measurements[measurements.length - 1] || 0`: the last sample, 0 for an empty buffer
      (a last sample of 0 is falsy and also gives 0). */
  function Latest(buf: seq<real>): (r: real)
    ensures buf != [] ==> r == buf[|buf| - 1]
    ensures buf == [] ==> r == 0.0
  {
    if buf == [] then 0.0 else buf[|buf| - 1]
  }

  function Summary(buf: seq<real>): MetricSummary
  {
    MetricSummary(Average(buf), |buf|, Latest(buf))
  }

  /** The metrics map after `recordMetric(name, value)`: only `name` changes. */
  function Recorded(metrics: map<string, seq<real>>, name: string, value: real): (m: map<string, seq<real>>)
    requires forall n :: n in metrics ==> |metrics[n]| <= WINDOW
    ensures m.Keys == metrics.Keys + {name}
    ensures forall n :: n in m ==> |m[n]| <= WINDOW
    ensures m[name] == Window(if name in metrics then metrics[name] else [], value)
    ensures forall n :: n in metrics && n != name ==> m[n] == metrics[n]
  {
    metrics[name := Window(if name in metrics then metrics[name] else [], value)]
  }

  class PerformanceMonitor {
    var metrics: map<string, seq<real>>

    /** Every buffer holds at most 100 samples. */
    ghost predicate Valid()
      reads this
    {
      forall n :: n in metrics ==> |metrics[n]| <= WINDOW
    }

    constructor ()
      ensures Valid() && metrics == map[]
    {
      metrics := map[];
    }

    /** `recordMetric(name, value)`: the buffer of `name` (created empty when new) gets the sample
        appended, and loses its oldest sample when it would exceed 100. */
    method RecordMetric(name: string, value: real)
      requires Valid()
      modifies this
      ensures Valid()
      ensures metrics == Recorded(old(metrics), name, value)
    {
      if name !in metrics {
        metrics := metrics[name := []];
      }
      var measurements := metrics[name] + [value];
      if |measurements| > WINDOW {
        measurements := measurements[1..];
      }
      metrics := metrics[name := measurements];
    }

    /** `getAverage(name)`: 0 for an unknown name or an empty buffer, otherwise sum / length. */
    function GetAverage(name: string): (r: real)
      reads this
      ensures name !in metrics || metrics[name] == [] ==> r == 0.0
      ensures name in metrics && metrics[name] != [] ==> r * (|metrics[name]| as real) == Sum(metrics[name])
    {
      if name in metrics then Average(metrics[name]) else 0.0
    }

    /** `getAllMetrics()`: one row per recorded name with its average, count and latest sample. */
    method GetAllMetrics() returns (result: map<string, MetricSummary>)
      ensures result.Keys == metrics.Keys
      ensures forall n :: n in result ==>
                result[n].count == |metrics[n]| && result[n].average == GetAverage(n)
                && result[n].latest == Latest(metrics[n])
    {
      result := map[];
      var todo := metrics.Keys;
      while todo != {}
        invariant todo <= metrics.Keys
        invariant result.Keys == metrics.Keys - todo
        invariant forall n :: n in result ==> result[n] == Summary(metrics[n])
        decreases todo
      {
        var name :| name in todo;
        var measurements := metrics[name];
        result := result[name := MetricSummary(GetAverage(name), |measurements|, Latest(measurements))];
        todo := todo - {name};
      }
    }

    /** `clear()`: no metric is left. */
    method Clear()
      modifies this
      ensures Valid() && metrics == map[]
    {
      metrics := map[];
    }
  }

  /** The static `PerformanceMonitor.instance` slot. */
  class MonitorSlot {
    var instance: PerformanceMonitor?

    ghost predicate Valid()
      reads this, instance
    {
      instance != null ==> instance.Valid()
    }

    constructor ()
      ensures Valid() && instance == null
    {
      instance := null;
    }

    /** `getInstance()`: creates the monitor on first use, and returns the same one ever after. */
    method GetInstance() returns (m: PerformanceMonitor)
      requires Valid()
      modifies this
      ensures Valid() && instance == m
      ensures old(instance) != null ==> m == old(instance) && unchanged(m)
      ensures old(instance) == null ==> fresh(m) && m.metrics == map[]
    {
      if instance == null {
        instance := new PerformanceMonitor();
      }
      m := instance;
    }
  }

  /** How the measured function ended. */
  datatype Outcome<T> = Returned(value: T) | Threw(error: string)

  /** The name a timing is recorded under: the name itself on success, `{name}_error` on failure. */
  function MetricName<T>(name: string, outcome: Outcome<T>): (r: string)
    ensures outcome.Returned? ==> r == name
    ensures outcome.Threw? ==> r == name + "_error" && r != name
  {
    if outcome.Returned? then name else name + "_error"
  }

  /** What the monitor's metrics were before a call that goes through `getInstance()`. */
  ghost function MetricsOf(m: PerformanceMonitor?): map<string, seq<real>>
    reads m
  {
    if m == null then map[] else m.metrics
  }

  /** `measureExecutionTime(name, fn)` (and `measureSyncExecutionTime`, which differs only in being
      synchronous): records the elapsed time under `MetricName(name, outcome)` in the shared monitor
      and passes the outcome on unchanged (a rejection is rethrown). */
  method MeasureExecutionTime<T>(slot: MonitorSlot, name: string, outcome: Outcome<T>, elapsed: real)
    returns (r: Outcome<T>)
    requires slot.Valid()
    modifies slot, slot.instance
    ensures slot.Valid() && slot.instance != null
    ensures old(slot.instance) != null ==> slot.instance == old(slot.instance)
    ensures r == outcome
    ensures slot.instance.metrics == Recorded(old(MetricsOf(slot.instance)), MetricName(name, outcome), elapsed)
  {
    var monitor := slot.GetInstance();
    monitor.RecordMetric(MetricName(name, outcome), elapsed);
    r := outcome;
  }

  /** `measureDatabaseQuery(queryName, query)`: timed under `db_{queryName}`. */
  method MeasureDatabaseQuery<T>(slot: MonitorSlot, queryName: string, outcome: Outcome<T>, elapsed: real)
    returns (r: Outcome<T>)
    requires slot.Valid()
    modifies slot, slot.instance
    ensures slot.Valid() && slot.instance != null
    ensures r == outcome
    ensures slot.instance.metrics == Recorded(old(MetricsOf(slot.instance)), MetricName("db_" + queryName, outcome), elapsed)
  {
    r := MeasureExecutionTime(slot, "db_" + queryName, outcome, elapsed);
  }

  /** `measureAPIResponse(endpoint, handler)`: timed under `api_{endpoint}`. */
  method MeasureApiResponse<T>(slot: MonitorSlot, endpoint: string, outcome: Outcome<T>, elapsed: real)
    returns (r: Outcome<T>)
    requires slot.Valid()
    modifies slot, slot.instance
    ensures slot.Valid() && slot.instance != null
    ensures r == outcome
    ensures slot.instance.metrics == Recorded(old(MetricsOf(slot.instance)), MetricName("api_" + endpoint, outcome), elapsed)
  {
    r := MeasureExecutionTime(slot, "api_" + endpoint, outcome, elapsed);
  }

  const API_RESPONSE_TIME: real := 1000.0
  const DATABASE_QUERY_TIME: real := 500.0

  /** An alert of `checkPerformanceThresholds`, carrying the average it reports. */
  datatype Alert = ApiSlow(average: real) | DbSlow(average: real)

  /** The alert list for the monitor's `api_response` and `db_query` averages. */
  method ThresholdAlerts(monitor: PerformanceMonitor) returns (alerts: seq<Alert>)
    ensures |alerts| <= 2
    ensures ApiSlow(monitor.GetAverage("api_response")) in alerts <==> monitor.GetAverage("api_response") > API_RESPONSE_TIME
    ensures DbSlow(monitor.GetAverage("db_query")) in alerts <==> monitor.GetAverage("db_query") > DATABASE_QUERY_TIME
    ensures forall i :: 0 <= i < |alerts| ==>
              alerts[i] == ApiSlow(monitor.GetAverage("api_response")) || alerts[i] == DbSlow(monitor.GetAverage("db_query"))
    ensures |alerts| == 2 ==> alerts[0].ApiSlow? && alerts[1].DbSlow?
  {
    alerts := [];
    var apiResponseTime := monitor.GetAverage("api_response");
    if apiResponseTime > API_RESPONSE_TIME {
      alerts := alerts + [ApiSlow(apiResponseTime)];
    }
    var dbQueryTime := monitor.GetAverage("db_query");
    if dbQueryTime > DATABASE_QUERY_TIME {
      alerts := alerts + [DbSlow(dbQueryTime)];
    }
  }

  /** `checkPerformanceThresholds()` on the shared monitor: the alerts of its averages, API first;
      an existing monitor and its metrics are left as they are, a new one starts empty. */
  method CheckPerformanceThresholds(slot: MonitorSlot) returns (alerts: seq<Alert>)
    requires slot.Valid()
    modifies slot
    ensures slot.Valid() && slot.instance != null
    ensures old(slot.instance) != null ==> slot.instance == old(slot.instance) && unchanged(slot.instance)
    ensures slot.instance.metrics == old(MetricsOf(slot.instance))
    ensures |alerts| <= 2
    ensures ApiSlow(slot.instance.GetAverage("api_response")) in alerts <==> slot.instance.GetAverage("api_response") > API_RESPONSE_TIME
    ensures DbSlow(slot.instance.GetAverage("db_query")) in alerts <==> slot.instance.GetAverage("db_query") > DATABASE_QUERY_TIME
    ensures forall i :: 0 <= i < |alerts| ==>
              alerts[i] == ApiSlow(slot.instance.GetAverage("api_response"))
              || alerts[i] == DbSlow(slot.instance.GetAverage("db_query"))
    ensures |alerts| == 2 ==> alerts[0].ApiSlow? && alerts[1].DbSlow?
  {
    var monitor := slot.GetInstance();
    alerts := ThresholdAlerts(monitor);
  }
}
