/**
 * HTTP request metrics: the label set that keys every family, the counter
 * and histogram families (label-keyed, created on first use), the
 * `HttpMetrics` bundle of four families, and their registration in a
 * prefixed metrics registry.
 *
 * A family is an object shared by reference: the registry holds the same
 * family objects that request handling updates, as the source shares them
 * through reference-counted clones.
 */
module Observability {
  import opened Wrappers
  import opened BoundedInts
  import opened Configuration

  // ---------------------------------------------------------------------------
  // Labels
  // ---------------------------------------------------------------------------

  /** The request methods a label can carry. */
  datatype Method = Get | Put

  /** The key of one time series in every HTTP family. */
  datatype HttpRequestLabels = HttpRequestLabels(requestMethod: Method, path: string, statusCode: uint32)

  /** Two labels select the same time series exactly when all three fields agree. */
  lemma LabelsEqualIffFieldsEqual(a: HttpRequestLabels, b: HttpRequestLabels)
    ensures a == b <==> a.requestMethod == b.requestMethod && a.path == b.path && a.statusCode == b.statusCode
  {
  }

  // ---------------------------------------------------------------------------
  // Families
  // ---------------------------------------------------------------------------

  /** An observed request latency in seconds; its value is never inspected. */
  type Latency = real

  /** The upper bounds, in seconds, of the buckets of both latency histograms. */
  const LatencyBuckets: seq<real> := [0.005, 0.01, 0.025, 0.05, 0.1, 0.25, 0.5, 1.0, 2.5, 5.0, 10.0]

  /** Eleven bounds from 5 ms to 10 s, strictly increasing. */
  lemma LatencyBucketsStrictlyIncreasing()
    ensures |LatencyBuckets| == 11
    ensures LatencyBuckets[0] == 0.005 && LatencyBuckets[10] == 10.0
    ensures forall i, j :: 0 <= i < j < |LatencyBuckets| ==> LatencyBuckets[i] < LatencyBuckets[j]
  {
  }

  /** The value a counter family reports for a label: absent labels count 0. */
  function Count(m: map<HttpRequestLabels, nat>, labels: HttpRequestLabels): nat {
    if labels in m then m[labels] else 0
  }

  /** The observations a histogram family holds for a label: none if absent. */
  function Observations(m: map<HttpRequestLabels, seq<Latency>>, labels: HttpRequestLabels): seq<Latency> {
    if labels in m then m[labels] else []
  }

  /** A label-keyed family of counters. */
  class CounterFamily {
    var entries: map<HttpRequestLabels, nat>

    constructor ()
      ensures entries == map[]
    {
      entries := map[];
    }

    /** Gets or creates the counter of `labels`, then increments it. */
    method Inc(labels: HttpRequestLabels)
      modifies this
      ensures entries == old(entries)[labels := Count(old(entries), labels) + 1]
    {
      entries := entries[labels := Count(entries, labels) + 1];
    }
  }

  /** A label-keyed family of histograms, all with the same bucket bounds. */
  class HistogramFamily {
    const buckets: seq<real>
    var entries: map<HttpRequestLabels, seq<Latency>>

    constructor (buckets: seq<real>)
      ensures this.buckets == buckets && entries == map[]
    {
      this.buckets := buckets;
      entries := map[];
    }

    /** Gets or creates the histogram of `labels`, then records `value` in it. */
    method Observe(labels: HttpRequestLabels, value: Latency)
      modifies this
      ensures entries == old(entries)[labels := Observations(old(entries), labels) + [value]]
    {
      entries := entries[labels := Observations(entries, labels) + [value]];
    }
  }

  /** The contents of the four HTTP families at one moment. */
  datatype HttpMetricsState = HttpMetricsState(
    totalRequests: map<HttpRequestLabels, nat>,
    requestWithError: map<HttpRequestLabels, nat>,
    latencyError: map<HttpRequestLabels, seq<Latency>>,
    latencySuccess: map<HttpRequestLabels, seq<Latency>>)

  const EmptyState: HttpMetricsState := HttpMetricsState(map[], map[], map[], map[])

  // ---------------------------------------------------------------------------
  // Registry
  // ---------------------------------------------------------------------------

  datatype Metric = CounterMetric(counters: CounterFamily) | HistogramMetric(histograms: HistogramFamily)

  datatype Registration = Registration(name: string, help: string, metric: Metric)

  /** A metrics registry: a name prefix and the registered families, in order. */
  class Registry {
    const prefix: Option<string>
    var registrations: seq<Registration>

    constructor WithPrefix(prefix: string)
      ensures this.prefix == Some(prefix) && registrations == []
    {
      this.prefix := Some(prefix);
      registrations := [];
    }

    method Register(name: string, help: string, metric: Metric)
      modifies this
      ensures registrations == old(registrations) + [Registration(name, help, metric)]
    {
      registrations := registrations + [Registration(name, help, metric)];
    }
  }

  // ---------------------------------------------------------------------------
  // HttpMetrics
  // ---------------------------------------------------------------------------

  class HttpMetrics {
    const totalRequests: CounterFamily
    const requestWithError: CounterFamily
    const latencyError: HistogramFamily
    const latencySuccess: HistogramFamily

    /** Four separate families; both histograms use the latency buckets. */
    ghost predicate Valid() {
      && totalRequests != requestWithError
      && latencyError != latencySuccess
      && latencyError.buckets == LatencyBuckets
      && latencySuccess.buckets == LatencyBuckets
    }

    function State(): HttpMetricsState
      reads totalRequests, requestWithError, latencyError, latencySuccess
    {
      HttpMetricsState(totalRequests.entries, requestWithError.entries,
                       latencyError.entries, latencySuccess.entries)
    }

    constructor ()
      ensures Valid() && State() == EmptyState
      ensures fresh(totalRequests) && fresh(requestWithError)
      ensures fresh(latencyError) && fresh(latencySuccess)
    {
      totalRequests := new CounterFamily();
      requestWithError := new CounterFamily();
      latencyError := new HistogramFamily([0.005, 0.01, 0.025, 0.05, 0.1, 0.25, 0.5, 1.0, 2.5, 5.0, 10.0]);
      latencySuccess := new HistogramFamily([0.005, 0.01, 0.025, 0.05, 0.1, 0.25, 0.5, 1.0, 2.5, 5.0, 10.0]);
    }

    /** The default value is the one built by the constructor. */
    static method Default() returns (m: HttpMetrics)
      ensures fresh(m) && m.Valid() && m.State() == EmptyState
      ensures fresh(m.totalRequests) && fresh(m.requestWithError)
      ensures fresh(m.latencyError) && fresh(m.latencySuccess)
    {
      m := new HttpMetrics();
    }

    /**
     * The four registrations of these families: fixed names and help texts,
     * in order, each name distinct, each entry referring to its own family.
     */
    function Registrations(): (rs: seq<Registration>)
      ensures |rs| == 4
      ensures forall i, j :: 0 <= i < j < |rs| ==> rs[i].name != rs[j].name
      ensures rs[0] == Registration("total_request", "Total amount of requests", CounterMetric(totalRequests))
      ensures rs[1] == Registration("requests_with_error", "Amount of requests with error", CounterMetric(requestWithError))
      ensures rs[2] == Registration("latency_error", "Latency error", HistogramMetric(latencyError))
      ensures rs[3] == Registration("latency_success", "Latency success", HistogramMetric(latencySuccess))
    {
      var rs := [
        Registration("total_request", "Total amount of requests", CounterMetric(totalRequests)),
        Registration("requests_with_error", "Amount of requests with error", CounterMetric(requestWithError)),
        Registration("latency_error", "Latency error", HistogramMetric(latencyError)),
        Registration("latency_success", "Latency success", HistogramMetric(latencySuccess))
      ];
      assert rs[0].name[0] != rs[1].name[0] && rs[0].name[0] != rs[2].name[0] && rs[0].name[0] != rs[3].name[0];
      assert rs[1].name[0] != rs[2].name[0] && rs[1].name[0] != rs[3].name[0];
      assert |rs[2].name| != |rs[3].name|;
      rs
    }

    /** Registers the four families in `registry`, after what it already holds. */
    method Register(registry: Registry)
      modifies registry
      ensures registry.registrations == old(registry.registrations) + Registrations()
    {
      registry.Register("total_request", "Total amount of requests", CounterMetric(totalRequests));
      registry.Register("requests_with_error", "Amount of requests with error", CounterMetric(requestWithError));
      registry.Register("latency_error", "Latency error", HistogramMetric(latencyError));
      registry.Register("latency_success", "Latency success", HistogramMetric(latencySuccess));
    }
  }

  /** The application's metrics: the HTTP families, shared by reference. */
  datatype Metrics = Metrics(http: HttpMetrics)

  /**
   * Creates a registry prefixed with the application name and fresh HTTP
   * metrics registered in it once, and nothing else registered.
   */
  method InitMetrics(settings: Settings) returns (metrics: Metrics, registry: Registry)
    ensures fresh(registry) && registry.prefix == Some(settings.application.name)
    ensures metrics.http.Valid() && metrics.http.State() == EmptyState
    ensures fresh(metrics.http) && fresh(metrics.http.totalRequests) && fresh(metrics.http.requestWithError)
    ensures fresh(metrics.http.latencyError) && fresh(metrics.http.latencySuccess)
    ensures registry.registrations == metrics.http.Registrations()
  {
    registry := new Registry.WithPrefix(settings.application.name);
    var httpMetrics := HttpMetrics.Default();
    httpMetrics.Register(registry);
    metrics := Metrics(httpMetrics);
  }
}
