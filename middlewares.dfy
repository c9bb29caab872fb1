/**
 * The request-metrics middleware: after the rest of the stack has produced a
 * response, it counts the request under its label and records its latency in
 * the success or the error histogram family.
 *
 * The clock and the rest of the stack are parameters: `latency` is the
 * measured duration and `next` the response the inner stack gives.
 */
module Middlewares {
  import opened Wrappers
  import opened BoundedInts
  import opened Observability

  /** What the middleware reads of a request: its method, raw path and matched route. */
  datatype Request = Request(requestMethod: Method, uriPath: string, matchedPath: Option<string>, body: string)

  datatype Response = Response(status: uint16, body: string)

  /** The success class of the middleware: strictly above 200 and below 400. */
  predicate IsSuccess(statusCode: int) {
    200 < statusCode < 400
  }

  /** Status 200 itself falls in the error class; 201 to 399 are successes. */
  lemma SuccessBoundaries(statusCode: int)
    ensures IsSuccess(statusCode) <==> 201 <= statusCode <= 399
    ensures !IsSuccess(200) && IsSuccess(201) && IsSuccess(399) && !IsSuccess(400)
  {
  }

  /**
   * The label of a handled request: its method, the matched route template if
   * there is one and the raw path otherwise, and the response status.
   */
  function RequestLabels(req: Request, status: uint16): (l: HttpRequestLabels)
    ensures l.requestMethod == req.requestMethod && l.statusCode == status
    ensures req.matchedPath.Some? ==> l.path == req.matchedPath.value
    ensures req.matchedPath.None? ==> l.path == req.uriPath
  {
    var path := match req.matchedPath
      case Some(matched) => matched
      case None => req.uriPath;
    HttpRequestLabels(req.requestMethod, path, status)
  }

  /** `after` holds one more observation, `value`, for `labels`, and is the same for all other labels. */
  ghost predicate GainsOne(
    before: map<HttpRequestLabels, seq<Latency>>, after: map<HttpRequestLabels, seq<Latency>>,
    labels: HttpRequestLabels, value: Latency)
  {
    && Observations(after, labels) == Observations(before, labels) + [value]
    && forall l :: l != labels ==> Observations(after, l) == Observations(before, l)
  }

  /**
   * The effect of one handled request on the HTTP families: the request
   * counter of its label goes up by one, exactly one latency family gains the
   * observation, and nothing else changes.
   */
  function RecordRequest(s: HttpMetricsState, labels: HttpRequestLabels, latency: Latency): (r: HttpMetricsState)
    ensures Count(r.totalRequests, labels) == Count(s.totalRequests, labels) + 1
    ensures forall l :: l != labels ==> Count(r.totalRequests, l) == Count(s.totalRequests, l)
    ensures r.requestWithError == s.requestWithError
    ensures IsSuccess(labels.statusCode) ==>
      GainsOne(s.latencySuccess, r.latencySuccess, labels, latency) && r.latencyError == s.latencyError
    ensures !IsSuccess(labels.statusCode) ==>
      GainsOne(s.latencyError, r.latencyError, labels, latency) && r.latencySuccess == s.latencySuccess
  {
    var total := s.totalRequests[labels := Count(s.totalRequests, labels) + 1];
    if IsSuccess(labels.statusCode) then
      s.(totalRequests := total,
         latencySuccess := s.latencySuccess[labels := Observations(s.latencySuccess, labels) + [latency]])
    else
      s.(totalRequests := total,
         latencyError := s.latencyError[labels := Observations(s.latencyError, labels) + [latency]])
  }

  /**
   * Runs the rest of the stack, then records the request in `state` and
   * returns the response untouched.
   */
  method MetricsMiddleware(state: HttpMetrics, req: Request, next: Request -> Response, latency: Latency)
    returns (response: Response)
    requires state.Valid()
    modifies state.totalRequests, state.latencyError, state.latencySuccess
    ensures response == next(req)
    ensures state.State() == RecordRequest(old(state.State()), RequestLabels(req, response.status), latency)
    ensures unchanged(state.requestWithError)
    ensures Consistent(old(state.State())) ==> Consistent(state.State())
  {
    var path := match req.matchedPath
      case Some(matched) => matched
      case None => req.uriPath;
    var requestMethod := req.requestMethod;

    response := next(req);

    var statusCode: uint32 := response.status;
    var labels := HttpRequestLabels(requestMethod, path, statusCode);

    state.totalRequests.Inc(labels);

    if statusCode > 200 && statusCode < 400 {
      state.latencySuccess.Observe(labels, latency);
    } else {
      state.latencyError.Observe(labels, latency);
    }
    if Consistent(old(state.State())) {
      RecordRequestPreservesConsistent(old(state.State()), labels, latency);
    }
  }

  // ---------------------------------------------------------------------------
  // Sequences of requests
  // ---------------------------------------------------------------------------

  /** A handled request as the families see it: its label and its latency. */
  datatype HandledRequest = HandledRequest(labels: HttpRequestLabels, latency: Latency)

  /** The families after recording `requests` one after the other. */
  function RecordAll(s: HttpMetricsState, requests: seq<HandledRequest>): HttpMetricsState
    decreases |requests|
  {
    if requests == [] then s
    else RecordAll(RecordRequest(s, requests[0].labels, requests[0].latency), requests[1..])
  }

  /** How many of `requests` carry `labels`. */
  function Occurrences(requests: seq<HandledRequest>, labels: HttpRequestLabels): nat {
    if requests == [] then 0
    else (if requests[0].labels == labels then 1 else 0) + Occurrences(requests[1..], labels)
  }

  /** Every request is counted exactly once, under its own label. */
  lemma {:induction false} ExactlyOnceCounting(s: HttpMetricsState, requests: seq<HandledRequest>, labels: HttpRequestLabels)
    ensures Count(RecordAll(s, requests).totalRequests, labels) == Count(s.totalRequests, labels) + Occurrences(requests, labels)
    decreases |requests|
  {
    if requests != [] {
      var next := RecordRequest(s, requests[0].labels, requests[0].latency);
      ExactlyOnceCounting(next, requests[1..], labels);
    }
  }

  /** A run of requests never changes the requests-with-error family. */
  lemma {:induction false} RequestWithErrorUntouched(s: HttpMetricsState, requests: seq<HandledRequest>)
    ensures RecordAll(s, requests).requestWithError == s.requestWithError
    decreases |requests|
  {
    if requests != [] {
      RequestWithErrorUntouched(RecordRequest(s, requests[0].labels, requests[0].latency), requests[1..]);
    }
  }

  /**
   * The families agree with each other: the requests-with-error family is
   * empty, every counted request of a label left exactly one latency
   * observation, and each latency family holds only labels of its own class.
   */
  ghost predicate Consistent(s: HttpMetricsState) {
    && s.requestWithError == map[]
    && (forall l :: Count(s.totalRequests, l) == |Observations(s.latencySuccess, l)| + |Observations(s.latencyError, l)|)
    && (forall l :: l in s.latencySuccess ==> IsSuccess(l.statusCode))
    && (forall l :: l in s.latencyError ==> !IsSuccess(l.statusCode))
  }

  lemma EmptyStateConsistent()
    ensures Consistent(EmptyState)
  {
  }

  /** Recording one request keeps the families consistent. */
  lemma RecordRequestPreservesConsistent(s: HttpMetricsState, labels: HttpRequestLabels, latency: Latency)
    requires Consistent(s)
    ensures Consistent(RecordRequest(s, labels, latency))
  {
  }

  /** Any run of requests from consistent families leaves them consistent. */
  lemma {:induction false} RecordAllPreservesConsistent(s: HttpMetricsState, requests: seq<HandledRequest>)
    requires Consistent(s)
    ensures Consistent(RecordAll(s, requests))
    decreases |requests|
  {
    if requests != [] {
      RecordRequestPreservesConsistent(s, requests[0].labels, requests[0].latency);
      RecordAllPreservesConsistent(RecordRequest(s, requests[0].labels, requests[0].latency), requests[1..]);
    }
  }

  /**
   * From freshly built metrics, after any run of requests, each label's total
   * equals the number of requests with that label, and so does the number of
   * its latency observations across both families.
   */
  lemma TotalsFromFreshMetrics(requests: seq<HandledRequest>, labels: HttpRequestLabels)
    ensures Count(RecordAll(EmptyState, requests).totalRequests, labels) == Occurrences(requests, labels)
    ensures |Observations(RecordAll(EmptyState, requests).latencySuccess, labels)|
          + |Observations(RecordAll(EmptyState, requests).latencyError, labels)| == Occurrences(requests, labels)
  {
    ExactlyOnceCounting(EmptyState, requests, labels);
    EmptyStateConsistent();
    RecordAllPreservesConsistent(EmptyState, requests);
  }

  /**
   * A `GET` answered with status 200 on the matched route `/healthz`, from
   * fresh metrics: the request is counted once and its latency goes to the
   * error family, because status 200 is not in the success class.
   */
  lemma HealthzScenario(latency: Latency)
    ensures var req := Request(Get, "/api/healthz", Some("/healthz"), "");
            var labels := RequestLabels(req, 200);
            var r := RecordRequest(EmptyState, labels, latency);
            && labels == HttpRequestLabels(Get, "/healthz", 200)
            && Count(r.totalRequests, labels) == 1
            && Observations(r.latencyError, labels) == [latency]
            && r.latencySuccess == map[]
  {
  }
}
