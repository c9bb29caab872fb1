# HTTP request metrics and configuration rules of the scrum Discord bot service

This project is a Dafny model of the two sequential pieces of the service's
bootstrap that obey checkable rules.

1. **Request metrics.** Four label-keyed metric families make up the
   `HttpMetrics` bundle:
   - `total_requests` and `request_with_error` are counters;
   - `latency_error` and `latency_success` are histograms.
   The model also covers how the families are registered in a registry
   prefixed with the application name, and the per-request update that the
   metrics middleware performs.
   - A family is a class whose `entries` field maps a label to a count or to
     a sequence of observations. "Get or create" reads an absent label as 0 or
     empty and then updates it in place.
   - The bundle holds references to its four family objects. The registry
     stores the same references. Request handling and the registry therefore
     see the same state, as the source's reference-counted clones do.
   - `HttpMetrics.State()` abstracts the four families into a value.
     `Middlewares.RecordRequest` is the pure rule of one request on that
     value, and the imperative `MetricsMiddleware` is proved to carry it out.
2. **Configuration rules.**
   - The `Environment` selector (`local` / `production`) has a printer and a
     case-insensitive parser.
   - `APP_ENVIRONMENT` defaults to `local`, and the environment picks the file
     `<env>.yaml`.
   - `DatabaseSettings::connect_options` converts the database settings into
     client options. It stops at the first host that fails to parse.

Files:
- `wrappers.dfy`: `Option` and `Result`.
- `bounded_ints.dfy`: `uint16`, `uint32` and `uint64`.
- `configuration.dfy`: module `Configuration`.
- `metrics.dfy`: module `Observability`.
- `middlewares.dfy`: module `Middlewares`.

Notes on the code as written:
- **Success class.** Exactly 200 is an error-class status: the middleware's
  success test is `200 < status < 400` (src/drivers/http/middlewares/mod.rs:38),
  so a 200 response is recorded in `latency_error`.
- **Method label type.** The middleware stores the request method's text in
  the label's `method` field (src/drivers/http/middlewares/mod.rs:23,32), but
  that field has the two-valued `Method` enum type (`Get`, `Put`;
  src/observability/metrics.rs:25-33). As written, this does not type-check.
  The model keeps the enum and lets a request carry a `Method` directly; it
  invents no conversion from method text.
- **Registered families.** The code builds and registers four families
  (src/observability/metrics.rs:64-84); no code shown updates
  `requests_with_error`.

## Model

| member | source | states |
|---|---|---|
| `Configuration.AsciiLower` | src/configuration.rs:156 | the lower-case mapping of one character yields no upper-case letter, shifts `A`..`Z` by 32 and keeps every other character |
| `Configuration.Lowercase` | src/configuration.rs:156 | lower-casing keeps the length and maps every character independently |
| `Configuration.LowercaseFixesLower` | src/configuration.rs:156 | a string without upper-case letters is its own lower-case form |
| `Configuration.LowercaseIdempotent` | src/configuration.rs:156 | lower-casing twice equals lower-casing once |
| `Configuration.AsStr` | src/configuration.rs:143-150 | an environment's printed name is non-empty and already lower-case |
| `Configuration.AsStrInjective` | src/configuration.rs:143-150 | two environments print the same name only if they are the same environment |
| `Configuration.TryFromString` | src/configuration.rs:152-165 | the input is accepted exactly when its lower-case form is `local` or `production`; an accepted input prints back as its lower-case form; a rejected input gets a message that starts with the lower-cased input |
| `Configuration.RoundTrip` | src/configuration.rs:143-158 | parsing an environment's printed name gives back that environment |
| `Configuration.TryFromStringIgnoresCase` | src/configuration.rs:155-158 | parsing the lower-cased input gives the same result as parsing the input |
| `Configuration.SameEnvironmentIffSameLowercase` | src/configuration.rs:155-158 | two accepted inputs give the same environment exactly when their lower-case forms are equal |
| `Configuration.ParsesUpperCase` | src/configuration.rs:155-157 | `LOCAL` parses as `Local` |
| `Configuration.RejectsOtherName` | src/configuration.rs:159-162 | `Staging` is refused with a message that starts with `staging` |
| `Configuration.SelectEnvironment` | src/configuration.rs:108-111 | an unset variable selects `Local`; a set variable selects the environment whose name is its lower-case form; parsing fails (the process panics) exactly when that lower-case form is neither name |
| `Configuration.EnvironmentFilename` | src/configuration.rs:113 | the file name is all lower-case, ends in `.yaml`, and its stem parses back to the environment (so it is the environment's printed name followed by `.yaml`) |
| `Configuration.DefaultEnvironmentFile` | src/configuration.rs:108-113 | with the variable unset, the environment is `Local` and the file is `local.yaml` |
| `Configuration.SslMode` | src/configuration.rs:47-51 | TLS (with default options) is present exactly when `ssl` is set |
| `Configuration.ConnectOptions` | src/configuration.rs:46-71 | succeeds exactly when every host parses. On success: the parsed hosts have the same length and order as the configured hosts; TLS follows `ssl`; the credential, default database and application name are the configured ones. On failure: the error is the one of the first host that fails, and every earlier host parsed |
| `Observability.LabelsEqualIffFieldsEqual` | src/observability/metrics.rs:31-36 | two labels are equal exactly when method, path and status code are all equal |
| `Observability.LatencyBucketsStrictlyIncreasing` | src/observability/metrics.rs:50-59 | there are 11 bucket bounds, from 0.005 to 10.0, strictly increasing |
| `Observability.CounterFamily.constructor` | src/observability/metrics.rs:47-48 | a new counter family is empty |
| `Observability.CounterFamily.Inc` | src/drivers/http/middlewares/mod.rs:36 | the label's counter (0 if absent) goes up by one; every other label's counter is unchanged |
| `Observability.HistogramFamily.constructor` | src/observability/metrics.rs:49-60 | a new histogram family is empty and keeps the given bucket bounds |
| `Observability.HistogramFamily.Observe` | src/drivers/http/middlewares/mod.rs:38-45 | the label's observations (none if absent) gain the value at the end; every other label's observations are unchanged |
| `Observability.Registry.WithPrefix` | src/observability/metrics.rs:88 | a new registry has the given prefix and no registrations |
| `Observability.Registry.Register` | src/observability/metrics.rs:65-69 | registering appends one (name, help, family) entry and keeps the earlier ones |
| `Observability.HttpMetrics.constructor` | src/observability/metrics.rs:44-62 | all four families are new, separate and empty, and both histogram families use the 11 latency buckets |
| `Observability.HttpMetrics.Default` | src/observability/metrics.rs:38-42 | the default value is a newly built, empty `HttpMetrics` |
| `Observability.HttpMetrics.Registrations` | src/observability/metrics.rs:64-84 | the four registrations are `total_request`, `requests_with_error`, `latency_error` and `latency_success`, in that order; each has its fixed help text and refers to its own family; the names are pairwise distinct |
| `Observability.HttpMetrics.Register` | src/observability/metrics.rs:64-84 | registering appends exactly those four registrations, in order, after what the registry held |
| `Observability.InitMetrics` | src/observability/metrics.rs:87-98 | the new registry is prefixed with the application name and holds exactly the four registrations of the new, empty HTTP metrics, each registered once |
| `Middlewares.SuccessBoundaries` | src/drivers/http/middlewares/mod.rs:38 | a status is a success exactly when it is between 201 and 399; 200 and 400 are not successes |
| `Middlewares.RequestLabels` | src/drivers/http/middlewares/mod.rs:18-34 | the label carries the request method and the response status; its path is the matched route when there is one and the raw URI path otherwise |
| `Middlewares.RecordRequest` | src/drivers/http/middlewares/mod.rs:30-45 | one request raises its label's total by one and leaves every other total alone. The success family gains exactly one observation for the label when `200 < status < 400`, and the error family otherwise; the other latency family does not change. `request_with_error` does not change |
| `Middlewares.MetricsMiddleware` | src/drivers/http/middlewares/mod.rs:10-48 | returns the inner stack's response unchanged. The new family state is `RecordRequest` of the old one under the request's label. `request_with_error` is not touched. The families stay consistent |
| `Middlewares.ExactlyOnceCounting` | src/drivers/http/middlewares/mod.rs:36 | after a run of requests, a label's total has grown by exactly the number of requests that carry it |
| `Middlewares.RequestWithErrorUntouched` | src/drivers/http/middlewares/mod.rs:30-45 | no run of requests changes `request_with_error` |
| `Middlewares.EmptyStateConsistent` | src/observability/metrics.rs:44-62 | freshly built families are consistent |
| `Middlewares.RecordRequestPreservesConsistent` | src/drivers/http/middlewares/mod.rs:36-45 | one request keeps the families consistent. Consistent means: each total equals the label's observations across both latency families; each latency family holds only labels of its own class; `request_with_error` is empty |
| `Middlewares.RecordAllPreservesConsistent` | src/drivers/http/middlewares/mod.rs:36-45 | any run of requests keeps the families consistent |
| `Middlewares.TotalsFromFreshMetrics` | src/drivers/http/middlewares/mod.rs:36-45 | starting from fresh metrics, both a label's total and its number of latency observations equal the number of requests that carry it |
| `Middlewares.HealthzScenario` | src/drivers/http/middlewares/mod.rs:18-45 | a `GET` on the matched route `/healthz` that returns 200 is counted once under path `/healthz`, and its latency goes to the error family |

## Left out

- **Latency.** The clock (`Instant::now`, `elapsed`, `as_secs_f64`) is not modelled. The measured latency is a parameter of type `real`, and the model never inspects its value. Floating point is not modelled.
- **Histogram buckets.** How a histogram fills its buckets, including the implicit `+Inf` bucket, its sum and its count, lives in the metrics library. That library is not part of this model, so a histogram here is the sequence of its observations plus its bucket bounds.
- **Library behaviour.** The OpenMetrics text encoding, the metric-name prefixing at encode time, and thread-safe sharing are not modelled. The families are updated one request at a time; concurrent requests, atomics and locking are left out.
- **The inner stack.** The rest of the request stack is the parameter `next`, a function from request to response. Any side effects it has are not modelled.
- **Request methods.** A request carries the two-valued `Method` (`Get`, `Put`) rather than the HTTP method of the request, because the label type admits only those two.
- `Observability.CounterFamily.Inc`: the counter is an unbounded `nat`. The library's 64-bit counter wraps around on overflow, which is not modelled.
- **Lowercasing.** Only ASCII letters are lowercased (`Configuration.Lowercase`). The source's `to_lowercase` applies full Unicode case mapping.
- **Server addresses.** The driver's `ServerAddress::parse` is not part of this model. It is the function parameter `parse`, and a parsed address is the type parameter `A` of `Configuration.ConnectOptions`. The remaining client-option builder fields are recorded as plain values.
- **Configuration loading.** `get_configuration` reads the working directory, layers `base.yaml`, the environment file and `APP_`-prefixed variables, and deserialises the result; all of that is I/O. Only the environment default and the file-name rule are modelled. The value of `APP_ENVIRONMENT` is a parameter (`None` when it is unset or not valid Unicode).
- **Telemetry resource.** `get_resource` only builds library values (service name and version key-value pairs), so it is not modelled.
- **Tracing, logging and start-up.** Trace and log providers (`init_trace`, `init_log`), subscriber composition (`get_subscriber`, `init_subscriber`) and the `http` binary's start-up and teardown are calls into telemetry libraries and global process state. None of them is modelled. That binary starts no listeners and handles no shutdown signals, so there is no listener or shutdown behaviour to model.
- **Instrumentation span.** The `tracing::instrument` span around the middleware has no effect on the metrics and is not modelled.
