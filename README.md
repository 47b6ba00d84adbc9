# http_metware in Dafny

A model of the per-request logic of `http_metware`, a Tower/Axum middleware
that times HTTP requests and hands what it measured to a pluggable
`MetricsExposer`. The middleware, `HttpMetrics`, wraps an inner service.
For each request, `call` does four things in order:

1. it derives a static method label and copies the URI;
2. it runs the exposer's request hook;
3. it hands the request to the inner service;
4. it returns an `HttpMetricsFuture`.

Each poll of that future first reads the time elapsed since its start
instant, then polls the inner future. When the inner future resolves to
`Ok(res)`, the poll runs the response hook and then `expose` with
`{uri, method, status_code, elapsed_time}`. It then returns `res`
unchanged. An `Err` is returned unchanged, with no hook and no exposure.

The modules:

- `HttpTypes` (`http_types.dfy`) holds stand-ins for the `http` types.
  `Method` has the nine methods of section 9 of RFC 9110 plus extension
  tokens. A URI is text. A status code is 100–999. Requests and responses
  carry an opaque payload.
- `Time` holds the monotonic clock behind `Instant::now()`, in abstract
  ticks, and `Elapsed`, which saturates at zero like `Instant - Instant` in
  Rust's standard library.
- `Exposer` (`exposer.dfy`) holds `ExposedMetrics`, an event trace `Log`
  and `Recorder`. `Recorder` is a `MetricsExposer` that records every hook
  call. Its `log` is shared by all of its clones, like state behind an
  `Arc`. Its `collected` list belongs to one instance and is copied by
  `Clone`. Each `Exposure` event carries the exposing instance's
  `collected`, which shows what that instance had seen.
- `Inner` (`inner.dfy`) holds the wrapped service and its future as
  scripts. The script for a request gives:
  - how long the service's `call` takes;
  - how many polls answer `Pending`;
  - how long each poll takes;
  - the final result.

  The service writes a `Delegate` event into the same log, so the trace
  shows whether hooks run before or after delegation.
- `Future` (`future.dfy`) models `src/future.rs`. `PollStep` is a pure
  specification of one poll and `PollAll` of a sequence of polls. The
  lemmas cover a future that is still pending or dropped, and one polled
  to completion. `HttpMetricsFuture.Poll` is proved to follow `PollStep`.
- `Metrics` (`metrics.dfy`) models `src/lib.rs`: `LabelFromMethod`, the
  `HttpMetrics` class (`PollReady`, `Call`), `Dispatch` (the future's
  state right after `call`) and the end-to-end lemma `ServeTransparent`.
  `Scenarios` is a client of the classes. It plays the runtime's part with
  a loop that polls a future until `Ready`. `Serve` proves the end-to-end
  property for the real objects and any script. It also drives
  `GET /health` and a failing request through the middleware.

The error type is a type parameter `E` throughout. The middleware's
response and error types are therefore the inner service's own.

Four details of the code are easy to misread:

- **Start instant.** The start instant is read after delegation, not
  before. In `src/lib.rs:70-71` the arguments of
  `HttpMetricsFuture::new` are evaluated first, so `self.service.call(request)`
  runs before `Instant::now()` (`src/future.rs:32`). `HttpMetrics.Call`
  ensures `fut.start == old(clock.now) + callTime`. Time spent inside the
  inner `call` is not measured.
- **Elapsed time.** The elapsed time is read before the inner poll
  (`src/future.rs:48`, `54`). `HttpMetricsFuture.Poll` uses the clock
  reading at the start of the poll, so the work of the resolving inner poll
  is not measured either.
- **Where the hooks run.** The hooks in `poll` run on a fresh clone of the
  stored exposer (`src/future.rs:50`). Whatever `intercerp_response` changes
  in that clone's own state is dropped after the poll. The stored exposer
  is never changed. `HttpMetricsFuture.Poll` does not list it as modified.
- **Shared state.** `MetricsExposer` only requires `Clone`, so an
  exposer's state may be shared between clones or copied. The model has
  both kinds: a shared `log` and a per-instance `collected`.

## Model

| member | source | states |
|---|---|---|
| `Metrics.LabelFromMethod` | src/lib.rs:80-93 | The label is one of ten fixed strings. Each of CONNECT, DELETE, GET, HEAD, OPTIONS, PATCH, POST, PUT and TRACE is labelled with its own name. The label is "unknown" exactly when the method is not one of those nine. |
| `Metrics.LabelInjective` | src/lib.rs:82-90 | Two standard methods with the same label are the same method. |
| `Metrics.HttpMetrics.constructor` | src/lib.rs:46-48 | The middleware holds the given service and exposer. The two share the observation log. |
| `Metrics.HttpMetrics.PollReady` | src/lib.rs:60-62 | Returns exactly the inner service's readiness and changes nothing, the exposer included. |
| `Metrics.HttpMetrics.Call` | src/lib.rs:64-76 | The request hook runs once, with the original request, on the middleware's own exposer. It runs before the unmodified request reaches the inner service (the log gains `[RequestHook(req), Delegate(req)]`). The new future holds the request's method label, its URI and a fresh clone of the exposer taken after the hook. Its start instant is the clock after the inner `call` returned. The inner future is fresh and unpolled. |
| `Metrics.ServeTransparent` | src/lib.rs:64-75 | A whole request, `call` and then polls until `Ready`: every poll but the last answers `Pending`. The last returns the inner service's result unchanged. On `Err` the trace is only the request hook and delegation. On `Ok(res)` they are followed by the response hook and exactly one exposure of the request's URI, its method label, `res`'s status and the time from the end of the inner `call` to the start of the last poll. |
| `Metrics.HealthCheckExposedOnce` | src/future.rs:54-65 | `GET /health` answered 200, with the resolving poll begun 5 ticks after the start instant, exposes `{"/health", "GET", 200, 5}` exactly once. |
| `Scenarios.PollToCompletion` | src/future.rs:54-67 | Polling a `HttpMetricsFuture` object until `Ready`, with no time between polls, returns the inner future's result. The shared log gains exactly the exposer calls of the resolving poll (`Completion`). Those use the elapsed time read at the start of that poll, after every pending poll has taken its time. |
| `Scenarios.Serve` | src/lib.rs:64-75 | For the objects themselves and any script: `Call`, then polling until `Ready`, returns exactly the inner service's result for the request. The shared log gains the request hook and the delegation. Only on `Ok(res)` does it also gain the response hook and exactly one exposure. That exposure carries the request's URI and method label, the response's status, the time the pending polls took, and what the exposer had collected. |
| `Future.PollStep` | src/future.rs:45-69 | One poll never changes the label, URI, start instant or stored exposer. It returns the inner future's answer unchanged. It makes no exposer call while pending. When the inner future resolves, its calls are `Completion`: the response hook, then the one exposure, on `Ok`, and nothing on `Err`. It exposes exactly once on `Ok` and otherwise never. |
| `Future.PollAll` | src/future.rs:45-69 | A sequence of polls gives one answer per poll. The label, URI, start instant and stored exposer are the same at the end. |
| `Future.PollAllWhilePending` | src/future.rs:54 | Polls made while the inner future is pending, including those of a future that is then dropped, all answer `Pending`. They make no hook or expose call and leave the future unresolved. |
| `Future.PollAllToCompletion` | src/future.rs:54-67 | Over polls that end at the first `Ready`, all earlier polls are `Pending`. The last returns the inner result unchanged. The only exposer calls are those of the last poll, with elapsed time read at its start. `expose` is called exactly once on `Ok` and never on `Err`. |
| `Future.HttpMetricsFuture.constructor` | src/future.rs:27-35 | Stores the inner future, label, URI and exposer, and records the start instant from the clock, once. |
| `Future.HttpMetricsFuture.Poll` | src/future.rs:45-69 | Under the `Future` contract (never polled after `Ready`), the returned value, the new state and the events appended to the shared log are exactly those of `PollStep` at the clock reading taken before the inner poll. Only the inner future, the clock and the shared log change. |
| `Time.Elapsed` | src/future.rs:48 | With a monotonic clock (start not after now), elapsed is `now - start`. Otherwise it saturates at zero. |
| `Exposer.Recorder.InterceptRequest` | src/lib.rs:30 | The request hook records the request in this instance and in the shared log. |
| `Exposer.Recorder.InterceptResponse` | src/lib.rs:28 | The response hook records the response in this instance and in the shared log. |
| `Exposer.Recorder.Expose` | src/lib.rs:32 | `expose` takes `&self`: it appends one exposure, of the given metrics and of what this instance collected, to the shared log. It leaves the instance unchanged. |
| `Exposer.Recorder.Clone` | src/future.rs:50 | A clone is a new instance over the same shared log, holding a copy of what the original collected. |
| `Inner.InnerService.Call` | src/lib.rs:71 | The inner service receives the request (logged as `Delegate`). It takes its scripted call time and returns a fresh, unpolled future scripted for that request. |
| `Inner.InnerService.PollReady` | src/lib.rs:61 | The inner service's readiness is its current `readiness` value. |
| `Inner.ScriptedFuture.Poll` | src/future.rs:54 | The inner future answers `Pending` while polls remain in its script and then `Ready` with its result. It may not be polled after `Ready`. |

## Left out

- `src/layer.rs`: `HttpMetricsLayer::layer` only calls `HttpMetrics::new` with a clone of the layer's exposer. It has no behaviour of its own beyond `Metrics.HttpMetrics.constructor`.
- `Context`, `Waker`, `Pin`, `pin_project` and the `futures::ready!` macro are reduced to "the inner poll returns `Pending` or `Ready(result)`". Wake-ups are the runtime's concern.
- Concurrency across overlapping requests and the thread safety of exposers are not modelled. They belong to the runtime and to exposer implementations. The model is sequential.
- Wall-clock time and the internals of `Instant` and `Duration` are not modelled. Time is a natural-number tick counter that only moves forward.
- The internals of `Method`, `Uri`, `Request`, `Response` and `StatusCode` are not modelled. Headers, extensions and bodies are an opaque `payload`. The model does not forbid an extension token that spells a standard name; the `http` crate never produces one.
- `MetricsExposer` is represented by one implementation, `Recorder`, which records every hook. An implementation that keeps the trait's default no-op hooks sees a subset of these events.
- Cancellation and drop: a future dropped before `Ready` is covered only by `Future.PollAllWhilePending` (it exposes nothing). Dropping the inner future is not modelled.
- What an inner future does when polled after `Ready` is not modelled. Polling then is excluded by precondition, as Rust's `Future` contract requires.
- `#[derive(Clone)]` on `HttpMetrics` is not modelled. The scripted inner service holds no state that a clone would need to copy.
- `ExposedMetrics` holds references to the URI and the duration. The model stores those values directly.
