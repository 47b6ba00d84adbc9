/** The `HttpMetrics` middleware: the method label table, the service that
    wraps an inner service, and what a whole request looks like through it. */
module Metrics {
  import opened HttpTypes
  import opened Time
  import opened Exposer
  import opened Inner
  import opened Future

  /** The nine methods of section 9 of RFC 9110. */
  predicate IsStandard(m: Method)
  {
    !m.Extension?
  }

  /** Every label `LabelFromMethod` can return. */
  const Labels: set<string> :=
    {"CONNECT", "DELETE", "GET", "HEAD", "OPTIONS", "PATCH", "POST", "PUT", "TRACE", "unknown"}

  /** A label known without looking at the method's token: a standard method
      is labelled with its own name, any other with "unknown". */
  function LabelFromMethod(m: Method): (l: string)
    ensures l in Labels
    ensures IsStandard(m) ==> l == MethodName(m)
    ensures l == "unknown" <==> !IsStandard(m)
  {
    match m
    case Connect => "CONNECT"
    case Delete => "DELETE"
    case Get => "GET"
    case Head => "HEAD"
    case Options => "OPTIONS"
    case Patch => "PATCH"
    case Post => "POST"
    case Put => "PUT"
    case Trace => "TRACE"
    case Extension(_) => "unknown"
  }

  /** Two standard methods with the same label are the same method. */
  lemma LabelInjective(m1: Method, m2: Method)
    requires IsStandard(m1) && IsStandard(m2)
    requires LabelFromMethod(m1) == LabelFromMethod(m2)
    ensures m1 == m2
  {
  }

  /** The future's state right after `call`: the request's method label and
      URI, the start instant read when the inner service's `call` has
      returned (`callAt` being the instant `call` began), an exposer that has
      seen the request hook, and the inner future not yet polled. */
  function Dispatch<E>(collected: seq<Event>, req: Request, b: Behaviour<E>, callAt: nat): FutureState<E>
  {
    FutureState(LabelFromMethod(req.verb), req.uri, callAt + b.callTime, collected + [RequestHook(req)],
                InnerState(b.pendingPolls, b.outcome, false))
  }

  /** A whole request through the middleware, `call` beginning at instant
      `callAt` and the returned future polled at `pollTimes` until it answers
      `Ready`: the caller gets exactly the inner service's result; the trace
      is request hook, delegation, and then, only if that result is
      `Ok(res)`, response hook and exactly one exposure of the request's
      URI and method label, the response's status, and the time from the
      end of the inner `call` to the start of the last poll. */
  lemma ServeTransparent<E>(collected: seq<Event>, req: Request, b: Behaviour<E>, callAt: nat, pollTimes: seq<nat>)
    requires |pollTimes| == b.pendingPolls + 1
    ensures var run := PollAll(Dispatch(collected, req, b, callAt), pollTimes);
      var trace := [RequestHook(req), Delegate(req)] + run.emitted;
      var last := pollTimes[|pollTimes| - 1];
      && run.polls[|run.polls| - 1] == Ready(b.outcome)
      && (forall i :: 0 <= i < |run.polls| - 1 ==> run.polls[i] == Pending)
      && ExposureCount(trace) == (if b.outcome.Ok? then 1 else 0)
      && (b.outcome.Err? ==> trace == [RequestHook(req), Delegate(req)])
      && (b.outcome.Ok? ==>
            var res := b.outcome.value;
            var metrics := ExposedMetrics(req.uri, LabelFromMethod(req.verb), res.status, Elapsed(callAt + b.callTime, last));
            trace == [RequestHook(req), Delegate(req), ResponseHook(res),
                      Exposure(metrics, collected + [RequestHook(req), ResponseHook(res)])])
  {
    var s := Dispatch(collected, req, b, callAt);
    PollAllToCompletion(s, pollTimes);
    var run := PollAll(s, pollTimes);
    ExposureCountAppend([RequestHook(req), Delegate(req)], run.emitted);
    if b.outcome.Ok? {
      var res := b.outcome.value;
      assert s.collected + [ResponseHook(res)] == collected + [RequestHook(req), ResponseHook(res)];
    }
  }

  /** The request `GET /health` answered 200 by an inner service whose
      future is pending once and resolves at the poll begun 5 ticks after
      its `call` returned. */
  lemma HealthCheckExposedOnce(collected: seq<Event>, req: Request, res: Response)
    requires req.verb == Get && req.uri == "/health" && res.status == 200
    ensures var b: Behaviour<()> := Behaviour(0, 1, 0, Ok(res));
      var run := PollAll(Dispatch(collected, req, b, 0), [2, 5]);
      && run.polls == [Pending, Ready(Ok(res))]
      && run.emitted == [ResponseHook(res),
                         Exposure(ExposedMetrics("/health", "GET", 200, 5), collected + [RequestHook(req), ResponseHook(res)])]
  {
    var b: Behaviour<()> := Behaviour(0, 1, 0, Ok(res));
    ServeTransparent(collected, req, b, 0, [2, 5]);
  }

  /** The middleware: a wrapped service and the exposer it owns. Both write
      to one log, so that the log shows the order of hook calls and
      delegation. */
  class HttpMetrics<E> {
    const service: InnerService<E>
    const exposer: Recorder

    ghost predicate Valid()
    {
      service.log == exposer.log
    }

    /** `HttpMetrics::new` (also what `HttpMetricsLayer::layer` builds, with
        a clone of the layer's exposer). */
    constructor (service: InnerService<E>, exposer: Recorder)
      requires service.log == exposer.log
      ensures Valid()
      ensures this.service == service && this.exposer == exposer
    {
      this.service := service;
      this.exposer := exposer;
    }

    /** `poll_ready`: the inner service's readiness, passed on as it is; the
        exposer is not involved. */
    method PollReady() returns (r: Poll<Result<(), E>>)
      ensures r == service.readiness
    {
      r := service.PollReady();
    }

    /** `call`. The label and the URI are taken from the request, the request
        hook runs on the middleware's own exposer, then the request is handed
        to the inner service; the start instant is read only after that
        `call` has returned, and the future gets a clone of the exposer as it
        is after the request hook. */
    method Call(req: Request, clock: Clock) returns (fut: HttpMetricsFuture<E>)
      requires Valid()
      modifies exposer, exposer.log, clock
      ensures fresh(fut) && fresh(fut.inner) && fresh(fut.exposer)
      ensures fut.State() == Dispatch(old(exposer.collected), req, service.behaviour(req), old(clock.now))
      ensures fut.inner.pollTime == service.behaviour(req).pollTime
      ensures fut.exposer.log == exposer.log
      ensures exposer.collected == old(exposer.collected) + [RequestHook(req)]
      ensures exposer.log.events == old(exposer.log.events) + [RequestHook(req), Delegate(req)]
      ensures fut.start == clock.now == old(clock.now) + service.behaviour(req).callTime
    {
      var methodLabel := LabelFromMethod(req.verb);
      var uri := req.uri;

      exposer.InterceptRequest(req);

      var inner := service.Call(req, clock);
      var copy := exposer.Clone();
      fut := new HttpMetricsFuture(inner, methodLabel, uri, copy, clock);
    }
  }
}

/** A client of the classes: `GET /health` through the middleware, the
    inner future pending once, answered 200; and a request the inner service
    fails. What the log holds afterwards follows from the contracts alone. */
module Scenarios {
  import opened HttpTypes
  import opened Time
  import opened Exposer
  import opened Inner
  import opened Future
  import opened Metrics

  function Handler(req: Request): Behaviour<string>
  {
    if req.uri == "/health" then Behaviour(1, 1, 2, Ok(Response(200, 0)))
    else Behaviour(0, 0, 0, Err("handler failed"))
  }

  /** The runtime's part, played by a loop: poll `fut` until it answers
      `Ready`, each poll following the previous one at once. The result is
      the inner future's; the shared log gains exactly the exposer calls of
      the resolving poll, whose elapsed time is read after every pending poll
      has taken its time. */
  method PollToCompletion<E>(fut: HttpMetricsFuture<E>, clock: Clock) returns (p: Poll<Result<Response, E>>, ghost last: nat)
    requires !fut.inner.finished
    modifies fut.inner, clock, fut.exposer.log
    ensures p == Ready(fut.inner.outcome)
    ensures last == old(clock.now) + old(fut.inner.pendingLeft) * fut.inner.pollTime
    ensures fut.exposer.log.events == old(fut.exposer.log.events) + Completion(old(fut.State()), last)
  {
    ghost var s0 := fut.State();
    ghost var events0 := fut.exposer.log.events;
    ghost var n := fut.inner.pendingLeft;
    ghost var t0 := clock.now;
    p := Pending;
    last := clock.now;
    while p.Pending?
      invariant fut.State() == s0.(inner := fut.State().inner)
      invariant p.Pending? <==> !fut.inner.finished
      invariant p.Pending? ==> && fut.exposer.log.events == events0
                               && fut.inner.pendingLeft <= n
                               && clock.now == t0 + (n - fut.inner.pendingLeft) * fut.inner.pollTime
      invariant p.Ready? ==> && p == Ready(fut.inner.outcome)
                             && last == t0 + n * fut.inner.pollTime
                             && fut.exposer.log.events == events0 + Completion(s0, last)
      decreases fut.inner.pendingLeft + (if p.Pending? then 1 else 0)
    {
      ghost var k := fut.inner.pendingLeft;
      ghost var before := fut.State();
      last := clock.now;
      p := fut.Poll(clock);
      if p.Ready? {
        assert Completion(before, last) == Completion(s0, last);
      } else {
        assert (n - (k - 1)) * fut.inner.pollTime == (n - k) * fut.inner.pollTime + fut.inner.pollTime;
      }
    }
  }

  /** A whole request through the classes: `call` on the middleware, then
      the returned future polled until `Ready`. The caller gets exactly the
      inner service's result for the request. The shared log gains the
      request hook and the delegation, and, only on `Ok(res)`, the response
      hook and exactly one exposure of the request's URI and method label,
      the response's status, and the time the pending polls took. */
  method Serve<E>(middleware: HttpMetrics<E>, req: Request, clock: Clock) returns (p: Poll<Result<Response, E>>)
    requires middleware.Valid()
    modifies middleware.exposer, middleware.exposer.log, clock
    ensures p == Ready(middleware.service.behaviour(req).outcome)
    ensures var b := middleware.service.behaviour(req);
      var log := middleware.exposer.log;
      var requested := old(log.events) + [RequestHook(req), Delegate(req)];
      && ExposureCount(log.events) == ExposureCount(old(log.events)) + (if b.outcome.Ok? then 1 else 0)
      && (b.outcome.Err? ==> log.events == requested)
      && (b.outcome.Ok? ==>
            var res := b.outcome.value;
            var metrics := ExposedMetrics(req.uri, LabelFromMethod(req.verb), res.status, b.pendingPolls * b.pollTime);
            log.events == requested + [ResponseHook(res),
              Exposure(metrics, old(middleware.exposer.collected) + [RequestHook(req), ResponseHook(res)])])
  {
    ghost var b := middleware.service.behaviour(req);
    ghost var log := middleware.exposer.log;
    ghost var requested := log.events + [RequestHook(req), Delegate(req)];
    ghost var collected := middleware.exposer.collected;
    var fut := middleware.Call(req, clock);
    ghost var s0 := fut.State();
    ghost var last;
    p, last := PollToCompletion(fut, clock);
    ExposureCountAppend(old(log.events), [RequestHook(req), Delegate(req)]);
    ExposureCountAppend(requested, Completion(s0, last));
    if b.outcome.Ok? {
      var res := b.outcome.value;
      assert s0.collected + [ResponseHook(res)] == collected + [RequestHook(req), ResponseHook(res)];
    }
  }

  method HealthCheck()
  {
    var log := new Log();
    var clock := new Clock(10);
    var service := new InnerService(log, Handler, Ready(Ok(())));
    var recorder := new Recorder(log);
    var middleware := new HttpMetrics(service, recorder);

    var ready := middleware.PollReady();
    assert ready == Ready(Ok(()));

    var req := Request(Get, "/health", 0);
    var res := Response(200, 0);
    assert Handler(req) == Behaviour(1, 1, 2, Ok(res));
    assert log.events == [] && recorder.collected == [];
    var p := Serve(middleware, req, clock);
    assert p == Ready(Ok(res));
    assert [] + [RequestHook(req), ResponseHook(res)] == [RequestHook(req), ResponseHook(res)];
    assert log.events == [RequestHook(req), Delegate(req), ResponseHook(res),
      Exposure(ExposedMetrics("/health", "GET", 200, 2), [RequestHook(req), ResponseHook(res)])];
  }

  method FailedRequest()
  {
    var log := new Log();
    var clock := new Clock(0);
    var service := new InnerService(log, Handler, Ready(Ok(())));
    var recorder := new Recorder(log);
    var middleware := new HttpMetrics(service, recorder);

    var req := Request(Post, "/submit", 1);
    var fut := middleware.Call(req, clock);
    var p := fut.Poll(clock);
    assert p == Ready(Err("handler failed"));
    assert log.events == [RequestHook(req), Delegate(req)];
  }
}
