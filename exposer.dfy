/** The metrics record and the `MetricsExposer` hook contract, with a
    recording exposer that writes every hook call into a shared trace. */
module Exposer {
  import opened HttpTypes

  /** The default metrics handed to `expose`: the request's URI, its method
      label, the response's status code and the time since the start instant. */
  datatype ExposedMetrics = ExposedMetrics(uri: Uri, methodLabel: string, statusCode: U16, elapsedTime: nat)

  /** One observable step in the life of a request. `RequestHook`,
      `ResponseHook` and `Exposure` are calls into the exposer; `Delegate` is the
      wrapped service receiving the request. An exposure carries, beside the
      default metrics, what the exposing instance had collected through its
      hooks (the custom metrics it would expose with the default ones). */
  datatype Event =
    | RequestHook(request: Request)
    | Delegate(request: Request)
    | ResponseHook(response: Response)
    | Exposure(metrics: ExposedMetrics, collected: seq<Event>)

  /** The number of exposures in a trace. */
  function ExposureCount(events: seq<Event>): (n: nat)
    ensures n <= |events|
    ensures n == 0 <==> forall i :: 0 <= i < |events| ==> !events[i].Exposure?
  {
    if events == [] then 0
    else (if events[0].Exposure? then 1 else 0) + ExposureCount(events[1..])
  }

  lemma {:induction false} ExposureCountAppend(a: seq<Event>, b: seq<Event>)
    ensures ExposureCount(a + b) == ExposureCount(a) + ExposureCount(b)
    decreases |a|
  {
    if a != [] {
      assert (a + b)[1..] == a[1..] + b;
      ExposureCountAppend(a[1..], b);
    } else {
      assert a + b == b;
    }
  }

  /** The trace of everything the exposer's backend and the wrapped service
      observed, in order. It is the state that clones of one exposer share. */
  class Log {
    var events: seq<Event>

    constructor ()
      ensures events == []
    {
      events := [];
    }
  }

  /** A `MetricsExposer` that records every hook. `log` is shared by all its
      clones (as state behind an `Arc` would be); `collected` belongs to the
      instance and is copied, not shared, by `Clone`. */
  class Recorder {
    const log: Log
    var collected: seq<Event>

    constructor (log: Log)
      ensures this.log == log && collected == []
    {
      this.log := log;
      collected := [];
    }

    /** `Clone::clone`: a new instance over the same shared log, holding a copy
        of what this one has collected. */
    method Clone() returns (c: Recorder)
      ensures fresh(c)
      ensures c.log == log && c.collected == collected
    {
      c := new Recorder(log);
      c.collected := collected;
    }

    /** `intercerp_request(&mut self, &req)`. */
    method InterceptRequest(req: Request)
      modifies this, log
      ensures collected == old(collected) + [RequestHook(req)]
      ensures log.events == old(log.events) + [RequestHook(req)]
    {
      collected := collected + [RequestHook(req)];
      log.events := log.events + [RequestHook(req)];
    }

    /** `intercerp_response(&mut self, &res)`. */
    method InterceptResponse(res: Response)
      modifies this, log
      ensures collected == old(collected) + [ResponseHook(res)]
      ensures log.events == old(log.events) + [ResponseHook(res)]
    {
      collected := collected + [ResponseHook(res)];
      log.events := log.events + [ResponseHook(res)];
    }

    /** `expose(&self, metrics)`: takes `&self`, so the instance itself is
        left as it is; only the shared log grows. */
    method Expose(metrics: ExposedMetrics)
      modifies log
      ensures log.events == old(log.events) + [Exposure(metrics, collected)]
    {
      log.events := log.events + [Exposure(metrics, collected)];
    }
  }
}
