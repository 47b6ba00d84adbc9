/** `HttpMetricsFuture`: the future returned by the middleware. A pure
    specification of one poll (`PollStep`) and of a sequence of polls
    (`PollAll`), the lemmas about them, and the class whose `Poll` method is
    proved to follow `PollStep`. */
module Future {
  import opened HttpTypes
  import opened Time
  import opened Exposer
  import opened Inner

  /** What a poll can observe of an `HttpMetricsFuture`: the stored method
      label, URI and start instant, what its stored exposer has collected, and
      the inner future. */
  datatype FutureState<E> = FutureState(methodLabel: string, uri: Uri, start: nat, collected: seq<Event>, inner: InnerState<E>)

  /** One poll: the state after it, what it returns, and the exposer calls it makes. */
  datatype Step<E> = Step(state: FutureState<E>, poll: Poll<Result<Response, E>>, emitted: seq<Event>)

  /** A sequence of polls: what each returned, every exposer call in order,
      and the state at the end. */
  datatype Run<E> = Run(polls: seq<Poll<Result<Response, E>>>, emitted: seq<Event>, final: FutureState<E>)

  /** The exposer calls of the poll at which the inner future resolves, the
      elapsed time being read at instant `now`: none on `Err`; on `Ok(res)` the
      response hook, then one exposure of {uri, method, status, elapsed}. */
  function Completion<E>(s: FutureState<E>, now: nat): seq<Event>
  {
    match s.inner.outcome
    case Ok(res) =>
      var hooked := s.collected + [ResponseHook(res)];
      [ResponseHook(res), Exposure(ExposedMetrics(s.uri, s.methodLabel, res.status, Elapsed(s.start, now)), hooked)]
    case Err(_) => []
  }

  /** One call of `poll` begun at instant `now`. */
  function PollStep<E>(s: FutureState<E>, now: nat): (r: Step<E>)
    requires !s.inner.finished
    // poll never updates the method label, the URI, the start instant or the stored exposer
    ensures r.state == s.(inner := r.state.inner)
    // the result is the inner future's own, unchanged
    ensures r.poll == if s.inner.pendingLeft > 0 then Pending else Ready(s.inner.outcome)
    ensures r.state.inner.finished <==> r.poll.Ready?
    ensures r.poll.Pending? ==> r.emitted == [] && r.state.inner.pendingLeft == s.inner.pendingLeft - 1
    ensures r.poll.Ready? ==> r.emitted == Completion(s, now)
    // exactly one exposure when the inner future resolves to `Ok`, none otherwise
    ensures ExposureCount(r.emitted) == if r.poll.Ready? && r.poll.value.Ok? then 1 else 0
  {
    if s.inner.pendingLeft > 0 then
      Step(s.(inner := s.inner.(pendingLeft := s.inner.pendingLeft - 1)), Pending, [])
    else
      Step(s.(inner := s.inner.(finished := true)), Ready(s.inner.outcome), Completion(s, now))
  }

  /** Polls begun at the instants `times`, in order. Past the poll that
      answers `Ready` no poll is allowed, so at most `pendingLeft + 1` polls. */
  function PollAll<E>(s: FutureState<E>, times: seq<nat>): (r: Run<E>)
    requires times == [] || (!s.inner.finished && |times| <= s.inner.pendingLeft + 1)
    ensures |r.polls| == |times|
    ensures r.final == s.(inner := r.final.inner)
    decreases |times|
  {
    if times == [] then Run([], [], s)
    else
      var step := PollStep(s, times[0]);
      var rest := PollAll(step.state, times[1..]);
      Run([step.poll] + rest.polls, step.emitted + rest.emitted, rest.final)
  }

  /** A future polled no more than its inner future stays pending (and then,
      perhaps, dropped) has answered `Pending` every time and made no
      exposer call at all. */
  lemma {:induction false} PollAllWhilePending<E>(s: FutureState<E>, times: seq<nat>)
    requires !s.inner.finished && |times| <= s.inner.pendingLeft
    ensures var r := PollAll(s, times);
      && (forall i :: 0 <= i < |r.polls| ==> r.polls[i] == Pending)
      && r.emitted == []
      && !r.final.inner.finished
      && r.final.inner.pendingLeft == s.inner.pendingLeft - |times|
    decreases |times|
  {
    if times != [] {
      var step := PollStep(s, times[0]);
      PollAllWhilePending(step.state, times[1..]);
    }
  }

  /** A future polled until it answers `Ready`: every poll before the last
      answers `Pending`, the last returns the inner result unchanged, and the
      only exposer calls are those of the last poll, with the elapsed time
      read at its start. So `expose` runs exactly once on `Ok`, never on `Err`. */
  lemma {:induction false} PollAllToCompletion<E>(s: FutureState<E>, times: seq<nat>)
    requires !s.inner.finished && |times| == s.inner.pendingLeft + 1
    ensures var r := PollAll(s, times);
      && (forall i :: 0 <= i < |r.polls| - 1 ==> r.polls[i] == Pending)
      && r.polls[|r.polls| - 1] == Ready(s.inner.outcome)
      && r.final.inner.finished
      && r.emitted == Completion(s, times[|times| - 1])
      && ExposureCount(r.emitted) == if s.inner.outcome.Ok? then 1 else 0
    decreases |times|
  {
    var step := PollStep(s, times[0]);
    if |times| > 1 {
      PollAllToCompletion(step.state, times[1..]);
      var rest := PollAll(step.state, times[1..]);
      assert Completion(step.state, times[|times| - 1]) == Completion(s, times[|times| - 1]);
      assert PollAll(s, times).polls == [Pending] + rest.polls;
    }
  }

  /** The future itself. Its fields are only ever set by the constructor. */
  class HttpMetricsFuture<E> {
    const inner: ScriptedFuture<E>
    const methodLabel: string
    const uri: Uri
    const start: nat
    const exposer: Recorder

    function State(): FutureState<E>
      reads this, inner, exposer
    {
      FutureState(methodLabel, uri, start, exposer.collected, inner.State())
    }

    /** `HttpMetricsFuture::new`: the start instant is read from the clock
        here, once. */
    constructor (inner: ScriptedFuture<E>, methodLabel: string, uri: Uri, exposer: Recorder, clock: Clock)
      ensures this.inner == inner && this.methodLabel == methodLabel && this.uri == uri && this.exposer == exposer
      ensures start == clock.now
    {
      this.inner := inner;
      this.methodLabel := methodLabel;
      this.uri := uri;
      this.start := clock.now;
      this.exposer := exposer;
    }

    /** `Future::poll`. The elapsed time is read before the inner future is
        polled; the hooks run on a clone of the stored exposer, so the stored
        exposer itself is never changed. Not to be called once it has
        answered `Ready`. */
    method Poll(clock: Clock) returns (p: Poll<Result<Response, E>>)
      requires !inner.finished
      modifies inner, clock, exposer.log
      ensures var step := PollStep(old(State()), old(clock.now));
        && p == step.poll
        && State() == step.state
        && exposer.log.events == old(exposer.log.events) + step.emitted
      ensures clock.now == old(clock.now) + inner.pollTime
    {
      var methodLabel := this.methodLabel;
      var uri := this.uri;
      var elapsedTime := Elapsed(start, clock.now);
      var exposer := this.exposer.Clone();

      var r := inner.Poll(clock);
      match r
      case Pending =>
        p := Pending;
      case Ready(Ok(res)) =>
        exposer.InterceptResponse(res);
        var statusCode := res.status;
        exposer.Expose(ExposedMetrics(uri, methodLabel, statusCode, elapsedTime));
        p := Ready(Ok(res));
      case Ready(Err(err)) =>
        p := Ready(Err(err));
    }
  }
}
