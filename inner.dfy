/** The wrapped service and the future it returns, both opaque to the
    middleware. They are given by a script: how long the service's `call`
    takes before returning, how many polls its future answers `Pending`, how
    long each poll takes, and the result the future finally yields. */
module Inner {
  import opened HttpTypes
  import opened Time
  import opened Exposer

  /** How the wrapped service handles one request. */
  datatype Behaviour<E> = Behaviour(callTime: nat, pendingPolls: nat, pollTime: nat, outcome: Result<Response, E>)

  /** The observable state of an inner future: polls still to answer
      `Pending`, the result it resolves to, and whether it has resolved. */
  datatype InnerState<E> = InnerState(pendingLeft: nat, outcome: Result<Response, E>, finished: bool)

  /** The wrapped service's future. */
  class ScriptedFuture<E> {
    const pollTime: nat
    const outcome: Result<Response, E>
    var pendingLeft: nat
    var finished: bool

    function State(): InnerState<E>
      reads this
    {
      InnerState(pendingLeft, outcome, finished)
    }

    constructor (b: Behaviour<E>)
      ensures State() == InnerState(b.pendingPolls, b.outcome, false)
      ensures pollTime == b.pollTime
    {
      pollTime := b.pollTime;
      outcome := b.outcome;
      pendingLeft := b.pendingPolls;
      finished := false;
    }

    /** `Future::poll`. A future must not be polled again once it has
        answered `Ready`. */
    method Poll(clock: Clock) returns (p: Poll<Result<Response, E>>)
      requires !finished
      modifies this, clock
      ensures clock.now == old(clock.now) + pollTime
      ensures old(pendingLeft) > 0 ==> p == Pending && State() == old(State()).(pendingLeft := old(pendingLeft) - 1)
      ensures old(pendingLeft) == 0 ==> p == Ready(outcome) && State() == old(State()).(finished := true)
    {
      clock.Advance(pollTime);
      if pendingLeft > 0 {
        pendingLeft := pendingLeft - 1;
        p := Pending;
      } else {
        finished := true;
        p := Ready(outcome);
      }
    }
  }

  /** The wrapped `tower::Service`. It notes each request it receives in the
      same log as the exposer, so that the order of the two is visible. */
  class InnerService<E> {
    const log: Log
    const behaviour: Request -> Behaviour<E>
    var readiness: Poll<Result<(), E>>

    constructor (log: Log, behaviour: Request -> Behaviour<E>, readiness: Poll<Result<(), E>>)
      ensures this.log == log && this.behaviour == behaviour && this.readiness == readiness
    {
      this.log := log;
      this.behaviour := behaviour;
      this.readiness := readiness;
    }

    /** `Service::poll_ready`. */
    method PollReady() returns (r: Poll<Result<(), E>>)
      ensures r == readiness
    {
      r := readiness;
    }

    /** `Service::call`: receives the request, spends `callTime` ticks and
        returns a fresh future scripted by `behaviour(req)`. */
    method Call(req: Request, clock: Clock) returns (f: ScriptedFuture<E>)
      modifies log, clock
      ensures fresh(f)
      ensures f.State() == InnerState(behaviour(req).pendingPolls, behaviour(req).outcome, false)
      ensures f.pollTime == behaviour(req).pollTime
      ensures log.events == old(log.events) + [Delegate(req)]
      ensures clock.now == old(clock.now) + behaviour(req).callTime
    {
      log.events := log.events + [Delegate(req)];
      clock.Advance(behaviour(req).callTime);
      f := new ScriptedFuture(behaviour(req));
    }
  }
}
