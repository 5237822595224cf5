/**
 * The start/stop lifecycle of the Lightning node as a state machine over the
 * `_started` completion signal and the calls made on the scoped services.
 * A node call is one atomic step; concurrent callers are an interleaved
 * sequence of steps. Which services throw is an input of each step.
 */
module StartGate {

  /** A scoped hosted service, identified by its position in the container. */
  type ServiceId = nat

  /** `_started`: null, a created signal not yet completed, or a completed signal. */
  datatype Gate = NotCreated | Created | Completed

  /** A call the node makes on one of its services. */
  datatype ServiceEvent = StartCalled(service: ServiceId) | StopCalled(service: ServiceId)

  /** How a call to the node's start ends for its caller. */
  datatype StartOutcome =
    | RanAll                     // this caller started every service and completed the signal
    | Threw(service: ServiceId)  // this caller ran the services and one of them threw
    | Joined                     // a later caller found the signal completed
    | Awaiting                   // a later caller waits on a signal that is not completed

  datatype StopOutcome = NothingToStop | StoppedAll | StopThrew(service: ServiceId)

  /** What the lifecycle steps read and write. */
  datatype NodeView = NodeView(gate: Gate, events: seq<ServiceEvent>)

  /** One call on the node; `failing` are the services whose call throws. */
  datatype Request = StartRequest(failing: set<ServiceId>) | StopRequest(failing: set<ServiceId>)

  const Fresh := NodeView(NotCreated, [])

  /**
   * Index of the first service whose call throws, or |services| when none does:
   * the services are called one after another and the first exception ends the loop.
   */
  function FirstFailure(services: seq<ServiceId>, failing: set<ServiceId>): (n: nat)
    ensures n <= |services|
    ensures forall i :: 0 <= i < n ==> services[i] !in failing
    ensures n < |services| ==> services[n] in failing
  {
    if services == [] then 0
    else if services[0] in failing then 0
    else 1 + FirstFailure(services[1..], failing)
  }

  /** The services that are called: all of them, or those up to and including the one that throws. */
  function Called(services: seq<ServiceId>, failing: set<ServiceId>): (called: seq<ServiceId>)
    ensures called <= services
    ensures (forall i :: 0 <= i < |services| ==> services[i] !in failing) ==> called == services
    ensures called != services ==> |called| > 0 && called[|called| - 1] in failing
    ensures FirstFailure(services, failing) < |services| ==>
              called == services[..FirstFailure(services, failing) + 1]
  {
    var n := FirstFailure(services, failing);
    if n < |services| then services[..n + 1] else services
  }

  function Starts(services: seq<ServiceId>): (r: seq<ServiceEvent>)
  {
    seq(|services|, i requires 0 <= i < |services| => StartCalled(services[i]))
  }

  function Stops(services: seq<ServiceId>): (r: seq<ServiceEvent>)
  {
    seq(|services|, i requires 0 <= i < |services| => StopCalled(services[i]))
  }

  /**
   * StartAsync: under the lock, a caller that finds `_started` set only waits on
   * it; the caller that creates it starts the services in order and completes
   * the signal only when every one of them has started.
   */
  function StartStep(v: NodeView, services: seq<ServiceId>, failing: set<ServiceId>): (r: (NodeView, StartOutcome))
    ensures v.gate != NotCreated ==> r.0 == v && r.1 in {Joined, Awaiting}
    ensures v.gate != NotCreated ==> (r.1 == Joined <==> v.gate == Completed)
    ensures v.gate == NotCreated ==> r.0.gate != NotCreated && r.1 !in {Joined, Awaiting}
    ensures r.1 == RanAll <==> v.gate == NotCreated && r.0.gate == Completed
    ensures r.1 == RanAll ==>
              && r.0.events == v.events + Starts(services)
              && forall i :: 0 <= i < |services| ==> services[i] !in failing
    ensures r.1.Threw? ==> r.1.service in failing && r.0.gate == Created
                           && r.0.events == v.events + Starts(Called(services, failing))
    ensures v.gate == NotCreated && FirstFailure(services, failing) == |services| ==>
              r.0.gate == Completed && r.1 == RanAll
    ensures r.1.Threw? ==> FirstFailure(services, failing) < |services|
                           && r.1.service == services[FirstFailure(services, failing)]
  {
    if v.gate != NotCreated then
      (v, if v.gate == Completed then Joined else Awaiting)
    else
      var n := FirstFailure(services, failing);
      if n < |services| then
        (NodeView(Created, v.events + Starts(services[..n + 1])), Threw(services[n]))
      else
        (NodeView(Completed, v.events + Starts(services)), RanAll)
  }

  /** StopAsync: nothing without a signal; otherwise stop the services in order. The gate is kept. */
  function StopStep(v: NodeView, services: seq<ServiceId>, failing: set<ServiceId>): (r: (NodeView, StopOutcome))
    ensures r.0.gate == v.gate
    ensures v.gate == NotCreated <==> r.1 == NothingToStop
    ensures v.gate == NotCreated ==> r.0 == v
    ensures v.gate != NotCreated ==> r.0.events == v.events + Stops(Called(services, failing))
    ensures v.gate != NotCreated ==> (r.1 == StoppedAll <==> FirstFailure(services, failing) == |services|)
    ensures r.1.StopThrew? ==> FirstFailure(services, failing) < |services|
                               && r.1.service == services[FirstFailure(services, failing)]
  {
    if v.gate == NotCreated then (v, NothingToStop)
    else
      var n := FirstFailure(services, failing);
      if n < |services| then
        (NodeView(v.gate, v.events + Stops(services[..n + 1])), StopThrew(services[n]))
      else
        (NodeView(v.gate, v.events + Stops(services)), StoppedAll)
  }

  function Apply(v: NodeView, services: seq<ServiceId>, req: Request): NodeView
  {
    match req
    case StartRequest(failing) => StartStep(v, services, failing).0
    case StopRequest(failing) => StopStep(v, services, failing).0
  }

  /** The state after a sequence of calls on one node. */
  function Replay(v: NodeView, services: seq<ServiceId>, reqs: seq<Request>): NodeView
    decreases |reqs|
  {
    if reqs == [] then v else Replay(Apply(v, services, reqs[0]), services, reqs[1..])
  }

  /** The services whose start was called, in call order. */
  function StartedIds(events: seq<ServiceEvent>): seq<ServiceId>
  {
    if events == [] then []
    else (if events[0].StartCalled? then [events[0].service] else []) + StartedIds(events[1..])
  }

  lemma {:induction false} StartedIdsAppend(a: seq<ServiceEvent>, b: seq<ServiceEvent>)
    ensures StartedIds(a + b) == StartedIds(a) + StartedIds(b)
  {
    if a == [] {
      assert a + b == b;
    } else {
      assert (a + b)[0] == a[0] && (a + b)[1..] == a[1..] + b;
      StartedIdsAppend(a[1..], b);
    }
  }

  lemma {:induction false} StartedIdsOfStarts(services: seq<ServiceId>)
    ensures StartedIds(Starts(services)) == services
  {
    if services != [] {
      assert Starts(services)[1..] == Starts(services[1..]);
      StartedIdsOfStarts(services[1..]);
    }
  }

  lemma {:induction false} StartedIdsOfStops(services: seq<ServiceId>)
    ensures StartedIds(Stops(services)) == []
  {
    if services != [] {
      assert Stops(services)[1..] == Stops(services[1..]);
      StartedIdsOfStops(services[1..]);
    }
  }

  /** What every reachable state satisfies: starts only once the gate exists, and only one pass over the services. */
  ghost predicate StartedOnce(v: NodeView, services: seq<ServiceId>)
  {
    && (v.gate == NotCreated ==> StartedIds(v.events) == [])
    && StartedIds(v.events) <= services
  }

  lemma ApplyKeepsStartedOnce(v: NodeView, services: seq<ServiceId>, req: Request)
    requires StartedOnce(v, services)
    ensures StartedOnce(Apply(v, services, req), services)
  {
    var w := Apply(v, services, req);
    match req
    case StartRequest(failing) =>
      if v.gate == NotCreated {
        var called := if w.gate == Completed then services else Called(services, failing);
        assert w.events == v.events + Starts(called);
        StartedIdsAppend(v.events, Starts(called));
        StartedIdsOfStarts(called);
      }
    case StopRequest(failing) =>
      if v.gate != NotCreated {
        StartedIdsAppend(v.events, Stops(Called(services, failing)));
        StartedIdsOfStops(Called(services, failing));
      }
  }

  /**
   * However many calls are interleaved on one node, each service's start is
   * called at most once: the starts made are a prefix of the service list.
   */
  lemma {:induction false} ServicesStartedOnce(v: NodeView, services: seq<ServiceId>, reqs: seq<Request>)
    requires StartedOnce(v, services)
    ensures StartedIds(Replay(v, services, reqs).events) <= services
    ensures StartedOnce(Replay(v, services, reqs), services)
    decreases |reqs|
  {
    if reqs != [] {
      ApplyKeepsStartedOnce(v, services, reqs[0]);
      ServicesStartedOnce(Apply(v, services, reqs[0]), services, reqs[1..]);
    }
  }

  /**
   * Once created, `_started` never changes again: a completed signal stays
   * completed (stop does not reset it) and a signal left incomplete by a throwing
   * service is never completed by any later call (there is no retry path).
   */
  lemma {:induction false} GateIsFinal(v: NodeView, services: seq<ServiceId>, reqs: seq<Request>)
    requires v.gate != NotCreated
    ensures Replay(v, services, reqs).gate == v.gate
    decreases |reqs|
  {
    if reqs != [] {
      GateIsFinal(Apply(v, services, reqs[0]), services, reqs[1..]);
    }
  }

  /** After a start whose service threw, every later start only waits. */
  lemma StartAfterFailureWaits(v: NodeView, services: seq<ServiceId>, failing: set<ServiceId>,
                               reqs: seq<Request>, later: set<ServiceId>)
    requires StartStep(v, services, failing).1.Threw?
    ensures StartStep(Replay(StartStep(v, services, failing).0, services, reqs), services, later).1 == Awaiting
  {
    GateIsFinal(StartStep(v, services, failing).0, services, reqs);
  }
}
