/**
 * The version-2 datafeed loop.
 *
 * `start()` first finds a feed to read (the first one the server lists, or a
 * newly created one when it lists none) and then, while the loop is running,
 * reads the feed from the current ack id:
 *   - a batch of events is dispatched to the subscribed listeners, after
 *     which the ack id the read returned becomes the current ack id;
 *   - a stale feed (the read fails with HTTP 400) is deleted, a new feed is
 *     created and becomes the current one, and the ack id is reset to "".
 * A listener stops the loop by calling `stop()` from a handler; the batch
 * being dispatched is finished and no further read is made.
 *
 * The loop is specified by functions over `LoopState`, a value holding the
 * loop's fields and what the transport has seen; the class's `Start` is
 * proved to produce exactly the state `StartSpec` describes.
 */
module DatafeedLoop {
  import opened Wrappers
  import opened Events
  import opened Listeners
  import opened DatafeedApi

  /**
   * The loop's fields together with the transport's record of calls and the
   * number of scripted read outcomes consumed.
   */
  datatype LoopState = LoopState(
    datafeedId: Option<string>,
    ackId: string,
    running: bool,
    listeners: seq<Listener>,
    deliveries: seq<Delivery>,
    calls: seq<Call>,
    served: nat)

  /** A state from which the loop can read: running implies a feed id is known. */
  predicate Ready(s: LoopState)
  {
    s.running ==> s.datafeedId.Some?
  }

  /**
   * Start-up: list the feeds; take the first one, or create one when none is
   * listed; read from the beginning (ack id ""); mark the loop running.
   */
  function Discover(s: LoopState, sc: Script, auth: AuthSession): LoopState
  {
    var listed := s.calls + [ListCall(auth.sessionToken, auth.keyManagerToken)];
    if |sc.feeds| > 0 then
      s.(calls := listed, datafeedId := Some(sc.feeds[0]), ackId := "", running := true)
    else
      s.(calls := listed + [CreateCall(auth.sessionToken, auth.keyManagerToken)],
         datafeedId := Some(sc.createdId), ackId := "", running := true)
  }

  /** Stale-feed recovery: delete the current feed, create a new one, reset the ack id. */
  function Recreate(s: LoopState, sc: Script, auth: AuthSession): LoopState
    requires s.datafeedId.Some?
  {
    s.(calls := s.calls + [DeleteCall(auth.sessionToken, auth.keyManagerToken, s.datafeedId.value),
                           CreateCall(auth.sessionToken, auth.keyManagerToken)],
       datafeedId := Some(sc.createdId),
       ackId := "")
  }

  /** One pass of the loop: a read of the current feed and what follows from its outcome. */
  function Step(s: LoopState, sc: Script, auth: AuthSession): LoopState
    requires s.datafeedId.Some? && s.served < |sc.outcomes|
  {
    var read := s.(calls := s.calls + [ReadCall(auth.sessionToken, auth.keyManagerToken, s.datafeedId.value, s.ackId)],
                   served := s.served + 1);
    match sc.outcomes[s.served]
    case Stale => Recreate(read, sc, auth)
    case Ok(events, ack) =>
      read.(deliveries := s.deliveries + BatchDeliveries(events, s.listeners),
            running := s.running && !BatchStops(events, s.listeners, s.deliveries),
            ackId := ack)
  }

  /** The loop: passes while running and while the script has an outcome left. */
  function Run(s: LoopState, sc: Script, auth: AuthSession): LoopState
    requires Ready(s)
    decreases |sc.outcomes| - s.served
  {
    if !s.running || s.served >= |sc.outcomes| then s
    else Run(Step(s, sc, auth), sc, auth)
  }

  /** `start()`: nothing on a loop already running; otherwise discovery, then the loop. */
  function StartSpec(s: LoopState, sc: Script, auth: AuthSession): LoopState
  {
    if s.running then s else Run(Discover(s, sc, auth), sc, auth)
  }

  class DatafeedLoopV2 {
    const api: ScriptedDatafeedApi
    const auth: AuthSession
    /** The feed being read; `None` before the first start. */
    var datafeedId: Option<string>
    /** The ack id (cursor) the next read starts from. */
    var ackId: string
    var running: bool
    /** The subscribed listeners, in subscription order. */
    var listeners: seq<Listener>
    /** Every handler invocation made so far, oldest first. */
    var deliveries: seq<Delivery>

    ghost predicate Valid()
      reads this, api
    {
      api.Valid() && (running ==> datafeedId.Some?)
    }

    function State(): LoopState
      reads this, api
    {
      LoopState(datafeedId, ackId, running, listeners, deliveries, api.calls, api.served)
    }

    constructor (api: ScriptedDatafeedApi, auth: AuthSession)
      requires api.Valid()
      ensures Valid()
      ensures this.api == api && this.auth == auth
      ensures datafeedId == None && ackId == "" && !running && listeners == [] && deliveries == []
    {
      this.api := api;
      this.auth := auth;
      datafeedId := None;
      ackId := "";
      running := false;
      listeners := [];
      deliveries := [];
    }

    /** `subscribe(listener)`: the listener is added after those already subscribed. */
    method Subscribe(l: Listener)
      requires Valid()
      modifies this
      ensures Valid()
      ensures listeners == old(listeners) + [l]
      ensures datafeedId == old(datafeedId) && ackId == old(ackId) && running == old(running)
      ensures deliveries == old(deliveries)
    {
      listeners := listeners + [l];
    }

    /** `stop()`: the loop makes no further read once the current batch is dispatched. */
    method Stop()
      requires Valid()
      modifies this
      ensures Valid()
      ensures !running
      ensures datafeedId == old(datafeedId) && ackId == old(ackId) && listeners == old(listeners)
      ensures deliveries == old(deliveries)
    {
      running := false;
    }

    /** Calls the handler for `e`'s kind on every listener, in subscription order. */
    method DispatchEvent(e: Event)
      requires Valid()
      modifies this
      ensures Valid()
      ensures deliveries == old(deliveries) + EventDeliveries(e, listeners)
      ensures running == (old(running) && !EventStops(e, listeners, old(deliveries)))
      ensures datafeedId == old(datafeedId) && ackId == old(ackId) && listeners == old(listeners)
    {
      match ParseEventType(e.typeName)
      case None =>
      case Some(k) =>
        var i := 0;
        while i < |listeners|
          invariant 0 <= i <= |listeners|
          invariant Valid()
          invariant datafeedId == old(datafeedId) && ackId == old(ackId) && listeners == old(listeners)
          invariant deliveries == old(deliveries) + ListenerDeliveries(e, k, listeners[..i])
          invariant running == (old(running) && !ListenerStops(e, k, listeners[..i], old(deliveries)))
        {
          var l := listeners[i];
          var reaction := ReactionOf(l, k, e, deliveries);
          deliveries := deliveries + [Deliver(l, k, e)];
          match reaction {
            case CallsStop => Stop();
            case Returns =>
            case Raises =>  // caught and logged; the next listener still gets the event
          }
          assert listeners[..i + 1][..i] == listeners[..i];
          i := i + 1;
        }
        assert listeners[..i] == listeners;
    }

    /** Dispatches a read's events, one after the other, in the order returned. */
    method HandleEvents(events: seq<Event>)
      requires Valid()
      modifies this
      ensures Valid()
      ensures deliveries == old(deliveries) + BatchDeliveries(events, listeners)
      ensures running == (old(running) && !BatchStops(events, listeners, old(deliveries)))
      ensures datafeedId == old(datafeedId) && ackId == old(ackId) && listeners == old(listeners)
    {
      var j := 0;
      while j < |events|
        invariant 0 <= j <= |events|
        invariant Valid()
        invariant datafeedId == old(datafeedId) && ackId == old(ackId) && listeners == old(listeners)
        invariant deliveries == old(deliveries) + BatchDeliveries(events[..j], listeners)
        invariant running == (old(running) && !BatchStops(events[..j], listeners, old(deliveries)))
      {
        DispatchEvent(events[j]);
        assert events[..j + 1][..j] == events[..j];
        j := j + 1;
      }
      assert events[..j] == events;
    }

    /** Stale-feed recovery on the loop's own fields. */
    method RecreateDatafeed()
      requires Valid() && datafeedId.Some?
      modifies this, api
      ensures Valid()
      ensures State() == Recreate(old(State()), api.script, auth)
    {
      api.DeleteDatafeed(auth, datafeedId.value);
      var created := api.CreateDatafeed(auth);
      datafeedId := Some(created);
      ackId := "";
    }

    /**
     * `start()`: discovery, then read and dispatch until a handler stops the
     * loop (`stopped`) or the scripted reads run out (`!stopped`). On a loop
     * that is already running it does nothing.
     */
    method Start() returns (stopped: bool)
      requires Valid()
      modifies this, api
      ensures Valid()
      ensures State() == StartSpec(old(State()), api.script, auth)
      ensures stopped == !running
    {
      if running {
        return false;
      }
      var feeds := api.ListDatafeed(auth);
      if |feeds| > 0 {
        datafeedId := Some(feeds[0]);
      } else {
        var created := api.CreateDatafeed(auth);
        datafeedId := Some(created);
      }
      ackId := "";
      running := true;
      assert State() == Discover(old(State()), api.script, auth);
      while running
        invariant Valid()
        invariant Run(State(), api.script, auth) == StartSpec(old(State()), api.script, auth)
        decreases |api.script.outcomes| - api.served
      {
        ghost var before := State();
        var outcome := api.ReadDatafeed(auth, datafeedId.value, ackId);
        match outcome {
          case None =>
            break;
          case Some(Stale) =>
            RecreateDatafeed();
          case Some(Ok(events, ack)) =>
            HandleEvents(events);
            ackId := ack;
        }
        assert State() == Step(before, api.script, auth);
      }
      stopped := !running;
    }
  }
}
