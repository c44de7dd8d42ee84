/**
 * Listeners and the dispatch of events to them.
 *
 * A listener offers one handler per event kind; kinds it does not override
 * fall back to a no-op handler. Dispatching one event calls, for each
 * subscribed listener in subscription order, the handler for the event's
 * kind with the event's initiator and the payload part of that kind. A
 * batch is dispatched event by event, in the order the read returned them.
 *
 * What a handler does is external code; the model keeps what matters to the
 * loop: whether the handler calls `stop()` on the loop, returns normally, or
 * raises (which is caught and does not affect the other listeners). That
 * choice is the handler's own: it may depend on the event and on every
 * handler call made before it.
 */
module Listeners {
  import opened Wrappers
  import opened Events

  /** What a listener's handler does when it is invoked. */
  datatype Reaction =
    | Returns     // the handler returns normally (also the default no-op handler)
    | CallsStop   // the handler calls `stop()` on the loop that dispatched to it
    | Raises      // the handler raises; dispatch carries on with the next listener

  /**
   * A handler: given the handler calls made before this one (oldest first)
   * and the event, what it does.
   */
  type Handler = (seq<Delivery>, Event) -> Reaction

  /** A subscribed listener; kinds missing from `handlers` use the no-op default. */
  datatype Listener = Listener(name: string, handlers: map<EventType, Handler>)

  /** What `l`'s handler of kind `k` does with `e`, after the handler calls `seen`. */
  function ReactionOf(l: Listener, k: EventType, e: Event, seen: seq<Delivery>): Reaction
  {
    if k in l.handlers then l.handlers[k](seen, e) else Returns
  }

  /** One handler invocation: which listener, which handler, with which arguments. */
  datatype Delivery = Delivery(listener: string, handler: EventType, initiator: Initiator, part: Option<string>)

  function Deliver(l: Listener, k: EventType, e: Event): Delivery
  {
    Delivery(l.name, k, e.initiator, PartOf(e.payload, k))
  }

  /** The handler invocations of kind `k` for event `e`, over listeners `ls` in order. */
  function ListenerDeliveries(e: Event, k: EventType, ls: seq<Listener>): seq<Delivery>
    decreases |ls|
  {
    if ls == [] then []
    else ListenerDeliveries(e, k, ls[..|ls| - 1]) + [Deliver(ls[|ls| - 1], k, e)]
  }

  /**
   * Whether some listener of `ls` calls `stop()` from its handler of kind `k`
   * for `e`, when the handler calls `seen` came before this dispatch.
   */
  function ListenerStops(e: Event, k: EventType, ls: seq<Listener>, seen: seq<Delivery>): bool
    decreases |ls|
  {
    if ls == [] then false
    else
      var init := ls[..|ls| - 1];
      ListenerStops(e, k, init, seen) ||
      ReactionOf(ls[|ls| - 1], k, e, seen + ListenerDeliveries(e, k, init)) == CallsStop
  }

  /** The handler invocations that dispatching one event makes. */
  function EventDeliveries(e: Event, ls: seq<Listener>): seq<Delivery>
  {
    match ParseEventType(e.typeName)
    case None => []
    case Some(k) => ListenerDeliveries(e, k, ls)
  }

  /** Whether dispatching one event, after the handler calls `seen`, makes some handler call `stop()`. */
  function EventStops(e: Event, ls: seq<Listener>, seen: seq<Delivery>): bool
  {
    match ParseEventType(e.typeName)
    case None => false
    case Some(k) => ListenerStops(e, k, ls, seen)
  }

  /** The handler invocations that dispatching a batch makes, event after event. */
  function BatchDeliveries(es: seq<Event>, ls: seq<Listener>): seq<Delivery>
    decreases |es|
  {
    if es == [] then []
    else BatchDeliveries(es[..|es| - 1], ls) + EventDeliveries(es[|es| - 1], ls)
  }

  /** Whether dispatching a batch, after the handler calls `seen`, makes some handler call `stop()`. */
  function BatchStops(es: seq<Event>, ls: seq<Listener>, seen: seq<Delivery>): bool
    decreases |es|
  {
    if es == [] then false
    else
      var init := es[..|es| - 1];
      BatchStops(init, ls, seen) || EventStops(es[|es| - 1], ls, seen + BatchDeliveries(init, ls))
  }

  /**
   * An event of a known kind reaches every listener, in subscription order,
   * with its initiator and its payload part of that kind; the reaction of
   * one listener (returning, stopping or raising) never keeps the event
   * from the others.
   */
  lemma {:induction false} EveryListenerReceivesEvent(e: Event, k: EventType, ls: seq<Listener>)
    requires ParseEventType(e.typeName) == Some(k)
    ensures |EventDeliveries(e, ls)| == |ls|
    ensures forall i :: 0 <= i < |ls| ==>
      EventDeliveries(e, ls)[i] == Delivery(ls[i].name, k, e.initiator, PartOf(e.payload, k))
  {
    ListenerDeliveriesAt(e, k, ls);
  }

  lemma {:induction false} ListenerDeliveriesAt(e: Event, k: EventType, ls: seq<Listener>)
    ensures |ListenerDeliveries(e, k, ls)| == |ls|
    ensures forall i :: 0 <= i < |ls| ==> ListenerDeliveries(e, k, ls)[i] == Deliver(ls[i], k, e)
    decreases |ls|
  {
    if ls != [] {
      var init := ls[..|ls| - 1];
      ListenerDeliveriesAt(e, k, init);
      forall i | 0 <= i < |ls|
        ensures ListenerDeliveries(e, k, ls)[i] == Deliver(ls[i], k, e)
      {
        if i < |ls| - 1 {
          assert ls[i] == init[i];
        }
      }
    }
  }

  /** A message-sent event reaches every listener's message-sent handler. */
  lemma MessageSentReachesEveryListener(e: Event, ls: seq<Listener>)
    requires e.typeName == "MESSAGESENT"
    ensures |EventDeliveries(e, ls)| == |ls|
    ensures forall i :: 0 <= i < |ls| ==>
      EventDeliveries(e, ls)[i] == Delivery(ls[i].name, MessageSent, e.initiator, PartOf(e.payload, MessageSent))
  {
    EveryListenerReceivesEvent(e, MessageSent, ls);
  }

  /** An event whose type name is no known kind reaches no handler and stops nothing. */
  lemma UnknownEventIgnored(e: Event, ls: seq<Listener>, seen: seq<Delivery>)
    requires forall k: EventType :: e.typeName != TypeName(k)
    ensures EventDeliveries(e, ls) == [] && !EventStops(e, ls, seen)
  {
    ParsedNameIsTypeName(e.typeName);
  }

  /**
   * Dispatch stops the loop exactly when some listener's handler for the
   * kind calls `stop()`, given the handler calls made before it: those before
   * the dispatch and those to the listeners ahead of it.
   */
  lemma {:induction false} ListenerStopsIff(e: Event, k: EventType, ls: seq<Listener>, seen: seq<Delivery>)
    ensures ListenerStops(e, k, ls, seen) <==>
      exists i :: 0 <= i < |ls| && ReactionOf(ls[i], k, e, seen + ListenerDeliveries(e, k, ls[..i])) == CallsStop
    decreases |ls|
  {
    if ls != [] {
      var init := ls[..|ls| - 1];
      ListenerStopsIff(e, k, init, seen);
      if ListenerStops(e, k, init, seen) {
        var i :| 0 <= i < |init| && ReactionOf(init[i], k, e, seen + ListenerDeliveries(e, k, init[..i])) == CallsStop;
        assert ls[i] == init[i] && ls[..i] == init[..i];
      }
      if exists i :: 0 <= i < |ls| && ReactionOf(ls[i], k, e, seen + ListenerDeliveries(e, k, ls[..i])) == CallsStop {
        var i :| 0 <= i < |ls| && ReactionOf(ls[i], k, e, seen + ListenerDeliveries(e, k, ls[..i])) == CallsStop;
        if i < |ls| - 1 {
          assert init[i] == ls[i] && init[..i] == ls[..i];
        }
      }
    }
  }

  /**
   * A batch makes a handler call `stop()` exactly when one of its events
   * does, given the handler calls made before that event.
   */
  lemma {:induction false} BatchStopsIff(es: seq<Event>, ls: seq<Listener>, seen: seq<Delivery>)
    ensures BatchStops(es, ls, seen) <==>
      exists j :: 0 <= j < |es| && EventStops(es[j], ls, seen + BatchDeliveries(es[..j], ls))
    decreases |es|
  {
    if es != [] {
      var init := es[..|es| - 1];
      BatchStopsIff(init, ls, seen);
      if BatchStops(init, ls, seen) {
        var j :| 0 <= j < |init| && EventStops(init[j], ls, seen + BatchDeliveries(init[..j], ls));
        assert es[j] == init[j] && es[..j] == init[..j];
      }
      if exists j :: 0 <= j < |es| && EventStops(es[j], ls, seen + BatchDeliveries(es[..j], ls)) {
        var j :| 0 <= j < |es| && EventStops(es[j], ls, seen + BatchDeliveries(es[..j], ls));
        if j < |es| - 1 {
          assert init[j] == es[j] && init[..j] == es[..j];
        }
      }
    }
  }

  /**
   * Dispatch is sequential: dispatching `a + b` makes the invocations of
   * `a` and then those of `b`.
   */
  lemma {:induction false} BatchDeliveriesConcat(a: seq<Event>, b: seq<Event>, ls: seq<Listener>)
    ensures BatchDeliveries(a + b, ls) == BatchDeliveries(a, ls) + BatchDeliveries(b, ls)
    decreases |b|
  {
    if b == [] {
      assert a + b == a;
    } else {
      var binit, last := b[..|b| - 1], b[|b| - 1];
      assert (a + b)[..|a + b| - 1] == a + binit;
      assert (a + b)[|a + b| - 1] == last;
      var d := EventDeliveries(last, ls);
      calc {
        BatchDeliveries(a + b, ls);
        BatchDeliveries(a + binit, ls) + d;
        { BatchDeliveriesConcat(a, binit, ls); }
        BatchDeliveries(a, ls) + BatchDeliveries(binit, ls) + d;
        BatchDeliveries(a, ls) + BatchDeliveries(b, ls);
      }
    }
  }

  /**
   * Dispatching `a + b` stops the loop exactly when dispatching `a` does, or
   * dispatching `b` does after the handler calls that `a` made.
   */
  lemma {:induction false} BatchStopsConcat(a: seq<Event>, b: seq<Event>, ls: seq<Listener>, seen: seq<Delivery>)
    ensures BatchStops(a + b, ls, seen) ==
      (BatchStops(a, ls, seen) || BatchStops(b, ls, seen + BatchDeliveries(a, ls)))
    decreases |b|
  {
    if b == [] {
      assert a + b == a;
    } else {
      var binit := b[..|b| - 1];
      assert (a + b)[..|a + b| - 1] == a + binit;
      assert (a + b)[|a + b| - 1] == b[|b| - 1];
      BatchStopsConcat(a, binit, ls, seen);
      BatchDeliveriesConcat(a, binit, ls);
      assert seen + BatchDeliveries(a + binit, ls) == seen + BatchDeliveries(a, ls) + BatchDeliveries(binit, ls);
    }
  }
}
