/**
 * The three start-up scenarios of the loop, stated as calls on the class
 * itself and verified: a session with tokens "session_token" and "km_token",
 * one subscribed listener whose message-sent handler stops the loop, and
 * reads that return one message-sent event with ack id "ack_id".
 */
module LoopScenarios {
  import opened Wrappers
  import opened Events
  import opened Listeners
  import opened DatafeedApi
  import opened DatafeedLoop
  import opened LoopProperties

  const Session := AuthSession("session_token", "km_token")

  /** A listener whose message-sent handler stops the loop, whatever the event and whatever came before. */
  const Stopper := Listener("stopper", map[MessageSent := (seen: seq<Delivery>, e: Event) => CallsStop])

  /** A message-sent event from user "username", with an (empty) message-sent part. */
  const MessageSentEvent :=
    Event("MESSAGESENT", Payload(map[MessageSent := ""]), Initiator(User("username")))

  const StopperDelivery := Delivery("stopper", MessageSent, Initiator(User("username")), Some(""))

  /** A loop over a fresh scripted transport, with the stopping listener subscribed. */
  method NewLoop(sc: Script) returns (loop: DatafeedLoopV2)
    ensures fresh(loop) && fresh(loop.api) && loop.Valid()
    ensures loop.auth == Session && loop.api.script == sc
    ensures loop.State() == LoopState(None, "", false, [Stopper], [], [], 0)
  {
    var api := new ScriptedDatafeedApi(sc);
    loop := new DatafeedLoopV2(api, Session);
    loop.Subscribe(Stopper);
  }

  /**
   * No feed listed: the loop lists, creates "test_id", reads it from "",
   * delivers the event to the listener, which stops the loop; the loop then
   * holds "test_id" and "ack_id".
   */
  method StartCreatesFeed() returns (stopped: bool, id: Option<string>, ack: string, calls: seq<Call>, ds: seq<Delivery>)
    ensures stopped
    ensures id == Some("test_id") && ack == "ack_id"
    ensures calls == [ListCall("session_token", "km_token"),
                      CreateCall("session_token", "km_token"),
                      ReadCall("session_token", "km_token", "test_id", "")]
    ensures ds == [StopperDelivery]
  {
    var sc := Script([], "test_id", [Ok([MessageSentEvent], "ack_id")]);
    var loop := NewLoop(sc);
    ghost var s0 := loop.State();
    StopperStops();
    StopEndsLoop(Discover(s0, sc, Session), sc, Session);
    stopped := loop.Start();
    id, ack, calls, ds := loop.datafeedId, loop.ackId, loop.api.calls, loop.deliveries;
  }

  /**
   * One feed "test_id_exist" listed: the loop reads it from "" without
   * creating a feed, and then holds "test_id_exist" and "ack_id".
   */
  method StartReusesFeed() returns (stopped: bool, id: Option<string>, ack: string, calls: seq<Call>, ds: seq<Delivery>)
    ensures stopped
    ensures id == Some("test_id_exist") && ack == "ack_id"
    ensures calls == [ListCall("session_token", "km_token"),
                      ReadCall("session_token", "km_token", "test_id_exist", "")]
    ensures ds == [StopperDelivery]
  {
    var sc := Script(["test_id_exist"], "test_id", [Ok([MessageSentEvent], "ack_id")]);
    var loop := NewLoop(sc);
    ghost var s0 := loop.State();
    StopperStops();
    StopEndsLoop(Discover(s0, sc, Session), sc, Session);
    stopped := loop.Start();
    id, ack, calls, ds := loop.datafeedId, loop.ackId, loop.api.calls, loop.deliveries;
  }

  /**
   * One stale feed "fault_datafeed_id" listed: the first read fails with
   * HTTP 400, the loop deletes that feed, creates "test_id", reads it from
   * "", and then holds "test_id" and "ack_id".
   */
  method StartRecoversStaleFeed() returns (stopped: bool, id: Option<string>, ack: string, calls: seq<Call>)
    ensures stopped
    ensures id == Some("test_id") && ack == "ack_id"
    ensures calls == [ListCall("session_token", "km_token"),
                      ReadCall("session_token", "km_token", "fault_datafeed_id", ""),
                      DeleteCall("session_token", "km_token", "fault_datafeed_id"),
                      CreateCall("session_token", "km_token"),
                      ReadCall("session_token", "km_token", "test_id", "")]
  {
    var sc := Script(["fault_datafeed_id"], "test_id", [Stale, Ok([MessageSentEvent], "ack_id")]);
    var loop := NewLoop(sc);
    ghost var s0 := loop.State();
    StopperStops();
    StaleThenStoppingBatch(Discover(s0, sc, Session), sc, Session);
    stopped := loop.Start();
    id, ack, calls := loop.datafeedId, loop.ackId, loop.api.calls;
  }

  /** The stopping listener is the only listener, and it receives the event once and stops the loop. */
  lemma StopperStops()
    ensures BatchStops([MessageSentEvent], [Stopper], [])
    ensures BatchDeliveries([MessageSentEvent], [Stopper]) == [StopperDelivery]
  {
    assert [MessageSentEvent][..0] == [];
    assert [Stopper][..0] == [];
    MessageSentReachesEveryListener(MessageSentEvent, [Stopper]);
  }

  /** A listener whose message-sent handler stops the loop only when some handler was called before. */
  const SecondCallStopper :=
    Listener("second", map[MessageSent := (seen: seq<Delivery>, e: Event) => if seen == [] then Returns else CallsStop])

  /**
   * A handler's choice may depend on what came before: with the listener
   * above alone and three scripted batches of one message-sent event each,
   * the first batch does not stop the loop, the second does, and the third
   * is never read.
   */
  lemma HistoryDependentStop()
    ensures var sc := Script(["feed"], "test_id",
                             [Ok([MessageSentEvent], "ack_1"), Ok([MessageSentEvent], "ack_2"), Ok([MessageSentEvent], "ack_3")]);
            var r := StartSpec(LoopState(None, "", false, [SecondCallStopper], [], [], 0), sc, Session);
            !r.running && r.ackId == "ack_2" && r.served == 2 &&
            r.calls == [ListCall("session_token", "km_token"),
                        ReadCall("session_token", "km_token", "feed", ""),
                        ReadCall("session_token", "km_token", "feed", "ack_1")]
  {
    var sc := Script(["feed"], "test_id",
                     [Ok([MessageSentEvent], "ack_1"), Ok([MessageSentEvent], "ack_2"), Ok([MessageSentEvent], "ack_3")]);
    var d := Discover(LoopState(None, "", false, [SecondCallStopper], [], [], 0), sc, Session);
    var one := BatchDeliveries([MessageSentEvent], [SecondCallStopper]);
    assert [SecondCallStopper][..0] == [];
    ParseTypeName(MessageSent);
    SingleEventBatch(MessageSentEvent, [SecondCallStopper], []);
    assert !ListenerStops(MessageSentEvent, MessageSent, [SecondCallStopper], []);
    MessageSentReachesEveryListener(MessageSentEvent, [SecondCallStopper]);
    assert |one| == 1;
    SingleEventBatch(MessageSentEvent, [SecondCallStopper], one);
    var t := Step(d, sc, Session);
    assert t.deliveries == one && t.ackId == "ack_1";
    assert BatchStops([MessageSentEvent], [SecondCallStopper], one);
    StopEndsLoop(t, sc, Session);
  }

  lemma SingleEventBatch(e: Event, ls: seq<Listener>, seen: seq<Delivery>)
    ensures BatchDeliveries([e], ls) == EventDeliveries(e, ls)
    ensures BatchStops([e], ls, seen) == EventStops(e, ls, seen)
  {
    assert [e][..0] == [];
    assert seen + BatchDeliveries([], ls) == seen;
  }
}
