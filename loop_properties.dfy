/**
 * Properties of the datafeed loop, proved about its specification
 * (`Discover`, `Step`, `Run`, `StartSpec`); `DatafeedLoopV2.Start` is proved
 * to produce exactly the state `StartSpec` gives, so they hold of it too.
 */
module LoopProperties {
  import opened Wrappers
  import opened Listeners
  import opened DatafeedApi
  import opened DatafeedLoop

  /** The handler invocations of the successful reads among `outs`, in order. */
  function Delivered(outs: seq<ReadOutcome>, ls: seq<Listener>): seq<Delivery>
    decreases |outs|
  {
    if outs == [] then []
    else
      var last := outs[|outs| - 1];
      Delivered(outs[..|outs| - 1], ls) + (if last.Ok? then BatchDeliveries(last.events, ls) else [])
  }

  /**
   * The loop only appends: to the transport's calls and to the handler
   * invocations; it consumes scripted outcomes in order and never changes
   * the listeners.
   */
  lemma {:induction false} RunExtends(s: LoopState, sc: Script, auth: AuthSession)
    requires Ready(s)
    ensures s.calls <= Run(s, sc, auth).calls
    ensures s.deliveries <= Run(s, sc, auth).deliveries
    ensures Run(s, sc, auth).listeners == s.listeners
    ensures s.served <= Run(s, sc, auth).served
    decreases |sc.outcomes| - s.served
  {
    if s.running && s.served < |sc.outcomes| {
      RunExtends(Step(s, sc, auth), sc, auth);
    }
  }

  /**
   * The loop ends only when a handler has stopped it or when the scripted
   * reads are used up; it never reads past the script.
   */
  lemma {:induction false} RunEnds(s: LoopState, sc: Script, auth: AuthSession)
    requires Ready(s) && s.served <= |sc.outcomes|
    ensures Run(s, sc, auth).served <= |sc.outcomes|
    ensures !Run(s, sc, auth).running || Run(s, sc, auth).served == |sc.outcomes|
    decreases |sc.outcomes| - s.served
  {
    if s.running && s.served < |sc.outcomes| {
      RunEnds(Step(s, sc, auth), sc, auth);
    }
  }

  /** Every call the loop makes carries the session token and the key-manager token unchanged. */
  lemma {:induction false} RunCarriesTokens(s: LoopState, sc: Script, auth: AuthSession)
    requires Ready(s)
    ensures |s.calls| <= |Run(s, sc, auth).calls|
    ensures forall i :: |s.calls| <= i < |Run(s, sc, auth).calls| ==> CarriesTokens(Run(s, sc, auth).calls[i], auth)
    decreases |sc.outcomes| - s.served
  {
    if s.running && s.served < |sc.outcomes| {
      var t := Step(s, sc, auth);
      RunCarriesTokens(t, sc, auth);
      forall i | |s.calls| <= i < |t.calls|
        ensures CarriesTokens(t.calls[i], auth)
      {
      }
      RunExtends(t, sc, auth);
    }
  }

  /** `start()` makes every call (list, create, read, delete) with the session's two tokens. */
  lemma StartCarriesTokens(s: LoopState, sc: Script, auth: AuthSession)
    ensures |s.calls| <= |StartSpec(s, sc, auth).calls|
    ensures forall i :: |s.calls| <= i < |StartSpec(s, sc, auth).calls| ==>
      CarriesTokens(StartSpec(s, sc, auth).calls[i], auth)
  {
    if s.running {
      return;
    }
    var d := Discover(s, sc, auth);
    RunCarriesTokens(d, sc, auth);
    RunExtends(d, sc, auth);
    forall i | |s.calls| <= i < |d.calls|
      ensures CarriesTokens(StartSpec(s, sc, auth).calls[i], auth)
    {
      assert StartSpec(s, sc, auth).calls[i] == d.calls[i];
    }
  }

  /** `start()` on a loop that is already running changes nothing and makes no call. */
  lemma StartWhileRunningIsNoOp(s: LoopState, sc: Script, auth: AuthSession)
    requires s.running
    ensures StartSpec(s, sc, auth) == s
  {
  }

  /**
   * With no feed listed, `start()` lists, then creates, then reads the
   * created feed from ack id "".
   */
  lemma StartWithoutFeedCreatesOne(s: LoopState, sc: Script, auth: AuthSession)
    requires !s.running && sc.feeds == [] && s.served < |sc.outcomes|
    ensures |s.calls| + 3 <= |StartSpec(s, sc, auth).calls|
    ensures StartSpec(s, sc, auth).calls[|s.calls|..|s.calls| + 3] ==
      [ListCall(auth.sessionToken, auth.keyManagerToken),
       CreateCall(auth.sessionToken, auth.keyManagerToken),
       ReadCall(auth.sessionToken, auth.keyManagerToken, sc.createdId, "")]
  {
    var d := Discover(s, sc, auth);
    var t := Step(d, sc, auth);
    RunExtends(t, sc, auth);
  }

  /**
   * With at least one feed listed, `start()` lists and then reads the first
   * listed feed from ack id "", without creating a feed first.
   */
  lemma StartWithFeedReadsFirst(s: LoopState, sc: Script, auth: AuthSession)
    requires !s.running && |sc.feeds| > 0 && s.served < |sc.outcomes|
    ensures |s.calls| + 2 <= |StartSpec(s, sc, auth).calls|
    ensures StartSpec(s, sc, auth).calls[|s.calls|..|s.calls| + 2] ==
      [ListCall(auth.sessionToken, auth.keyManagerToken),
       ReadCall(auth.sessionToken, auth.keyManagerToken, sc.feeds[0], "")]
  {
    var d := Discover(s, sc, auth);
    var t := Step(d, sc, auth);
    RunExtends(t, sc, auth);
  }

  /**
   * While no read reports a stale feed, the loop keeps its feed id and makes
   * nothing but reads of that feed: no create and no delete.
   */
  lemma {:induction false} RunWithoutStaleKeepsFeed(s: LoopState, sc: Script, auth: AuthSession)
    requires s.datafeedId.Some?
    requires forall j :: s.served <= j < |sc.outcomes| ==> sc.outcomes[j].Ok?
    ensures Run(s, sc, auth).datafeedId == s.datafeedId
    ensures |s.calls| <= |Run(s, sc, auth).calls|
    ensures forall i :: |s.calls| <= i < |Run(s, sc, auth).calls| ==>
      Run(s, sc, auth).calls[i].ReadCall? && Run(s, sc, auth).calls[i].datafeedId == s.datafeedId.value
    decreases |sc.outcomes| - s.served
  {
    if s.running && s.served < |sc.outcomes| {
      var t := Step(s, sc, auth);
      RunWithoutStaleKeepsFeed(t, sc, auth);
      RunExtends(t, sc, auth);
    }
  }

  /**
   * With a feed listed and no stale read, the first listed feed stays the
   * loop's feed for the whole run, and `start()` makes exactly one list call
   * followed by reads of that feed.
   */
  lemma StartWithFeedKeepsIt(s: LoopState, sc: Script, auth: AuthSession)
    requires !s.running && |sc.feeds| > 0
    requires forall j :: s.served <= j < |sc.outcomes| ==> sc.outcomes[j].Ok?
    ensures StartSpec(s, sc, auth).datafeedId == Some(sc.feeds[0])
    ensures |s.calls| < |StartSpec(s, sc, auth).calls|
    ensures StartSpec(s, sc, auth).calls[|s.calls|] == ListCall(auth.sessionToken, auth.keyManagerToken)
    ensures forall i :: |s.calls| < i < |StartSpec(s, sc, auth).calls| ==>
      StartSpec(s, sc, auth).calls[i].ReadCall? && StartSpec(s, sc, auth).calls[i].datafeedId == sc.feeds[0]
  {
    var d := Discover(s, sc, auth);
    RunWithoutStaleKeepsFeed(d, sc, auth);
    RunExtends(d, sc, auth);
    assert StartSpec(s, sc, auth).calls[|s.calls|] == d.calls[|s.calls|];
  }

  /**
   * After a successful read that no handler stops on, the next read starts
   * from the ack id that read returned.
   */
  lemma NextReadUsesReturnedAck(s: LoopState, sc: Script, auth: AuthSession)
    requires s.running && s.datafeedId.Some? && s.served + 1 < |sc.outcomes|
    requires sc.outcomes[s.served].Ok?
    requires !BatchStops(sc.outcomes[s.served].events, s.listeners, s.deliveries)
    ensures |s.calls| + 2 <= |Run(s, sc, auth).calls|
    ensures Run(s, sc, auth).calls[|s.calls| + 1] ==
      ReadCall(auth.sessionToken, auth.keyManagerToken, s.datafeedId.value, sc.outcomes[s.served].ackId)
  {
    var t := Step(s, sc, auth);
    var u := Step(t, sc, auth);
    assert Run(s, sc, auth) == Run(t, sc, auth) == Run(u, sc, auth);
    RunExtends(u, sc, auth);
    assert u.calls[|s.calls| + 1] == Run(s, sc, auth).calls[|s.calls| + 1];
  }

  /**
   * A stale-feed read is followed, in this order, by a delete of exactly the
   * failing feed, a create, and a read of the new feed from ack id "".
   */
  lemma StaleFeedRecovery(s: LoopState, sc: Script, auth: AuthSession)
    requires s.running && s.datafeedId.Some? && s.served + 1 < |sc.outcomes|
    requires sc.outcomes[s.served] == Stale
    ensures |s.calls| + 4 <= |Run(s, sc, auth).calls|
    ensures Run(s, sc, auth).calls[|s.calls|..|s.calls| + 4] ==
      [ReadCall(auth.sessionToken, auth.keyManagerToken, s.datafeedId.value, s.ackId),
       DeleteCall(auth.sessionToken, auth.keyManagerToken, s.datafeedId.value),
       CreateCall(auth.sessionToken, auth.keyManagerToken),
       ReadCall(auth.sessionToken, auth.keyManagerToken, sc.createdId, "")]
  {
    var t := Step(s, sc, auth);
    var u := Step(t, sc, auth);
    assert Run(s, sc, auth) == Run(t, sc, auth) == Run(u, sc, auth);
    RunExtends(u, sc, auth);
    assert u.calls[|s.calls|..|s.calls| + 4] == Run(s, sc, auth).calls[|s.calls|..|s.calls| + 4];
  }

  /**
   * A batch whose dispatch makes a handler call `stop()` is the last thing
   * the loop does: exactly one read is made, the batch's ack id is kept, and
   * no read follows.
   */
  lemma StopEndsLoop(s: LoopState, sc: Script, auth: AuthSession)
    requires s.running && s.datafeedId.Some? && s.served < |sc.outcomes|
    requires sc.outcomes[s.served].Ok?
    requires BatchStops(sc.outcomes[s.served].events, s.listeners, s.deliveries)
    ensures !Run(s, sc, auth).running
    ensures Run(s, sc, auth).calls ==
      s.calls + [ReadCall(auth.sessionToken, auth.keyManagerToken, s.datafeedId.value, s.ackId)]
    ensures Run(s, sc, auth).ackId == sc.outcomes[s.served].ackId
    ensures Run(s, sc, auth).datafeedId == s.datafeedId
    ensures Run(s, sc, auth).deliveries == s.deliveries + BatchDeliveries(sc.outcomes[s.served].events, s.listeners)
  {
  }

  /**
   * A stale-feed read followed by a successful read whose batch stops the
   * loop leaves the new feed id and the ack id of that read.
   */
  lemma StaleThenStoppingBatch(s: LoopState, sc: Script, auth: AuthSession)
    requires s.running && s.datafeedId.Some? && s.served + 1 < |sc.outcomes|
    requires sc.outcomes[s.served] == Stale
    requires sc.outcomes[s.served + 1].Ok?
    requires BatchStops(sc.outcomes[s.served + 1].events, s.listeners, s.deliveries)
    ensures !Run(s, sc, auth).running
    ensures Run(s, sc, auth).datafeedId == Some(sc.createdId)
    ensures Run(s, sc, auth).ackId == sc.outcomes[s.served + 1].ackId
    ensures Run(s, sc, auth).calls == s.calls +
      [ReadCall(auth.sessionToken, auth.keyManagerToken, s.datafeedId.value, s.ackId),
       DeleteCall(auth.sessionToken, auth.keyManagerToken, s.datafeedId.value),
       CreateCall(auth.sessionToken, auth.keyManagerToken),
       ReadCall(auth.sessionToken, auth.keyManagerToken, sc.createdId, "")]
  {
    var t := Step(s, sc, auth);
    StopEndsLoop(t, sc, auth);
  }

  /**
   * The loop stops only because a handler called `stop()` while the last
   * successful batch was dispatched (after the handler calls made before
   * that batch), and it then holds that batch's ack id.
   */
  lemma {:induction false} StoppedAfterStoppingBatch(s: LoopState, sc: Script, auth: AuthSession)
    requires s.running && s.datafeedId.Some?
    requires !Run(s, sc, auth).running
    ensures s.served < Run(s, sc, auth).served <= |sc.outcomes|
    ensures sc.outcomes[Run(s, sc, auth).served - 1].Ok?
    ensures Run(s, sc, auth).ackId == sc.outcomes[Run(s, sc, auth).served - 1].ackId
    ensures |BatchDeliveries(sc.outcomes[Run(s, sc, auth).served - 1].events, s.listeners)| <= |Run(s, sc, auth).deliveries|
    ensures BatchStops(sc.outcomes[Run(s, sc, auth).served - 1].events, s.listeners,
      Before(Run(s, sc, auth).deliveries, BatchDeliveries(sc.outcomes[Run(s, sc, auth).served - 1].events, s.listeners)))
    decreases |sc.outcomes| - s.served
  {
    var t := Step(s, sc, auth);
    if t.running {
      StoppedAfterStoppingBatch(t, sc, auth);
    } else {
      var batch := BatchDeliveries(sc.outcomes[s.served].events, s.listeners);
      assert Before(t.deliveries, batch) == s.deliveries;
    }
  }

  /** The handler calls of `all` made before its last `|last|` ones. */
  function Before(all: seq<Delivery>, last: seq<Delivery>): seq<Delivery>
    requires |last| <= |all|
  {
    all[..|all| - |last|]
  }

  /**
   * Every event of every successful read is dispatched, batch after batch,
   * in the order read, and nothing else is: a stale read dispatches nothing.
   */
  lemma {:induction false} RunDeliversEveryBatch(s: LoopState, sc: Script, auth: AuthSession)
    requires Ready(s) && s.served <= |sc.outcomes|
    ensures s.served <= Run(s, sc, auth).served <= |sc.outcomes|
    ensures Run(s, sc, auth).deliveries ==
      s.deliveries + Delivered(sc.outcomes[s.served..Run(s, sc, auth).served], s.listeners)
    decreases |sc.outcomes| - s.served
  {
    var r := Run(s, sc, auth);
    if s.running && s.served < |sc.outcomes| {
      var t := Step(s, sc, auth);
      StepDelivers(s, sc, auth);
      RunDeliversEveryBatch(t, sc, auth);
      DeliveredSplit(sc.outcomes, s.served, r.served, s.listeners, s.deliveries, t.deliveries, r.deliveries);
    } else {
      assert sc.outcomes[s.served..r.served] == [];
    }
  }

  /** One pass dispatches the batch it read, if the read succeeded, and nothing else. */
  lemma StepDelivers(s: LoopState, sc: Script, auth: AuthSession)
    requires s.running && s.datafeedId.Some? && s.served < |sc.outcomes|
    ensures Run(s, sc, auth) == Run(Step(s, sc, auth), sc, auth)
    ensures Step(s, sc, auth).served == s.served + 1
    ensures Step(s, sc, auth).listeners == s.listeners
    ensures Step(s, sc, auth).deliveries == s.deliveries +
      (if sc.outcomes[s.served].Ok? then BatchDeliveries(sc.outcomes[s.served].events, s.listeners) else [])
  {
  }

  lemma {:induction false} DeliveredCons(o: ReadOutcome, outs: seq<ReadOutcome>, ls: seq<Listener>)
    ensures Delivered([o] + outs, ls) ==
      (if o.Ok? then BatchDeliveries(o.events, ls) else []) + Delivered(outs, ls)
    decreases |outs|
  {
    if outs == [] {
      assert ([o] + outs)[..0] == [];
    } else {
      var init := outs[..|outs| - 1];
      assert ([o] + outs)[..|[o] + outs| - 1] == [o] + init;
      DeliveredCons(o, init, ls);
    }
  }

  /** Extending the handler calls of one read by those of the reads after it. */
  lemma DeliveredSplit(outs: seq<ReadOutcome>, i: nat, j: nat, ls: seq<Listener>,
                       before: seq<Delivery>, middle: seq<Delivery>, after: seq<Delivery>)
    requires i < j <= |outs|
    requires middle == before + (if outs[i].Ok? then BatchDeliveries(outs[i].events, ls) else [])
    requires after == middle + Delivered(outs[i + 1..j], ls)
    ensures after == before + Delivered(outs[i..j], ls)
  {
    DeliveredCons(outs[i], outs[i + 1..j], ls);
    assert outs[i..j] == [outs[i]] + outs[i + 1..j];
  }
}
