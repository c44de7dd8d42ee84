# Datafeed loop (version 2) — a Dafny model

This project models the datafeed polling loop of the Symphony bot client
library (`DatafeedLoopV2`). A bot receives real-time events by polling a
server-side, cursor-based event queue (the *datafeed*):

- **Start-up.** `start()` lists the existing feeds. It takes the first one, or
  creates a feed when none is listed. It then reads from ack id `""`.
- **Main loop.** While the loop runs, it reads the feed from the current ack id.
  - A successful read returns a batch of events and a new ack id. Each event
    goes to every subscribed listener's handler for the event's kind (e.g.
    `on_message_sent(initiator, message_sent)`). Then the returned ack id
    becomes the current one.
  - A read that fails with HTTP 400 means the feed is stale. The loop deletes
    exactly that feed, creates a new one and resets the ack id to `""`.
- **Stop.** A listener stops the loop by calling `stop()` from a handler. The
  current batch is finished and no further read is made.
- **Restart.** `start()` on a loop that is already running does nothing.

The behaviour modelled is the one that
`tests/core/service/datafeed/datafeed_loop_v2_test.py` fixes, and every row of
the table below cites the lines of that test.

Files:

- `wrappers.dfy`: `Option`.
- `events.dfy` (module `Events`): the event kinds and the lookup of a kind by
  its type name, the initiator, the payload, and the event.
- `listeners.dfy` (module `Listeners`): listeners and their handlers. A
  handler decides whether to return, call `stop()` or raise; the decision may
  depend on the event and on every handler call made before it. The module
  defines dispatch of one event and of a batch as functions, with lemmas.
- `datafeed_api.dfy` (module `DatafeedApi`): the transport. It defines the
  session tokens and the recorded calls. The class `ScriptedDatafeedApi`
  answers list, create and read from a finite script and records every call
  with its arguments.
- `datafeed_loop.dfy` (module `DatafeedLoop`): the loop.
  - It is specified by pure functions over the value `LoopState`: `Discover`,
    `Recreate`, `Step`, `Run` and `StartSpec`.
  - It is implemented by the class `DatafeedLoopV2`. Its fields are
    `datafeedId`, `ackId`, `running`, `listeners` and the record of handler
    invocations `deliveries`.
  - `Start` runs a `while` loop, and dispatch runs nested loops. `Start` is
    proved to leave exactly the state `StartSpec` describes.
- `loop_properties.dfy` (module `LoopProperties`): properties of the loop
  specification.
- `loop_scenarios.dfy` (module `LoopScenarios`): the test's three start-up
  scenarios, stated as calls on the class and verified.

## Model

| member | source | states |
|---|---|---|
| `Events.ParseTypeName` | tests/core/service/datafeed/datafeed_loop_v2_test.py:65-67 | the type name written into an event of a kind is looked up to that kind (`MESSAGESENT` to message-sent) |
| `Events.ParsedNameIsTypeName` | tests/core/service/datafeed/datafeed_loop_v2_test.py:65-67 | a type name is looked up to a kind only if it is that kind's own name |
| `Listeners.EveryListenerReceivesEvent` | tests/core/service/datafeed/datafeed_loop_v2_test.py:58-81 | an event of a known kind makes exactly one handler call per subscribed listener, in subscription order, with the event's initiator and its payload part of that kind, whatever the other listeners' handlers do |
| `Listeners.MessageSentReachesEveryListener` | tests/core/service/datafeed/datafeed_loop_v2_test.py:58-81 | a `MESSAGESENT` event reaches each listener's `on_message_sent` with its initiator and message-sent payload |
| `Listeners.UnknownEventIgnored` | tests/core/service/datafeed/datafeed_loop_v2_test.py:65-67 | an event whose type name is no known kind calls no handler and cannot stop the loop |
| `Listeners.ListenerStopsIff` | tests/core/service/datafeed/datafeed_loop_v2_test.py:76-79 | dispatching an event stops the loop if and only if some listener's handler for its kind calls `stop()`, given the event and the handler calls made before it (earlier dispatches and the listeners ahead of it) |
| `Listeners.BatchStopsIff` | tests/core/service/datafeed/datafeed_loop_v2_test.py:58-63 | dispatching a batch stops the loop if and only if dispatching one of its events does, given the handler calls the earlier events made |
| `Listeners.BatchDeliveriesConcat` | tests/core/service/datafeed/datafeed_loop_v2_test.py:58-63 | the handler calls of a batch are those of its events, event after event, in read order |
| `Listeners.BatchStopsConcat` | tests/core/service/datafeed/datafeed_loop_v2_test.py:58-63 | a concatenated batch stops the loop exactly when its first part does, or its second part does after the handler calls of the first |
| `DatafeedApi.ScriptedDatafeedApi.constructor` | tests/core/service/datafeed/datafeed_loop_v2_test.py:37-45 | a fresh transport stand-in has received no call and handed out no read outcome |
| `DatafeedApi.ScriptedDatafeedApi.ListDatafeed` | tests/core/service/datafeed/datafeed_loop_v2_test.py:93-96 | `list_datafeed` returns the scripted feed ids and is recorded with both tokens |
| `DatafeedApi.ScriptedDatafeedApi.CreateDatafeed` | tests/core/service/datafeed/datafeed_loop_v2_test.py:97-100 | `create_datafeed` returns the scripted new id and is recorded with both tokens |
| `DatafeedApi.ScriptedDatafeedApi.ReadDatafeed` | tests/core/service/datafeed/datafeed_loop_v2_test.py:134-138 | `read_datafeed` hands out the scripted outcomes (a batch with an ack id, or the HTTP 400 stale-feed error) in turn and records feed id and ack id; when the script is used up it returns `None` and records nothing |
| `DatafeedApi.ScriptedDatafeedApi.DeleteDatafeed` | tests/core/service/datafeed/datafeed_loop_v2_test.py:147-151 | `delete_datafeed` is recorded with both tokens and the feed id |
| `DatafeedLoop.DatafeedLoopV2.constructor` | tests/core/service/datafeed/datafeed_loop_v2_test.py:72-74 | a new loop has no feed id, ack id `""`, is not running and has no listener |
| `DatafeedLoop.DatafeedLoopV2.Subscribe` | tests/core/service/datafeed/datafeed_loop_v2_test.py:81 | `subscribe` appends the listener after those already subscribed and changes nothing else |
| `DatafeedLoop.DatafeedLoopV2.Stop` | tests/core/service/datafeed/datafeed_loop_v2_test.py:78-79 | `stop` clears the running flag and changes nothing else |
| `DatafeedLoop.DatafeedLoopV2.DispatchEvent` | tests/core/service/datafeed/datafeed_loop_v2_test.py:76-79 | dispatching one event appends exactly `EventDeliveries` to the handler calls, and clears `running` exactly when a handler calls `stop()`; feed id, ack id and listeners are unchanged |
| `DatafeedLoop.DatafeedLoopV2.HandleEvents` | tests/core/service/datafeed/datafeed_loop_v2_test.py:58-69 | dispatching a batch appends exactly `BatchDeliveries` and clears `running` exactly when `BatchStops`; feed id, ack id and listeners are unchanged |
| `DatafeedLoop.DatafeedLoopV2.RecreateDatafeed` | tests/core/service/datafeed/datafeed_loop_v2_test.py:147-156 | stale-feed recovery deletes the current feed, creates one, takes its id and resets the ack id to `""` (state equals `Recreate` of the old state) |
| `DatafeedLoop.DatafeedLoopV2.Start` | tests/core/service/datafeed/datafeed_loop_v2_test.py:85-109 | `start()` leaves exactly the state `StartSpec` gives from the state before (nothing changes on a loop already running), and reports whether a handler stopped it |
| `LoopProperties.RunExtends` | tests/core/service/datafeed/datafeed_loop_v2_test.py:158-171 | the loop only appends to the call record and the handler record, consumes read outcomes in order and keeps its listeners |
| `LoopProperties.RunEnds` | tests/core/service/datafeed/datafeed_loop_v2_test.py:78-91 | the loop ends only when a handler stopped it or the scripted reads are used up, never reading past the script |
| `LoopProperties.RunCarriesTokens` | tests/core/service/datafeed/datafeed_loop_v2_test.py:24-26 | every call the loop makes carries the session token and key-manager token unchanged |
| `LoopProperties.StartCarriesTokens` | tests/core/service/datafeed/datafeed_loop_v2_test.py:93-105 | every call of `start()` (list, create, read, delete) carries the two session tokens unchanged |
| `LoopProperties.StartWithoutFeedCreatesOne` | tests/core/service/datafeed/datafeed_loop_v2_test.py:86-106 | with no feed listed, `start()` calls list, then create, then reads the created id with ack id `""` |
| `LoopProperties.StartWithFeedReadsFirst` | tests/core/service/datafeed/datafeed_loop_v2_test.py:113-128 | with a feed listed, `start()` calls list and then reads the first listed id with ack id `""`, creating nothing first |
| `LoopProperties.RunWithoutStaleKeepsFeed` | tests/core/service/datafeed/datafeed_loop_v2_test.py:113-130 | while no read is stale the feed id never changes and the only calls are reads of that feed |
| `LoopProperties.StartWithFeedKeepsIt` | tests/core/service/datafeed/datafeed_loop_v2_test.py:113-130 | with a feed listed and no stale read, the first listed id stays the loop's feed id, and list is followed only by reads of it |
| `LoopProperties.NextReadUsesReturnedAck` | tests/core/service/datafeed/datafeed_loop_v2_test.py:101-109 | after a successful read that nobody stops on, the next read uses the same feed and the ack id that read returned |
| `LoopProperties.StaleFeedRecovery` | tests/core/service/datafeed/datafeed_loop_v2_test.py:136-171 | a stale read is followed, in order, by a delete of exactly the failing feed id, a create, and a read of the new id with ack id `""` |
| `LoopProperties.StopEndsLoop` | tests/core/service/datafeed/datafeed_loop_v2_test.py:78-91 | a batch whose dispatch calls `stop()` ends the loop: exactly one read, no read after it, that batch's ack id kept, its handler calls made |
| `LoopProperties.StaleThenStoppingBatch` | tests/core/service/datafeed/datafeed_loop_v2_test.py:134-174 | a stale read and then a successful stopping read leave the new feed id and that read's ack id, after exactly read, delete, create, read |
| `LoopProperties.StoppedAfterStoppingBatch` | tests/core/service/datafeed/datafeed_loop_v2_test.py:76-79 | a running loop stops only right after a successful batch whose dispatch called `stop()` (given the handler calls made before that batch), and it holds that batch's ack id |
| `LoopProperties.RunDeliversEveryBatch` | tests/core/service/datafeed/datafeed_loop_v2_test.py:58-69 | the handler calls of a run are those of every successful read's batch, in read order; a stale read dispatches nothing |
| `LoopScenarios.StartCreatesFeed` | tests/core/service/datafeed/datafeed_loop_v2_test.py:85-109 | no feed: calls list, create, read(`test_id`, `""`); ends stopped with `test_id` and `ack_id`; the listener's handler called once |
| `LoopScenarios.StartReusesFeed` | tests/core/service/datafeed/datafeed_loop_v2_test.py:112-131 | feed `test_id_exist` listed: calls list, read(`test_id_exist`, `""`); ends stopped with `test_id_exist` and `ack_id` |
| `LoopScenarios.HistoryDependentStop` | tests/core/service/datafeed/datafeed_loop_v2_test.py:76-79 | a handler that stops only when called a second time lets the first batch through, stops on the second, and the third is never read; the second read uses the first ack id |
| `LoopScenarios.StartRecoversStaleFeed` | tests/core/service/datafeed/datafeed_loop_v2_test.py:134-174 | stale `fault_datafeed_id`: calls list, read, delete(`fault_datafeed_id`), create, read(`test_id`, `""`); ends with `test_id` and `ack_id` |

Decisions:

- `start()` resets the ack id to `""` before its first read: a cursor belongs
  to one running episode. The tests always start a fresh loop, whose ack id
  is `""` anyway.
- The returned ack id is stored after the batch is dispatched. None of the
  three tests looks at the ack id during dispatch.
- `start()` on a loop that is already running does nothing
  (`StartWhileRunningIsNoOp`). The test only ever starts a fresh loop, so
  this case rests on the stated behaviour of `start()`, not on a test.
- A handler that raises is caught and logged, and the event still reaches
  the remaining listeners. The test never makes a handler raise.

## Left out

- Async scheduling, the mock machinery and real HTTP exceptions. The
  transport is a scripted stand-in, and the HTTP 400 error is the `Stale`
  outcome.
- Configuration loading (the datafeed version setting) and token
  acquisition. The tokens are an `AuthSession` value given to the loop.
- Read failures other than HTTP 400 (timeouts, server errors, lost
  connections). Such a failure is logged and the read is retried with the
  same feed id and ack id; the test never triggers one.
- A failing create during start-up, and a failing delete during recovery.
  The stand-in's create and delete always succeed.
- `DatafeedLoop.DatafeedLoopV2.Start`: the real loop never ends on its own.
  The model observes it only while the script has read outcomes left. When
  they run out, `Start` returns with `stopped == false`. So unbounded
  recreation is modelled up to the script's length.
- A handler that calls `start()` from inside a dispatch. A handler's
  reactions are returning, calling `stop()` and raising; `start()` on a
  running loop is modelled only as a call from outside, where it does
  nothing.
- `unsubscribe`, and subscription changes during a dispatch. The test never
  uses either.
- What a handler does beyond choosing to call `stop()`, return or raise (its
  own I/O, any state it keeps beyond the record of handler calls). The choice
  itself may depend on the event and on every earlier handler call. Only the
  message-sent handler is exercised. The other kinds come from the listener
  interface and follow the same dispatch rule.
