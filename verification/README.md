# Bridge protocol

A model of the command/ack protocol between a desktop host, a relay gauge and a WASM module, and
proofs of what it guarantees. A host command travels over a WebSocket to a relay, is wrapped in a
CommBus envelope for the module, and the module's answer travels back as an ack; keepalive pings,
readiness reports and events use the same connection.

Three layers hold the model:

- **Values and steps.** `Relay`, `RescriptRelay`, `Hub`, `Server`, `WasmBridge`, `Wire`, `Dedup` and
  `RequestIds` give each component a state and one function per handler or per locked section, with
  the branches, error cases and constants of the source. The `out` field of a relay state holds the
  foreign calls of the current handler; timers, sockets and listeners are part of the state.
- **Runs.** `RelayHistory`, `RelayForwarding`, `HubInvariants`, `HubLocks`, `Server`, `System`,
  `SystemSoundness`, `SystemReadiness`, `Deadline` and `DeadlineLimits` are transition systems in which every
  interleaving, delay, timer, refusal and disconnect is a step. The main results hold in every state
  of every run.
- **Effects and journeys.** `HubEffects`, `ServerEffects`, `RelayEffects` and `RescriptEffects` say for
  every section, frame and event what is left behind, field by field: who gets which frame with which
  content, which timers are armed and when they are due, and that nothing else changed. They speak of
  the steps of the system and of literal frames rather than of the functions that make them. `HubTasks` says
  that no call ends without its effect. `SystemJourneys` puts the effects together across the parts.
- **Objects.** `Dedup.DedupRing`, `RelayObject`, `RescriptObject`, `HubObject`, `ServerObject` and the
  classes of `WasmBridge` are the mutable objects of the source, with its loops. Every method is
  proved to move the object exactly as the value function of the same handler says, so the results
  about runs are about these objects.

`HubLocks` is the finest view of the hub: every method call is a task that takes a mutex, changes
one thing at a time and releases it. `TraceRefines` turns any run of such tasks into a run of `Hub`
with the same states, seen from outside the locks, so what is proved of runs of `Hub` holds of them.

In `System` a socket has its queue towards the host from the moment the relay makes it. The relay
may see it open, greet, bind and report its readiness before the host registers a client for it, and
the host may register one for a socket that is already lost again.

Where the source is modelled:

- crates/infinity-bridge-wire/src/msg.rs: `Wire`
- crates/infinity-bridge-host/src/hub.rs: `Hub`, `HubInvariants`, `HubEffects`, `HubLocks`, `HubTasks`, `HubObject`
- crates/infinity-bridge-host/src/server.rs: `Server`, `ServerEffects`, `ServerObject`
- crates/infinity-bridge-wasm/src/bridge.rs: `WasmBridge`
- ts/infinity-bridge-relay/src/relay.ts: `Relay`, `RequestIds`, `RelayInvariants`, `RelayHistory`,
  `RelayForwarding`, `RelayOutputs`, `RelayEffects`, `RelayObject`
- ts/infinity-bridge-relay/src/dedup.ts, rescript/infinity-bridge-relay/src/Dedup.res: `Dedup`
- rescript/infinity-bridge-relay/src/BridgeRelay.res, rescript/infinity-bridge-relay/src/Wire.res:
  `RescriptRelay`, `RescriptEffects`, `RescriptObject`

`Base` and `Json` hold helper types. JSON is a tree; a number that is not an integer is an opaque leaf.

## Assumptions

- Command ids are fresh: `Uuid::new_v4` never repeats.
- Each direction of a socket is FIFO and delivers a frame at most once; the relay's own send on an
  open socket does not throw.
- The CommBus may lose, delay, reorder and repeat messages. There is one relay per CommBus, since
  request ids are unique only within a relay. The module never emits the reserved readiness event.
- JavaScript handlers are atomic, `clearTimeout` prevents the callback, and `init` runs once. A
  `bus.on` that throws has attached nothing. In runs, the handle's `unregister` does not throw;
  `RelayObject.BridgeRelay.Destroy` and `RescriptRelay.DestroyAgreesExactly` say what happens if it
  does.
- `Hub::command` futures run to completion.
- Timing results: ticks, deliveries and timers happen when they are due, and the two halves of
  dispatching an ack take no time between them. A ping task starts when its client is registered.
- Timeout ordering: from the moment the command is sent until it is answered, no socket of the target
  relay reports an error or a close, and the relay is not destroyed. A late close of a socket the
  relay gave up earlier is enough to break it (see Findings).
- Handlers of the module are functions of their argument.

The repository's README describes exponential backoff for reconnecting and an LRU ring for
duplicates; the code retries at a fixed interval and evicts by first mark, and so does the model.

## Findings

- A close or error event of any socket, even one the relay has replaced, makes both relays forget the
  socket in use (ts/infinity-bridge-relay/src/relay.ts:286-294). Until the next reconnect every ack is
  dropped, and a command can time out at the host although its relay's socket is open throughout:
  `DeadlineLimits.LateCloseTimesOut`. `Deadline.SocketKeptExactly` says which handlers do this.
- The ReScript relay takes a command's id unchecked. It agrees with the TypeScript relay on a command
  exactly when the id is text: `RescriptRelay.CommandAgreesExactly`.
- If the handle's `unregister` throws, the TypeScript `destroy` stops there and keeps handle, bind
  state and socket; the ReScript one goes on: `RescriptRelay.DestroyAgreesExactly`.

## Model

| member | source | states |
|---|---|---|
| `Wire.RoundTrip` | crates/infinity-bridge-wire/src/msg.rs:174-182 | for every message, decoding its encoding gives the message back up to a null `response` or `meta` becoming absent |
| `Wire.RoundTripExact` | crates/infinity-bridge-wire/src/msg.rs:67-104 | a message comes back unchanged if and only if it holds no such null |
| `Wire.LossIsInvisible` | crates/infinity-bridge-host/src/hub.rs:249-251 | an ack that went through the codec gives the caller of `command` the same answer, outcome and duplicate flag |
| `Wire.PrintInjective` | crates/infinity-bridge-wire/src/msg.rs:5-43 | two messages with one encoding are equal up to that loss |
| `Wire.ParseIsStable` | crates/infinity-bridge-wire/src/msg.rs:174-182 | whatever decodes re-encodes to something that decodes to the same message |
| `Wire.CmdDecodes` | crates/infinity-bridge-wire/src/msg.rs:72-83 | a value tagged `cmd` decodes if and only if it has a text id, a payload, and a name that is absent, null or text |
| `Wire.AckDecodes` | crates/infinity-bridge-wire/src/msg.rs:85-104 | an ack decodes if and only if it has a text id, a boolean `ok`, no ill-typed error and no ill-typed duplicate flag; what it decodes to, field by field |
| `Wire.HelloDecodes` | crates/infinity-bridge-wire/src/msg.rs:45-70 | a hello decodes if and only if its texts are texts, null or absent and its version is absent or fits 32 bits; what it decodes to |
| `Wire.EventDecodes` | crates/infinity-bridge-wire/src/msg.rs:106-113 | an event decodes if and only if it has a text name and data, null data included |
| `Wire.ProbeDecodes` | crates/infinity-bridge-wire/src/msg.rs:14-27 | a ping or pong decodes if and only if its time is absent, null or fits 64 bits |
| `Wire.OnlyKnownTags` | crates/infinity-bridge-wire/src/msg.rs:5-43 | nothing with another tag, or none, decodes |
| `Dedup.RingIsWindow` | ts/infinity-bridge-relay/src/dedup.ts:10-29 | after any calls the ring holds exactly the last `capacity` fresh marks since the last clear, without repeats |
| `Dedup.MarkExtendsWindow` | ts/infinity-bridge-relay/src/dedup.ts:14-24 | a mark of a remembered id changes nothing; any other extends the history and moves the window by one |
| `Dedup.SpacedSeparates` | ts/infinity-bridge-relay/src/dedup.ts:14-24 | two fresh marks of one id have at least `capacity` distinct other ids between them |
| `Dedup.DedupRing.IsMarked` | ts/infinity-bridge-relay/src/dedup.ts:10-12 | looking an id up in the set answers for the array as well |
| `Dedup.DedupRing.MarkId` | rescript/infinity-bridge-relay/src/Dedup.res:21-35 | set and array keep the same elements and the object becomes the marked ring; the eviction loop ends |
| `Dedup.DedupRing.Clear` | ts/infinity-bridge-relay/src/dedup.ts:26-29 | the ring is empty and keeps its capacity |
| `Dedup.DedupRing.ClearByPopping` | rescript/infinity-bridge-relay/src/Dedup.res:37-42 | the same, element by element |
| `RequestIds.RequestIdInjective` | ts/infinity-bridge-relay/src/relay.ts:494-496 | ids with different sequence numbers differ for any two clock readings, negative and decreasing ones included |
| `RelayInvariants.NextIdIsFresh` | ts/infinity-bridge-relay/src/relay.ts:391-436 | the next request id differs from every id issued so far, so storing it overwrites no entry |
| `RelayInvariants.StepConsistent` | ts/infinity-bridge-relay/src/relay.ts:397-463 | every handler keeps live request timers in one-to-one correspondence with pending entries |
| `RelayInvariants.TimeoutDiagnosis` | ts/infinity-bridge-relay/src/relay.ts:397-412 | a request that times out is refused once under its own command id, with the reason that fits the bind state, and it and its timer are gone |
| `RelayInvariants.RejectAllEffect` | ts/infinity-bridge-relay/src/relay.ts:170-174 | tearing down clears exactly the timers of the walked entries |
| `RelayInvariants.InitNeverStranded` | ts/infinity-bridge-relay/src/relay.ts:100-124 | however `init` goes, a socket is held or one reconnect timer is armed, and the listener is attached once or one bind retry is armed |
| `RelayInvariants.StepNeverStranded` | ts/infinity-bridge-relay/src/relay.ts:131-307 | every handler before `destroy` keeps that so |
| `RelayInvariants.BoundIsStable` | ts/infinity-bridge-relay/src/relay.ts:131-140 | once bound, a relay stays bound until `destroy` |
| `RelayHistory.RunNeverStranded` | ts/infinity-bridge-relay/src/relay.ts:100-150 | the same in every state of every run, for any number of failing binds and connects |
| `RelayHistory.ExactlyOnceSettlement` | ts/infinity-bridge-relay/src/relay.ts:169-463 | in every run, accepted commands are the pending ones plus the settled ones, disjointly and in number; live request timers are exactly those of pending entries; every settlement is an ack for its own command |
| `RelayHistory.StepSettling` | ts/infinity-bridge-relay/src/relay.ts:202-463 | every handler, whichever of the five ways it settles requests, keeps that balance |
| `RelayForwarding.StepForwards` | ts/infinity-bridge-relay/src/relay.ts:373-464 | a handler hands a command to the CommBus if and only if it accepts one and has a handle |
| `RelayForwarding.AtMostOnceForwarding` | ts/infinity-bridge-relay/src/relay.ts:373-395 | two envelopes for one command id are separated by at least `capacity` distinct other accepted ids |
| `RelayForwarding.CopyOnlyAcknowledged` | ts/infinity-bridge-relay/src/relay.ts:377-388 | a copy within that window gets one duplicate ack and changes nothing else |
| `RelayOutputs.StepExplained` | ts/infinity-bridge-relay/src/relay.ts:159-463 | every frame a handler sends is neutral, the current readiness, a refusal, an answer to the pending request the module named, a duplicate ack of a remembered id, or the module's own message |
| `RelayOutputs.StepCalls` | ts/infinity-bridge-relay/src/relay.ts:391-489 | the only envelopes ever handed to the CommBus are the host's command or event of that step under the next request id |
| `RelayEffects.PingAnswered` | ts/infinity-bridge-relay/src/relay.ts:345-350 | a ping makes the relay send one pong with its clock over the open socket in use and nothing else; the host decodes it to that time |
| `RelayEffects.OpeningGreets` | ts/infinity-bridge-relay/src/relay.ts:260-276 | a socket that opens makes the relay send a hello with the configured fields or their defaults, then the bind state |
| `RelayEffects.HelloDecodes` | crates/infinity-bridge-wire/src/msg.rs:45-70 | the host decodes such a hello to exactly the configuration of the relay |
| `RelayEffects.LosingReconnects` | ts/infinity-bridge-relay/src/relay.ts:286-307 | an error or close gives up the socket in use and arms a reconnect one interval from now, unless one is armed |
| `RelayEffects.ReconnectConnects` | ts/infinity-bridge-relay/src/relay.ts:248-307 | a reconnect makes a new connecting socket and leaves no reconnect timer; if the constructor throws, exactly one, one interval from now |
| `RelayEffects.RetryBinds` | ts/infinity-bridge-relay/src/relay.ts:131-150 | a bind retry of an unbound relay binds it, attaches one listener, leaves no retry and reports readiness; if attaching throws, exactly one retry is armed, one interval from now |
| `RelayEffects.ContinuationBinds` | ts/infinity-bridge-relay/src/relay.ts:116-140 | the continuation binds a relay that is not bound and reports readiness |
| `RelayEffects.InitTries` | ts/infinity-bridge-relay/src/relay.ts:100-124 | `init` makes a socket and binds, and arms a timer for exactly those of the two that failed |
| `RelayEffects.CommandForwarded` | ts/infinity-bridge-relay/src/relay.ts:373-456 | a new command becomes pending with its timer and is handed to the CommBus as it is under the next request id; an unbound relay binds first and reports it |
| `RelayEffects.CommandRefused` | ts/infinity-bridge-relay/src/relay.ts:438-446 | without a handle a new command is refused at once, and neither pending nor timed afterwards |
| `RelayEffects.DuplicateAcknowledged` | ts/infinity-bridge-relay/src/relay.ts:377-388 | a remembered id gets the duplicate ack and nothing else happens |
| `RelayEffects.EventForwarded` | ts/infinity-bridge-relay/src/relay.ts:471-492 | an event of the host is handed to the CommBus as it is, once, under the next request id, and dropped without a handle |
| `RelayEffects.OthersIgnored` | ts/infinity-bridge-relay/src/relay.ts:343-375 | any other message, and a command without a text id, changes nothing |
| `RelayEffects.AnswerSettles` | ts/infinity-bridge-relay/src/relay.ts:211-225 | an answer that does not say `ok: false` settles the pending request it names with a success ack carrying its response; one that names none is dropped |
| `RelayEffects.FailureSettles` | ts/infinity-bridge-relay/src/relay.ts:216-220 | a failure refuses its request with the module's error, or a stock text if there is none |
| `RelayEffects.MessagePassedOn` | ts/infinity-bridge-relay/src/relay.ts:243-245 | an event or ack of the module without a text request id is sent to the host as it is; nothing else is |
| `RelayEffects.RejectionRefuses` | ts/infinity-bridge-relay/src/relay.ts:457-463 | a rejected CommBus call refuses its request with the reason if it is still pending |
| `RelayEffects.TimeoutRefuses` | ts/infinity-bridge-relay/src/relay.ts:397-412 | a request that times out is refused with the text for an unbound relay or for a silent module |
| `RelayEffects.DestroyLeavesNothing` | ts/infinity-bridge-relay/src/relay.ts:169-191 | `destroy` refuses every pending command over the socket in use and leaves no entry, timer, listener or handle, and the socket closing |
| `RelayEffects.DestroyCutShort` | ts/infinity-bridge-relay/src/relay.ts:169-186 | if `unregister` throws, the requests and the bind retry are gone, and handle, bind state, socket and reconnect timer stay |
| `WasmBridge.WrappedCommand` | crates/infinity-bridge-wasm/src/bridge.rs:200-234 | any wrapped command message is answered exactly once under its request id, and the handler sees its name and payload if and only if the message decodes |
| `WasmBridge.HostCommandUnwraps` | crates/infinity-bridge-wasm/src/bridge.rs:221-225 | a command of the host reaches the handler with its own name and payload |
| `WasmBridge.HostEventUnwraps` | crates/infinity-bridge-wasm/src/bridge.rs:226-228 | an event of the host reaches the event handler and is not answered |
| `WasmBridge.OtherEnvelope` | crates/infinity-bridge-wasm/src/bridge.rs:229-232 | an envelope around anything else is a command without a name: the handler sees the whole payload, and its answer or error is sent under the request id |
| `WasmBridge.NoEnvelope` | crates/infinity-bridge-wasm/src/bridge.rs:201-207 | a message without a text request id or without a payload runs no handler and gets no response |
| `WasmBridge.ResponseSettles` | ts/infinity-bridge-relay/src/relay.ts:211-225 | the relay reads a bridge response as the answer to the request it names, success or error, and as nothing else |
| `WasmBridge.EventForwards` | ts/infinity-bridge-relay/src/relay.ts:243-245 | the relay forwards a bridge event unchanged and never takes it for a response |
| `WasmBridge.AnswerReachesHost` | crates/infinity-bridge-wasm/src/bridge.rs:236-261 | the ack made of an answer decodes at the host to the same command id, outcome, value or message |
| `WasmBridge.Router.OnCommand` | crates/infinity-bridge-wasm/src/bridge.rs:127-140 | the first handler registered under the name answers, else the fallback, else an unknown-command error |
| `WasmBridge.Router.OnEvent` | crates/infinity-bridge-wasm/src/bridge.rs:142-149 | the first handler registered under the name runs, and none if there is none |
| `WasmBridge.Bridge.Dispatch` | crates/infinity-bridge-wasm/src/bridge.rs:200-234 | one response for a command, none for an event or a message that is no envelope; an event handler runs exactly when one is registered |
| `WasmBridge.Bridge.Emit` | crates/infinity-bridge-wasm/src/bridge.rs:263-271 | one event message is put on the response event |
| `HubInvariants.WaiterExactness` | crates/infinity-bridge-host/src/hub.rs:205-272 | in every run a waiting call has its sender stored, every entry belongs to one unfinished call, and no sender is ever dropped; a call that ever waited ends with its first ack or at its own deadline with nothing received, one that never waited by failing fast, and neither leaves an entry |
| `HubInvariants.WaitingCallEnds` | crates/infinity-bridge-host/src/hub.rs:244-264 | from any state of a run in which a call waits, in every later state it still waits, or ended with the outcome of the first ack carrying its id, or timed out at its own deadline having received nothing |
| `HubInvariants.StepExact` | crates/infinity-bridge-host/src/hub.rs:190-272 | every section of every method keeps that so, however late or repeated the acks |
| `HubInvariants.TimeoutOnlyAtDeadline` | crates/infinity-bridge-host/src/hub.rs:244-264 | the await ends in a timeout if and only if the deadline has come and nothing was received |
| `HubInvariants.DispatchTargets` | crates/infinity-bridge-host/src/hub.rs:208-242 | the command goes once to each ready client if any is ready, else once to each client, and nowhere else; the call fails at once with no entry left if and only if no target accepts |
| `HubInvariants.TargetsMeaning` | crates/infinity-bridge-host/src/hub.rs:222-227 | who is a target, and that there is one whenever there is a client |
| `HubInvariants.StepClients` | crates/infinity-bridge-host/src/hub.rs:50-107 | every section keeps the watch value equal to whether a client is connected |
| `HubInvariants.StepIds` | crates/infinity-bridge-host/src/hub.rs:50-65 | an id stays used, and only the insertion of an unused id adds a client |
| `HubInvariants.GoneForGood` | crates/infinity-bridge-host/src/hub.rs:74-107 | a client that left the table never comes back |
| `HubEffects.SendToQueues` | crates/infinity-bridge-host/src/hub.rs:274-283 | a message to a client in the table that accepts is the last of its queue afterwards; otherwise nothing changes; no other queue or field does |
| `HubEffects.EmitReachesAll` | crates/infinity-bridge-host/src/hub.rs:163-188 | the event is queued once for every client in the table that accepts, ready or not, and for nobody else |
| `HubEffects.RegisteredClient` | crates/infinity-bridge-host/src/hub.rs:50-65 | a new client has sent no hello, is not ready, counts as seen now and has an empty queue that accepts; all others are as before |
| `HubEffects.ReapedExactly` | crates/infinity-bridge-host/src/hub.rs:88-107 | a client is reaped if and only if it was silent for longer than the timeout, and the others are as before |
| `HubEffects.UnregisteredAlone` | crates/infinity-bridge-host/src/hub.rs:74-79 | only this client leaves, and the watch says whether another remains |
| `HubEffects.CommandFrame` | crates/infinity-bridge-host/src/hub.rs:196-203 | the frame of a command holds its id, payload and, if it has one, its name, and nothing else |
| `HubEffects.BeginStores` | crates/infinity-bridge-host/src/hub.rs:205-206 | the waiter is stored under the fresh id, and no earlier call is touched |
| `HubEffects.OfferFails` | crates/infinity-bridge-host/src/hub.rs:208-242 | if no target accepts, the call is over at once with the no-clients or the transport error, its entry is gone and nothing was sent |
| `HubEffects.OfferSends` | crates/infinity-bridge-host/src/hub.rs:222-244 | if a target accepts, the command is the last of its queue and the call waits with the whole timeout before it |
| `HubEffects.AwaitEnds` | crates/infinity-bridge-host/src/hub.rs:244-264 | a success ack returns its response or null, any other ack the application error with its text or a stock one, a dropped sender the transport error, the deadline the timeout error |
| `HubEffects.CallFinishes` | crates/infinity-bridge-host/src/hub.rs:246 | the outcome stays and the entry goes |
| `HubEffects.AckTaken` | crates/infinity-bridge-host/src/hub.rs:267-268 | an ack takes the sender of the call it names out of the table, and one that names none changes nothing |
| `HubEffects.FiredAckEnds` | crates/infinity-bridge-host/src/hub.rs:269-271 | a waiting call whose sender fires can end at once, with the outcome of that ack, whatever it reports |
| `HubEffects.HowCommandsEnd` | crates/infinity-bridge-host/src/hub.rs:190-265 | in every run a finished command returned the answer or the error of its first ack, or timed out at its deadline with nothing received, or, never having been sent, failed for want of clients or of one that accepts; it never ended by a dropped sender |
| `HubLocks.WatchWhenFree` | crates/infinity-bridge-host/src/hub.rs:50-107 | with any number of concurrent calls, whenever the clients lock is free the watch value equals whether a client is connected |
| `HubLocks.RemovedForGood` | crates/infinity-bridge-host/src/hub.rs:50-107 | with ids drawn before the lock is taken, a removed client is still never in the table again |
| `HubLocks.NoDeadlock` | crates/infinity-bridge-host/src/hub.rs:205-246 | if no task can take a step, both locks are free and every unfinished task waits for an ack or its deadline |
| `HubLocks.HolderGoesOn` | crates/infinity-bridge-host/src/hub.rs:209-241 | whoever holds `pending` can go on, and whoever holds `clients` can once `pending` is free |
| `HubLocks.BoundedSteps` | crates/infinity-bridge-host/src/hub.rs:50-283 | N concurrent calls take at most 10 N steps between them, so with `NoDeadlock` every call ends |
| `HubLocks.StepOk` | crates/infinity-bridge-host/src/hub.rs:50-283 | every step keeps mutual exclusion, the watch, the ids and the link between a command's place in the code and its call |
| `HubLocks.RunRefines` | crates/infinity-bridge-host/src/hub.rs:50-283 | every step of a task is, seen from outside the locks, nothing or exactly one step of `Hub`; drawing an id and inserting its client are two, and a reaper may act on a stale clock |
| `HubLocks.TraceRefines` | crates/infinity-bridge-host/src/hub.rs:50-283 | every run of N concurrent calls is, seen from outside the locks, a run of `Hub`, state by state and in order |
| `HubLocks.WaitingTaskEnds` | crates/infinity-bridge-host/src/hub.rs:205-272 | with N concurrent calls, a command that waits goes on waiting or ends with its first ack or at its own deadline, and leaves no entry |
| `HubLocks.SeenWhenFree` | crates/infinity-bridge-host/src/hub.rs:50-107 | while nobody holds the clients lock, the hub is as it is seen |
| `HubTasks.TakesEffect` | crates/infinity-bridge-host/src/hub.rs:50-283 | however N calls interleave, a call that is done did its work in one step of its own, on the tables as they were then: a client added, removed, reaped or edited, a message or event queued, a waiter stored, a sender taken |
| `HubTasks.CommandEnds` | crates/infinity-bridge-host/src/hub.rs:190-265 | a command that is done leaves a finished call of its own, under its id, name and payload |
| `HubTasks.AckEnds` | crates/infinity-bridge-host/src/hub.rs:267-272 | a call that dispatches an ack took the sender it names, if there was one, and later fired that very sender |
| `HubObject.Hub.constructor` | crates/infinity-bridge-host/src/hub.rs:35-48 | a new hub has no clients and no waiters |
| `HubObject.Hub.RegisterClient` | crates/infinity-bridge-host/src/hub.rs:50-65 | the next id is drawn and its client inserted, not ready and just seen |
| `HubObject.Hub.SetClientHello` | crates/infinity-bridge-host/src/hub.rs:67-72 | the hello of a client in the table is replaced, an unknown id is ignored |
| `HubObject.Hub.UnregisterClient` | crates/infinity-bridge-host/src/hub.rs:74-79 | the client is gone and the watch says whether others remain |
| `HubObject.Hub.TouchClient` | crates/infinity-bridge-host/src/hub.rs:81-86 | a client in the table counts as seen now |
| `HubObject.Hub.ReapDeadClients` | crates/infinity-bridge-host/src/hub.rs:88-107 | exactly the clients silent for longer than the timeout are removed and returned, each once; the watch changes only if some were |
| `HubObject.Hub.SetClientReady` | crates/infinity-bridge-host/src/hub.rs:111-116 | the flag of a client in the table is set |
| `HubObject.Hub.IsReady` | crates/infinity-bridge-host/src/hub.rs:127-129 | whether some client is ready |
| `HubObject.Hub.Emit` | crates/infinity-bridge-host/src/hub.rs:163-188 | the event is the last of the queue of every client that accepts, ready or not, and of no other; the error is the one for no clients, the one for no acceptance, or none |
| `HubObject.Hub.BeginCommand` | crates/infinity-bridge-host/src/hub.rs:196-206 | the waiter is stored under the command id before anything is sent |
| `HubObject.Hub.SendLoop` | crates/infinity-bridge-host/src/hub.rs:223-231 | the loop serves exactly the targets, and counts a delivery if and only if one of them accepts |
| `HubObject.Hub.OfferCommand` | crates/infinity-bridge-host/src/hub.rs:208-242 | the whole section under the clients lock |
| `HubObject.Hub.EndWait` | crates/infinity-bridge-host/src/hub.rs:244-264 | the outcome returned is that of the ack, of a dropped sender, or the timeout |
| `HubObject.Hub.FinishCommand` | crates/infinity-bridge-host/src/hub.rs:246 | no entry is left behind |
| `HubObject.Hub.DispatchAck` | crates/infinity-bridge-host/src/hub.rs:267-272 | the sender leaves the table and fires; an ack nobody waits for changes nothing |
| `HubObject.Hub.SendTo` | crates/infinity-bridge-host/src/hub.rs:274-283 | if the client is in the table and accepts, the message is the last of its queue and the call succeeds; else nothing is queued and it fails |
| `Server.NoZombie` | crates/infinity-bridge-host/src/server.rs:208-270 | a client missing from the table has left its read loop, was signalled, or is signalled within one interval by its own ping task; the signal fires at most once; a closed connection leaves no sender |
| `Server.OwnTickSignals` | crates/infinity-bridge-host/src/server.rs:223-259 | whoever reaped it, a missing client's own next tick signals its read loop |
| `Server.SilentClientRemoved` | crates/infinity-bridge-host/src/server.rs:223-259 | a client silent for a timeout and an interval is out of the table or signalled |
| `Server.AliveNotDead` | crates/infinity-bridge-host/src/hub.rs:88-107 | no reaper finds a client dead whose pongs come back in time |
| `Server.KeepaliveBound` | crates/infinity-bridge-host/src/server.rs:223-274 | if every round trip plus the interval fits the timeout and the socket stays open, the client is never reaped by any connection |
| `ServerEffects.AckRead` | crates/infinity-bridge-host/src/server.rs:272-287 | reading an ack takes the sender of the call it names, whether it reports success or not, and touches the client |
| `ServerEffects.HelloRead` | crates/infinity-bridge-host/src/server.rs:282-284 | reading a hello stores it for its client in place of any earlier one |
| `ServerEffects.ReadyRead` | crates/infinity-bridge-host/src/server.rs:290-297 | a readiness event clears the flag of its client if it carries false, and sets it otherwise |
| `ServerEffects.PingRead` | crates/infinity-bridge-host/src/server.rs:310-315 | a ping is answered by a pong of the same time at the end of that client's queue |
| `ServerEffects.OtherRead` | crates/infinity-bridge-host/src/server.rs:272-309 | anything else, undecodable frames included, only counts as a sign of life |
| `ServerEffects.HostReads` | crates/infinity-bridge-host/src/server.rs:261-316 | in the whole system, reading takes one frame off its socket, does that to the hub, and changes nothing else |
| `ServerEffects.AckReachesCall` | crates/infinity-bridge-host/src/hub.rs:267-272 | in the whole system, the first ack read for a waiting call is in its sender's hand afterwards and is the first the call has seen |
| `ServerEffects.TickProbes` | crates/infinity-bridge-host/src/server.rs:229-240 | a tick reaps every silent client; a client that was not silent is probed next, one that was is signalled |
| `ServerEffects.ProbeSends` | crates/infinity-bridge-host/src/server.rs:240-257 | a probe puts one ping with the time at the end of the client's queue, or signals its read loop |
| `ServerEffects.AckFrameFires` | crates/infinity-bridge-host/src/server.rs:285-287 | in the object, the call that a read ack names has received it, with any `ok`, and its sender is gone |
| `ServerEffects.OtherFrames` | crates/infinity-bridge-host/src/server.rs:272-316 | any other frame does in the object what it does in the server |
| `ServerEffects.ReadsInOrder` | crates/infinity-bridge-host/src/server.rs:261-321 | the read loop handles every frame, one after the other, and skips binary and control messages |
| `ServerObject.Connection.constructor` | crates/infinity-bridge-host/src/server.rs:198-202 | a new connection is a registered client |
| `ServerObject.Connection.OnText` | crates/infinity-bridge-host/src/server.rs:272-316 | any text touches the client, then does what its message asks; after an ack, success or not, the call it names has received it and its sender is gone |
| `ServerObject.FrameIsServerStep` | crates/infinity-bridge-host/src/server.rs:272-316 | that is the step of `Server` for the frame, with the ack fired |
| `ServerObject.Connection.ReadLoop` | crates/infinity-bridge-host/src/server.rs:261-321 | messages are handled in order up to the first signal, close frame, error or end |
| `ServerObject.Connection.Serve` | crates/infinity-bridge-host/src/server.rs:261-326 | whatever ended the loop, the client is gone afterwards and no other is |
| `ServerObject.Connection.PingTick` | crates/infinity-bridge-host/src/server.rs:229-257 | one turn reaps everybody and signals if and only if this client was reaped or cannot be sent to; otherwise one ping is the last of its queue |
| `ServerObject.Connection.PingLoop` | crates/infinity-bridge-host/src/server.rs:228-258 | the signal fires at most once, and at the first tick if the client was already gone; without a signal every tick has queued one ping, in order |
| `RelayObject.BridgeRelay.constructor` | ts/infinity-bridge-relay/src/relay.ts:85-98 | a new relay has no handle, socket, timer or request |
| `RelayObject.BridgeRelay.Init` | ts/infinity-bridge-relay/src/relay.ts:100-124 | the object does what `Relay.Init` says, for a failing connect or bind too |
| `RelayObject.BridgeRelay.BindCommBus` | ts/infinity-bridge-relay/src/relay.ts:131-140 | binding is idempotent and reports readiness once |
| `RelayObject.BridgeRelay.ScheduleBindRetry` | ts/infinity-bridge-relay/src/relay.ts:142-150 | at most one bind retry is armed |
| `RelayObject.BridgeRelay.OnBindRetry` | ts/infinity-bridge-relay/src/relay.ts:145-149 | a retry binds unless attaching throws; afterwards the relay is bound and no retry armed, or one is, one interval from now |
| `RelayObject.BridgeRelay.SendReady` | ts/infinity-bridge-relay/src/relay.ts:159-167 | the readiness event carries the bind state |
| `RelayObject.BridgeRelay.Destroy` | ts/infinity-bridge-relay/src/relay.ts:169-191 | every pending request is rejected once, in whatever order the table is walked, and everything is cancelled; if `unregister` throws, handle, bind state and socket stay |
| `RelayObject.BridgeRelay.OnWasmMessage` | ts/infinity-bridge-relay/src/relay.ts:202-246 | the object settles, forwards or ignores as `Relay.OnWasmMessage` says |
| `RelayObject.BridgeRelay.ConnectWs` | ts/infinity-bridge-relay/src/relay.ts:248-299 | an open or connecting socket is kept, else a new one is made or a reconnect armed |
| `RelayObject.BridgeRelay.ScheduleWsReconnect` | ts/infinity-bridge-relay/src/relay.ts:301-307 | at most one reconnect is armed |
| `RelayObject.BridgeRelay.CleanupWs` | ts/infinity-bridge-relay/src/relay.ts:309-320 | the reconnect timer is cleared and the socket closed |
| `RelayObject.BridgeRelay.OnHostMessage` | ts/infinity-bridge-relay/src/relay.ts:332-364 | a ping is answered with one pong over the socket in use; commands and events are taken as `Relay.OnHostMessage` says |
| `RelayObject.BridgeRelay.OnHostCommand` | ts/infinity-bridge-relay/src/relay.ts:373-464 | duplicate filter, timer, table and call in one handler |
| `RelayObject.BridgeRelay.OnHostEvent` | ts/infinity-bridge-relay/src/relay.ts:471-492 | an event is wrapped under a fresh request id and leaves no entry |
| `RelayObject.BridgeRelay.NextRequestId` | ts/infinity-bridge-relay/src/relay.ts:494-496 | the counter grows by one and ends the id |
| `RelayObject.BridgeRelay.React` | ts/infinity-bridge-relay/src/relay.ts:100-492 | any event, `destroy` included, moves the object by exactly one step of `Relay` |
| `RescriptRelay.StepAgrees` | rescript/infinity-bridge-relay/src/BridgeRelay.res:187-446 | on the same event both relays take the same step, and their frames agree in id, ok, duplicate and response; commands are those with a text id, answers those whose `ok` is a boolean |
| `RescriptRelay.RelaysAgree` | rescript/infinity-bridge-relay/src/BridgeRelay.res:187-482 | so they do from `init` on in every run before `destroy` on such messages, and the ReScript relay can take every step the TypeScript one takes |
| `RescriptRelay.CommandAgreesExactly` | rescript/infinity-bridge-relay/src/BridgeRelay.res:309-391 | a command is treated alike if and only if its id is text; otherwise TypeScript ignores it and ReScript acknowledges or forwards it |
| `RescriptRelay.ResponseAgreesExactly` | rescript/infinity-bridge-relay/src/Wire.res:90-104 | an answer to a pending request is treated alike if and only if its `ok` is a boolean |
| `RescriptRelay.BridgeIsUsual` | crates/infinity-bridge-wasm/src/bridge.rs:236-271 | everything a bridge sends is among the messages compared |
| `RescriptRelay.HubIsUsual` | crates/infinity-bridge-host/src/hub.rs:163-203 | every command, event and probe of the host is among the messages compared |
| `RescriptRelay.HostCannotTell` | rescript/infinity-bridge-relay/src/BridgeRelay.res:148-164 | a host gets the same outcome from the successful acks of both, and failures that differ only in wording |
| `RescriptRelay.DestroyAgrees` | rescript/infinity-bridge-relay/src/BridgeRelay.res:484-528 | if `unregister` does not throw, `destroy` sends the same acks and leaves the same state but for the stored handler |
| `RescriptRelay.DestroyAgreesExactly` | ts/infinity-bridge-relay/src/relay.ts:181-190 | the same acks are sent either way; the states agree if and only if `unregister` does not throw or there is nothing to unregister |
| `RescriptRelay.LateContinuation` | ts/infinity-bridge-relay/src/relay.ts:116-119 | after `destroy` a late continuation binds the TypeScript relay and not the ReScript one |
| `RescriptEffects.PingAnswered` | rescript/infinity-bridge-relay/src/BridgeRelay.res:296-298 | a ping makes the relay send one pong with its clock over the open socket in use and nothing else |
| `RescriptEffects.OpeningGreets` | rescript/infinity-bridge-relay/src/BridgeRelay.res:238-255 | a socket that opens makes the relay send its hello, then the bind state |
| `RescriptEffects.RetryBinds` | rescript/infinity-bridge-relay/src/BridgeRelay.res:187-217 | a bind retry of an unbound relay binds it, attaches one listener, leaves no retry and reports readiness; if attaching throws, exactly one retry is armed, one interval from now |
| `RescriptEffects.ContinuationBinds` | rescript/infinity-bridge-relay/src/BridgeRelay.res:471-477 | the continuation binds a relay that has its handler and is not bound |
| `RescriptEffects.CommandForwarded` | rescript/infinity-bridge-relay/src/BridgeRelay.res:309-376 | a new command, with a text id, any other or none, becomes pending with its timer and is handed to the CommBus as it is; an unbound relay binds first and reports it |
| `RescriptEffects.CommandRefused` | rescript/infinity-bridge-relay/src/BridgeRelay.res:360-371 | without a handle it is refused at once under its own id |
| `RescriptEffects.DuplicateAcknowledged` | rescript/infinity-bridge-relay/src/BridgeRelay.res:312-319 | a remembered id gets the duplicate ack and nothing else happens |
| `RescriptEffects.EventForwarded` | rescript/infinity-bridge-relay/src/BridgeRelay.res:394-411 | an event of the host is handed to the CommBus as it is, once, under the next request id |
| `RescriptEffects.OthersIgnored` | rescript/infinity-bridge-relay/src/BridgeRelay.res:301-303 | any other message changes nothing |
| `RescriptEffects.AnswerSettles` | rescript/infinity-bridge-relay/src/BridgeRelay.res:421-428 | a success settles the pending request it names with its response, or null |
| `RescriptEffects.FailureSettles` | rescript/infinity-bridge-relay/src/BridgeRelay.res:429-435 | a failure refuses its request with the error as the module wrote it, or a stock text |
| `RescriptEffects.MessagePassedOn` | rescript/infinity-bridge-relay/src/BridgeRelay.res:438-445 | any other event or ack is sent to the host as it is, even with a request id; nothing else is |
| `RescriptEffects.RejectionRefuses` | rescript/infinity-bridge-relay/src/BridgeRelay.res:377-387 | a rejected CommBus call refuses its request with the exception's message or the stock word |
| `RescriptEffects.TimeoutRefuses` | rescript/infinity-bridge-relay/src/BridgeRelay.res:329-342 | a request that times out is refused with the text for an unbound relay or for a silent module |
| `RescriptEffects.DestroyRefuses` | rescript/infinity-bridge-relay/src/BridgeRelay.res:484-491 | `destroy` refuses every pending command over the socket in use, in the order the table is walked |
| `RescriptEffects.DestroyLeavesNothing` | rescript/infinity-bridge-relay/src/BridgeRelay.res:484-528 | afterwards there is no entry, timer, listener, handle or handler, and the socket is closing |
| `RescriptObject.Relay.Make` | rescript/infinity-bridge-relay/src/BridgeRelay.res:112-126 | a new record |
| `RescriptObject.Relay.SendAck` | rescript/infinity-bridge-relay/src/BridgeRelay.res:148-164 | one ack frame with the given fields is sent |
| `RescriptObject.Relay.BindCommBus` | rescript/infinity-bridge-relay/src/BridgeRelay.res:187-200 | binds only with a stored handler, and only once |
| `RescriptObject.Relay.OnBindRetry` | rescript/infinity-bridge-relay/src/BridgeRelay.res:207-214 | a retry binds unless attaching throws; afterwards the record is bound and no retry armed, or one is, one interval from now |
| `RescriptObject.Relay.ConnectWs` | rescript/infinity-bridge-relay/src/BridgeRelay.res:226-277 | an active socket is kept, else a new one is made or a reconnect armed |
| `RescriptObject.Relay.OnHostMessage` | rescript/infinity-bridge-relay/src/BridgeRelay.res:292-305 | a ping is answered with one pong over the socket in use; the record moves as `RescriptRelay.OnHostMessage` says |
| `RescriptObject.Relay.OnHostCommand` | rescript/infinity-bridge-relay/src/BridgeRelay.res:309-391 | duplicate filter, timer, table and call in one handler, with the id as the message has it |
| `RescriptObject.Relay.OnHostEvent` | rescript/infinity-bridge-relay/src/BridgeRelay.res:394-411 | an event is wrapped under a fresh request id |
| `RescriptObject.Relay.OnWasmMessage` | rescript/infinity-bridge-relay/src/BridgeRelay.res:420-446 | a response settles its request, an event or ack is forwarded, anything else is ignored |
| `RescriptObject.Relay.Init` | rescript/infinity-bridge-relay/src/BridgeRelay.res:450-482 | the handler is stored before the bind |
| `RescriptObject.Relay.Destroy` | rescript/infinity-bridge-relay/src/BridgeRelay.res:484-528 | every pending request is rejected once and everything is cancelled |
| `RescriptObject.Relay.React` | rescript/infinity-bridge-relay/src/BridgeRelay.res:187-446 | any event before `destroy` moves the record by exactly one step of `RescriptRelay` |
| `RescriptObject.InitBoth` | rescript/infinity-bridge-relay/src/BridgeRelay.res:450-482 | a relay of each kind, constructed and initialized with the same luck, agree, and neither is stranded |
| `RescriptObject.ReactBoth` | rescript/infinity-bridge-relay/src/BridgeRelay.res:187-446 | two such objects given the same event still agree, with timers and pending requests in step |
| `SystemSoundness.EndToEndSoundness` | crates/infinity-bridge-host/src/hub.rs:190-272 | in every run of host, relays and modules, a value `command` returns is the module's answer to a request that a relay issued for that very command, handled with its name and payload; unless the winning ack is a duplicate ack, and then some relay was sent the id twice |
| `SystemSoundness.DuplicateMeansRepeated` | ts/infinity-bridge-relay/src/relay.ts:377-388 | in every run, an ack flagged as a duplicate, in flight or dispatched, is for an id that some relay was sent at least twice |
| `SystemSoundness.SentOnceIsExact` | ts/infinity-bridge-relay/src/relay.ts:373-395 | if no relay is sent a command id twice, every value returned is the module's answer to a request issued for that command |
| `SystemSoundness.StepSound` | ts/infinity-bridge-relay/src/relay.ts:202-464 | every step of any component keeps every message in flight tied to the command it is for |
| `SystemReadiness.ReadinessAgreement` | ts/infinity-bridge-relay/src/relay.ts:131-167 | before `destroy`, a client the host holds ready has its relay bound; for the relay's open socket, the host's flag after reading the frames in flight is exactly the bind state, whenever the client was registered |
| `SystemReadiness.LateRegistration` | crates/infinity-bridge-host/src/server.rs:198-202 | before the host has registered a client for the relay's open socket, the frames waiting there bring a client that starts out not ready to exactly the bind state |
| `SystemReadiness.HandleAnnounces` | ts/infinity-bridge-relay/src/relay.ts:260-276 | no handler before `destroy` leaves the host behind its current open socket out of date |
| `SystemJourneys.CommandCompletes` | crates/infinity-bridge-host/src/hub.rs:190-272 | from any state of any run in which a bound relay with an open socket has nothing queued, every command, for every answer of the module, leads in nine steps to a call that returned that answer, or the module's error |
| `SystemJourneys.PingComesBack` | crates/infinity-bridge-host/src/server.rs:240-303 | a ping queued by the host is answered by its relay with what the host decodes as a pong, and reading it counts the client as seen now |
| `SystemJourneys.EventReachesModule` | crates/infinity-bridge-host/src/hub.rs:163-188 | an event of the host reaches the module's event handler with its own name and data, whatever else is queued behind it |
| `SystemJourneys.GreetingArrives` | ts/infinity-bridge-relay/src/relay.ts:260-276 | after a socket opens, the two frames that follow give the host the relay's configuration and its bind state |
| `Deadline.TimeoutOrdering` | crates/infinity-bridge-host/src/hub.rs:244-264 | if the delivery delays and the relay's request timeout add up to less than the host's timeout, no socket of the relay reports an error or close and it is not destroyed, the call never times out: it ends with its first ack and waits no longer than that sum |
| `Deadline.SocketKeptExactly` | ts/infinity-bridge-relay/src/relay.ts:286-294 | a handler leaves the relay sending over its open socket if and only if it is no error or close event of any socket, no change of this one and not `destroy` |
| `DeadlineLimits.LateCloseTimesOut` | ts/infinity-bridge-relay/src/relay.ts:286-294 | a run with the socket open throughout in which the close event of an older socket makes the call time out |
| `DeadlineLimits.OfferIsSent` | crates/infinity-bridge-host/src/hub.rs:222-244 | in any run of the whole system, offering a command to a client whose relay sends over that client's open socket starts such an ordering |
| `Deadline.CommandLands` | ts/infinity-bridge-relay/src/relay.ts:373-464 | a delivered command is answered on the spot or pending with a timer counted from then |
| `Deadline.HandleKeeps` | ts/infinity-bridge-relay/src/relay.ts:202-463 | across any handler that leaves the relay sending over the socket, a pending request survives with its timer or its ack is sent |

## Left out

- JSON text: lexing, number formatting and frames that are not JSON. A text that does not decode is
  covered, and only touches the client. Integers beyond double precision are not claimed to survive
  a relay.
- Messages written as JSON arrays, which the derived decoder of the payload structs also takes.
- `broadcast`, event fan-out to subscribers, `subscribe_connection_status`, `connected_clients` and
  `wait_connected`. The last one can miss a registration between its check and its wait.
- Dropping a `command` future midway; nothing would remove its entry.
- Quiescence after `destroy`: socket handlers stay attached and can re-arm the reconnect timer. Relay
  invariants about connections stop at `destroy`.
- At most one live socket per relay: a late close of an old socket clears a newer one. This is why
  the end-to-end result keeps the case of a duplicate ack.
- Negative duplicate-filter capacities, for which eviction would not end, and 32-bit wrap-around of
  the ReScript sequence counter.
- The wording of errors that contain a duration or a client id.
- `Router` handlers with state of their own, `ServerConfig`, `BridgeError` formatting, the HTTP
  endpoints, `MsfsBindings.res`, the examples, `infinity-instrument` and the type declarations.
- RescriptRelay.KeyOf: two ids that are numbers other than integers are the same only if written the
  same.
- HubLocks.RunRefines: the send loop under the clients lock is one step, so a writer ending in the
  middle of a loop is not separated from one ending before or after it.
- Server.OnText and System.HostRead: touching the client and doing what the frame asks are two sections
  of the source and one step here; a reaper between them finds what it would find before or after.
- ServerObject.Connection.ReadLoop: one connection runs without interference; interleavings with
  other tasks are in `Server` and `System`.
- Deadline.TimeoutOrdering: one relay and its socket are tracked; other relays and clients appear as
  arbitrary steps of the hub. `DeadlineLimits.OfferIsSent` ties its start to runs of the system.
