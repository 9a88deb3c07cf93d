# Verification of hacpp's connection logic

hacpp keeps Home Assistant entities alive over one MQTT 5 connection. Its hard logic is in three
headers whose coroutines interleave on one strand: a reconnecting client, a multiplexer that fans one
receive stream out to many logical clients, and entities that replay their setup when a session is
reset. This project models that logic in Dafny and proves what it promises over every interleaving.

A step of a model is everything the code does between two suspension points: transport operations,
timer waits and packet-id acquisition. A dispatch loop is one step, because pushing on a client's
queue never suspends; so is "the reconnect succeeded, a session reset is returned and broadcast".
Outcomes of the transport, the broker and the application are events of the run, so a theorem about
every run covers every outcome. `dafny verify dfyconfig.toml` checks the whole project.

## Files

| file | content |
|---|---|
| Mqtt.dfy | error codes, packets, and the mapping of transport errors |
| Topics.dfy | default topics and their injectivity |
| TopicList.dfy | a client's topic list against the broker's store |
| RecvQueue.dfy | the queue with cancel-the-timer wakeups, as a machine and as an object |
| Multiplexer.dfy | the shared connection as a machine; private-stream refinement, conservation, detach |
| SharedConnection.dfy | the shared connection as objects and loops, each performing machine steps |
| Reconnect.dfy | the physical client's state machine and its theorems |
| ReconnectOutcomes.dfy | exactly what receives and calls return, and what the connection state means |
| AsyncClient.dfy | the physical client as an object, with the reconnect loop |
| EntityConfig.dfy | the two-level configuration object |
| Entity.dfy | setup, and its replay inside the receive loop |
| Button.dfy | the command loop, press counting over whole runs, no cross-talk |
| System.dfy | the composition: one physical client, a broker session, any number of entities |
| Restoration.dfy | the restoration invariant and its preservation |
| SystemTheorems.dfy | what the composed system guarantees over whole runs |
| EntityLoops.dfy | exactly what ends and resumes an entity's loop, what is delivered, and that a replay can complete |

The classes carry a ghost history of steps, and their validity says that the object's state is the
one the history leads to. Every theorem about runs is therefore a theorem about the objects.

## Assumptions

- There is one pump per shared connection (docs/client-lifecycle.md:70-72).
- An explicit connect completes only while the client is closed and no reconnect loop is active. In
  the composed system there is one successful explicit connect.
- A subscribe that reports success was granted by the broker on the current connection.
- A closed entity takes no further step, and entities subscribe only through their setup.
  `Multiplexer.UseAfterCloseMissesReset` shows what goes wrong otherwise.
- Client identities are fresh, and a client is alive while its handle or a call on it exists.
- A session is emptied by Clean Start (section 3.1.2.4 of MQTT Version 5.0). While the link is down
  the broker may forget any part of it.

## Where the code differs from its documentation

- docs/entities.md:51 says availability is not retained; lib/include/hacpp/entity.h:223 publishes it
  retained, and so does the model.
- requirements.md:22 asks for `packet_not_allowed_to_send` when publishing while disconnected;
  lib/include/hacpp/async_mqtt_client.h:164-167 returns `NotConnected`, and so does the model.

## What is not true of the code

- A closed client need not stay closed: closing during a reconnect does not stop the loop.
  `Reconnect.ClosedStaysClosedIffNoLoop` gives the exact condition, and `Reconnect.CloseLeavesLoop`
  a run that ends closed with its loop active.
- A woken receiver need not find a result when receivers overlap on one queue:
  `RecvQueue.EmptyWakeupIffOverlap` says exactly when, and `RecvQueue.TwoReceiversCanWakeEmpty` is
  a five-step run.
- The configuration is a flat map only while no name is both a key and an object name:
  `EntityConfig.ReadsBackIffNoClash`. Clearing a nested property does not clear it, and may make
  setting it throw: `EntityConfig.ClearThenThrowsIff`.
- A lost link is not always restored: `SystemTheorems.RestorationPossibleIff` says when it can be.
  `SystemTheorems.InvalidPacketStrandsLink` shows how an invalid packet, which ends the pump while
  the client still counts as connected, leaves the next lost link lost for good.

## Model

| member | source | states |
|---|---|---|
| `SystemTheorems.SubscriptionRestoration` | lib/include/hacpp/entity.h:180-195 | in every reachable state with the link up, each topic of each live registered entity whose receive loop has not ended is held by the broker's current session, or a session reset is in its queue, or it is replaying its setup up to its subscribe |
| `SystemTheorems.LinkUpBroadcastsReset` | lib/include/hacpp/async_mqtt_client.h:290-296 | a lost link comes back only in the step that opens a new, empty session and queues a session reset for every live registered client |
| `SystemTheorems.ResetIsReplayed` | lib/include/hacpp/entity.h:237-271 | a queued session reset leaves its queue only to its own entity, which then replays its setup or ends its loop |
| `SystemTheorems.RestorationPossibleIff` | lib/include/hacpp/shared_mqtt_client.h:152-160 | a lost link can come back exactly while the reconnect loop is active, or the pump is alive on a client that counts as connected with attempts to spend |
| `SystemTheorems.InvalidPacketStrandsLink` | lib/include/hacpp/async_mqtt_client.h:229-246 | in every reachable state with the link up, an invalid packet followed by the loss of the link leaves the client counting as connected and no run that restores the link |
| `SystemTheorems.StepMoves` | lib/include/hacpp/shared_mqtt_client.h:229-249 | every step of the composition performs exactly the events of the two machines listed for it, and nothing else happens to them |
| `SystemTheorems.RunKeepsInv` | lib/include/hacpp/shared_mqtt_client.h:229-249 | in every run of the composition, the multiplexer and the physical client make runs of their own machines, and the restoration invariant holds |
| `SystemTheorems.EntityNeverWakesEmpty` | lib/include/hacpp/shared_mqtt_client.h:46-57 | an entity whose wait was cancelled always finds a result, in every run of the composition |
| `EntityLoops.StagesAreSetupCalls` | lib/include/hacpp/entity.h:180-195 | the setup stages of the composition are the calls of an entity's setup, one for one and in order |
| `EntityLoops.SetupFollowsPlan` | lib/include/hacpp/entity.h:180-195 | in every reachable state a setup call that fails ends the setup and a replay's loop; one that succeeds issues the next stage's call, unless the client is closed; after the last one a replay's loop goes back to receiving |
| `EntityLoops.SubscribeRegisters` | lib/include/hacpp/shared_mqtt_client.h:178-208 | a setup's successful subscribe registers its entity with the topics of its plan, and no other setup call touches the multiplexer |
| `EntityLoops.WokenSetup` | lib/include/hacpp/async_mqtt_client.h:160-167 | a setup parked during a reconnect goes on when woken on a connected client, and fails otherwise |
| `EntityLoops.ReceiveHandsOver` | lib/include/hacpp/shared_mqtt_client.h:40-62 | an entity's receive takes exactly the head of its queue and its loop reacts to that: a packet lets it go on, a session reset starts a replay at discovery, a terminal error ends it; on an empty queue it waits |
| `EntityLoops.LoopEndsIff` | lib/include/hacpp/entity.h:237-250 | a receive loop ends exactly when it is handed a terminal error, or a session reset on a closed client, or its replay fails |
| `EntityLoops.LoopResumesIff` | lib/include/hacpp/entity.h:237-250 | a receive loop is ready for its next result exactly after its start, after a packet, and after the last call of its replay succeeded |
| `EntityLoops.PumpDelivers` | lib/include/hacpp/shared_mqtt_client.h:229-273 | what the pump's receive returns is appended in the same step, as it is, to the queues of exactly the live registered entities that want it |
| `EntityLoops.PacketIsDelivered` | lib/include/hacpp/async_mqtt_client.h:229-246 | a packet that arrives is queued unchanged for exactly the live registered entities with its topic |
| `EntityLoops.ReplayCanRestore` | lib/include/hacpp/entity.h:237-271 | while the link is up, an entity that finds a session reset can complete its replay: some run leads to a loop ready for its next result with its whole plan held by the broker |
| `Restoration.StepKeepsInv` | lib/include/hacpp/entity.h:237-271 | every step of the link, the broker, the pump, the setups and the receive loops keeps the restoration invariant |
| `Restoration.SubscribeKeeps` | lib/include/hacpp/shared_mqtt_client.h:178-208 | a subscribe granted on the current connection leaves its entity with all its registered topics held, or the link down |
| `Restoration.ReconnectedKeeps` | lib/include/hacpp/async_mqtt_client.h:290-296 | emptying the session on a reconnect is repaired by the broadcast in the same step |
| `Multiplexer.MultiplexerRefinesPrivateStreams` | lib/include/hacpp/shared_mqtt_client.h:162-221 | in every run, each client's registration, topics, queue and received results are those of a one-client machine fed only its own calls and the physical results |
| `Multiplexer.Conservation` | lib/include/hacpp/shared_mqtt_client.h:229-274 | results handed out followed by results queued are the physical results due to the client by its history, in order |
| `Multiplexer.HistoryDeterminesRegistration` | lib/include/hacpp/shared_mqtt_client.h:178-221 | who is registered, and for which topics, is determined by each client's own calls |
| `Multiplexer.DispatchExactlyOnce` | lib/include/hacpp/shared_mqtt_client.h:263-271 | the loops without early exit give each live registered client that wants the result one copy and change nothing else |
| `Multiplexer.ResultIsDeliveredOnce` | lib/include/hacpp/shared_mqtt_client.h:240-271 | the same in every reachable state, where entries and names are duplicate-free |
| `Multiplexer.StepKeepsInv` | lib/include/hacpp/shared_mqtt_client.h:162-281 | every step keeps client entries and topic names duplicate-free, and a parked receiver's queue empty |
| `Multiplexer.DetachIsEffective` | lib/include/hacpp/shared_mqtt_client.h:162-170 | from its detach to its own next receive or subscribe, nothing is delivered to a client, even by a pump that was already suspended |
| `Multiplexer.UseAfterCloseMissesReset` | lib/include/hacpp/shared_mqtt_client.h:210-218 | any run can go on with a detach, a session reset and a receive, after which the client is registered with its old topics and without that reset |
| `Multiplexer.PumpEndedIff` | lib/include/hacpp/shared_mqtt_client.h:152-160 | the pump has returned exactly when it received an error other than a session reset |
| `Multiplexer.PumpAlternates` | lib/include/hacpp/shared_mqtt_client.h:229-235 | in every run the pump prunes once before each physical result, and at no other time |
| `Multiplexer.PruneLeavesLive` | lib/include/hacpp/shared_mqtt_client.h:276-281 | after pruning exactly the live entries are left |
| `Multiplexer.ClientsAreInOrder` | lib/include/hacpp/shared_mqtt_client.h:199-218 | clients are served in the order in which their present registrations began |
| `Multiplexer.TerminalErrorIsLastDelivery` | lib/include/hacpp/shared_mqtt_client.h:235-249 | that error is the last delivery to every client live and registered at that step, and no later result is consumed |
| `Multiplexer.RegisteredTopicsMatchBroker` | lib/include/hacpp/shared_mqtt_client.h:186-197 | in every run a client's list is the broker's store for its subscribe calls |
| `TopicList.TopicListIsOrderedMap` | lib/include/hacpp/shared_mqtt_client.h:186-197 | after any subscribe calls the list has one entry per name with the last options given, in order of first occurrence (section 3.8.4 of MQTT Version 5.0) |
| `TopicList.IndexOf` | lib/include/hacpp/shared_mqtt_client.h:188-190 | the position found is the first entry with the name, or the end when there is none |
| `RecvQueue.NoLostWakeup` | lib/include/hacpp/shared_mqtt_client.h:31-62 | with any number of receivers, a parked one means an empty queue, pops followed by the queue are the pushes, and every arrival is accounted for |
| `RecvQueue.SingleReceiverNeverWakesEmpty` | lib/include/hacpp/shared_mqtt_client.h:50-57 | with one receiver at a time the empty-wakeup branch is never taken, from any state with at most one outstanding |
| `RecvQueue.ArrivalIsRiskyIff` | lib/include/hacpp/shared_mqtt_client.h:40-61 | a run from a receiver's arrival, overlapping no more than it does, can end in an empty wakeup exactly when another receiver is outstanding at the arrival |
| `RecvQueue.EmptyWakeupIffOverlap` | lib/include/hacpp/shared_mqtt_client.h:50-57 | a run has an arrival from which it can go on to an empty wakeup exactly when its receivers overlap |
| `RecvQueue.RecvResultQueue.PushBack` | lib/include/hacpp/shared_mqtt_client.h:31-38 | appends the result and wakes every parked receiver |
| `RecvQueue.RecvResultQueue.PopFrontStart` | lib/include/hacpp/shared_mqtt_client.h:40-48 | takes the front, or parks on an empty queue |
| `RecvQueue.RecvResultQueue.PopFrontResume` | lib/include/hacpp/shared_mqtt_client.h:50-61 | takes the front, or reports the mapped error of the cancelled wait |
| `SharedConnection.SharedClientState.RegisterTopics` | lib/include/hacpp/shared_mqtt_client.h:186-197 | the search-and-replace loop performs the list update of the machine |
| `SharedConnection.SharedAsyncMqttConnection.Subscribe` | lib/include/hacpp/shared_mqtt_client.h:178-208 | performs one subscribe step, or nothing when the physical subscribe failed |
| `SharedConnection.SharedAsyncMqttConnection.RecvStart` | lib/include/hacpp/shared_mqtt_client.h:210-221 | registers the client once and performs one receive step |
| `SharedConnection.SharedAsyncMqttConnection.Detach` | lib/include/hacpp/shared_mqtt_client.h:162-170 | erases the client's entries and performs one detach step |
| `SharedConnection.SharedAsyncMqttConnection.RemoveExpiredClients` | lib/include/hacpp/shared_mqtt_client.h:276-281 | erases expired entries and performs one prune step |
| `SharedConnection.SharedAsyncMqttConnection.DispatchLoop` | lib/include/hacpp/shared_mqtt_client.h:240-271 | the nested loops over weak clients and topics compute the machine's dispatch |
| `SharedConnection.SharedAsyncMqttConnection.DispatchResult` | lib/include/hacpp/shared_mqtt_client.h:235-273 | performs one result step and reports success for a session reset |
| `SharedConnection.SharedAsyncMqttConnection.AsyncRun` | lib/include/hacpp/shared_mqtt_client.h:152-160 | whatever calls the logical clients make while it is suspended, the pump prunes and dispatches every result once, up to and including the first terminal error |
| `Reconnect.ReconnectInvariant` | lib/include/hacpp/async_mqtt_client.h:263-305 | in every reachable state there is at most one reconnect loop; connected means no loop and no attempts; reconnecting means a loop; parked calls mean reconnecting |
| `Reconnect.StepKeepsInv` | lib/include/hacpp/async_mqtt_client.h:94-305 | every step of any number of receives, calls and closes keeps the reconnect invariant with its backoff and error facts |
| `Reconnect.ReceiveErrorsAreTruthful` | lib/include/hacpp/async_mqtt_client.h:229-246 | a session reset is returned exactly when the call's own loop has connected; any other end of the loop is exhaustion, with the state closed and the full backoff slept |
| `Reconnect.ReportsSuccessIffNoAttempts` | lib/include/hacpp/async_mqtt_client.h:281-304 | success is reported as an error in no reachable state with the code's ten attempts, nor with any number but zero |
| `Reconnect.LoopTerminates` | lib/include/hacpp/async_mqtt_client.h:282-299 | every own step of a loop uses up a measure that no other step can restore |
| `Reconnect.ReconnectIsBounded` | lib/include/hacpp/async_mqtt_client.h:282-299 | under any interference a loop makes at most the allowed connects, and sleeps no more than the closed-form total, while it runs and when it has returned |
| `Reconnect.TotalSleepClosedForm` | lib/include/hacpp/async_mqtt_client.h:274-288 | total backoff is 2^n - 1 up to five failures and 31 + 30(n - 5) beyond, 181 s for ten |
| `ReconnectOutcomes.ConnectionIsItsHistory` | lib/include/hacpp/async_mqtt_client.h:121-122 | in every run the client is connected exactly while no close and no broken receive followed its last successful connect, and reconnecting exactly while a broken receive did, no close, and the loop is active |
| `ReconnectOutcomes.CloseCloses` | lib/include/hacpp/async_mqtt_client.h:140-150 | a close closes the client in every reachable state and wakes exactly the parked calls |
| `ReconnectOutcomes.ClosedRefusesAll` | lib/include/hacpp/async_mqtt_client.h:164-167 | after a close with no loop active, and until an explicit connect, no call enters the transport and every receive that breaks returns that the client is disconnected |
| `ReconnectOutcomes.ReceiveReturnsIff` | lib/include/hacpp/async_mqtt_client.h:229-246 | every result a receive can return with the one step that returns it: among them the packet that arrived as it is, and the error of the last failed attempt |
| `ReconnectOutcomes.LoopEnteredIff` | lib/include/hacpp/async_mqtt_client.h:263-279 | a receive enters the reconnect loop exactly by breaking on a connected client |
| `ReconnectOutcomes.CallMovesIff` | lib/include/hacpp/async_mqtt_client.h:160-167 | a publish or subscribe parks exactly when it begins during a reconnect, enters the transport exactly on a connected client, and is woken exactly when the reconnect is over |
| `ReconnectOutcomes.CallEndsIff` | lib/include/hacpp/async_mqtt_client.h:202-218 | a call in the transport ends exactly with the mapped error the transport reported, and outside it only by being refused |
| `Reconnect.NoStrandedCaller` | lib/include/hacpp/async_mqtt_client.h:249-261 | a parked publish or subscribe always has an active loop to wake it, and a close wakes it |
| `Reconnect.GateIsSound` | lib/include/hacpp/async_mqtt_client.h:160-167 | a call reaches the transport only in a step that sees the client connected, and otherwise ends as not connected |
| `Reconnect.CallsNeverReportReset` | lib/include/hacpp/async_mqtt_client.h:152-218 | in no run does a publish or subscribe end with a session reset |
| `Reconnect.CallParksAtMostOnce` | lib/include/hacpp/async_mqtt_client.h:202-209 | along any run a call's progress never goes back, so it parks at most once |
| `Reconnect.ClosedStaysClosedIffNoLoop` | lib/include/hacpp/async_mqtt_client.h:140-150 | without an explicit connect a closed client stays closed exactly when no reconnect loop is active |
| `Reconnect.CloseLeavesLoop` | lib/include/hacpp/async_mqtt_client.h:140-150 | a run exists that ends closed with its loop active |
| `AsyncClient.AsyncMqttClient.HandleReconnect` | lib/include/hacpp/async_mqtt_client.h:263-305 | against any connect outcomes, and any closes, calls and receives at each suspension: the sleeps double up to the cap, the loop ends at the first success or after the last attempt with that attempt's error, the result and state say which, and the history only grows |
| `AsyncClient.AsyncMqttClient.Connect` | lib/include/hacpp/async_mqtt_client.h:94-127 | success sets connected and clears the counter; failure returns the mapped error and changes nothing |
| `AsyncClient.AsyncMqttClient.Close` | lib/include/hacpp/async_mqtt_client.h:140-150 | closes the client, wakes the parked calls and maps the transport's error |
| `AsyncClient.AsyncMqttClient.EndRecv` | lib/include/hacpp/async_mqtt_client.h:239-245 | hands on the packet as it is, or reports an invalid packet |
| `AsyncClient.AsyncMqttClient.BeginCall` | lib/include/hacpp/async_mqtt_client.h:160-167 | parks during a reconnect, enters the transport when connected, and is refused as not connected when closed |
| `AsyncClient.CappedDoublingTotal` | lib/include/hacpp/async_mqtt_client.h:274-288 | the sleeps of the loop add up to the closed form, at most 181 s for ten attempts |
| `Errors.MapErr` | lib/include/hacpp/error.h:134-163 | the result is success exactly for no error, and never a session reset |
| `Errors.CodesTellCauses` | lib/include/hacpp/error.h:89-132 | each code but the unknown error is returned for exactly its causes |
| `Entity.ReplayBeforeTraffic` | lib/include/hacpp/entity.h:237-271 | the results taken are exactly a prefix of the client's and the calls get its answers; each session reset taken causes exactly one setup in order, nothing is taken until it has fully succeeded, and a failed setup call's error is the one returned |
| `Entity.ReceiveAbsorbsResets` | lib/include/hacpp/entity.h:237-250 | the entity's receive never returns a session reset or success as an error |
| `Entity.ReceiveEndsAtStop` | lib/include/hacpp/entity.h:237-271 | the error a receive returns is that of the first result that is terminal or a session reset whose replay fails, and that is the last result taken |
| `Entity.SetupFollowsSets` | lib/include/hacpp/entity.h:180-195 | for any configuration set without clashes, a setup publishes the serialised configuration on the discovery topic, retained, subscribes the command topics, and announces the entity as available on the topic set |
| `Entity.AvailabilityFollowsSets` | lib/include/hacpp/entity.h:207-224 | an availability update publishes, on the topic set and retained, the payload set for that state or else "online" or "offline"; without a topic it publishes nothing |
| `Entity.EntityBase.Setup` | lib/include/hacpp/entity.h:180-195 | makes the setup calls in order up to the first that fails and returns that error |
| `Entity.EntityBase.UpdateAvailability` | lib/include/hacpp/entity.h:207-224 | publishes the configured or default payload, retained, or nothing without an availability topic |
| `Entity.EntityBase.Recv` | lib/include/hacpp/entity.h:237-250 | the receive loop does what its specification says on any results and call outcomes |
| `EntityConfig.ReadsBackIffNoClash` | lib/include/hacpp/entity.h:85-108 | every property set reads back its last value exactly when no name is both a top-level key and an object name |
| `EntityConfig.ContainsIsExactIff` | lib/include/hacpp/entity.h:148-155 | then asking for any property tells whether it was set exactly when it clashes with none that was |
| `EntityConfig.EntityCfg.Set` | lib/include/hacpp/entity.h:85-99 | updates the object in place, or leaves it alone where the source throws |
| `EntityConfig.ClearThenThrowsIff` | lib/include/hacpp/entity.h:71-99 | after clearing a nested property of any object, setting it and asking for it throw exactly when the parent was absent or not an object; clearing changes no existing parent |
| `EntityConfig.ClearBreaksIff` | lib/include/hacpp/entity.h:71-99 | after any string sets without clashes, a cleared nested property can no longer be set exactly when nothing was set in its object |
| `EntityConfig.ClearTopLevel` | lib/include/hacpp/entity.h:71-82 | a cleared top-level property is contained with nothing to read until it is set again, and only properties nested in it are lost |
| `Button.EndToEndPressCount` | lib/include/hacpp/button.h:91-113 | over any run, the presses a button consumed are the presses the pump received while it was registered with the command topic, up to the last result consumed |
| `Button.RunOnShared` | lib/include/hacpp/button.h:91-113 | on what the multiplexer handed out, the command loop consumes what was due to its client at some point of the run, up to the result that ended it, and starts the handler exactly that often |
| `Button.ButtonEntity.Run` | lib/include/hacpp/button.h:91-113 | starts the handler once per press consumed; an error returned is that of the last result consumed and no earlier result ends the loop; otherwise everything is consumed |
| `Button.NoCrossTalk` | lib/include/hacpp/hacpp.h:21-24 | a client subscribed by default topics is never handed a publish on a default topic of an entity that differs in component or id |
| `Button.DefaultsConfigured` | lib/include/hacpp/button.h:164-169 | with the factory's defaults the setup makes its three calls on the button's own topics, "online" and "offline" are its availability payloads, and exactly "PRESS" on its command topic is a press |
| `Topics.DefaultTopicInjective` | lib/include/hacpp/hacpp.h:11-29 | default topics determine the slash-free component, the id and the kind |
| `Topics.DefaultTopicsAre` | lib/include/hacpp/hacpp.h:9-29 | the four default topics as Home Assistant expects them |
| `Topics.SlashInComponentCollides` | lib/include/hacpp/hacpp.h:11-29 | with a slash in the component they do not |

## Left out

- The MQTT library, sockets, the handshake and packet encoding: every outcome is an event.
- Real time: only the backoff delays remain, as seconds; the wait timers never expire by themselves.
- JSON serialisation and the device object: the discovery payload is a string of the specification.
- `Cover`, `Sensor` and `BinarySensor`: entities with other topics or none; they add no harder property.
- User handlers: only their starts are counted, because they run detached.
- `async_pump_one`: the pump of the model is `async_run`.
- Unsubscribing, wildcard filters and subscribe reason codes: the code does not look at them either.
- Fairness: termination claims assume that each connect attempt completes.
- Entity.EntityBase.Recv: runs one entity against an oracle; the interleaving with the other calls is in System.dfy, on values.
