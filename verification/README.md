# Pi: sessions, agent runs, model lists and voice streams, verified

This project models the parts of the Pi runtime and its voice service in which the order of events decides
what is true, and proves what they keep. `dafny verify dfyconfig.toml` checks all of it.

Six components are modelled, each in one or more modules.

* **The client session protocol.** `Leases` is the lease protocol of one session as a state machine whose steps
  are the runs of the client from one `await` to the next: reservations, attach and detach requests, the three
  shared promises, generations. `LeaseSafety` proves what every calm run keeps, `LeaseRaces` that the conditions
  of a calm run are exact, `LeaseAttachment` what the client believes of the attachment and what acquires make of
  it, `LeaseFates` what becomes of each reservation; `PiClient` is the class with its maps, each method of which
  performs one step on its session and leaves the others alone. `Resume` and `ClientState` are the progress
  watermark and what `resume` makes of it over dropped connections, `Requests` is the matching of requests and
  responses, and `Connection` the connection lifecycle with listeners and transports that call back into it at
  every call-out, with `ConnectionLaws` on what it does when they do not.
* **The agent loop and its reducer.** `AgentEvents` has the events, the grammar of their traces and the state
  that `processEvents` rebuilds; `ToolBatches` and `ParallelTools` execute the tool calls of a message;
  `AssistantStream` turns a provider's stream into one message; `AgentLoop` is the nested loop over turns and
  queues; `PendingQueue` and `Agents` are the queues and the object around them.
* **The model catalogue.** `Publications` is the chain of publications of one provider with its generations and
  abort controllers, `PublicationLaws` tells its state from the history of what happened, `ModelsImpl` is the class
  that keeps it, `Catalog` the merging of baseline and fetched models.
* **The voice stream.** `VoiceStream` is one streaming request (producer thread, queue, consumer, cancellation),
  `VoiceOutcomes` says how it ends, `VoiceService` has the thread's loop and the semaphore shared by all requests.
* **The proxy stream.** `Lines` splits text, `Proxy` folds proxy events into a message, `ProxyReader` is the read loop,
  `ProxyLaws` what its reader gets.
* **Shortest paths.** `Dijkstra` is the program with lazy deletion, early exit and path walk.

`Options` holds the type of values that may be absent.

State machines are pure (`Enabled`, `Step`, `IsRun`, `After`), and a run is any sequence of enabled actions. The
imperative classes and loops are proved against them or against the functions of the same module. Code that
the model cannot see (listeners, hooks, tools, providers, the server, the store, timers) is a parameter: an
action, a script of inputs or a tape of calls made from inside a call-out.

Findings, each stated by a lemma below with the condition under which the code does what it promises:

* The lease protocol breaks its promises outside the calm schedules, and only there (`GuardsAreExact`). A connection
  lost between the answer to an attach request and the continuation of its acquire leaves a lease of the new
  generation without a reservation (`DisconnectGuardIsExact`); `session_removed` with an acquire under way, and a
  connection made while an acquire of an older generation has not been refused, lead to the same. An acquire admitted
  between the failure of a `dispose` and its handler is overtaken by the detach request of the next one
  (`OvertakenAcquire`). The release by session id of a call from before an invalidation takes away a newer count
  (`UncountsIff`). Calm runs reach a state for each (`GuardsAreNeeded`, `FailingIsReached`).
* The comment at runtimes/pi/packages/client/src/state.ts:143-144 says that the sequences of another server
  instance are forgotten. That does not happen across `PiClient.connect`, which has reset the old snapshot before
  (`Reconnect`); the model follows the code.
* A session whose last known sequence is 0 re-attaches without a position and skips what was logged meanwhile
  (`BlindSkips`), and nothing else breaks exactly-once delivery on the wire (`DeliversTheLog`); re-applying a stored snapshot lets delivered entries through again (`MergeRewinds`).
* A prompt result with a live speech job whose listeners dispose the client is never settled (`HandleResponse`).
* A stream with a second `start` leaves a stray partial message in the loop's context and breaks the grammar of
  the events (`RunTurn`, `StreamAssistantResponse`).
* A `get` left behind by a cancelled `receive` would take `closed` if a later `get` could overtake it
  (`OvertakingHangs`), and a generator closed before it was started keeps its slot (`DroppedKeepsItsSlot`).
* A tool call delta after its end restarts from the text `undefined` (`DeltaAfterEndRestarts`), and a proxy that
  stops in the middle of its last line leaves the result unsettled (`ResultSettlesIff`).

## Model

| member | source | states |
|---|---|---|
| `LeaseSafety.GoodStep` | runtimes/pi/packages/client/src/client.ts:231-353 | Every calm step of the protocol keeps the whole invariant: typed promises, exact counts, a suspended call behind each shared promise, and the mutual exclusion of detaching, reconciling and attaching. |
| `LeaseSafety.GoodRun` | runtimes/pi/packages/client/src/client.ts:231-353 | The invariant holds after every calm run. |
| `LeaseSafety.CalmRunsAreSafe` | runtimes/pi/packages/client/src/client.ts:294-353 | After every calm run the count is the number of outstanding reservations, an exclusive one is the only one, every current lease has its reservation, at most one session-control request is unanswered, and during a detach nobody holds a lease. |
| `LeaseRaces.GuardsAreExact` | runtimes/pi/packages/client/src/client.ts:231-353 | In every good state an action is calm if and only if no calm run after it, whether or not its own request could be encoded, leaves the safe states; so each condition under which the protocol is safe is also necessary. |
| `LeaseSafety.SlotsExclude` | runtimes/pi/packages/client/src/client.ts:235-251 | While no older call can still interfere, a reconciliation or an unrefused detachment excludes the other two promises and every lease, and while a cleanup is required only the creator of the session holds one. |
| `LeaseSafety.DetachesOnlyAlone` | runtimes/pi/packages/client/src/client.ts:322-337 | A release sends `detach` exactly when its reservation is the only outstanding one. |
| `LeaseSafety.AcquiresWaitForRelease` | runtimes/pi/packages/client/src/client.ts:235-236 | From that release until the answer, over every calm run, each acquire that is admitted waits for that answer and sends nothing. |
| `LeaseSafety.AcquiresWait` | runtimes/pi/packages/client/src/client.ts:235-239 | While any detach request is unanswered, of a release or of a reconciliation, each acquire that is admitted waits for that very request and sends nothing. |
| `LeaseSafety.CleanupComesFirst` | runtimes/pi/packages/client/src/client.ts:339-352 | After a failed `dispose` no attach request is sent and no acquire is handed a lease until a detach was answered or session or connection are lost; only the creator of the session gets its lease. |
| `LeaseSafety.StaleLeaseStaysDead` | runtimes/pi/packages/client/src/client.ts:299-315 | A lease of an older generation never passes its guard again, on any run, calm or not. |
| `LeaseAttachment.AttachedIsLastSaid` | runtimes/pi/packages/client/src/state.ts:97-116 | Over every run the client takes the session for attached exactly as the last event about it said: an attach answer or a snapshot of the server gives its flag; a detach answer, `session_removed` or a lost connection says no. |
| `LeaseAttachment.DetachedIsUnattached` | runtimes/pi/packages/client/src/client.ts:240-244 | After a detach request has succeeded the session is not attached, and no acquire is under way that could be handed a lease without a new answer. |
| `LeaseAttachment.DetachedMeansAttachAgain` | runtimes/pi/packages/client/src/client.ts:231-257 | From then on, over every calm run until an attach request succeeds or the server says otherwise, no acquire is handed a lease, and one that is admitted and has nothing to wait for sends a new attach request and waits for it. |
| `LeaseFates.EachGoesItsWay` | runtimes/pi/packages/client/src/client.ts:231-353 | On every step a reservation keeps its mode and generation, and changes only by a run of its own call, in the one way its phase and the outcome of what it waited for allow: an acquire is given up exactly if its own request was refused, a release has gone exactly if its detach succeeded, and a failed `detach` gives the lease back. |
| `LeaseFates.CleanupIsOrdered` | runtimes/pi/packages/client/src/client.ts:339-351 | Over every calm run a cleanup is required exactly if a `dispose` has failed and since then no reconciliation succeeded and neither session nor connection was lost. |
| `LeaseFates.ActiveExactly` | runtimes/pi/packages/client/src/client.ts:299-315 | Over every run a lease passes its guard exactly if it is of the current generation, the last of connecting and losing the connection was connecting, and the last word on the session is that it is attached. |
| `LeaseRaces.DisconnectGuardIsExact` | runtimes/pi/packages/client/src/client.ts:246-252 | A lost connection leaves a lease without reservation if and only if some acquire had its attach request answered and has not run since. |
| `LeaseRaces.OvertakenAcquire` | runtimes/pi/packages/client/src/client.ts:339-351 | An acquire admitted before a failed `dispose` is handled ends beside an unanswered detach request. |
| `LeaseRaces.UncountsIff` | runtimes/pi/packages/client/src/client.ts:529-534 | After a new reservation a call from before an invalidation takes its count away exactly if it waited for an attachment, for a reconciliation that failed, or as a release for a detach that succeeded. |
| `LeaseRaces.GuardsAreNeeded` | runtimes/pi/packages/client/src/client.ts:385-434 | Calm runs reach, for each kind of guarded action, a state in which the guard fails and the client would take the action. |
| `LeaseRaces.FailingIsReached` | runtimes/pi/packages/client/src/client.ts:322-343 | A calm run reaches a failed `dispose` whose handler has not run. |
| `PiClient.PiClient.AcquireSession` | runtimes/pi/packages/client/src/client.ts:231-257 | Reserves or refuses, then goes to wait for, send or reuse what the protocol step says, on the maps of this session alone. |
| `PiClient.PiClient.CreateSession` | runtimes/pi/packages/client/src/client.ts:221-225 | The exclusive lease of a created session, as the protocol step. |
| `PiClient.PiClient.ReserveSessionLease` | runtimes/pi/packages/client/src/client.ts:515-527 | Admits a mode exactly when the protocol does, and then counts and registers it. |
| `PiClient.PiClient.ReleaseSessionLease` | runtimes/pi/packages/client/src/client.ts:529-534 | Counts down by session and gives up the exclusive entry only of its own token. |
| `PiClient.PiClient.InvalidateSessionLeases` | runtimes/pi/packages/client/src/client.ts:536-541 | Forgets counts and cleanup and starts a new generation, for this session alone. |
| `PiClient.PiClient.InvalidateAllSessionLeases` | runtimes/pi/packages/client/src/client.ts:543-546 | Exactly the sessions with a count get a new generation; cleanup is forgotten everywhere. |
| `PiClient.PiClient.WakeUp` | runtimes/pi/packages/client/src/client.ts:235-256 | The continuation of a suspended acquire or release is the protocol step. |
| `PiClient.PiClient.ReleaseLease` | runtimes/pi/packages/client/src/client.ts:316-338 | `detach` and `dispose` of an active lease are the protocol step, of any other they do nothing. |
| `PiClient.PiClient.HandleReleaseFailure` | runtimes/pi/packages/client/src/client.ts:339-351 | A failed release ends released with cleanup required, active again, or invalidated. |
| `PiClient.PiClient.FinishReconciliation` | runtimes/pi/packages/client/src/client.ts:497-513 | A reconciliation clears the cleanup mark only if its detach succeeded. |
| `PiClient.PiClient.HandleAnswer` | runtimes/pi/packages/client/src/client.ts:397-422 | The answer of a session-control request is the protocol step, for its session alone; what it says of the attachment is `LeaseAttachment.AttachedIsLastSaid`. |
| `PiClient.PiClient.HandleDisconnected` | runtimes/pi/packages/client/src/client.ts:425-434 | Every session takes its own disconnect step, with its pending requests rejected. |
| `PiClient.PiClient.Perform` | runtimes/pi/packages/client/src/client.ts:231-353 | Any calm action on one session leaves every session safe. |
| `PiClient.PiClient.LoseConnection` | runtimes/pi/packages/client/src/client.ts:425-434 | A calm loss of the connection leaves every session safe. |
| `PiClient.PiClient.ReceiveSnapshot` | runtimes/pi/packages/client/src/client.ts:121-125 | So does a snapshot of the server, at a handshake that is calm for every session or later. |
| `Resume.DeliveriesRise` | runtimes/pi/packages/client/src/state.ts:118-160 | Whatever the server sends, between two snapshots the delivered sequences strictly increase and exceed the snapshot's. |
| `Resume.MergeRewinds` | runtimes/pi/packages/client/src/state.ts:162-193 | Re-applying the stored snapshot lets a delivered entry through again exactly when something was delivered since. |
| `Resume.GoodStep` | runtimes/pi/packages/client/src/client.ts:259-272 | From the client's watermark, what is under way from the server never skips an entry and ends at the end of the log. |
| `Resume.DeliversTheLog` | runtimes/pi/scripts/smoke-p0.ts:292-311 | Over any number of drops, what is delivered since the first attachment is the log from there on, in order, without gap or duplicate, if and only if the client was never handed the snapshot of a log with entries after it had been attached without hearing any; and then a client that has handled all that was sent has heard the log to its end. |
| `Resume.BlindSkips` | runtimes/pi/packages/client/src/client.ts:262-266 | Every re-attachment without a position to a server that has entries leads there and skips them. |
| `Resume.BlindIsReached` | runtimes/pi/packages/client/src/client.ts:262-266 | A run that has skipped nothing reaches one. |
| `Resume.DeliverIsTake` | runtimes/pi/packages/client/src/state.ts:118-160 | The wire model delivers exactly what the watermark of `ClientState` lets through, and a snapshot starts anew from its position. |
| `ClientState.ClientState.ApplyEvent` | runtimes/pi/packages/client/src/state.ts:118-139 | Every event acts on each session as at most one input of its watermark, and progress is heard exactly when it is above it; what each makes of stored sessions, attached ids and the server snapshot; and no revision ever goes back. |
| `ClientState.ClientState.ApplyAttachmentSnapshot` | runtimes/pi/packages/client/src/state.ts:162-169 | The attachment goes to the end of its session's list in place of any with its id, and the stored snapshot is applied again. |
| `ClientState.ClientState.ApplyAttachmentRemoved` | runtimes/pi/packages/client/src/state.ts:171-178 | The stored snapshot is applied again without the attachment exactly when it has it; otherwise nothing changes. |
| `ClientState.ClientState.ApplyProgress` | runtimes/pi/packages/client/src/state.ts:119-124 | Progress at or below the watermark is dropped, any other is taken once. |
| `ClientState.ClientState.ApplyResult` | runtimes/pi/packages/client/src/state.ts:97-116 | A detach result takes the id from the attached ones and stores its session again as not attached, at its own sequence; a result with a session applies it by revision; any other changes nothing. |
| `ClientState.ClientState.ApplyServerSnapshot` | runtimes/pi/packages/client/src/state.ts:141-150 | An older revision changes nothing; another server instance forgets every sequence; otherwise only the attachments move. |
| `ClientState.ClientState.ApplySessionSnapshot` | runtimes/pi/packages/client/src/state.ts:152-160 | A snapshot that is not older sets watermark, snapshot and attachment of its session alone. |
| `ClientState.ClientState.Reset` | runtimes/pi/packages/client/src/state.ts:37-42 | Forgets snapshots and attachments and keeps every watermark. |
| `ClientState.ClientState.Reconnect` | runtimes/pi/packages/client/src/client.ts:121-125 | Connecting anew keeps every watermark, whichever server instance answers. |
| `ClientState.ClientState.ForgetSessionSnapshot` | runtimes/pi/packages/client/src/state.ts:69-73 | Takes one snapshot out and keeps every watermark. |
| `ClientState.ClientState.RestoreSessionSnapshot` | runtimes/pi/packages/client/src/state.ts:75-77 | Puts a snapshot back unless a newer one has come, and keeps every watermark. |
| `ClientState.ClientState.RemoveSession` | runtimes/pi/packages/client/src/state.ts:127-131 | Forgets all of one session and nothing of another. |
| `Requests.Client.SendRequest` | runtimes/pi/packages/client/src/client.ts:274-292 | A request is refused, pending, or settled at once as the frame or the transport failed, and then all others are rejected with it; nothing else changes. |
| `Requests.Client.RejectPendingRequests` | runtimes/pi/packages/client/src/client.ts:467-471 | Every pending request is settled, once, with the given error, no other is touched, and none stays pending. |
| `Requests.Client.HandleResponse` | runtimes/pi/packages/client/src/client.ts:397-423 | A response that nobody waits for ends the connection; otherwise the request is settled by it, with its own command or an error, a foreign command ending the connection too, except that it is abandoned exactly when a prompt result carries live speech and a listener disposes the client. |
| `Requests.Client.DisposeClient` | runtimes/pi/packages/client/src/client.ts:473-487 | The first time, every pending request is rejected with the error of a disposed client and the connection is closed; again, nothing changes. |
| `Requests.Client.Perform` | runtimes/pi/packages/client/src/client.ts:274-487 | A call of the application does what it is named for: requesting, disconnecting with every pending request rejected as disconnected, or disposing. |
| `Requests.Client.PerformOp` | runtimes/pi/packages/client/src/client.ts:397-487 | So does each run of the client: a call, a handshake that connects unless the client is disposed of, or a response, which is ignored without a connection. |
| `Requests.Client.Run` | runtimes/pi/packages/client/src/client.ts:274-487 | Over every run a request is settled at most once, never unsettled, pending only while connected, and at most one is abandoned: one named by a prompt result with live speech whose listeners dispose the client. |
| `Connection.Connection.FailNow` | runtimes/pi/packages/client/src/connection.ts:225-231 | The attempt is over and its promise rejected if the lifecycle still held it, and listeners are told so first, whatever they do. |
| `Connection.Connection.FailAndClose` | runtimes/pi/packages/client/src/connection.ts:218-223 | The same, and the transport that was current is closed even if listeners have connected anew. |
| `Connection.Connection.Deliver` | runtimes/pi/packages/client/src/connection.ts:185-203 | A call of `onHandshake` or `onMessage` is recorded with the message, the connection that decoded it and the lifecycle at that moment; the invariant says that they agree. |
| `Connection.Connection.ConnectNow` | runtimes/pi/packages/client/src/connection.ts:66-90 | A connect while not disconnected changes nothing; otherwise a new attempt is announced, has its promise and asks the factory, whatever listeners do meanwhile, and if they do nothing it waits for its transport. |
| `Connection.Connection.FactoryFails` | runtimes/pi/packages/client/src/connection.ts:121-126 | A factory that fails ends its own attempt, with the promise rejected, and no other. |
| `Connection.Connection.CompleteHandshake` | runtimes/pi/packages/client/src/connection.ts:177-196 | The snapshot is delivered to its own connection, and the promise is settled before the run ends: resolved with that snapshot, or rejected if a callback threw or lost the connection; with callbacks that do nothing the connection is established, and a callback that throws closes it. |
| `Connection.Connection.HandleMessage` | runtimes/pi/packages/client/src/connection.ts:162-204 | A message is delivered to the established connection, completes the handshake, or ends the attempt it finds; one of an older connection that finds a new attempt ends that attempt and is not delivered. |
| `Connection.Connection.HandleData` | runtimes/pi/packages/client/src/connection.ts:142-160 | Data of an older attempt changes nothing; data before the transport or that cannot be decoded ends its connection; with callbacks that do nothing the messages are heard one after the other. |
| `Connection.Connection.HandleAll` | runtimes/pi/packages/client/src/connection.ts:157-160 | The loop over the messages of one chunk: with callbacks that do nothing each is heard in order, and a callback that throws ends it. |
| `Connection.Connection.SendNow` | runtimes/pi/packages/client/src/connection.ts:101-117 | A frame is sent exactly on an established connection, and a transport that throws ends that connection. |
| `Connection.Connection.FactoryYields` | runtimes/pi/packages/client/src/connection.ts:119-140 | A transport yielded to an attempt that is over is closed at once. One yielded to its own attempt is sent the hello and is current and open as long as the lifecycle has not left the attempt; with callbacks that do nothing the attempt has its transport, and a hello that cannot be sent ends it. |
| `Connection.Run` | runtimes/pi/packages/client/src/connection.ts:66-235 | Over every run with re-entrant callbacks each attempt the lifecycle has left has its promise settled, an established connection has it resolved, every callback was reached from the current connection, and each yielded transport is current, closed, or has reported its close. With callbacks that do nothing the run is that of the value-level connection, of which the next rows speak. |
| `ConnectionLaws.EventIs` | runtimes/pi/packages/client/src/connection.ts:66-235 | With callbacks that do nothing every event does exactly this. The lifecycle ends exactly on the events that end its attempt and advances exactly by a connect, its own transport and its own hello; a promise is resolved exactly by its hello, with its snapshot, and rejected exactly when its attempt ends before; a transport is open exactly while its attempt has it and is closed exactly if it comes too late or its attempt ends otherwise than by its own close. What belongs to another attempt changes none of these. |
| `ConnectionLaws.HearAllIs` | runtimes/pi/packages/client/src/connection.ts:142-204 | A chunk ends its connection exactly if a message is out of place: not a hello first, or not an envelope later. |
| `ConnectionLaws.CallsAreRead` | runtimes/pi/packages/client/src/connection.ts:66-235 | On every such run foreign code is called in the order announce, ask, hello, deliver, announce, frames and envelopes, announce, from the current connection alone; what it was last told is the state the connection is in; and each transport is closed once if at all. |
| `ConnectionLaws.Handshake` | runtimes/pi/packages/client/src/connection.ts:127-196 | From every reachable state without a connection, connecting, the transport and a chunk that begins with a hello establish a connection with its promise resolved with that hello, its transport open, and hello and envelopes handed on in order. |
| `AgentEvents.AgentState.ProcessEvent` | runtimes/pi/packages/agent/src/agent.ts:545-583 | The reducer: transcript, streaming message, pending calls and error after any event; the transcript is always what it was plus every message that ended, and a pending call is one started and not ended. |
| `AgentEvents.HeardIsTold` | runtimes/pi/packages/agent/src/agent-loop.ts:109-118 | A grammatical trace accounts for every message that ended. |
| `AgentEvents.NothingAfterTheEnd` | runtimes/pi/packages/agent/src/agent-loop.ts:254-274 | In a grammatical trace `agent_end` comes once and last and lists every message that ended, in order. |
| `ToolBatches.ExecutedOnce` | runtimes/pi/packages/agent/src/agent-loop.ts:600-664 | The calls whose tool is executed are some of those attended to, each once and in order: exactly those whose tool is known, whose arguments are valid, and that neither hook nor signal stopped. |
| `ToolBatches.WhatRefusals` | runtimes/pi/packages/agent/src/agent-loop.ts:600-664 | A call that is not executed is answered with an error that does not end the batch, for the first obstacle in the order tool, arguments, hook, signal, with the text of that obstacle; a call without obstacle is executed. |
| `ToolBatches.WhatExecutionsGive` | runtimes/pi/packages/agent/src/agent-loop.ts:666-754 | A call that is executed is answered with what the tool returned or the error it threw, each field as the hook after it leaves or changes it, or with the error of that hook. |
| `ToolBatches.MarksSay` | runtimes/pi/packages/agent/src/agent-loop.ts:763-787 | What is said of a call is its start, its updates if it is executed, and its end, with the body and the flag of its result message. |
| `ToolBatches.BatchIsInOrder` | runtimes/pi/packages/agent/src/agent-loop.ts:433-554 | Results are in source order with matching ids, one per call when not aborted and otherwise a non-empty prefix; the batch terminates exactly when every outcome says so. |
| `ToolBatches.ExecuteToolCallsSequential` | runtimes/pi/packages/agent/src/agent-loop.ts:433-487 | One call after the other gives that batch and executes those calls; none is started before the last has ended; exactly its starts, updates and ends are emitted, and every call opened is closed. |
| `ParallelTools.ExecuteToolCallsParallel` | runtimes/pi/packages/agent/src/agent-loop.ts:489-554 | Every interleaving of the calls gives the same batch, the same executions and the same emitted starts, updates and ends as the sequential order, and every call opened is closed. |
| `ParallelTools.RunTasks` | runtimes/pi/packages/agent/src/agent-loop.ts:522-542 | Whatever the schedule, the outcomes are collected in source order and nothing is owed or open at the end. |
| `ToolBatches.FailToolCallsFromTruncatedMessage` | runtimes/pi/packages/agent/src/agent-loop.ts:381-406 | Every call of a truncated message is answered with an error, in order, none is executed, and none ends the run. |
| `AssistantStream.StreamAssistantResponse` | runtimes/pi/packages/agent/src/agent-loop.ts:281-372 | The exact events of a response; the context gains the final message and a stray partial for each start after the first, the transcript the final message alone, and the trace stays grammatical exactly when there are none. |
| `AssistantStream.ShownAre` | runtimes/pi/packages/agent/src/agent-loop.ts:313-344 | From the first start on every event of the stream is announced, in order, each with its own partial message. |
| `AssistantStream.PushedAre` | runtimes/pi/packages/agent/src/agent-loop.ts:313-344 | The context holds one partial message for each start, and the last of them is always the latest. |
| `AgentLoop.RunBatch` | runtimes/pi/packages/agent/src/agent-loop.ts:411-426 | Truncated messages are never executed; otherwise both modes give the same batch and the same executions, and if the loop, or the first tool by the name of one of the calls, asks for sequential execution, no call is started while another is open. |
| `AgentLoop.RunTurn` | runtimes/pi/packages/agent/src/agent-loop.ts:174-225 | One turn: what is injected, asked, answered, executed and resulted; the loop goes on by itself exactly if the answer is no error or abort, has calls, and was cut off or has an outcome that does not ask to stop; at `turn_end` no call is pending, and the rebuilt transcript is the context exactly when no stream so far had a second start. |
| `AgentLoop.TurnsAnswer` | runtimes/pi/packages/agent/src/agent-loop.ts:181-216 | In every run the results of a turn answer: nothing after an error or an abort; each call with the error of a cut-off answer; otherwise the calls attended to, each with its outcome, and executed are exactly those without an obstacle, in order. |
| `AgentLoop.StepTurn` | runtimes/pi/packages/agent/src/agent-loop.ts:174-257 | A turn in a run: its transcript is what the run began with and all turns so far, and it ends the run exactly on an error, an abort or the stop hook. |
| `AgentLoop.TurnAndPoll` | runtimes/pi/packages/agent/src/agent-loop.ts:174-260 | After a turn the run is over, or the steering queue has been polled, once, and what it brought waits for the next turn; nothing queued or arrived is lost. |
| `AgentLoop.PollFor` | runtimes/pi/packages/agent/src/agent-loop.ts:258-268 | A poll takes from its queue what its mode allows and leaves the rest, behind it what came in meanwhile; follow-ups are polled only right after an empty poll of the steering queue. |
| `AgentLoop.RunLoop` | runtimes/pi/packages/agent/src/agent-loop.ts:155-275 | Over every run: the transcript grows by the prompts and what the turns tell; of each queue, what the turns injected, what the loop still holds and what is still queued are, in this order, what was queued at the start and what came in, and each poll takes all or the first of what then waits; each turn injects exactly what the last poll brought, one queued message in one-at-a-time mode; the tools executed are those of the turns, in order; the provider is asked with the whole transcript and never after an assistant message. The control flow is exact: before the first turn the steering queue is polled unless that is skipped; after a turn that neither failed nor was stopped it is polled, and the follow-ups exactly if that brought nothing and the turn had no calls, or was not cut off and every outcome asks to stop; the run goes on exactly if there is something to answer or to inject, and otherwise ends, with `agent_end` listing every message, and with nothing queued but steering messages that came in after the last look at them; after an error, an abort or a word of the stop hook it ends without a poll. |
| `AgentLoop.RunAgentLoop` | runtimes/pi/packages/agent/src/agent-loop.ts:95-118 | The same for a run that begins with prompts. |
| `AgentLoop.RunAgentLoopContinue` | runtimes/pi/packages/agent/src/agent-loop.ts:120-143 | The same without prompts; refused exactly when the transcript is empty or ends in an assistant message. |
| `PendingQueue.PendingMessageQueue.Drain` | runtimes/pi/packages/agent/src/agent.ts:143-156 | Takes all or the first, in order; what was drained and what waits is what was enqueued. |
| `PendingQueue.PendingMessageQueue.Enqueue` | runtimes/pi/packages/agent/src/agent.ts:135-137 | Adds behind what waits. |
| `Agents.Agent.Prompt` | runtimes/pi/packages/agent/src/agent.ts:350-358 | Refused exactly while a run is active, and then nothing changes; otherwise a run for the prompts from what the agent has, with all that `RunLoop` says of it. |
| `Agents.Agent.Continue` | runtimes/pi/packages/agent/src/agent.ts:361-388 | Takes prompts from steering, then follow-ups, after an assistant message, otherwise continues; what it took and what it left are what was queued, and the run is as `RunLoop` says; each refusal happens exactly in its case and changes nothing. |
| `Agents.Agent.RunPromptMessages` | runtimes/pi/packages/agent/src/agent.ts:409-423 | A run from start to finish leaves the agent idle with nothing pending. |
| `Publications.GoodStep` | runtimes/pi/packages/ai/src/models.ts:303-348 | Every step keeps one chain of publications, generations that never run ahead, and a store that holds what is being written. |
| `Publications.OneAtATime` | runtimes/pi/packages/ai/src/models.ts:327-347 | On every run, when a publication has begun every earlier one has settled. |
| `Publications.GenerationsNeverGoBack` | runtimes/pi/packages/ai/src/models.ts:330-339 | The generations that update, and those that start a write, never decrease. |
| `Publications.SupersededNeverUpdates` | runtimes/pi/packages/ai/src/models.ts:252-267 | After a newer refresh, `setProvider`, `deleteProvider` or `clearProviders`, no earlier refresh updates or starts a write, even with a write under way. |
| `Publications.PublishedIsStored` | runtimes/pi/packages/ai/src/models.ts:332-340 | When a publication with a list returns true the store holds that list at the moment of the update. |
| `PublicationLaws.HistoryOfRefreshes` | runtimes/pi/packages/ai/src/models.ts:252-319 | Over every run registration, generation, the refresh under way and the aborted signals are what the history says: generations count the refreshes, settings, deletions and effective clearings; a refresh is under way from its beginning until it ends or is superseded; aborted are the signals of callers and of refreshes superseded while under way. |
| `PublicationLaws.HistoryOfPublications` | runtimes/pi/packages/ai/src/models.ts:321-347 | Over every run each publication is what was published, waits for the one before it unless the chain had been forgotten, and stands as its history says: looked at when it starts and again when the store has answered, it settles as false exactly if it was superseded or aborted by then, fails if the store does, and settles as true otherwise. |
| `PublicationLaws.ListIsTheLast` | runtimes/pi/packages/ai/src/models.ts:338-340 | Over every run, whatever the publications persist, the provider's list is that of the last one that settled as true with an update, or empty if there is none; and the updates that ran are exactly those of the publications that settled as true with one, in their order. |
| `PublicationLaws.StoreIsTheLast` | runtimes/pi/packages/ai/src/models.ts:332-336 | Over every run the store holds what the last publication it took has put there, and the writes begun are those of the publications that were not out of date as they started, in that order. |
| `PublicationLaws.ChainMoves` | runtimes/pi/packages/ai/src/models.ts:327-329 | The first publication that has not settled can always go on, so a chain never jams. |
| `ModelsImpl.ModelsImpl.SupersedeProviderRefresh` | runtimes/pi/packages/ai/src/models.ts:303-312 | The next generation, with the previous controller aborted and dropped, for this provider alone. |
| `ModelsImpl.ModelsImpl.SetProviderNow` | runtimes/pi/packages/ai/src/models.ts:252-255 | Registering supersedes the refresh of that provider alone. |
| `ModelsImpl.ModelsImpl.DeleteProviderNow` | runtimes/pi/packages/ai/src/models.ts:257-260 | Deleting supersedes the refresh of that provider alone. |
| `ModelsImpl.ModelsImpl.ClearProvidersNow` | runtimes/pi/packages/ai/src/models.ts:262-267 | Every provider that is registered or refreshing is superseded, and none stays registered. |
| `ModelsImpl.ModelsImpl.BeginProviderRefresh` | runtimes/pi/packages/ai/src/models.ts:314-319 | A refresh gets a new generation and its own controller. |
| `ModelsImpl.ModelsImpl.EndProviderRefresh` | runtimes/pi/packages/ai/src/models.ts:414-418 | A refresh that ends removes only its own controller. |
| `ModelsImpl.ModelsImpl.PublishProviderModels` | runtimes/pi/packages/ai/src/models.ts:321-347 | A publication is put at the end of the chain of its provider. |
| `ModelsImpl.ModelsImpl.StartNow` | runtimes/pi/packages/ai/src/models.ts:329-336 | Its first part is the step of the chain: it is given up as stale, updates at once if it persists nothing, or starts to write; `PublicationLaws.ListIsTheLast` says what that makes of the list. |
| `ModelsImpl.ModelsImpl.StoreAnswersNow` | runtimes/pi/packages/ai/src/models.ts:332-340 | Its second part: it fails, is given up as stale after the write, or updates. |
| `ModelsImpl.ModelsImpl.ForgetChainNow` | runtimes/pi/packages/ai/src/models.ts:344-346 | The chain is forgotten only when its last publication has settled. |
| `Catalog.CurrentModels` | runtimes/pi/packages/ai/src/models.ts:717-725 | Every id answers with its last fetched model, or else its baseline; the baseline order is kept, new ids follow, and ids are unique when the baseline's are. |
| `Catalog.MergeOverlays` | runtimes/pi/packages/ai/src/models.ts:717-725 | The same of the merging function, for all lists. |
| `Catalog.RestoreGivesBack` | runtimes/pi/packages/ai/src/models.ts:754-776 | Restoring a published list gives it back exactly when every model carries the provider's id, and then `getModels` is the same. |
| `VoiceStream.GoodStep` | services/voice/src/pi_voice/service.py:160-228 | Every step of producer, queue, consumer and cancellation keeps the invariant of the stream. |
| `VoiceStream.QueueIsWellFormed` | services/voice/src/pi_voice/service.py:106-125 | On every run the queue carries a prefix of chunk* (done or error) closed, complete exactly when the thread has ended. |
| `VoiceStream.YieldsInOrder` | services/voice/src/pi_voice/service.py:208-222 | The bytes yielded are those of the first chunks in order, at one rate, and all of them when the stream ended normally; when it may end otherwise is `VoiceOutcomes.OutcomeIsExact`. |
| `VoiceOutcomes.PutIsGiven` | services/voice/src/pi_voice/service.py:106-125 | On every run the queue holds the chunks the provider gave, in order, then an `error` exactly if it raised and otherwise a `done`, then `closed`; without either the thread goes on until it sees the stop flag. |
| `VoiceOutcomes.OutcomeIsExact` | services/voice/src/pi_voice/service.py:194-252 | On every run a stream ends as cancelled exactly if it was cancelled; otherwise as a failure exactly if the item after the chunks it yielded is an error, a chunk that is not well formed or not of the first one's rate, or the end before any chunk; and otherwise normally. |
| `VoiceOutcomes.CallerGetsItAll` | services/voice/src/pi_voice/service.py:194-252 | A caller that neither cancels nor drops the stream and pulls as long as it can gets exactly the chunks up to the first that does not fit, the slot is given back, and the stream ends normally exactly if all fit, there was one, and the provider did not raise. |
| `VoiceOutcomes.TakenIsSeen` | services/voice/src/pi_voice/service.py:86-104 | Every item taken from the queue was looked at, is in the consumer's hand, or is the one lost to a cancelled `receive`. |
| `VoiceStream.ClosedIsNeverSwallowed` | services/voice/src/pi_voice/service.py:86-104 | A cancelled `receive` swallows at most one item and never `closed`. |
| `VoiceStream.WaitingMoves` | services/voice/src/pi_voice/service.py:86-125 | While the consumer waits for an item, in the stream or in the drain, the thread, the queue or the consumer itself can take a step. |
| `VoiceStream.NothingHangs` | services/voice/src/pi_voice/service.py:89-125 | On every run, where only callers could still act, no consumer is waiting. |
| `VoiceStream.DrainEnds` | services/voice/src/pi_voice/service.py:100-104 | Once the way out has begun every run is bounded, and a run that stops ends with the thread finished and the slot released once. |
| `VoiceStream.SlotIsReturnedOnce` | services/voice/src/pi_voice/service.py:192-226 | The slot is held from acquisition to the end; a request that is over has returned it exactly once if it ever acquired one, and only after the thread has ended. |
| `VoiceStream.DroppedKeepsItsSlot` | services/voice/src/pi_voice/service.py:208-226 | A generator closed before it was started never returns its slot. |
| `VoiceStream.DroppedIsReached` | services/voice/src/pi_voice/service.py:206-228 | A stream returned with its first chunk can be closed before it is read. |
| `VoiceStream.OvertakingHangs` | services/voice/src/pi_voice/service.py:86-104 | If a later `get` could overtake the one left behind, every drain that has one could wait for ever with the slot held. |
| `VoiceStream.LeftBehindIsReached` | services/voice/src/pi_voice/service.py:86-104 | A request cancelled while it waits for its first chunk leaves a `get` behind. |
| `VoiceService.StreamProducer.Run` | services/voice/src/pi_voice/service.py:106-125 | The thread puts the chunks it was given in time, then `done` or `error` as the case is, then `closed`. |
| `VoiceService.VoiceService.Advance` | services/voice/src/pi_voice/service.py:192-226 | Over all requests the free slots and the slots held add up to the maximum, and a request waits only while none is free. |
| `VoiceService.VoiceService.BeginSynthesis` | services/voice/src/pi_voice/service.py:160-161 | A plain synthesis takes its slot from the same semaphore. |
| `VoiceService.VoiceService.EndSynthesis` | services/voice/src/pi_voice/service.py:160-161 | And gives it back. |
| `Lines.SplitThenJoin` | runtimes/pi/packages/agent/src/proxy.ts:194 | The pieces joined by line breaks are the text, and none contains one. |
| `Lines.JoinThenSplit` | runtimes/pi/packages/agent/src/proxy.ts:194 | There is no other such list of pieces. |
| `Lines.SplitAppend` | runtimes/pi/packages/agent/src/proxy.ts:193-195 | Of text that arrives in two parts the finished lines stand and the open one goes on. |
| `Lines.UnterminatedLineIsDropped` | runtimes/pi/packages/agent/src/proxy.ts:195-209 | A last line without its break adds no line. |
| `ProxyReader.ProxyStream.ReadAll` | runtimes/pi/packages/agent/src/proxy.ts:183-226 | Message and events after any chunks are those of the finished lines of the whole text, up to the first that fails. |
| `ProxyReader.ProxyStream.ConsumeLine` | runtimes/pi/packages/agent/src/proxy.ts:198-207 | One line is skipped, fails without changing the message, or is parsed, applied and pushed. |
| `ProxyLaws.PayloadIs` | runtimes/pi/packages/agent/src/proxy.ts:198-200 | A line carries a payload exactly if it starts with `data: ` and has more than white space after it, and the payload is what is left without the white space around it. |
| `ProxyLaws.ReaderIsTold` | runtimes/pi/packages/agent/src/proxy.ts:198-207 | The events the reader gets from lines read without failure are what their proxy events tell, in order, up to the first `done` or `error`. |
| `ProxyLaws.EventTells` | runtimes/pi/packages/agent/src/proxy.ts:240-367 | What each tells: a start, an opening, a delta, an end with all the deltas of its block, a call with the id and name it was opened with and all its arguments, or the finished message; nothing for an unknown event or the end of a call that was not opened. |
| `ProxyLaws.BreaksAt` | runtimes/pi/packages/agent/src/proxy.ts:198-226 | Reading breaks at the first line whose payload is not an event or does not fit those before it, with the text for that; a reader of a stream that was not finished gets one failure with that text and the blocks rebuilt so far. |
| `ProxyReader.DoneIsSettled` | runtimes/pi/packages/ai/src/utils/event-stream.ts:21-36 | On every list of lines the events pushed end at the first `done` or `error`, the stream is done exactly when its result is settled, and that is exactly when such a line has been read. |
| `ProxyReader.ReadingRebuilds` | runtimes/pi/packages/agent/src/proxy.ts:197-208 | The message after reading lines is the one rebuilt from their events. |
| `ProxyReader.ResultSettlesIff` | runtimes/pi/packages/agent/src/proxy.ts:211-226 | The stream ends at most once, and its result settles exactly when a line fails or carries `done` or `error`. |
| `Proxy.RebuiltBlocks` | runtimes/pi/packages/agent/src/proxy.ts:240-350 | A sequence of events is accepted exactly when each fits the block it names, and then every block is its last start and the deltas since, however the blocks are interleaved. |
| `ProxyLaws.StopIs` | runtimes/pi/packages/agent/src/proxy.ts:352-361 | The message carries the reason of the last `done` or `error` and the text of the last `error`. |
| `ProxyLaws.SignatureIs` | runtimes/pi/packages/agent/src/proxy.ts:264-312 | A block carries the signature of its last end since it was started. |
| `Proxy.BlocksAreIndependent` | runtimes/pi/packages/agent/src/proxy.ts:240-350 | Leaving out every event of the other blocks leaves a block as it was. |
| `Proxy.DeltaAfterEndRestarts` | runtimes/pi/packages/agent/src/proxy.ts:322-341 | A delta after the end of a tool call is parsed from the wrong text, unless the earlier deltas spell the word for the missing field. |
| `Dijkstra.Run` | runtimes/pi/design/dijkstra.py:5-38 | The distance is the minimum over all walks, the path is a simple walk of that cost, there is no answer exactly when the end is unreachable, and the program terminates. |
| `Dijkstra.BuildAdjacency` | runtimes/pi/design/dijkstra.py:10-13 | The lists hold exactly the undirected edges. |
| `Dijkstra.HeapPop` | runtimes/pi/design/dijkstra.py:20 | Some entry of least distance is taken, and only it. |
| `Dijkstra.Expand` | runtimes/pi/design/dijkstra.py:26-31 | Relaxing one node keeps the tree, the frontier and the order of settling, and leaves no edge of it to relax. |
| `Dijkstra.WalkBack` | runtimes/pi/design/dijkstra.py:35-38 | Following the links from a settled node ends at the start and gives the tree walk. |
| `Dijkstra.FrontierBound` | runtimes/pi/design/dijkstra.py:19-25 | Every walk that leaves the settled nodes costs at least the distance of some open node. |
| `Dijkstra.TreeWalkIsSimple` | runtimes/pi/design/dijkstra.py:35-38 | The tree walk visits no node twice, even with edges of weight zero. |
| `Dijkstra.PoppedIsShortest` | runtimes/pi/design/dijkstra.py:20-25 | A node popped unsettled has its shortest distance, so the early exit is right. |
| `Dijkstra.ExhaustedIsUnreachable` | runtimes/pi/design/dijkstra.py:33-34 | When the heap is empty an unsettled node cannot be reached. |

## Left out

- LeaseSafety.CalmRunsAreSafe: holds for calm runs, as the code keeps no more. No acquire or create starts while an acquire from before an invalidation is suspended or a release from then may still succeed, no acquire starts between a failed `dispose` and its handler, no connection is made while an acquire of an older generation has not been refused, `session_removed` comes with no acquire under way, and the connection is not lost between an attach answer and its acquire. `LeaseRaces.GuardsAreExact` proves that outside each of these the promises can be broken.
- Resume.DeliversTheLog: detach results and merges are not part of its wire model; `DeliveriesRise` and `MergeRewinds` cover them.
- Connection.Run: assumes that `onStateChange` listeners do not throw; decoding is an arbitrary list of messages or a failure. The exact laws are stated for callbacks that do nothing, and single methods also for a callback that throws at once.
- Requests.Client.HandleResponse: events and speech job handles are left out; listeners may make any calls of the client, in any number.
- AgentLoop.RunLoop: assumes that no hook, stream or listener throws outside the places the code catches, and that `prepareNextTurn` does not replace the context. A script that is too short cuts the run at the start of a turn. That the provider is asked after a message that is not the assistant's is claimed for runs whose context and queued messages allow it.
- AgentLoop.RunTurn: partial and final messages are values, so the sharing of one message object between stream, context and events is not captured; `transformContext` and `convertToLlm` are not part of this model, the context before them is what the provider is said to be asked with.
- Agents.Agent.Prompt: `handleRunFailure` is left out with the exceptions; `clear` and `reset` of the queues are left out, as conservation is claimed without them.
- ParallelTools.ExecuteToolCallsParallel: updates given after a tool has settled are ignored by the code and absent from the inputs; the three abort checks of a call are independent inputs, which allows more than a signal does.
- Publications.SupersededNeverUpdates: memory is kept per provider id, not per provider object; a store write may be applied without being answered.
- VoiceStream.NothingHangs: assumes that waiting `get` calls are served in order, that the provider raises only `Exception`, that `provider.stream` itself does not raise, and that the drain timeout does not fire. Sample checks are one flag per chunk.
- ProxyReader.ProxyStream.ReadAll: starts from decoded text and no abort; `fetch`, its error responses and the abort listener are left out, `JSON.parse` and the tolerant argument parser are parameters, usage is left out.
- Dijkstra.Run: weights are real and non-negative; rounding is left out, and ties in the heap are broken in any way.
- Frames, CBOR, the server and its backend: reduced to the assumptions above.
- `ModelsImpl.refresh` and `createProvider.refreshModels` as flows (credentials, phases, collected errors): they only call the operations modelled, in an order that the model leaves open.
- Speech job handles, listener error reporting, timestamps and usage counters: tables and bookkeeping without interplay.
- Avatar, web components, command line, configuration and provider adapters: no state shared with what is modelled.
