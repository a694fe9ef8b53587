# Nekode control plane: a verified model

Nekode runs coding agents on many computers. A server keeps runs, leases and a
queue of events in memory; a daemon on each computer subscribes to those events,
executes every startable run and direct message it is offered, whatever computer
it is for, polls for the runs of its own computer besides, and relays browser
traffic to local dev servers through one tunnel stream. This project models that
control plane in Dafny and proves what it keeps over every run of it.

Concurrency is modelled as atomic steps: one step per lock hold, one per RPC or
store call. Clock readings, fresh ids, command results and every failure are
inputs, so a theorem over all histories is a theorem over all of those too.
Finite histories are lists with the newest entry outermost (`Histories.dfy`).
Where the program changes objects in place (the server's maps, shared lease
objects, body pipes, the recorder, the supervisor's table) the model has classes
whose methods are proved against functions, and the theorems are about those
functions.

| module | what it covers |
|---|---|
| `ServerEvents`, `EventDelivery` | event queue; subscription, breakage, handling and acknowledgement as one protocol |
| `Idempotency`, `IdempotencyRaces` | replay, reserve, remember: as whole calls with restarts, and as interleaved steps |
| `Runs`, `PromptSnapshots` | claims, status updates, launch prompt snapshots |
| `ComputerLeases` | registration, heartbeats, permits, renewals, derived status |
| `OutboundRouting` | outbound deliveries of one message |
| `RunSupervisor`, `RunRestarts` | reservation table; executions of a run started from copies of it that may be old |
| `RunExecution`, `RunOutcome` | one execution and its call trace; that trace applied to the server |
| `TunnelBodies`, `TunnelResponses` | request bodies demultiplexed from one stream; responses multiplexed onto one |
| `ProjectionKeys`, `AgentSlugs` | cache keys; agent slugs |

`dafny verify dfyconfig.toml` checks all of it.

## Where the obvious claim is not what the code gives

- **A completed call can run again.** `reserve` lets a caller through when the
  record is already complete. For whole calls and restarts, an effect runs more
  than once exactly if some call of it found the record complete, the map without
  an entry, and a read that failed (`AtMostOnceIff`, witness `ReadFailureRunsTwice`).
  Interleaved, it runs twice exactly when a late caller, one let through after
  completion, runs it (`RunsTwiceIffLate`, witness `LateCallerRunsAgain`).
- **A completed answer can change** under interleaving. What callers are answered
  changes exactly when a late caller writes a different response to the map, or a
  restart drops such a one that did not get to the record (`AnswerChangesIff`,
  witnesses `LateCallerOverwrites`, `LateCallerFlickers`). The stored record changes
  exactly when a late caller's record write is served (`ResponseChangesIff`).
- **A pending record can be stuck.** Between whole calls, a key is refused for ever
  exactly when its record is pending and the map has no entry (`PendingIsStuck`): at
  once after an error reply, and at the next restart after an answer whose record
  could not be completed (`FailuresGetStuck`). Among interleaved calls, it is never
  answered again exactly when, besides, no call of it is past reserve (`NeverAnsweredIff`).
- **A terminal run can be reopened.** `UpdateRunStatus` has no guard. A task has
  one live run per agent throughout a history exactly if no update ever reopens a
  run whose task and agent have another live one (`OneLiveRunIff`), which a
  history of four steps does (`ReopeningDoubles`).
- **One executor at a time in a daemon, not one execution.** A daemon starts every
  startable run event it is offered, whatever computer the run is for, and its
  table of runs in progress is its own. Over any number of daemons a run's command
  is run twice exactly if, of two executions that ran it, either different daemons
  reserved each before the other's Running update was served, or one was reserved
  with a copy of the run from before the other's Running update that had been
  served meanwhile, or with a copy from after somebody else reopened the run
  (`RunsTwiceIff`; `OldCopiesAreTheReason` without reopenings, `OneDaemonRunsTwiceIff`
  for one daemon). It happens when one event reaches two daemons
  (`TwoDaemonsRunBoth`), when a poll is at work on its list while an event has the
  run executed (`OldListRunsAgain`), when an event is offered again before its
  acknowledgement is applied (`LateAckRunsAgain`), and when a daemon dies after
  running the command (`CrashRunsAgain`). A command can be run (again), without
  anybody's help, exactly as long as an execution has it ahead, the server has the
  run startable, a startable copy is on its way, or an event with one is not
  acknowledged (`CanRunAgainIff`; for direct messages `MessageRunsAgainIff`). Once
  acknowledged and used up, it is done (`AcknowledgedIsDone`).
- **An execution can leave its permit behind**, exactly when the grant was made
  but not heard, or the release was not served (`PermitsGivenBackIff`). Likewise a
  failed store write can leave a terminal run with an unmoved task
  (`ExecutionOutcome`).
- **Renewing a run lease moves a computer's expiry** when the id names a
  computer's lease, and then offline and expired agree only if the new expiry
  happens to be 90 seconds after the last heartbeat (`RenewRunLease`, witness
  `RenewedAsRun`).
  `ReleaseStartPermit` deletes whatever kind of lease the id names.
- **Overlapping prompt builds differ.** A stored snapshot is stable exactly if no
  call is between its two lock holds for the run (`SnapshotIsStable`). Two first
  calls may build two snapshots, and the first caller's is never served again
  (`OverlappingBuildsDiffer`).
- **Body writes never wait.** The comment on `requestBody` speaks of backpressure
  (cmd/nekode-daemon/tunnel_proxy.go:366-369); the code appends without bound, and
  the model follows the code.
- **A response may lack its END.** The plain path ends its response exactly if the
  body was read out, no frame was refused and the context was not canceled before
  any of the reads (`HandleUpstream`); the streams are otherwise proper prefixes.
  The WebSocket path sends its END after a refused body frame too (`HandleWebSocket`).

## Model

| member | source | states |
|---|---|---|
| ServerEvents.EventServer.Enqueue | internal/daemonrpc/server.go:3160-3176 | an event gets the next number and its id only where it has none, and is in the queue when the lock is released |
| ServerEvents.EventServer.NextSequence | internal/daemonrpc/server.go:2263-2268 | taking a number for a ping uses it up and leaves the queue alone |
| ServerEvents.EventServer.AcknowledgeServerEvents | internal/daemonrpc/server.go:1749-1756 | exactly the named ids leave the queue |
| ServerEvents.EventServer.PendingServerEvents | internal/daemonrpc/server.go:3178-3234 | whatever order the map is walked in: exactly the queued, matching, unsent events by strictly increasing sequence |
| ServerEvents.SortIncreasing | internal/daemonrpc/server.go:3187-3190 | events of different sequences sort into strictly increasing order |
| ServerEvents.PendingIsUnique | internal/daemonrpc/server.go:3178-3192 | queue, request and sent set determine the pending list, so map order never shows |
| ServerEvents.OfferedWithAll | internal/daemonrpc/server.go:3194-3203 | with either include-all flag an unsent event is in the batch exactly if no kinds are named or its kind is |
| ServerEvents.OfferedByPayload | internal/daemonrpc/server.go:3194-3225 | without the include-all flags an unsent event is in the batch exactly if its kind is asked for and its payload fits: computer or agent, aggregate or target, target, or the target of the event |
| EventDelivery.Invariant | internal/daemonrpc/server.go:1749-1797 | every history of enqueues, subscriptions, ticks, sends, breaks, handlings and acks keeps queue, streams, daemons and acks consistent |
| EventDelivery.AtLeastOnce | cmd/nekode-daemon/main.go:226-290 | every event ever queued is still queued unchanged or was handled without error by some daemon |
| EventDelivery.RemovedOnlyOnceHandled | internal/daemonrpc/server.go:1749-1756 | the only step that removes an event is an acknowledgement sent by a daemon that had handled it |
| EventDelivery.SubscriptionOrder | internal/daemonrpc/server.go:1758-1797 | over a whole subscription sequences strictly increase, nothing is sent twice, only matching events go out, and after a tick's batch all that matched at the tick have been sent |
| EventDelivery.FreshSubscriptionOffersAll | internal/daemonrpc/server.go:1781-1796 | the first batch of a subscription is every matching event still queued |
| EventDelivery.NotOfferedAgain | internal/daemonrpc/server.go:3178-3186 | within one subscription an event that was sent is not offered again, even if handling it failed |
| EventDelivery.SubscriptionPings | internal/daemonrpc/server.go:1758-1779 | a subscription opens with a ping that uses up a number |
| EventDelivery.DaemonIsOffered | cmd/nekode-daemon/main.go:232-244 | a daemon is offered exactly the unsent controls, messages and runs, whatever computer or agent they are for |
| EventDelivery.StreamIsFifo | cmd/nekode-daemon/main.go:226-290 | a daemon takes off a stream exactly what was put on it, in order, up to what is on the wire or dropped: a ping, the events sent, perhaps one leak as it broke |
| EventDelivery.EveryEventCanGetThrough | internal/daemonrpc/server.go:1749-1797 | in every state each queued event can still be subscribed to, sent, handled, acknowledged and removed |
| EventDelivery.EventConsumer.ReceiveUntilBroken | cmd/nekode-daemon/main.go:245-272 | exactly the events handled without error, and having an id, are acknowledged |
| Idempotency.CacheKeyInjective | internal/daemonrpc/server.go:2346-2352 | the map's key determines method and key, as no method name has a colon |
| Idempotency.IdempotentServer.ReplayCall | internal/daemonrpc/server.go:2270-2295 | the idempotency key, or the request id where there is none, identifies the call; answers from the map, else from a completed record, and not at all without either |
| Idempotency.IdempotentServer.ReserveCall | internal/daemonrpc/server.go:2297-2318 | proceeds exactly if there is no key, the record was made now, or it is complete; a pending record or a store fault refuses |
| Idempotency.IdempotentServer.RememberCall | internal/daemonrpc/server.go:2320-2344 | the map is written even where completing the record fails |
| Idempotency.RetryWithKey | internal/daemonrpc/server.go:2270-2352 | a retry with the same key and any request id is given the remembered response, and makes no second record |
| Idempotency.RetryWithRequestId | internal/daemonrpc/server.go:2270-2352 | without a key the request id plays its part |
| Idempotency.OtherKeysKeepTheirAnswer | internal/daemonrpc/server.go:2320-2352 | what is remembered for one method and key leaves the answer of every other |
| Idempotency.AtMostOnceIff | internal/daemonrpc/server.go:2270-2344 | over every history of calls and restarts an effect runs at most once per method and key exactly if no call of it was let through: record complete, no map entry, read failing |
| Idempotency.AtMostOnce | internal/daemonrpc/server.go:2270-2344 | so it runs at most once if the record could be read whenever that key was called |
| Idempotency.CacheIsFaithful | internal/daemonrpc/server.go:2270-2344 | over every history in which no call of the key was let through, a map entry is the completed record of exactly its method and key, or that record is pending because completing it failed |
| Idempotency.AnswerIsStable | internal/daemonrpc/server.go:2270-2344 | once the record is complete, across restarts, failing writes and all other calls, the same method and key get the equal answer and asking changes nothing |
| Idempotency.AnswerIsStableIff | internal/daemonrpc/server.go:2270-2344 | a response is the answer for good exactly if it is the completed record |
| Idempotency.ReadFailureRunsTwice | internal/daemonrpc/server.go:2281-2317 | a concrete history: call, restart, call with a failing read, and the effect ran twice |
| Idempotency.PendingIsStuck | internal/daemonrpc/server.go:2307-2317 | for calls one at a time: every later call of a key is refused, whatever happens, exactly if its record is pending and the map has no entry |
| Idempotency.FailuresGetStuck | internal/daemonrpc/server.go:2297-2344 | concrete histories: an error reply gets stuck at once, a failed completion at the next restart and not before |
| IdempotencyRaces.OnePastReserveWhilePending | internal/daemonrpc/server.go:2297-2344 | under any interleaving at most one caller is past reserve while the record is pending, and it made the record |
| IdempotencyRaces.AnsweredIsThrough | internal/daemonrpc/server.go:2276-2294 | a call whose key is answered is not let past reserve and writes nothing |
| IdempotencyRaces.ThroughIsThrough | internal/daemonrpc/server.go:2270-2344 | a call that is through never runs its effect again |
| IdempotencyRaces.CompletedForGood | internal/daemonrpc/server.go:2320-2344 | no record disappears and none leaves completed; whether its response stays is the next rows |
| IdempotencyRaces.ResponseChangesIff | internal/daemonrpc/server.go:2320-2344 | the response stored in a completed record changes exactly when a caller let through after completion has its record write of a different one served |
| IdempotencyRaces.ResponseStays | internal/daemonrpc/server.go:2320-2344 | over every continuation without such a write the stored response stays |
| IdempotencyRaces.AnswerChangesIff | internal/daemonrpc/server.go:2270-2344 | the answer for a completed key changes exactly when a late caller writes a different one to the map, or a restart drops a map entry that differs from the record |
| IdempotencyRaces.AnswerStays | internal/daemonrpc/server.go:2270-2344 | over every continuation without such a step the answer stays |
| IdempotencyRaces.LateCallerOverwrites | internal/daemonrpc/server.go:2297-2344 | a concrete interleaving in which record and answer change |
| IdempotencyRaces.LateCallerFlickers | internal/daemonrpc/server.go:2270-2344 | a concrete interleaving in which a failing record write leaves the record, changes the answer, and a restart changes it back |
| IdempotencyRaces.NeverAnsweredIff | internal/daemonrpc/server.go:2297-2344 | under any interleaving a key is never answered again exactly if its record is pending, the map has no entry and no call of it is past reserve |
| IdempotencyRaces.RunsTwiceIffLate | internal/daemonrpc/server.go:2297-2318 | an effect runs twice exactly if a caller let through after completion ran it |
| IdempotencyRaces.LateCallerRunsAgain | internal/daemonrpc/server.go:2297-2318 | a concrete interleaving in which it does |
| IdempotencyRaces.OriginsInvariant | internal/daemonrpc/server.go:2270-2344 | each record has one maker, and a completed record's maker has run its effect |
| Runs.RunTable.EnsureClaimRun | internal/daemonrpc/server.go:819-861 | answers a live run of the task and agent exactly if there is one, else adds a queued run and its CREATED event in the same step |
| Runs.RunTable.UpdateRunStatus | internal/daemonrpc/server.go:1904-1975 | creates, fills in and moves the run and queues its UPDATED event; an empty run id changes nothing |
| Runs.RunTable.FillAndMove | internal/daemonrpc/server.go:1934-1956 | only empty agent, computer, profile, target and lease are filled in |
| Runs.IdentityIsWriteOnce | internal/daemonrpc/server.go:1919-1975 | over every history runs are never removed, task ids never change, and agent, target, computer, profile and lease never change once set |
| Runs.CompletionTime | internal/daemonrpc/server.go:1952-1958 | a run has a completion time exactly if some update made it terminal |
| Runs.OneLiveRun | internal/daemonrpc/server.go:819-861 | without reopening, a task has at most one live run per agent over every history |
| Runs.OneLiveRunIff | internal/daemonrpc/server.go:1919-1975 | over every history a task has at most one live run per agent throughout exactly if no update reopens a run beside another live one |
| Runs.UpdateKeepsOneLiveIff | internal/daemonrpc/server.go:1952-1958 | one update keeps that exactly unless it reopens a run beside another live one |
| Runs.ReopeningDoubles | internal/daemonrpc/server.go:1952-1958 | a concrete history with two live runs for one task and agent |
| Runs.RepeatedClaim | internal/daemonrpc/server.go:819-830 | a repeated claim changes nothing and has only one run to answer with |
| Runs.AnnouncedOnce | internal/daemonrpc/server.go:845-861 | exactly the runs made by claims have a CREATED event, each exactly one |
| Runs.ClaimAnnounces | internal/daemonrpc/server.go:832-861 | that event carries the next number and the new run's computer and agent |
| Runs.ClaimedRun | internal/daemonrpc/server.go:819-845 | a claim makes a queued, untouched run on its agent's route exactly if the task and agent have no run that is neither completed, failed nor canceled |
| Runs.UpdateOfKnownRun | internal/daemonrpc/server.go:1934-1958 | what the update says replaces what the run said; what was empty is filled from the update or the route of the run; the completion time moves on the three terminal states only |
| Runs.UpdateOfUnknownRun | internal/daemonrpc/server.go:1921-1933 | an update of an unknown run makes it, without a task |
| Runs.UpdateAnnounces | internal/daemonrpc/server.go:1959-1975 | each update queues one UPDATED event for the run, to its target, else its computer, else its agent |
| PromptSnapshots.SnapshotIdsApart | internal/daemonrpc/prompt_snapshot.go:168-173 | snapshot ids are equal exactly if trimmed run ids and digests are, thanks to the fixed-width digest |
| PromptSnapshots.SnapshotIdLooks | internal/daemonrpc/prompt_snapshot.go:168-173 | "prompt_", the run id without "run_", and the digest |
| PromptSnapshots.SnapshotStore.GetLaunchPromptSnapshot | internal/daemonrpc/prompt_snapshot.go:20-73 | serves the stored snapshot if the run points at one, else builds, stores and points |
| PromptSnapshots.Invariant | internal/daemonrpc/prompt_snapshot.go:27-70 | under any interleaving of the two lock holds with run changes, a nonempty snapshot id points at the snapshot last stored for its run |
| PromptSnapshots.AnswersWithLastStored | internal/daemonrpc/prompt_snapshot.go:27-37 | a call is answered from the table exactly if its run ever had a snapshot stored, and with the last |
| PromptSnapshots.SnapshotIsStable | internal/daemonrpc/prompt_snapshot.go:20-73 | a stored snapshot answers every later call, whatever else happens, exactly if no call is between its two lock holds for the run |
| PromptSnapshots.OverlappingBuildsDiffer | internal/daemonrpc/prompt_snapshot.go:63-70 | a history from the empty server with two overlapping first builds: no later call is ever given the first answer |
| ComputerLeases.OnlyDecays | internal/daemonrpc/server.go:1625-1648 | without heartbeats a status goes only from fresh to stale to offline, even if syncs change what is reported |
| ComputerLeases.StatusByAge | internal/daemonrpc/server.go:1625-1648 | offline from 90 seconds after the heartbeat, stale from 60, before that Degraded if reported so, else online |
| ComputerLeases.OfflineIsExpiryIff | internal/daemonrpc/server.go:26-33 | offline equals expired at all times if and only if the lease ends 90 seconds after the heartbeat |
| ComputerLeases.LeaseServer.OfflineExactlyWhenExpired | internal/daemonrpc/server.go:1625-1648 | in every valid state a computer with a heartbeat is offline exactly if its lease has expired |
| ComputerLeases.Computer.Beat | internal/daemonrpc/server.go:172-196 | keeps the lease the caller names if it is this computer's, else takes a fresh one; either runs out 90 seconds from now |
| ComputerLeases.LeaseServer.RegisterComputer | internal/daemonrpc/server.go:132-162 | a fresh computer and lease, other computers untouched, and the state stays valid |
| ComputerLeases.LeaseServer.HeartbeatComputer | internal/daemonrpc/server.go:164-215 | afterwards the computer's lease and the table's are one object, and the state stays valid |
| ComputerLeases.LeaseServer.SyncComputerInventory | internal/daemonrpc/server.go:217-243 | never touches a lease or a heartbeat time |
| ComputerLeases.LeaseServer.AcquireStartPermit | internal/daemonrpc/server.go:258-281 | adds exactly one fresh lease, or none if computer or agent is missing |
| ComputerLeases.LeaseServer.ReleaseStartPermit | internal/daemonrpc/server.go:283-298 | removes the lease of that id, of whatever kind |
| ComputerLeases.LeaseServer.RenewRunLease | internal/daemonrpc/server.go:2118-2148 | keeps the state valid if and only if no computer's lease is moved off its 90 seconds |
| ComputerLeases.RenewedAsRun | internal/daemonrpc/server.go:2118-2148 | a registered computer whose lease is renewed as a run lease is offline 90 seconds later while its lease has not expired |
| OutboundRouting.SelectedMeaning | internal/daemonrpc/server.go:2564-2590 | the routes' deliveries: no endpoint twice, exactly the usable ones not yet served, by first mention |
| OutboundRouting.SourceMeaning | internal/daemonrpc/server.go:2594-2625 | the message itself, else its parent, else the root of the parent's thread, whichever first has an outside origin |
| OutboundRouting.SourceEndpointMeaning | internal/daemonrpc/server.go:2413-2433 | the source endpoint is served exactly if a source message names it, it is enabled and nothing suppresses it |
| OutboundRouting.OutboundServer.EnqueueSourceOutboundDelivery | internal/daemonrpc/server.go:2409-2447 | one delivery exactly if the message, its parent or its thread's root has a usable, unsuppressed source |
| OutboundRouting.OutboundServer.EnqueueRoutedOutboundDeliveries | internal/daemonrpc/server.go:2534-2592 | delivers to the wanted endpoints in order, or up to a store refusal, with one event per row made and no other event; every row carries the message, the endpoint's kind and, for the source only, the outside message it answers |
| OutboundRouting.DeliveredOnceToEach | internal/daemonrpc/server.go:2534-2592 | the wanted endpoints: source first, none twice, exactly the source and the usable route endpoints |
| OutboundRouting.OneEventEach | internal/daemonrpc/server.go:2627-2648 | any number of deliveries adds exactly one CREATED event each, numbered in order, and changes no other event |
| RunSupervisor.Supervisor.ReserveRun | cmd/nekode-daemon/supervisor.go:144-152 | takes an id exactly if it is free |
| RunSupervisor.Supervisor.SetProcessCommand | cmd/nekode-daemon/supervisor.go:154-165 | gives a reserved run its agent and cancel, and no other run |
| RunSupervisor.Supervisor.ReleaseRun | cmd/nekode-daemon/supervisor.go:167-171 | frees exactly that id |
| RunSupervisor.Supervisor.CancelAgentRuns | cmd/nekode-daemon/supervisor.go:220-234 | calls and counts exactly the cancels of the runs the agent concerns, in any map order |
| RunSupervisor.AlwaysOneExecutor | cmd/nekode-daemon/supervisor.go:103-171 | in any interleaving one daemon's table is exactly the runs it is executing, each by one worker |
| RunSupervisor.ControlCancelsExactly | cmd/nekode-daemon/supervisor.go:195-234 | a control event cancels a handle exactly if it belongs to a run being executed that matches |
| RunSupervisor.TooEarlyToCancel | cmd/nekode-daemon/supervisor.go:144-234 | before that a control event does nothing to it |
| RunSupervisor.CommandIsCanceled | cmd/nekode-daemon/supervisor.go:154-234 | once a run has its command, the next matching control event cancels it |
| RunRestarts.Invariant | cmd/nekode-daemon/supervisor.go:103-193 | within one daemon executions of one run never overlap; after a Running update the server, the copies still about and those used are startable only through a reopening |
| RunRestarts.ReachMeans | cmd/nekode-daemon/supervisor.go:118-142 | a copy is used up, and starts an execution exactly if the run has a name, is unspecified or queued in it and is not being executed by this daemon |
| RunRestarts.ReleaseMeans | cmd/nekode-daemon/supervisor.go:183-193 | an execution let go is done with its event, unless it was for a direct message whose receipt failed |
| RunRestarts.RunsTwiceIff | cmd/nekode-daemon/supervisor.go:103-193 | over every history of any number of daemons, with fetches, events offered and acknowledged, lost calls, crashes and updates by others: a command is run twice exactly by overlapping daemons, an old copy, or a reopening |
| RunRestarts.OldCopiesAreTheReason | cmd/nekode-daemon/supervisor.go:103-193 | if only daemons move the run, it is run twice exactly by overlapping daemons or an old copy |
| RunRestarts.OneDaemonRunsTwiceIff | cmd/nekode-daemon/supervisor.go:103-193 | if besides one daemon ran all of it, exactly by an old copy |
| RunRestarts.CanRunAgainIff | cmd/nekode-daemon/supervisor.go:103-193 | a command can be run (again) without help exactly if an execution has it still ahead, the run is startable on the server, a startable copy is on its way or in an unacknowledged event, or the run is yet to come |
| RunRestarts.MessageRunsAgainIff | cmd/nekode-daemon/supervisor.go:275-296 | a direct message's command can be run (again) exactly as long as its event is unacknowledged or on its way, or an execution has it still ahead |
| RunRestarts.OldListRunsAgain | cmd/nekode-daemon/supervisor.go:118-127 | a concrete history: a poll holding its list runs a run again that an event had executed, completed and seen acknowledged meanwhile |
| RunRestarts.LateAckRunsAgain | cmd/nekode-daemon/main.go:254-268 | a concrete history: the event of a completed run is offered to the next subscription before its acknowledgement is applied, and the run is run again |
| RunRestarts.TwoDaemonsRunBoth | cmd/nekode-daemon/main.go:232-244 | a concrete history: one event, offered to two daemons, has both run the command at the same time, with no old copy and no reopening |
| RunRestarts.CrashRunsAgain | cmd/nekode-daemon/main.go:254-268 | a concrete history: a daemon dies after running a command, its event is unhandled, and the next process runs the command again |
| RunRestarts.AcknowledgedIsDone | cmd/nekode-daemon/supervisor.go:118-127 | a concrete history: the poll skips the run while an event has it executed; once acknowledged, no continuation runs it again without help |
| RunExecution.RunExecutor.ExecuteRun | cmd/nekode-daemon/supervisor.go:318-428 | for every combination of failures the calls made, deferred ones included, are exactly the trace |
| RunExecution.RunExecutor.NewRunRecorder | cmd/nekode-daemon/run_recorder.go:33-61 | no call without a run id; else an attempt to open, then START, then a close if START was refused; a recorder exactly if START was taken |
| RunExecution.RunRecorder.CloseWithEnd | cmd/nekode-daemon/run_recorder.go:82-93 | one END and one close on the first call, nothing on later ones |
| RunExecution.TraceViews | cmd/nekode-daemon/supervisor.go:318-482 | exactly one terminal update, Completed exactly if the command was reached and succeeded; an opened archive has START, perhaps TOOL_CALL and one answer, one END with the real reason, and a close; a usable permit is released once, after the terminal update; the command runs at most once |
| RunExecution.ArchiveFrames | cmd/nekode-daemon/run_recorder.go:33-93 | the frames of an execution for each answer of the archive and each outcome, START and END texts included |
| RunExecution.ServerCalls | cmd/nekode-daemon/supervisor.go:340-467 | one Failed update without a permit; else a Running and a terminal update and the release, all with the permit's lease if it is usable |
| RunExecution.CommandInOrder | cmd/nekode-daemon/supervisor.go:376-428 | the order of the calls from the command on, for success and failure |
| RunExecution.PermittedInOrder | cmd/nekode-daemon/supervisor.go:349-375 | the order of the calls up to the command, and of each early exit: END, close, failed step, failed update, blocked status |
| RunExecution.TraceInOrder | cmd/nekode-daemon/supervisor.go:318-348 | from the archive and the permit to the release, which comes last |
| RunOutcome.CallsDecide | cmd/nekode-daemon/supervisor.go:318-428 | what an execution does to runs, tasks and leases depends on its permit and update calls alone |
| RunOutcome.ExecutionOutcome | internal/daemonrpc/server.go:1904-2079 | whatever fails and whether or not the server held the run, it ends Completed exactly on success, its task in_review or blocked to match, and no other run or task moves; a lost terminal update leaves the run, a half-done one the task |
| RunOutcome.OutcomeInFields | internal/daemonrpc/server.go:1904-2079 | state and task by what happened: permit, first update, snapshot, command and terminal update |
| RunOutcome.RunSaysLast | internal/daemonrpc/server.go:1952-1956 | the run ends with the words of the terminal update if that was served, else of the first |
| RunOutcome.UnknownRunOutcome | internal/daemonrpc/server.go:1919-1933 | a run the server did not hold, as for a direct message, is added alone and without a task by the first update that arrives |
| RunOutcome.PermitsGivenBackIff | internal/daemonrpc/server.go:258-298 | for every run, the lease table is as before exactly unless a grant was not heard or a release not served; then one permit stays |
| RunOutcome.PermitsInFields | internal/daemonrpc/server.go:258-298 | which lease stays, by what happened to permit and release |
| RunOutcome.CleanExecution | cmd/nekode-daemon/supervisor.go:318-428 | with all calls served: terminal run, task in_review or blocked, lease table unchanged |
| TunnelBodies.RequestBody.Write | cmd/nekode-daemon/tunnel_proxy.go:383-391 | appends at once, or drops the chunk if closed |
| TunnelBodies.RequestBody.Read | cmd/nekode-daemon/tunnel_proxy.go:403-413 | gives the oldest n bytes or all there are and takes them off; the end only if closed and empty, and waits only if open and empty |
| TunnelBodies.RequestBodyMux.Dispatch | cmd/nekode-daemon/tunnel_proxy.go:145-167 | one frame acts on the bodies as the protocol step does |
| TunnelBodies.RequestBodyMux.CloseAll | cmd/nekode-daemon/tunnel_proxy.go:356-364 | closes exactly the bodies still in the table, in any map order |
| TunnelBodies.AlwaysRouted | cmd/nekode-daemon/tunnel_proxy.go:320-364 | the id table names exactly the requests still receiving |
| TunnelBodies.ActsAlone | cmd/nekode-daemon/tunnel_proxy.go:320-364 | each body changes as if its request were alone on the stream |
| TunnelBodies.Demultiplexed | cmd/nekode-daemon/tunnel_proxy.go:145-167 | for any interleaving: bytes read, then bytes buffered, are exactly the bytes accepted; closed exactly if wire or reader closed it |
| TunnelBodies.ReadsOwnPrefix | cmd/nekode-daemon/tunnel_proxy.go:366-418 | a reader sees a prefix, in order, of its own request's chunks |
| TunnelBodies.EofIsComplete | cmd/nekode-daemon/tunnel_proxy.go:403-413 | the end is reported exactly if closed and drained; without a local close it means every byte was read |
| TunnelBodies.ReadHandsOverNext | cmd/nekode-daemon/tunnel_proxy.go:403-413 | over every history a read of n bytes hands over exactly the next n accepted, or all that are left |
| TunnelBodies.ReaderFinishes | cmd/nekode-daemon/tunnel_proxy.go:403-413 | once a request is over, as many reads as bytes are left reach the last, and the next is told of the end |
| TunnelBodies.OverIsFinal | cmd/nekode-daemon/tunnel_proxy.go:145-167 | after END or CANCEL nothing later adds to a request's bytes |
| TunnelResponses.LockedSender.Send | cmd/nekode-daemon/tunnel_proxy.go:60-69 | a frame is appended whole or not at all |
| TunnelResponses.HandleUpstream | cmd/nekode-daemon/tunnel_proxy.go:174-263 | keeps to the worker protocol; the response is ended, and then is START, every byte read and an END, exactly if the body was read out, nothing was refused and no check before a read found a cancel; the END's error is empty at the end of the body and "upstream read: " and the message after a failed read |
| TunnelResponses.HandleWebSocket | cmd/nekode-daemon/tunnel_proxy.go:448-565 | once START was taken an END without error is sent exactly if the copying stopped, by the end, a failure or a refused body frame, and the other direction is done; the response is whole if nothing was refused |
| TunnelResponses.PumpReader | cmd/nekode-daemon/tunnel_proxy.go:571-592 | passes on every byte read until the end, a failure, a cancel or a refused frame |
| TunnelResponses.StageMeaning | cmd/nekode-daemon/tunnel_proxy.go:212-252 | each protocol stage fixes the shape of the frames sent and how they relate to the bytes read |
| TunnelResponses.WorkerFrames | cmd/nekode-daemon/tunnel_proxy.go:212-252 | at every moment the frames are a prefix of START BODY* END or one END, with bodies of 1 to 32768 bytes that join to a prefix of the bytes read, to all of them if none was refused |
| TunnelResponses.StreamSeparates | cmd/nekode-daemon/tunnel_proxy.go:60-69 | under any interleaving a request's part of the shared stream is its worker's frames in order |
| TunnelResponses.EveryResponseWellFormed | cmd/nekode-daemon/tunnel_proxy.go:174-263 | so every request's part of the stream is well formed at every moment |
| ProjectionKeys.DecodeEncode | internal/cache/cache.go:114-119 | unpadded base64url decodes back to every byte string |
| ProjectionKeys.AlphabetOfCharacters | internal/cache/cache.go:114-119 | the characters are those of table 2 in section 5 of RFC 4648 |
| ProjectionKeys.SameNumber | internal/cache/cache.go:114-119 | three bytes and their four sextets are the same 24-bit number (section 4 of RFC 4648) |
| ProjectionKeys.EncodeShape | internal/cache/cache.go:114-119 | n bytes give ceil(4n/3) characters, so no encoding has length 1, and none has a colon |
| ProjectionKeys.UnescapeEscape | internal/cache/cache.go:114-119 | "-" for the empty part clashes with no encoding |
| ProjectionKeys.ProjectionKey | internal/cache/cache.go:97-112 | the loop builds the key, and the key reads back as the fields |
| ProjectionKeys.KeyLooks | internal/cache/cache.go:97-112 | the two fixed words, server, "p" and the version in decimals, cache version, parts, joined by colons |
| ProjectionKeys.ParseKeyOfKey | internal/cache/cache.go:97-112 | an independent reader recovers every field from every key |
| ProjectionKeys.KeyInjective | internal/cache/cache.go:97-119 | keys are equal exactly if all fields are, up to "" meaning "v1" |
| AgentSlugs.SanitizeAgentSlug | internal/daemonrpc/server.go:1607-1623 | the words of letters and digits of the lower-cased text, joined by single dashes |
| AgentSlugs.SlugOfIsSlug | internal/daemonrpc/server.go:1607-1623 | over [a-z0-9-], no leading, trailing or doubled dash |
| AgentSlugs.SlugCharsOfSlug | internal/daemonrpc/server.go:1610-1614 | keeps exactly the lower-cased letters and digits, in order |
| AgentSlugs.SlugFixedPoint | internal/daemonrpc/server.go:1607-1623 | a text is its own slug exactly if it has a slug's shape |
| AgentSlugs.SlugIdempotent | internal/daemonrpc/server.go:1607-1623 | sanitizing twice is sanitizing once |

## Left out

Assumptions and simplifications:

- Fresh ids are taken never to repeat, and counters and times are unbounded integers; 64-bit overflow is not modelled.
- Stored records follow minimal contracts: a reservation inserts if absent, a completion sets the response, an insert makes one row or fails. Ent, SQL and the other storage behaviour are not part of this model.
- A server without a store, which keeps no records at all, is not modelled.
- JSON and protobuf encoding of payloads and responses is taken as the identity.
- Runs.RunTable.UpdateRunStatus: the task and task-attempt writes that follow the lock hold are in RunOutcome; redaction of summary and error is left out, their text being an input. Runs are held as values, since the server hands out copies only.
- EventDelivery.AtLeastOnce: a server restart loses the queue, which is in memory only, so histories have no restart.
- EventDelivery.EventConsumer.ReceiveUntilBroken: one stream; reconnecting, waiting and lost acknowledgements are steps of the composed protocol instead.
- IdempotencyRaces: a restart ends all calls under way, as it ends the process.
- PromptSnapshots.SnapshotStore.GetLaunchPromptSnapshot: the rendered content is an input, so section rendering, redaction and truncation are left out; the digest is any function of fixed width. Run ids are taken distinct without their "run_" prefix.
- OutboundRouting.OutboundServer.EnqueueRoutedOutboundDeliveries: store reads do not fail, and whether an instant-messaging source is suppressed is an input. On a store refusal the rows already made are answered; the program answers an error instead.
- ComputerLeases: fields that carry no lease or status (inventory, names, holders) are left out.
- RunExecution.RunExecutor.ExecuteRun: call arguments other than the state, lease, phase and END are left out; a failed send of a later archive event is noted as attempted, as the program ignores it.
- RunOutcome.ExecutionOutcome: the execution is composed with the server on its own, without other clients between its calls; the snapshot id a loaded prompt leaves on the run, the run steps and the agent status are left out.
- RunSupervisor: agents' direct messages are runs like any other here; RunRestarts tells them apart.
- RunRestarts.RunsTwiceIff: a fetch takes one entry at a time, and any number of them; which computer's list a run is on, what a subscription filters, and the content of a direct message's receipt are left out. A message has one event. A call of a dead or timed out process that is served later counts as an update by another client.
- TunnelResponses.PumpReader: the copy loops of the plain path and of the upgraded path repeat it step for step and share it here; only the plain path checks for cancellation, which is a parameter. Bytes relayed from the browser to a WebSocket, headers, tunnel ids, the attach frame and the handshake text are left out.
- TunnelBodies.RequestBody.Read: one attempt under the lock; waiting on the condition is a Blocked answer that may be tried again.
- AgentSlugs.SanitizeAgentSlug: the Unicode lower-casing table is any rune function that fixes letters a-z, digits and the dash and maps no space to one.

Parts of the repository not modelled:

- Configuration, flags, password hashing, cache back ends, HTTP, TCP and process execution: libraries and I/O.
- Enum converters: settled by reading one switch.
- JSON and regular-expression redaction: depends on library text matching.
- Paging of listed events under a target filter: the cursor mixes target and aggregate, so a completeness claim would need more than the code gives.
- Direct messages without an idempotency key, whose nested key is a constant.
- The cancel table of the tunnel, which can miss a CANCEL that arrives before its request is tracked, and any bound on buffered bytes.
- Fetch limits: `MaxConcurrentRuns` limits one fetch and does not bound overlapping polls.
- Memory, tunnel registry, votes and the other handlers of the server.
