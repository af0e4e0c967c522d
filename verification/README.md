# Abaco: a verified model of the worker protocol, message delivery, links, counters and stores

Abaco is a functions-as-a-service platform. Users register actors (container images) and send them messages;
workers, started by spawners, take the messages from queues and run the containers. The difficult part is a small
distributed protocol over shared Mongo documents and RabbitMQ queues. This project models that protocol and the
algorithms that it rests on in Dafny, and proves what they keep.

`dafny verify dfyconfig.toml` checks everything.

## Modules

| file | contents |
|---|---|
| `WorkerRecords.dfy` | the worker document, the conditional status update, the workers collection |
| `WorkerLifecycle.dfy` | one worker as a transition system: spawner, control thread, main thread, shutdown requesters, health agents, all interleaved |
| `ShutdownProgress.dfy` | from which states of that system a queued stop can still be handled |
| `WorkerControl.dfy`, `WorkerPrograms.dfy` | the sequential programs (shutdown requests, the spawner's processing of a command, the control thread) over the stored documents and channels, tied to the steps of the transition system |
| `MessageDelivery.dfy` | any number of workers, messages and executions: take, acknowledge, requeue, kill, cut-off connections |
| `ContainerStarts.dfy`, `ExecutionPermanence.dfy`, `StopHandling.dfy` | what holds over every run of the delivery system |
| `SubscribeLoop.dfy` | the worker's message loop as a program, refining the delivery system, and its failure bound |
| `LinkGraph.dfy`, `ActorRegistry.dfy`, `EventCascade.dfy` | the cycle check, the requests that set links, the cascades of events that links cause |
| `EnsureOneWorker.dfy` | concurrent requests for an actor's first worker |
| `SpawnerCapacity.dfy` | spawners of one host and the limit on its workers |
| `Nonces.dfy` | concurrent redemption of nonces |
| `Text.dfy`, `DocumentStore.dfy` | dotted paths and the nested-document store |
| `UsageReport.dfy` | the one-pass usage report against a group-by specification |
| `KeyCase.dfy` | snake case to camel case and back |
| `Options.dfy`, `Sets.dfy` | shared helpers |

Concurrent parts are transition systems: a state, one program counter for each process, atomic steps, and a run is any
sequence of steps; a step that is not possible where it occurs changes nothing or is excluded by `Enabled`. Foreign calls (Docker,
RabbitMQ, Mongo, OAuth, clocks, the id library) are steps or parameters with every outcome they can have; a store
update is one atomic step. Code that works step by step on objects is a class or a method with loops, proved against
a function that says what it computes.

## Where the code is not what its documentation says

Each item names the members that prove it on the model, with the exact condition where the code meets the claim in some
cases.

1. The stop of a returned shutdown request can be dropped: the control thread has no handler around its request to
   delete the OAuth client, so if that raises the thread ends with the stop already acknowledged. It is never dropped
   exactly when the worker has no client (`NoShutdownLostIffNoClient`). A stop that is still queued may stay so for
   good, also without a client: for a thread that died on a health check, or one whose handshake was never sent
   (`QueuedStopNeverHandled`). When it can still be handled is `WorkerHandlesStopIff` and, with the spawner's steps,
   `ShutdownCanFinishIff`; how soon a listening thread gets to it is `EnoughStepsDelete`.
2. `COMPLETE` is not final when a stop deletes the mailbox: `ActorMsgChannel.delete` closes the connection, the broker
   gives the message to another worker, and the first worker's main thread, still alive, marks the completed
   execution `RUNNING` (`StaleAfterComplete`). The exact condition is `CompleteIsFinalIffNotStale`; kills alone never cause it.
3. An error between the preparation and the start of a container (creating the container) is acknowledged although no
   container was started, contrary to the comment at actors/worker.py:485-487. A message is acknowledged unstarted
   exactly when this happened to it (`AcknowledgedUnstartedIff`); it can happen (`AcknowledgedWithoutStart`).
4. A stop handled before actors/worker.py:244 is overwritten there, and the worker may go on to start any number of
   containers (`BootOverwritesStop`); a stop handled in any other phase lets through at most one
   (`LateStartsBoundedIff`). The control thread's own loop tests a module variable that nobody clears, so a force-quit
   does not end it (`ProcessWorkerCh`), although it ends the main loop (`ForceQuitEndsLoop`).
5. The status update with one predecessor also matches documents without a status, because the second predecessor is
   null (`UpdateOfStatuslessDocument`). The health agent can leave such a document: after deleting an unresponsive
   worker it still records the time of the check, which creates the document again (`StubIsLeft`). A second shutdown
   request that comes after the deletion leaves a stub as well (`LateRequestLeavesStub`).
6. After 21 timed-out attempts to run a worker container, or when the actor disappears meanwhile, the worker's
   document stays in CREATING_CONTAINER with no control thread to delete it (`LeftInCreation`; the source has a question about it at
   actors/spawner.py:395). When the first request for an OAuth client raises, the code goes on to read a reply that it
   does not have, and the document stays in SPAWNER_SETUP (`LeftInSetUp`).
7. `add_if_empty` adds only when the whole document is missing; its description speaks of fields
   (`AddsOnlyMissingDocuments`). With a bare string for its key it looks at the length of the string: unless that is
   one letter, a document is added under a field with the key's name (`AddIfMissing`). A permission set for a user name with a dot is not found again (`SetPermission`).
8. The key conversion loses an underscore before a digit (`RoundTripIff`, `DigitWordsMerge`), and the way back loses a
   capital at the start (`CamelRoundTripIff`).
9. README.md:347-350 of the repository says that a running execution concludes before its worker exits; the control
   thread ends the process with `os._exit` (actors/worker.py:171-173). Then the execution stays RUNNING and its message
   is queued again (`KillReturnsMessage`, `ExecutionIsCutShort`).
10. The limit on a host's workers needs that the host id of the configuration, which a spawner counts
    (actors/spawner.py:45), is the one that its workers' documents carry, which SPAWNER_HOST_ID overrides
    (actors/docker_utils.py:38); ansible/k8s/ab-compute.yml sets that variable. Otherwise a spawner may start any
    number of workers (`NeverOverloaded`); the exact condition is `CapacityBoundedIff`.
11. A status written for an actor after its deletion leaves a stub of an actor, and the usage report raises a DAOError
    that it does not catch as soon as such an actor has executions (`LateStatusBreaksReport`).
12. `validate_link` says that linking to an actor requires EXECUTE permission on it, but ignores the answer of
    `check_permissions` (actors/controllers.py:651-652); only an actor without a permissions document is refused
    (`UpdateAcceptedIff`).
13. Events take what comes before the first underscore of an actor's database id for its tenant
    (actors/models.py:496), so for a tenant with an underscore, such as the `dev_staging` of abaco.conf:99, they go
    astray, and the link check does not agree with them: it agrees with the events of a tenant's actors after every
    update exactly when the tenant has no underscore (`CheckAgreesIffPlain`). For the links that the tenant means the
    check is right whatever it is called (`CheckDecidesOwnTenant`, `UpdateAcceptedIff`), and astray or not, events never
    cascade for ever (`RegistryStaysAcyclic`, `RegisteredCascadesStop`): with plain ids and aliases for tenants of any
    name, or with plain tenants for any ids (`PlainRunsStayAcyclic`). An alias that spells another tenant's actor can
    break this (`MisspellingClosesCycle`).
14. `ensure_one_worker` calls itself atomic, but n concurrent calls may request any number of workers from one to n
    (`CallsRequestBetweenOneAndAll`).

## Model

| member | source | states |
|---|---|---|
| WorkerRecords.UpdateFollowsDocumentedGraph | actors/models.py:1760-1806 | Every non-ERROR status call on a document with a status moves it along a documented edge or leaves it alone, touches no other field, and cannot leave the two shutdown statuses |
| WorkerRecords.UpdateOfStatuslessDocument | actors/models.py:1787-1797 | On a document without a status the update takes every target with a single predecessor, an edge that the documented graph does not have |
| WorkerRecords.ShutdownStatusLands | actors/models.py:1778-1779 | A shutdown status lands on every document and changes nothing else; a missing document becomes a stub that holds just the status |
| WorkerRecords.OtherStatusCreatesNothing | actors/models.py:1787-1806 | No other status call creates a document |
| WorkerRecords.ShutdownIsClosed | actors/models.py:1778-1797 | No sequence of status calls by anybody brings a worker back from shutdown or changes its other fields |
| WorkerRecords.WorkersStore.RequestWorker | actors/models.py:1689-1717 | The request is merged into the document: it sets the actor and the status and keeps the host; the worker is then among its actor's workers |
| WorkerRecords.WorkersStore.AddWorker | actors/models.py:1720-1729 | The write sets the status and the host and keeps the actor; it neither adds a worker to nor removes one from what get_workers returns |
| WorkerRecords.WorkersStore.DeleteWorker | actors/models.py:1651-1662 | Deletes exactly this document, and says whether there was one |
| WorkerRecords.WorkersStore.UpdateWorkerStatus | actors/models.py:1757-1806 | The branches of the code compute the update function on this document and no other: along the documented edges on a document with a status, and a missing document is created exactly by a shutdown status, as a stub |
| WorkerLifecycle.ShutdownIsPending | actors/worker.py:78-173 | In every interleaving, when a shutdown call has returned and the document is visible, a stop is queued or being handled or a health agent is about to delete the document, or the thread crashed on its client |
| WorkerLifecycle.NoShutdownLostIffNoClient | actors/worker.py:128-149 | No reachable state has dropped the stop of a returned request for a visible worker (a stop is queued, being handled, or a health agent is about to delete the document) if and only if the worker was started without an OAuth client |
| ShutdownProgress.WorkerHandlesStopIff | actors/worker.py:78-173 | In every reachable state with a stop queued for a visible worker, the worker's own steps can still delete the document if and only if its control thread runs or its handshake was sent |
| ShutdownProgress.ShutdownCanFinishIff | actors/spawner.py:431-474 | The same with the spawner's steps: if and only if the thread can handle the stop, or the spawner can still send the handshake or take an error path that deletes the document |
| ShutdownProgress.QueuedStopNeverHandled | actors/worker.py:83-98 | A run without a client in which a request has returned, the document is visible, its stop is queued, and neither worker nor spawner will ever delete the document |
| ShutdownProgress.EnoughStepsDelete | actors/worker.py:78-173 | From every reachable state with a stop in the channel of a listening thread, every continuation of all processes in which the thread takes as many steps as there are messages up to the first stop, and two more, deletes the document, unless the thread raises or a health agent removes its container or channel |
| WorkerLifecycle.StubIsLeft | actors/health.py:278-309 | A run in which the health agent deletes a document and then creates it again, without actor id and status, whether or not it could remove the container |
| WorkerLifecycle.LateRequestLeavesStub | actors/worker.py:33-50 | A run in which the worker has deleted its document after one shutdown request, and a second request leaves a stub with only a status |
| WorkerLifecycle.LostShutdown | actors/worker.py:128-149 | A run in which client deletion raises and the stop is lost with the document still visible |
| WorkerLifecycle.RunKeepsInv | actors/spawner.py:153-168 | Handshake order, teardown and stop accounting are kept by every run of all processes, also when add_worker overwrites SHUTDOWN_REQUESTED |
| WorkerLifecycle.AddFindsVisibleDocument | actors/spawner.py:431-435 | When the spawner reaches add_worker the requested document is still there and visible |
| WorkerLifecycle.HostedDocumentsAreVisible | actors/health.py:253-296 | A document with a host id is always visible, so a stub left by a late write is never probed |
| WorkerLifecycle.StatusHistoryIsCanonical | actors/models.py:1760-1768 | Without shutdowns, deletions and lost writes, every run's status history is a prefix of REQUESTED, SPAWNER_SETUP, PULLING_IMAGE, CREATING_CONTAINER, READY, BUSY, READY, ... |
| WorkerLifecycle.EveryHistoryOccurs | actors/models.py:1760-1768 | For every n some such run has changed the status exactly n times, so every prefix of that history occurs |
| WorkerLifecycle.ChannelIsAQueue | actors/worker.py:83-98 | No step but a deletion of the channel removes a message other than the first, which the listening thread takes, and no step adds more than one at the end |
| WorkerControl.ShutdownWorker | actors/worker.py:33-50 | One call writes SHUTDOWN_REQUESTED and queues exactly one stop of the right kind, for this worker only |
| WorkerControl.ShutdownWorkers | actors/worker.py:52-68 | Every worker that the actor_id query returns gets exactly one stop and its status; no other worker gets anything |
| WorkerControl.ShutdownIsTwoSteps | actors/worker.py:33-50 | Such a call is the two steps of a requester in the protocol |
| WorkerPrograms.SpawnerProgram.Process | actors/spawner.py:123-249 | For every outcome of the actor's lookup, the client generation, the image, the container, the store and the handshake: exactly when the document is gone (among others for a worker whose shutdown was requested before), what else is left of it, whether the worker starts, exactly which workers of the actor get a stop (all others after an update, all of them when the handshake could not be sent), and that every other document and queue is as before |
| WorkerPrograms.SpawnerProgram.SetUp | actors/spawner.py:184-249 | The same for a requested worker of an actor without error |
| WorkerPrograms.SpawnerProgram.ClientGeneration | actors/spawner.py:251-322 | The loop of at most 10 attempts: its result for every sequence of replies, and that the document is deleted exactly when it gives up |
| WorkerPrograms.ClientIsGeneratedIff | actors/spawner.py:251-322 | A client is generated exactly when one of the first 10 requests is granted, none before it is refused for good and the first does not raise; an exception that nothing handles comes exactly from a first request that raises |
| WorkerPrograms.LeftInSetUp | actors/spawner.py:267-292 | A requested worker's document is left in SPAWNER_SETUP exactly when its actor is in order, it needs a client and the first request for it raises |
| WorkerPrograms.SpawnerProgram.StartWorker | actors/spawner.py:369-435 | The document after running and adding, with every error path through error_out_actor, and the stops to all workers of the actor exactly when the worker was added but its handshake not sent |
| WorkerPrograms.SpawnerProgram.RunWorker | actors/spawner.py:369-405 | The retry loop ends after at most 21 attempts with the result of the first attempt that did not time out |
| WorkerPrograms.SpawnerProgram.StopWorkers | actors/spawner.py:90-121 | Every worker of the actor that is not spared gets exactly one stop that keeps the mailbox, and no other queue changes |
| WorkerPrograms.SpawnerProgram.ErrorOutActor | actors/spawner.py:438-474 | Deletes exactly the documents in REQUESTED, SPAWNER_SETUP or PULLING_IMAGE, and in UPDATING_STORE, READY or BUSY stops all workers of the actor |
| WorkerPrograms.ProcessIsARun | actors/spawner.py:123-249 | From any state in which the command waits, steps of the protocol's spawner leave exactly the document and the control channel that the program leaves, and send the handshake exactly when it does |
| WorkerPrograms.EveryRunEndsAlike | actors/spawner.py:123-249 | Every undisturbed run of the protocol's spawner with these outcomes that comes to its end leaves the document, the handshake and the channel that the program leaves |
| WorkerPrograms.AttemptIsFirst | actors/spawner.py:369-405 | The result of the attempts to run the container is that of the first one that does not time out |
| WorkerPrograms.LeftInCreation | actors/spawner.py:388-397 | A requested worker's document is left in CREATING_CONTAINER exactly when its actor was in order, any client was generated and the image pulled, and then all attempts time out, or the actor is gone and no attempt fails otherwise |
| WorkerPrograms.ControlThread.ProcessWorkerCh | actors/worker.py:78-173 | For every content of the channel: which messages are consumed, that the thread ends exactly when there is a stop, the flags, and what is left of the document and the channel after the first stop, with and without a failing client deletion |
| WorkerPrograms.ControlThread.StopWorker | actors/worker.py:109-173 | What handling a stop leaves, in both outcomes of the client deletion |
| WorkerPrograms.ThreadIsARun | actors/worker.py:78-173 | The control thread's program ends as steps of the protocol's thread do |
| WorkerPrograms.EveryThreadRunEndsAlike | actors/worker.py:78-173 | Every undisturbed run of the protocol's thread that comes to its end has read up to the first stop and leaves what the program leaves |
| MessageDelivery.PostedMessagesArePartitioned | actors/worker.py:252-498 | Over every run with any workers, posts, requeues, kills and cut-offs, posted messages are the disjoint union of queued, unsettled and acknowledged ones, nothing is settled twice, and each worker holds at most one |
| MessageDelivery.MainStepHasShape | actors/worker.py:252-523 | Only a connected worker takes or settles a message, in the phases in which it may |
| MessageDelivery.RunKeepsInv | actors/queues.py:103-111 | Conservation and the deliveries of all workers are kept by every run from any state that satisfies them |
| ContainerStarts.StartsAreBounded | actors/docker_utils.py:552-573 | Over every run, a message is requeued only by a worker that did not start its container, one worker starts it at most once, and the starters outnumber by at most one those among them that lost the message by a kill or a cut-off |
| ContainerStarts.AtMostOneStart | actors/worker.py:432-494 | In every run without kills and cut-offs each execution has at most one container start across all workers |
| ContainerStarts.AcknowledgedMessagesWereStarted | actors/worker.py:469-498 | When containers can be created, every acknowledged message had its container started by the worker that acknowledged it |
| ContainerStarts.AcknowledgedUnstartedIff | actors/worker.py:480-494 | Over every run, a message is acknowledged by a worker that never started its container if and only if in some step a connected worker failed to create that container |
| ContainerStarts.AcknowledgedWithoutStart | actors/worker.py:480-494 | A run in which an error before the start acknowledges a message that was never started |
| ExecutionPermanence.CompleteIsPermanent | actors/worker.py:494-498 | With kills at any point and stops that keep the mailbox, COMPLETE stays through every continuation, and the message is acknowledged, not queued and not out |
| ExecutionPermanence.CompleteIsFinalIffNotStale | actors/models.py:1327-1338 | In any reachable state, COMPLETE survives all continuations if and only if no cut-off worker is still on its way to mark that execution RUNNING |
| ExecutionPermanence.StaleAfterComplete | actors/worker.py:154-160 | A run that reaches such a state by a stop that deletes the mailbox |
| StopHandling.AtMostOneLateStart | actors/worker.py:252-279 | After a stop handled past line 244 at most one container is started, only if it was being prepared, and a message received by get_one is requeued and not executed |
| StopHandling.ForceQuitEndsLoop | actors/worker.py:98-102 | After a force-quit handled past line 244 and before any stop, every continuation starts at most the container that was being prepared |
| StopHandling.LateStartsAreCounted | actors/worker.py:109-173 | Once a worker's stop was handled, the late starts of these results are that worker's container starts in the rest of the run, in number and execution by execution |
| StopHandling.BootOverwritesStop | actors/worker.py:243-244 | For every n a run in which a worker, after its stop was handled before line 244, starts n containers, of the executions 0 to n - 1, and goes on |
| StopHandling.LateStartsBoundedIff | actors/worker.py:243-279 | For every phase of the main thread: over all runs whose stop found it there the later starts of that worker are bounded, and then by one, if and only if the phase is not the one before line 244 |
| StopHandling.KillReturnsMessage | actors/worker.py:170-173 | Wherever a worker is, the end of its process queues the message that it has again, and acknowledges, completes and starts nothing |
| StopHandling.ExecutionIsCutShort | actors/worker.py:170-173 | A run in which a stop ends the process while a container runs |
| SubscribeLoop.FailedStartsAreBounded | actors/worker.py:448-468 | With s successful executions at most 5 s + 6 starts fail, whatever the control thread and the mailbox connection do (a failure whose requeue raised counts too), and the sixth consecutive failure has left the loop |
| SubscribeLoop.FailedStartsBoundIsTight | actors/worker.py:459-468 | For every s some run has exactly 5 s + 6 failures |
| SubscribeLoop.Subscriber.Subscribe | actors/worker.py:244-524 | For every environment, with stops, a raising get_one and a connection that ends before a settlement, the sequence of everything the loop does to the mailbox, the container daemon and the executions, and that it is a run of the delivery system |
| SubscribeLoop.CompletedTurnGoesOn | actors/worker.py:432-523 | A completed execution is taken, started, marked, acknowledged and completed in this order, and the loop goes on without errors, however many there were |
| SubscribeLoop.FailedTurnGoesOnIff | actors/worker.py:448-468 | The message of a container that does not start goes back to the queue, and the loop goes on exactly when fewer than five failures came before in a row |
| SubscribeLoop.OtherTurnIsLast | actors/worker.py:432-523 | Every other failure, and a connection that ends before the settlement, is the end of the loop, with what each of them does to the message and the execution |
| SubscribeLoop.StoppedTurnIsLast | actors/worker.py:252-279 | A stop before the receipt takes nothing, and one after it gives the message back |
| SubscribeLoop.Subscriber.TakeTurn | actors/worker.py:252-523 | What one iteration does in each of these environments, whether the loop goes on, and the error counter |
| SubscribeLoop.Subscriber.ProcessMessage | actors/worker.py:432-523 | Acknowledge or requeue, by where the execution failed, or neither when the connection has ended and the call raises; the counter is reset or incremented |
| LinkGraph.WalkFindsCycle | actors/controllers.py:616-629 | The walk from one key ends, reports only real cycles and misses none through the key |
| LinkGraph.HasCycles | actors/controllers.py:609-630 | On every dictionary the check terminates and is true if and only if some node reaches itself by one or more links |
| ActorRegistry.CheckDecidesOwnTenant | actors/controllers.py:590-606 | For tenants of any name: when no id is given to actors of two tenants, putting the requester's tenant on all targets does not change the verdict about the requester's own graph |
| ActorRegistry.CheckDecidesInEveryRun | actors/controllers.py:590-606 | The same after every sequence of register, update and delete requests with actor ids that have no underscore and are never given twice |
| ActorRegistry.CheckDecidesPlainTenant | actors/controllers.py:590-606 | For tenants without an underscore the same holds whatever ids were given to actors |
| ActorRegistry.CheckAgreesIffPlain | actors/models.py:491-496 | Over the registries of one tenant, the check agrees with the links that events follow after every update if and only if the tenant has no underscore |
| ActorRegistry.CheckDecidesSpelled | actors/controllers.py:590-606 | For tenants of any name and ids given any number of times, the same holds when no id that a link or an alias names spells another tenant's actor |
| ActorRegistry.CheckDecidesUpdate | actors/controllers.py:580-606 | When the links that the tenants mean have no cycle, the check is true exactly when they would have one after the update, for tenants of any name |
| ActorRegistry.EventsFollowTenantCycles | actors/models.py:486-539 | Whatever the tenants are called, events go round only where the links that the tenants mean do |
| ActorRegistry.EventsFollowUpdate | actors/models.py:486-539 | After an update of a plain tenant's actor events go round exactly when these links do, next to tenants of any name |
| ActorRegistry.UpdateAcceptedIff | actors/controllers.py:879-942 | For tenants of any name, an update is accepted exactly when the actor exists, the link resolves to an actor with a permissions document, and the links that the tenants mean have no cycle afterwards |
| ActorRegistry.PlainUpdateAcceptedIff | actors/controllers.py:879-942 | For a plain tenant, next to tenants of any name, the same with the links that events follow |
| ActorRegistry.RegisterKeepsAcyclic | actors/controllers.py:660-663 | Registration may skip the check: a fresh actor closes no cycle, also through an alias, for tenants of any name |
| ActorRegistry.RegistryStaysAcyclic | actors/controllers.py:737-942 | Over every sequence of register, update and delete requests of tenants of any name in which no id spells another tenant's actor, neither the links that the tenants mean nor those that events follow have a cycle |
| ActorRegistry.PlainRunsStayAcyclic | actors/controllers.py:737-942 | That premise holds, and events never go round, over every sequence of requests when all tenants are plain, whatever the ids, links and aliases, and when all ids, links and aliases are plain, whatever the tenants |
| ActorRegistry.RemovedForGood | actors/controllers.py:868-870 | Over every proper sequence of requests after a removal the actor is not stored and has no permissions document, no link leaves from it, and no link to it is accepted |
| ActorRegistry.RequestsStore | actors/controllers.py:737-942 | What each kind of request stores when it is accepted, and that a refused one changes nothing |
| ActorRegistry.MisspellingClosesCycle | actors/controllers.py:339-370 | A sequence of accepted requests with plain ids, and an alias that spells another tenant's actor, after which events go round |
| ActorRegistry.ActorResources.CheckForLinkCycles | actors/controllers.py:580-606 | The loop that builds the dictionary and the check on it decide the cycle in the graph with the proposed link |
| ActorRegistry.ActorResources.CheckLink | actors/controllers.py:633-667 | The answers of validate_link in its order of tests |
| ActorRegistry.ActorResources.Post | actors/controllers.py:737-800 | A registration is accepted exactly when its link names no actor or one with a permissions document, and then stores the actor as given with a permissions document; the registry invariant is kept |
| ActorRegistry.ActorResources.Put | actors/controllers.py:879-942 | The answers in the order of the tests; an accepted update replaces the link of this actor and nothing else; the invariant is kept |
| ActorRegistry.ActorResources.Delete | actors/controllers.py:814-877 | The actor and its permissions document are gone, and no other; the invariant is kept |
| EventCascade.CascadesStop | actors/events.py:30-84 | Without cycles, over every run, each posted message, status event of an actor or repeated delivery accounts for at most as many executions as there are actors, and for a bounded number of steps: every cascade ends |
| EventCascade.MessagesAndEventsAreConserved | actors/events.py:30-84 | Over every run executions are the posted messages and the processed events of registered actors; messages are posted or sent and stay until settled, and events are published and stay until settled |
| EventCascade.BoundedIffAcyclic | actors/models.py:1408-1416 | Executions are bounded by posts, status events and repeats, with any factor, if and only if the link graph has no cycle |
| EventCascade.OnePostRunsForever | actors/models.py:511-553 | On a cycle one posted message leads to any number of executions |
| EventCascade.RegisteredCascadesStop | actors/controllers.py:737-942 | The two results together, for tenants of any name: whatever requests were handled before, with no id that spells another tenant's actor, cascades are bounded |
| EventCascade.EventsAgent.Serve | actors/events.py:98-113 | The agent's loop settles every event it takes, in order, adds an execution for each one whose linked actor is registered, and takes exactly these steps of the cascade |
| EnsureOneWorker.CallsRequestBetweenOneAndAll | actors/models.py:1665-1687 | When n concurrent calls for an actor without workers have finished without deletions, the number of requested workers is from one to n, and each of these is possible |
| EnsureOneWorker.Ensure | actors/models.py:1665-1687 | An undisturbed call requests a worker exactly when the actor has none |
| SpawnerCapacity.CapacityIsBounded | actors/spawner.py:50-88 | In every interleaving with arbitrary deletions, a host whose n spawners count the id that their workers carry has at most MAX_WORKERS + n - 1 worker documents |
| SpawnerCapacity.GivingUpFreesPlace | actors/spawner.py:123-182 | A spawner that gives a command up no longer counts against the host, and may check again |
| SpawnerCapacity.CapacityBoundedIff | actors/docker_utils.py:38 | For spawners with any two ids each, a host's workers are bounded over all runs if and only if MAX_WORKERS is 0 or every spawner whose workers carry the host's id also counts it |
| SpawnerCapacity.NeverOverloaded | actors/spawner.py:45 | A spawner that counts another id than its workers carry passes its check before every one of n additions, for every n |
| SpawnerCapacity.CapacityBoundIsTight | actors/spawner.py:50-88 | For every limit and every number of spawners some run reaches the bound |
| SpawnerCapacity.HostSpawner.GetTotWorkers | actors/spawner.py:70-81 | The loop counts exactly the documents with the host's id |
| SpawnerCapacity.HostSpawner.Overloaded | actors/spawner.py:83-88 | True exactly when the limit is reached |
| SpawnerCapacity.HostSpawner.Round | actors/spawner.py:50-63 | An undisturbed round takes a command exactly when the counted id is below the limit, adds a worker with the other id, and does not pass the limit when the two are the same |
| Nonces.UsesAreConserved | actors/models.py:1186-1229 | For any number of concurrent redeemers: current and remaining uses add up to max_uses, remaining is never negative, current uses are the successful redemptions, finite stays finite and unlimited stays unlimited |
| Nonces.RedemptionsAreBounded | actors/models.py:1186-1229 | A nonce is never redeemed more often than it was issued for, nor above its level, also when it is deleted meanwhile |
| Nonces.LevelsDecide | actors/models.py:1198-1203 | Over every run, who is refused for the level asked for more than the nonce was issued with, and who gets past the read did not |
| Nonces.NoSuchNonceIff | actors/models.py:1192-1196 | Over every run, a request is told that there is no such nonce exactly when its read found none |
| Nonces.MissingWasDeleted | actors/models.py:1180-1184 | An issued nonce is not stored exactly when some step of the run deleted it |
| Nonces.CreatedAsAsked | actors/models.py:1165-1178 | A nonce is issued with the level and the uses that its creation asked for |
| Nonces.ExactlySoManySucceed | actors/models.py:1207-1226 | Of N finished attempts exactly min(N, max_uses) succeeded, or all of them when unlimited |
| Nonces.UndisturbedRequest | actors/models.py:1186-1229 | The steps of one request without interference give the answer and the document of the sequential method |
| Nonces.NonceStore.CheckAndRedeem | actors/models.py:1186-1229 | Exactly when each of the four answers is given, and the whole new document |
| Nonces.NonceStore.AddNonce | actors/controllers.py:1154-1161 | Accepts exactly positive numbers and -1, and then stores the nonce with all its uses left |
| Nonces.NonceStore.DeleteNonce | actors/models.py:1180-1184 | Removes this nonce and no other, and says whether there was one |
| Text.SplitJoinIff | actors/store.py:215-218 | A dotted path is read back as the names it was joined from if and only if none of them has a dot |
| DocumentStore.GetAfterSetIff | actors/store.py:124-163 | What was set at a path is read at that path if and only if no name in it has a dot |
| DocumentStore.PutFailsIff | actors/store.py:154-163 | Setting a path raises exactly when a proper prefix of it holds a plain value |
| DocumentStore.LookupAfterPut | actors/store.py:124-163 | Reading at or below a set path reads the value that was set |
| DocumentStore.LookupFailsIff | actors/store.py:124-138 | A read fails exactly at the first subscript that cannot be applied, with a TypeError on a plain value and a KeyError on a document without the name |
| DocumentStore.SetNestedField | actors/store.py:202-220 | The names of a path lead from the outer field to the inner one, in updates as in reads |
| DocumentStore.SetElsewhere | actors/store.py:140-163 | Paths that part from the set path read as before, also with the same errors |
| DocumentStore.WholeWriteMerges | actors/store.py:147-151 | A whole-document write replaces the written fields and keeps the others; the key reads as written exactly when nothing else was stored |
| DocumentStore.PopReadsAndDeletes | actors/store.py:226-248 | Popping a field returns what reading would and removes it, and leaves parting paths alone |
| DocumentStore.RemoveUndoesPut | actors/store.py:165-181 | Deleting a field that was just added gives the document back |
| DocumentStore.AddsOnlyMissingDocuments | actors/store.py:300-337 | add_if_empty adds exactly when the whole document is missing |
| DocumentStore.RequestRefines | actors/models.py:1689-1717 | The requested document stands for the protocol's requested record |
| DocumentStore.AddRefines | actors/docker_utils.py:361-370 | The container's description, merged, stands for the protocol's added record |
| DocumentStore.StatusWriteRefines | actors/models.py:1778-1779 | The status write by path stands for the protocol's status write |
| DocumentStore.ShutdownWriteRefines | actors/models.py:1778-1779 | The write by path of a shutdown status stands for the protocol's update on every document, also a missing one |
| DocumentStore.StatusUpdateRefines | actors/models.py:1787-1806 | The filtered update of every other status, with the stored codes of its predecessors and null, stands for the protocol's update |
| DocumentStore.RequestedWorkerStaysVisible | actors/models.py:1625-1634 | A requested worker is still returned by get_workers after add_worker |
| DocumentStore.MongoStore.GetItem | actors/store.py:124-138 | Taking the document apart subscript by subscript computes the lookup; a KeyError for a missing document, and otherwise KeyError or TypeError exactly where a subscript cannot be applied |
| DocumentStore.MongoStore.SetItem | actors/store.py:140-163 | Fails exactly on an empty name or a path through a plain value, and then changes nothing; what was set is at the path that the database makes of the address, and is found exactly when no name has a dot; addresses that part from it, and other keys, read as before |
| DocumentStore.MongoStore.DelItem | actors/store.py:165-181 | What was deleted is not found any more; addresses that part from it, and other keys, read as before |
| DocumentStore.MongoStore.PopField | actors/store.py:226-248 | Returns what reading would (but a TypeError on a missing document) and deletes what the dotted path leads to; addresses that part from it, and other keys, read as before |
| DocumentStore.MongoStore.AddIfMissing | actors/store.py:300-337 | Adds exactly when the whole document is missing, what is then found where, by the kind of address, and what is refused; otherwise nothing changes |
| DocumentStore.MongoStore.SetPermission | actors/models.py:1890-1898 | Either branch is a plain update of the permission map for names without dots; the permission is found afterwards if and only if the name has none |
| UsageReport.ActorsExecutionsReport | actors/reports.py:24-72 | For every execution list the one pass returns the report of the group-by specification, with each row as its actor is stored, exactly when every execution is complete, no actor seen is stored as a stub and the metrics have the total; otherwise the first execution that cannot be read, or else the total, decides between KeyError and DAOError |
| UsageReport.SummaryGrows | actors/reports.py:26-67 | What one more execution adds to each figure of the summary, for existing actors and for those that are gone |
| UsageReport.NewRow | actors/reports.py:40-50 | The first execution of an existing actor adds its row, with the actor's id, owner and image and this execution's figures |
| UsageReport.RowGrows | actors/reports.py:52-60 | A further execution adds its figures to the row of its actor and to no other |
| UsageReport.LateStatusBreaksReport | actors/models.py:897-902 | After an actor is deleted and a status is written for it, the report fails with a DAOError if and only if the actor has executions |
| UsageReport.ExistingTotalsAreRowSums | actors/reports.py:52-60 | The totals of existing actors are the sums of the rows, and there is one row for each counted actor |
| UsageReport.TotalsSplit | actors/reports.py:63-67 | The overall totals are those of existing actors plus those of actors that are gone, and count every execution |
| UsageReport.RowsAreOrdered | actors/reports.py:40-48 | Rows come in the order of their actors' first executions |
| UsageReport.FirstSeenIsDistinct | actors/reports.py:35-50 | The rows are exactly the existing actors with executions, each once |
| UsageReport.Pass.Count | actors/reports.py:26-67 | One round of the loop with both memos |
| KeyCase.RoundTripIff | actors/models.py:50-67 | For every ASCII key, converting to camel case and back gives the key if and only if it has a word, no capitals, and every non-empty word after the first starts with a letter |
| KeyCase.CamelRoundTripIff | actors/models.py:50-67 | For every ASCII key without an underscore, converting from camel case and back gives the key if and only if it is not empty and does not start with a capital |
| KeyCase.CamelOfOneWord | actors/models.py:50-57 | The camel case of one word is the word in small letters |
| KeyCase.CamelOfWords | actors/models.py:50-57 | Each further word adds its first letter as a capital and its other letters as small ones |
| KeyCase.SnakeKeysRoundTrip | actors/models.py:50-67 | Keys made of words of small letters and digits, each after the first starting with a letter, come back |
| KeyCase.DigitWordsMerge | actors/models.py:50-57 | A key with an underscore before a word that starts with a digit has the same camel case as the key without that underscore, for all such words |
| KeyCase.ConvertToCamel | actors/models.py:59-64 | The loop computes the converted dictionary, whose keys are exactly the converted ones |
| KeyCase.ConvertToUnder | actors/models.py:69-77 | The same for the way back |
| KeyCase.LastItemStays | actors/models.py:59-77 | Of items whose keys become the same one, the last stays, in both directions |
| KeyCase.DictToCamelKeepsItems | actors/models.py:59-64 | Converting a dictionary of such keys merges none and keeps every value |
| KeyCase.DictRoundTrip | actors/models.py:59-77 | Such a dictionary comes back whole, in whatever order it is gone through |
| KeyCase.DottedKey | actors/models.py:69-77 | On the way back only what comes before the first dot of a key is converted |

## Left out

- Failures of Docker, RabbitMQ, Mongo, Agave and TAS other than the outcomes listed in the actions: in particular a broker that takes messages back from a live, connected worker, and store calls that raise, except for status writes.
- The two database calls of a whole-document pop_field (find, then delete) are one step.
- The count of get_tot_workers is one atomic read of the collection.
- The ERROR status of workers: update_worker_status builds it from a field that does not exist under that path, and no code here calls it.
- WorkerLifecycle.ShutdownIsPending: the worker document only; the deletion of a client by the spawner, channels deleted by hand and the clean-up scripts of health.py are not part of this model.
- WorkerPrograms.SpawnerProgram.Process: without other processes in between (those are in WorkerLifecycle), with status writes and stop messages that succeed, and without exceptions from the configuration or from opening a channel.
- WorkerPrograms.ControlThread.ProcessWorkerCh: health checks are consumed, the answer to them is not modelled.
- The loop of check_workers and the polling of execute_actor are not programs here: what they do to the shared state are steps of the protocol's agents and of the delivery system. Executions are values in the delivery system's state.
- The death of a worker's process between the receipt of a stop, which is acknowledged at once, and the deletion of the document: no step of WorkerLifecycle models it, and it loses the stop also without a client.
- A health check answered with something other than ok, and the shutdown of idle workers after their ttl, which is one more shutdown request.
- ContainerStarts.AtMostOneStart: a start call that raises is taken not to have started the container; a client that times out after the daemon has started it is not modelled.
- SubscribeLoop.Subscriber.Subscribe: the end of the process is not an event; what a killed worker has done is a prefix.
- MessageDelivery.PostedMessagesArePartitioned: purging a queue is not a step.
- ExecutionPermanence.CompleteIsPermanent: needs that no stop deletes the mailbox; with such stops the exact condition is CompleteIsFinalIffNotStale.
- Statistics, logs, sockets and fifos of execute_actor; only where it fails, starts, stops and finishes is kept.
- Aliases keep their targets: AliasResource.put re-points an alias without a cycle check. Links are validated and written in one step, so concurrent updates, where check and write are apart, are not covered.
- ActorRegistry.RegistryStaysAcyclic: a registered actor's database id was never used before; no id in a request, a link or an alias spells, after a tenant's name, another tenant's actor (the id library makes ids without underscores, but an alias takes the actor id that its user gives); and permissions documents of aliases, which are no link targets, are not modelled.
- EventCascade.CascadesStop: the actors and links stay fixed while a cascade runs; status events that a spawner causes are counted like posts, those of failing executions are part of the cascade; webhooks are not modelled.
- DocumentStore: field names are neither empty nor dotted inside stored values, arrays, names with quotes or a leading dollar sign, `_id`, expiry, getset, searches and aggregations are not modelled; an empty whole-document write is taken to create the document.
- DocumentStore.StatusUpdateRefines: documents whose status is one of the modelled codes; one with another text, such as ERROR, is not covered.
- KeyCase.RoundTripIff: ASCII text; Unicode case mapping is not modelled.
- UsageReport.ActorsExecutionsReport: usage figures are integers, and the number of stored actors is exact although the database estimates it.
- The autoscaler (metrics_utils.py, check_metrics), whose bounds the code does not decide.
- Configuration, mounts, Flask resources other than those above, authorization, search and dashboards.
