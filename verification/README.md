# Verification models

Dafny models of the parts of Zoo Vision whose behaviour is hardest to see from the code: the live reconfiguration of a
camera, the shared model pool, event delivery and ingest, detection post-processing and tracking, table occupancy, the
demo's live feed, and the report, diff and export transformations. Each module follows one component. Concurrent
components are state machines whose steps are critical sections or private actions of a thread, so a theorem about runs
covers every interleaving; beside each stands a class with the component's fields whose methods are proved to take
exactly those steps. Pure code is functions with lemmas.

| module | component |
|---|---|
| WorkerProtocol, CameraWorker | the camera worker: update, start, stop, helper threads and the worker thread |
| WorkerOwnership | every detector and stream has one owner |
| WorkerGenerations, WorkerConvergence | generations, fates and convergence |
| WorkerInstalls, WorkerExamples | what the check before an install guarantees and what it does not |
| WorkerModels, WorkerRetries, WorkerStops | what update() asks for, when a change loads a model, which versions are rejected and loaded again, what a stop ends and what a stream waits for |
| ModelPool, ModelPoolLoads | the reference-counted pool, and what its loads decide |
| ModelEntry, ModelEntryProgress | one model's batching thread |
| EventStream | the engine's bounded event buffer |
| Supervisor | one worker per camera, stall restarts, sync requests |
| IngestTables, IngestIntervals, IngestConsumer, IngestOrder, IngestRedelivery, IngestRetries, IngestService | the API's at-least-once stream consumer |
| Detections, YoloDetector, IouTracker, DeviceAgent, DeviceBestShots | the Nx plugin's post-processing, tracker and record table |
| TableZone, TableSessions, TableHistories | dining table occupancy and its session intervals |
| LiveFeed | the demo's live feed and history |
| IntervalStats | the interval report's bucket splitting |
| JsonPointer, JsonDiff, Csv | settings diffs and CSV export |
| Seqs, Options, Ints | what the models share |

Run `dafny verify dfyconfig.toml` here to check everything.

What the proofs found in the code, kept as it is in the models:

- A settings change superseded between its check and its install is installed, though the design says a superseded load is never run; the next one then replaces it.
- A model hook that raises leaves the change neither applied nor rejected, is not retried for the same config, and costs one detector.
- The event buffer counts a message as dropped that is delivered afterwards, exactly when more messages came during its attempt than the buffer had room for.
- An entry delivered twice can change something, though the service says it changes nothing: a redelivered close closes an interval that an out-of-order open left open, and a redelivered metric overwrites a newer value, for good if the newer entry is then dead-lettered.
- A system entry that waits in a one-by-one pass is overtaken by later cameras' entries.
- Differences of settings misreport keys with names every JavaScript object inherits: a removed one is reported as changed to the inherited value instead of removed, and an object added under `__proto__` is compared with Object.prototype, so that an empty one is missed. Applied to the first value the differences then do not give the second; a key added under a name like `toString` is reported and does no harm.

## Model

| member | source | states |
|---|---|---|
| WorkerOwnership.OneOwner | services/engine/core/worker.py:279-329 | over every interleaving of callers, helpers and the worker thread, a detector acquired or stream created is in exactly one place: a helper, the queue, the list taken from it, the worker's hands, installed, or given back; one that does not exist is in none |
| WorkerOwnership.NeverReleasedTwice | services/engine/core/worker.py:565-600 | no detector is released twice and no stream is stopped twice, in any run |
| WorkerOwnership.FramesRunOnLiveHandles | services/engine/core/worker.py:398-430 | until the clean-up, the pipeline's detector was acquired and not released, and the stream in use was created and not stopped |
| WorkerOwnership.NothingIsKept | services/engine/core/worker.py:565-590 | once the clean-up ran and all helpers ended, every stream was stopped, and releases plus raises of the pipeline's model hook equal acquires; all were released if and only if the hook never raised |
| WorkerOwnership.NextKeepsOwned | services/engine/core/worker.py:447-590 | each of the 27 steps keeps single ownership, the count of what raising hooks lost, and who can hold what |
| WorkerOwnership.RunKeepsOwned | services/engine/core/worker.py:117-211 | the ownership invariant holds after any interleaving from a new worker |
| WorkerConvergence.OneFate | services/engine/core/worker.py:260-304 | each settings generation taken is in flight in exactly one place or was applied, rejected, dropped or given up exactly once |
| WorkerConvergence.AppliedGenerationsIncrease | services/engine/core/worker.py:480-563 | in any run the generations applied are strictly increasing |
| WorkerConvergence.RejectionsAreSentOnce | services/engine/core/worker.py:348-373 | config_rejected goes out at most once per version and never for one a restarted worker knows was reported; the rejected versions are exactly those two kinds, and only their models are loaded again |
| WorkerConvergence.ModelFitsTheAppliedConfig | services/engine/core/worker.py:382-385 | while no model hook raised, the model the pipeline runs was loaded for the model path and size of the applied config, and the pipeline is of its use case, whatever loads overtook each other |
| WorkerConvergence.SettingsConverge | services/engine/core/worker.py:165-191 | in every quiescent state the newest generation is settled if and only if the hook did not raise on it, and then the applied settings are those of the newest config or its version is on record as rejected |
| WorkerConvergence.StreamConverges | services/engine/core/worker.py:306-329 | in every quiescent state with a pipeline the installed stream is the newest generation, made for the newest config's source, and the pipeline carries the newest identity |
| WorkerInstalls.InstalledChangeWasChecked | services/engine/core/worker.py:480-528 | in every run, each generation applied was found to be the newest, with no stop asked for, at one step, held by the worker from then on and installed at a later step; at the install it is still the newest, with no stop asked for, if and only if update() took no generation and no stop came in between |
| WorkerInstalls.HandWasChecked | services/engine/core/worker.py:480-492 | in every run a change in the worker's hands was checked at an earlier step and held since, and is still the newest if and only if nothing superseded it since |
| WorkerInstalls.InstallsOrNone | services/engine/core/worker.py:494-563 | a step retires a generation as applied only by installing the change in the worker's hands |
| WorkerInstalls.EveryStepOnlyNewest | services/engine/core/worker.py:288-329 | at every step of every run a load starts only for the newest settings generation, only the newest change or stream is queued, and only the newest stream is installed, none of it once a stop was asked for |
| WorkerInstalls.StreamsOnlyGetNewer | services/engine/core/worker.py:466-478 | over any run the stream in use only gives way to one of a later generation |
| WorkerRetries.SameConfigIsLoadedAgainIff | services/engine/core/worker.py:250-258 | in every run update() with the newest config again takes a new generation, loaded if it needs a detector, if and only if nothing is in flight, no stop was asked for and its version had a failed load, not superseded, that update() was not given again since; else it changes nothing |
| WorkerRetries.RememberedIff | services/engine/core/worker.py:292-296 | in every run the versions kept for another load are those rejected by a failed load that no update() retried since, and no others: not those rejected by parsing or by an install |
| WorkerRetries.LoadEndedAsThePoolSaid | services/engine/core/worker.py:290-296 | in every run a helper holds a detector only after the pool returned one to it and gives a load up only after the pool raised |
| WorkerRetries.RejectedIff | services/engine/core/worker.py:348-373 | in every run the rejected versions are exactly those known at the start and those whose parsing, load or install failed while they were the newest and no stop was asked for |
| WorkerModels.UpdateAsksForWhatDiffers | services/engine/core/worker.py:165-191 | in every state a call of update() asks for exactly what differs: one settings generation, queued or loaded, one stream generation if a stream is wanted, one identity change; after a stop, or with the same config and nothing to retry, it changes nothing |
| WorkerModels.UpdateLoadsIff | services/engine/core/worker.py:260-275 | in every run update() with settings that parse queues the change at once if and only if its use case, model path and image size are those applied, and else sends it for a load |
| WorkerModels.CheckedChangeGoes | services/engine/core/worker.py:480-492 | in every run a checked change is loaded first, gets a new pipeline or goes to the one that runs, exactly as its detector and the use case and model applied by then say |
| WorkerModels.SameModelIsAppliedInPlace | services/engine/core/worker.py:165-191 | in every run an idle worker given new settings for the use case and model it runs applies them with nothing loaded, released, started or stopped |
| WorkerStops.StopBeginsNothing | services/engine/core/worker.py:171-201 | after a stop, whatever steps follow, the config stays, no helper starts, and at most the loads and stream starts that were under way bring one detector or stream each |
| WorkerStops.StreamWaitsForPipeline | services/engine/core/worker.py:494-528 | over every run no stream is asked for, started or queued before the first pipeline, and exactly from then on one is wanted |
| WorkerStops.StreamIsTriedUntilItStarts | services/engine/core/worker.py:306-329 | however many attempts fail, the helper of the newest stream tries again, each stream created but not started is stopped, and the one that starts is queued |
| WorkerStops.SupersededIsNotTriedAgain | services/engine/core/worker.py:318-333 | whatever steps follow, a stream helper between two attempts whose generation was superseded, or that is to stop, never tries again |
| WorkerConvergence.NextKeepsInv | services/engine/core/worker.py:348-380 | each step keeps fates, versions, setup and targets consistent |
| WorkerConvergence.RunKeepsInv | services/engine/core/worker.py:117-211 | the bookkeeping invariant holds after any interleaving from a new worker |
| WorkerGenerations.NextTraced | services/engine/core/worker.py:260-329 | no step loses or doubles a settings generation, and none loses the newest stream generation while it is wanted |
| WorkerExamples.SupersededChangeIsInstalled | services/engine/core/worker.py:480-528 | a concrete run in which update() supersedes a change between its check and its install, and it is installed |
| WorkerExamples.RaisedHookIsSilent | services/engine/core/worker.py:547-554 | a concrete run in which the model hook raises on the second config: nothing is in flight any more, the first config still counts as applied, and the second is neither settled nor reported |
| WorkerExamples.SameConfigIsNotRetried | services/engine/core/worker.py:165-191 | in every run, once nothing is in flight and the hook raised on the newest change, the same config given again changes nothing |
| CameraWorker.Worker.Update | services/engine/core/worker.py:165-191 | update() undisturbed: the newest config is the one given, the call ends, and the state is that of a run of its steps; keeps both invariants |
| CameraWorker.Worker.ApplySettings | services/engine/core/worker.py:480-492 | _apply_settings undisturbed after its check: however the install turns out the worker runs on and touches no queue; the state is that of a run of its steps; keeps both invariants |
| CameraWorker.Worker.ApplyQueued | services/engine/core/worker.py:447-459 | _apply_queued undisturbed: everything queued is dealt with in order, whichever installs fail; the state is that of a run of its steps; keeps both invariants |
| CameraWorker.Worker.Rebuild | services/engine/core/worker.py:494-528 | _rebuild undisturbed, with the first stream started when the pipeline is the first; keeps both invariants |
| CameraWorker.Worker.Start | services/engine/core/worker.py:152-163 | start() takes generation one and starts preparing, once; keeps both invariants |
| CameraWorker.Worker.Stop | services/engine/core/worker.py:193-201 | stop() only sets the flag that ends everything; keeps both invariants |
| CameraWorker.Worker.EnterUpdate | services/engine/core/worker.py:250-258 | asks again for a version whose model did not load exactly when it is the newest config and nothing is in flight; keeps both invariants |
| CameraWorker.Worker.ApplyUpdate | services/engine/core/worker.py:171-191 | takes the new config, a stream generation when the source changed under a wanted stream, and queues an identity change; keeps both invariants |
| CameraWorker.Worker.SpawnUpdatedStream | services/engine/core/worker.py:184-189 | starts the stream helper unless the worker is stopping; keeps both invariants |
| CameraWorker.Worker.RequestSettings | services/engine/core/worker.py:260-275 | invalid settings are rejected without a generation; valid ones take one and are queued at once or sent for a load; keeps both invariants |
| CameraWorker.Worker.SpawnRequestedLoad | services/engine/core/worker.py:335-340 | the load helper starts, or the generation is dropped at a stop; keeps both invariants |
| CameraWorker.Worker.Parse | services/engine/core/worker.py:279-287 | the first settings are parsed, or their version rejected; keeps both invariants |
| CameraWorker.Worker.CheckBeforeLoad | services/engine/core/worker.py:288-289 | a load starts only for the newest generation; keeps both invariants |
| CameraWorker.Worker.EndAcquire | services/engine/core/worker.py:290-296 | a detector is acquired for the change's model, or the load failed; keeps both invariants |
| CameraWorker.Worker.QueueOrRelease | services/engine/core/worker.py:297-304 | a loaded change is queued if still the newest, else its detector is released; keeps both invariants |
| CameraWorker.Worker.RejectFailedLoad | services/engine/core/worker.py:292-296 | a failed load rejects the version and marks it for a retry; keeps both invariants |
| CameraWorker.Worker.AttemptStream | services/engine/core/worker.py:306-320 | a stream that failed to start is stopped; keeps both invariants |
| CameraWorker.Worker.RetryOrEnd | services/engine/core/worker.py:318-320 | the retry ends once the stream generation is superseded; keeps both invariants |
| CameraWorker.Worker.QueueOrStop | services/engine/core/worker.py:321-329 | a started stream is queued if still the newest, else stopped; keeps both invariants |
| CameraWorker.Worker.RejectVersion | services/engine/core/worker.py:348-373 | the whole effect of a rejection on generations and versions, superseded or not |
| CameraWorker.Worker.ApplyNext | services/engine/core/worker.py:447-478 | one queued item is applied: identity copied, stream swapped with the old one stopped, or settings checked; keeps both invariants |
| CameraWorker.Worker.LoadFirst | services/engine/core/worker.py:484-488 | a change whose model was swapped away meanwhile is loaded first; keeps both invariants |
| CameraWorker.Worker.EndRebuild | services/engine/core/worker.py:494-528 | a new pipeline replaces the old one, whose detector is released, and the first one asks for the stream; keeps both invariants |
| CameraWorker.Worker.FailRebuild | services/engine/core/worker.py:505-512 | a pipeline that could not be made gives its detector back and is rejected; keeps both invariants |
| CameraWorker.Worker.FailReconfigure | services/engine/core/worker.py:530-546 | settings the pipeline refused give the detector back and are rejected; keeps both invariants |
| CameraWorker.Worker.EndReconfigure | services/engine/core/worker.py:547-554 | the model is swapped and the previous one released, or the change is given up when the hook raises; keeps both invariants |
| CameraWorker.Worker.DropQueued | services/engine/core/worker.py:583-587 | every queued detector is released and every queued stream stopped |
| CameraWorker.Worker.CleanUp | services/engine/core/worker.py:565-587 | the clean-up releases or stops everything the worker held |
| ModelPool.CountsAreExact | services/engine/core/model_pool.py:162-211 | over every interleaving a mapped entry's reference count is its unreleased handles plus its open acquires, and is positive |
| ModelPool.HandlesStayUsable | services/engine/core/model_pool.py:162-178 | an unreleased handle of an open pool has a running model, the one its key maps to |
| ModelPool.StopsAreJustified | services/engine/core/model_pool.py:197-223 | a model thread is told to stop only when nothing refers to its entry or the pool is closed |
| ModelPool.NoStartAfterClose | services/engine/core/model_pool.py:180-195 | no model thread starts once the pool is closed, also for a load that was under way |
| ModelPool.NothingStaysLoaded | services/engine/core/model_pool.py:197-223 | with every handle released and no acquire open, no model thread is left running |
| ModelPoolLoads.LoadDecidesEntry | services/engine/core/model_pool.py:180-195 | over every interleaving an entry has a thread if and only if its creator's loader returned while the pool was open, and is given up if and only if it raised or found the pool closed |
| ModelPoolLoads.LoadDecidesCall | services/engine/core/model_pool.py:162-211 | over every interleaving an acquire that ended returned a handle if and only if its entry's loader returned while the pool was open, and raised if and only if it raised or found the pool closed |
| ModelPoolLoads.HandlesAreLoaded | services/engine/core/model_pool.py:180-195 | every handle given out is of an entry whose loader returned while the pool was open |
| ModelPoolLoads.ReleasedPoolRunsNothing | services/engine/core/model_pool.py:197-223 | in every run with every handle released and no acquire open, once the stops decided are carried out no entry is mapped and no thread runs or waits to be stopped |
| ModelPoolLoads.CallsServeTheirKey | services/engine/core/model_pool.py:162-179 | whatever happens later, an acquire is served by an entry of the key it asked for |
| ModelPool.NextKeepsInv | services/engine/core/model_pool.py:162-223 | every step keeps exact counts, linked entries and positive mapped counts |
| ModelPool.Pool.BeginAcquire | services/engine/core/model_pool.py:164-171 | joins or creates the key's entry with one more reference, or raises on a closed pool; keeps the invariant |
| ModelPool.Pool.EndLoad | services/engine/core/model_pool.py:181-188 | starts the thread unless the load failed or the pool closed; keeps the invariant |
| ModelPool.Pool.TakeOutFailed | services/engine/core/model_pool.py:189-191 | a failed entry leaves the pool if its key still maps to it; keeps the invariant |
| ModelPool.Pool.PublishLoad | services/engine/core/model_pool.py:192-195 | the creator gets a handle or the error and the waiters are woken; keeps the invariant |
| ModelPool.Pool.EndWait | services/engine/core/model_pool.py:175-178 | a waiter gets a handle or the load error; keeps the invariant |
| ModelPool.Pool.ReleaseHandle | services/engine/core/model_pool.py:197-211 | a handle counts once; the entry is handed to stop exactly when its last reference goes; keeps the invariant |
| ModelPool.Pool.StopThread | services/engine/core/model_pool.py:73-83 | the entry's thread is told to stop; keeps the invariant |
| ModelPool.Pool.ClosePool | services/engine/core/model_pool.py:217-223 | every started entry is handed to stop and the pool is empty; keeps the invariant |
| ModelEntry.BatchesKeepTheOrder | services/engine/core/model_pool.py:85-106 | the batches, what the thread holds and the queue are together the accepted requests in order; batches are uniform in arguments and at most max_batch long |
| ModelEntry.FinishedOnce | services/engine/core/model_pool.py:108-121 | no request is finished twice |
| ModelEntry.NothingLeftBehind | services/engine/core/model_pool.py:67-106 | nothing is queued behind the stop sentinel, and when the thread is gone every accepted request was finished or abandoned, the carried-over one included |
| ModelEntry.BatchingIsInvisible | services/engine/core/model_pool.py:108-121 | if the one call for a batch, made with the first request's arguments, answers each frame as a call for it alone with those arguments would, then in every run each caller gets what a call for its frame alone with its own arguments returns, or an error: batching refines single calls |
| ModelEntryProgress.AcceptedAre | services/engine/core/model_pool.py:67-83 | in every run the accepted requests are those submitted before the stop, in order, as they were asked |
| ModelEntryProgress.AbandonedAre | services/engine/core/model_pool.py:135-143 | in every run the requests passed over are exactly those whose callers gave up |
| ModelEntryProgress.FillTakesAll | services/engine/core/model_pool.py:85-106 | filling a batch takes every next request of its arguments up to the limit, no fewer; the item that ends it is carried over, or is the stop |
| ModelEntryProgress.InferAnswers | services/engine/core/model_pool.py:108-121 | one model call finishes exactly the requests of the batch whose callers wait, each with its own frame's result, or all with an error |
| ModelEntryProgress.EverythingIsWorkedOff | services/engine/core/model_pool.py:67-121 | after any run, left alone with the model's outcomes, the thread finishes every accepted request but the given-up ones, and is gone if a stop was asked for |
| ModelEntry.Entry.SubmitRequest | services/engine/core/model_pool.py:67-71 | accepted in order, refused once stopping |
| ModelEntry.Entry.StopEntry | services/engine/core/model_pool.py:73-78 | queues the sentinel once |
| ModelEntry.Entry.BeginBatch | services/engine/core/model_pool.py:89-93 | starts with the carried-over request or the head |
| ModelEntry.Entry.FillOne | services/engine/core/model_pool.py:94-105 | one more equal request, or a carried one, the sentinel or an empty queue ends the batch |
| ModelEntry.Entry.InferBatch | services/engine/core/model_pool.py:108-121 | each live request of the batch is finished with its own result or the error |
| EventStream.BufferIsBounded | services/engine/core/event_stream.py:68-84 | over every interleaving the buffer holds at most buffer_size messages, also while one is in flight |
| EventStream.DeliveriesAreInOrder | services/engine/core/event_stream.py:76-110 | confirmed deliveries are enqueued messages themselves, in order and without duplicates |
| EventStream.LossIsCounted | services/engine/core/event_stream.py:68-121 | enqueued plus overcount equals delivered plus dropped_total plus buffered, and dropped_total is what the reports announced plus the unreported |
| EventStream.DropsAreFullOrRefused | services/engine/core/event_stream.py:68-121 | in every run dropped_total is exactly the messages enqueued into a full buffer plus the attempts Redis refused; deliveries are the confirmed attempts, and what was enqueued besides reports is what was validly sent |
| EventStream.NothingIsLost | services/engine/core/event_stream.py:84-105 | in a run that never meets a full buffer and in which nothing is refused, however often Redis is unreachable, delivered and buffered together are every enqueued message in order |
| EventStream.ReportAnnouncesAll | services/engine/core/event_stream.py:106-121 | after a confirmed delivery the reports enqueued announce, in sum, every drop counted so far |
| EventStream.OvercountMeansLateFinish | services/engine/core/event_stream.py:92-105 | the count is exact if and only if, between taking a message and the answer to its attempt, never more messages came than the buffer had room for when it was taken |
| EventStream.LateIff | services/engine/core/event_stream.py:68-105 | an attempt ends with its message still the head if and only if no more messages came meanwhile than there was room for |
| EventStream.LateFinishIsCountedTwice | services/engine/core/event_stream.py:68-105 | a concrete run with a buffer of one in which a message is delivered and counted as dropped |
| EventStream.Buffer.Send | services/engine/core/event_stream.py:42-53 | an invalid message is dropped uncounted, a valid one enqueued |
| EventStream.Buffer.TakeHead | services/engine/core/event_stream.py:79-84 | the head stays in the buffer while in flight |
| EventStream.Buffer.Attempted | services/engine/core/event_stream.py:85-110 | a delivered or refused message leaves the buffer if it is still the head; a refused one is counted |
| EventStream.Buffer.ReportDropped | services/engine/core/event_stream.py:114-120 | the unreported count goes out as a message of its own |
| Supervisor.InUseOrHandedOnce | services/engine/core/supervisor.py:54-135 | over every interleaving of reconcile, stall checks and shutdown, a started worker is the one in use for its camera or was handed to stop, once, and not both |
| Supervisor.ReconcileFollowsSnapshot | services/engine/core/supervisor.py:54-92 | in every run a reconcile leaves listed and kept cameras their worker, gives a listed camera without one a new worker if it can start, and hands exactly the others' workers to stop |
| Supervisor.StalledLeave | services/engine/core/supervisor.py:106-122 | in every run a stall check takes out exactly the stalled cameras' workers, hands them to stop and notes them for a restart |
| Supervisor.StalledComeBackIff | services/engine/core/supervisor.py:123-135 | in every run, after the stops a camera without a worker gets one if and only if a worker of it was stalled in that check and its successor starts; it counts one restart more |
| Supervisor.NothingStartsAfterShutdown | services/engine/core/supervisor.py:170-175 | from the shutdown on no worker is in use or started, and every worker ever started was handed to stop |
| Supervisor.RestartSucceeds | services/engine/core/supervisor.py:123-135 | every successor a restart starts belongs to the camera of a worker of that stall check, with one restart more |
| Supervisor.FetchFollowsRequest | services/engine/core/supervisor.py:99-104 | in every run whose clock readings do not decrease, a request_sync is followed in the log by a fetch that begins after it, at the latest in the first round begun the debounce time after it, whatever happens in between |
| Supervisor.RequestsAreServed | services/engine/core/supervisor.py:137-150 | a round begins a fetch if and only if the resync is due or the first request since the last fetch is older than the debounce time |
| Supervisor.NextKeepsInv | services/engine/core/supervisor.py:54-191 | each critical section keeps one place per worker and workers under their own camera |
| Supervisor.CameraSupervisor.TakeOut | services/engine/core/supervisor.py:66-67 | exactly the workers of the cameras not kept leave, each once |
| Supervisor.CameraSupervisor.ReconcileCameras | services/engine/core/supervisor.py:63-80 | listed cameras without a worker get one, the others keep theirs |
| Supervisor.CameraSupervisor.TakeOutStalled | services/engine/core/supervisor.py:111-117 | the stalled workers leave before they are stopped |
| Supervisor.CameraSupervisor.RestartBatch | services/engine/core/supervisor.py:124-135 | successors for the cameras still without a worker, none once closed |
| Supervisor.CameraSupervisor.Close | services/engine/core/supervisor.py:172-174 | all workers leave and the supervisor is closed |
| Supervisor.CameraSupervisor.AskForSync | services/engine/core/supervisor.py:99-104 | sets a deadline unless one is set |
| Supervisor.CameraSupervisor.TakeRequest | services/engine/core/supervisor.py:146-150 | clears the deadline exactly when it syncs |
| IngestTables.SuffixAgain | apps/api/src/ingest/ingest.service.ts:232-249 | applying any suffix of the log again changes no row if and only if no close in it names an interval still open |
| IngestTables.RedeliveryChangesNothing | apps/api/src/ingest/ingest.service.ts:88-91 | in a log where a close follows an open of its session if the log has one, a redelivered suffix leaves Event, Interval, Metric and Evidence as they are |
| IngestTables.AppliedAgain | apps/api/src/ingest/ingest.service.ts:284-409 | a message applied once changes nothing when it comes again after anything else, if and only if it is not a close of an open interval and not a metric overwritten since |
| IngestTables.CloseBeforeOpenMatters | apps/api/src/ingest/ingest.service.ts:375-394 | the failing case: a close delivered before its open closes the interval when both are redelivered |
| IngestTables.LastMetricWins | apps/api/src/ingest/ingest.service.ts:397-409 | per camera, name and minute the last value of the log is stored and the row keeps its first use case |
| IngestTables.RunGrows | apps/api/src/ingest/ingest.service.ts:312-395 | no row goes away, event and evidence rows never change, and a closed interval never changes |
| IngestTables.EachRowIsAnnouncedOnce | apps/api/src/ingest/ingest.service.ts:325-328 | each event row a log adds is announced once, with what the row holds, and nothing else is |
| IngestTables.EvidenceGoesWithItsEvent | apps/api/src/ingest/ingest.service.ts:325-338 | over any log an important event and its evidence row are written together or not at all, and no other event has one |
| IngestTables.RestartEndsWhatWasLeftOpen | apps/api/src/ingest/ingest.service.ts:340-355 | the first engine_started ends exactly the intervals its group left open by then; delivered again after anything else it changes nothing |
| IngestIntervals.IntervalIsItsMessages | apps/api/src/ingest/ingest.service.ts:312-395 | for every log an interval has a row if and only if a known camera opened it; camera, use case, start and body are those of the first open, its end is the time and reason of the first close or restart that ends it afterwards, and its data the open's overlaid with that close's |
| IngestIntervals.EventIsItsFirstDelivery | apps/api/src/ingest/ingest.service.ts:312-328 | for every log an event's row is its first delivery from a known camera |
| IngestTables.OpenedIff | apps/api/src/ingest/ingest.service.ts:359-373 | for every log an interval has a row if and only if an open of its session from a known camera is in the log |
| IngestService.SilentIff | apps/api/src/ingest/ingest.service.ts:48-70 | a transaction announces nothing if and only if it wrote no metric and left every row as it was; the events it announces are those it inserted |
| IngestService.SummaryIsWhatWasWritten | apps/api/src/ingest/ingest.service.ts:47-70 | what a commit announces names exactly the cameras and use cases of the messages that wrote, and exactly the shapes written, an ended interval of a restart included |
| IngestService.WritesIff | apps/api/src/ingest/ingest.service.ts:283-409 | when a message of each kind writes: an event at its first delivery, an open of a new session, a close of an open interval, every metric |
| IngestOrder.AppliedInStreamOrder | apps/api/src/ingest/ingest.service.ts:135-164 | whatever fails, when an entry is first applied every older entry of its camera was applied or dead-lettered before; for a system entry, every older entry was |
| IngestOrder.AckedIsAccounted | apps/api/src/ingest/ingest.service.ts:166-201 | an entry leaves the pending list only if its transaction committed or it has a dead letter |
| IngestOrder.FailureIsAllOrNothing | apps/api/src/ingest/ingest.service.ts:117-133 | a transaction reported as failed leaves all of its rows or none, and neither acknowledges nor announces anything |
| IngestOrder.LettersAreTheDead | apps/api/src/ingest/ingest.service.ts:228-249 | in every run the dead letters are those of the entries given up and of committed entries that could not be read, were of an unknown camera, or closed a session no earlier commit opened, in order |
| IngestOrder.PendingIsBounded | apps/api/src/ingest/events-consumer.service.ts:123-152 | at most 100 entries are ever pending, so a read returns them all |
| IngestRedelivery.RedeliveriesLeaveNoTraceIff | apps/api/src/ingest/ingest.service.ts:88-91 | in every run in which sessions are opened before they are closed, whatever fails, events, intervals and evidence are those of a log in which each entry took effect only where it was committed first; all rows are, if and only if the last commit of each metric key wrote the value of its last first commit |
| IngestRedelivery.SettledRowsAreOnce | apps/api/src/ingest/ingest.service.ts:88-91 | if every open in the stream precedes every close of its session and is of its camera, and everything committed is acknowledged and none of it dead-lettered, all rows are those of a run without redeliveries |
| IngestRedelivery.RedeliveryLeavesATrace | apps/api/src/ingest/ingest.service.ts:397-409 | a concrete run: of two values of a metric, committed but not acknowledged, the older is applied again while the newer fails until it is dead-lettered; nothing is pending and the row holds the older value |
| IngestRedelivery.NewestIsLast | apps/api/src/ingest/ingest.service.ts:135-164 | of two entries that write one metric key the newer one is committed last, once everything committed is acknowledged and not dead-lettered |
| IngestRedelivery.RunKeepsRepeats | apps/api/src/ingest/ingest.service.ts:135-164 | in every run, with an acknowledged entry everything older of its camera is acknowledged, and unless it was dead-lettered nothing of that is committed after it |
| IngestRedelivery.OpensFirstOnce | apps/api/src/ingest/ingest.service.ts:375-394 | a stream with opens before closes is committed in that order too |
| IngestOrder.EventsAreAnnouncedOnce | apps/api/src/ingest/ingest.service.ts:195-217 | unless a commit was reported as failed or the process ended between a commit and its announcement, each event row was announced exactly once, whatever else failed |
| IngestOrder.PassKeepsBase | apps/api/src/ingest/events-consumer.service.ts:81-106 | one read and batch keeps order, accounting and the bound |
| IngestRetries.RetriesEnd | apps/api/src/ingest/ingest.service.ts:140-178 | while the database and Redis answer, n pending entries are all applied or dead-lettered within 5n passes |
| IngestRetries.BuriedAfterFiveAttempts | apps/api/src/ingest/ingest.service.ts:140-178 | in every run an entry is given up only after five failed attempts of its own were counted |
| IngestRetries.ReadIsPendingOrNew | apps/api/src/ingest/events-consumer.service.ts:123-152 | in every run a read returns all pending entries if there are any, else the next hundred new ones, or as many as there are, in order |
| IngestRetries.CountersAreAttempts | apps/api/src/ingest/ingest.service.ts:166-220 | in every run the counter of an unacknowledged entry is the number of its own failed attempts, and an acknowledged one has no counter unless an acknowledgement lost its HDEL |
| IngestRetries.PassLeavesLess | apps/api/src/ingest/ingest.service.ts:166-178 | every such pass over a non-empty pending list strictly lowers the attempts left |
| IngestRetries.AttemptedIff | apps/api/src/ingest/ingest.service.ts:143-158 | while no error ends a one-by-one pass, an entry is attempted if and only if every earlier entry that failed and stays is of another camera and neither is a system entry |
| IngestRetries.SystemEntryIsOvertakenIff | apps/api/src/ingest/ingest.service.ts:143-158 | in a pass a system entry waits and a later entry is applied before it if and only if some entry that failed and stays holds back the first and none holds back the second |
| IngestRetries.WaitingSystemEntryIsOvertaken | apps/api/src/ingest/ingest.service.ts:143-158 | a concrete pass in which a later camera's entry is applied before a system entry that waits |
| IngestService.Ingest.ApplyEntries | apps/api/src/ingest/ingest.service.ts:232-249 | one transaction in stream order: rows, dead letters and what it will announce |
| IngestService.Ingest.Ack | apps/api/src/ingest/ingest.service.ts:217-220 | XACK, then the counts are removed |
| IngestService.Ingest.AckThenPublish | apps/api/src/ingest/ingest.service.ts:195-201 | announces even when the XACK fails |
| IngestService.Ingest.Commit | apps/api/src/ingest/ingest.service.ts:127-130 | rows, acknowledgement and announcement of a committed batch |
| IngestService.Ingest.FailTransaction | apps/api/src/ingest/ingest.service.ts:120-126 | a transaction reported as failed is not announced, also when its commit took effect |
| IngestService.Ingest.Fail | apps/api/src/ingest/ingest.service.ts:167-178 | the fifth failed attempt buries the entry |
| IngestService.Ingest.ApplyOneByOne | apps/api/src/ingest/ingest.service.ts:140-164 | per-camera hold-back over the whole loop, ended by the first error that is not the entry's |
| IngestService.Ingest.ProcessBatch | apps/api/src/ingest/ingest.service.ts:117-133 | one transaction for all, else one by one on an entry fault, else nothing |
| IngestService.Ingest.Read | apps/api/src/ingest/events-consumer.service.ts:124-152 | the pending entries if there are any, else new ones |
| IngestService.Ingest.RunOnce | apps/api/src/ingest/events-consumer.service.ts:84-94 | one round keeps order, accounting, the bound and the rows of the log |
| Detections.IoUSymmetric | integrations/nx/plugin/core/yolo_detector.cpp:293-309 | the overlap score does not depend on the order of the boxes |
| Detections.IoURange | integrations/nx/plugin/core/yolo_detector.cpp:293-309 | for boxes without negative sides the score lies between zero and one |
| Detections.IoUOfItself | integrations/nx/plugin/core/iou_tracker.cpp:14-30 | a box with area scores one with itself |
| Detections.IoUIsSharedOverJoint | integrations/nx/plugin/core/yolo_detector.cpp:293-309 | for two boxes with a common point the score is the area of their largest common box over the sum of the areas less that, zero if that is not positive |
| Detections.CommonPart | integrations/nx/plugin/core/yolo_detector.cpp:293-309 | two boxes with a common point have a largest common box, which holds exactly their common points |
| Detections.DisjointScoreZero | integrations/nx/plugin/core/yolo_detector.cpp:293-309 | boxes without a common point score zero |
| YoloDetector.LowerFloorIsInvisible | integrations/nx/plugin/core/yolo_detector.cpp:210-291 | if two sorts order boxes of equal confidence alike, what a lower confidence floor reports at or above `hi` is exactly what a floor of `hi` reports |
| YoloDetector.SameTiesSamePrefix | integrations/nx/plugin/core/yolo_detector.cpp:256-258 | two sorts of the candidates of two floors order ties alike if and only if they put the same boxes in the same order above the higher floor |
| YoloDetector.KeptSetIsTheGreedySelection | integrations/nx/plugin/core/yolo_detector.cpp:260-290 | a selection is the kept one if and only if no kept same-class pair overlaps above the threshold and each dropped box is suppressed by an earlier kept one |
| YoloDetector.DroppedByAStrongerBox | integrations/nx/plugin/core/yolo_detector.cpp:263-288 | each dropped box is overlapped by a kept box of its class with at least its confidence |
| YoloDetector.DistinctConfidencesHaveOneOrder | integrations/nx/plugin/core/yolo_detector.cpp:256-258 | without ties at or above `hi` any two sorts agree, so the floor theorem needs no assumption |
| YoloDetector.TieOrderMatters | integrations/nx/plugin/core/yolo_detector.cpp:256-258 | a concrete model output with a tie that two sorts resolve differently and for which the floors disagree |
| YoloDetector.BestIsFirstMaximum | integrations/nx/plugin/core/yolo_detector.cpp:212-224 | the class found is the lowest-numbered one with the highest positive score, none if no score is positive |
| YoloDetector.DecodeInFrame | integrations/nx/plugin/core/yolo_detector.cpp:231-250 | whatever the model outputs, a decoded box lies in the unit square |
| YoloDetector.DecodeUndoesLetterbox | integrations/nx/plugin/core/yolo_detector.cpp:231-250 | decoding undoes the letterbox: a column that holds a box's centre and size, scaled and padded, decodes to that box in parts of the frame, clamped where it sticks out and exactly where it does not |
| YoloDetector.EveryColumnHoldsABox | integrations/nx/plugin/core/yolo_detector.cpp:226-250 | every column of every output holds such a box, so the round trip covers all outputs |
| YoloDetector.DecodedClass | integrations/nx/plugin/core/yolo_detector.cpp:212-224 | a decoded box has the first class with the highest positive score, and that score |
| YoloDetector.CandidatesAreColumns | integrations/nx/plugin/core/yolo_detector.cpp:207-253 | the candidates are the decoded boxes of exactly the columns whose confidence reaches the floor, in order |
| YoloDetector.CandidatesAbove | integrations/nx/plugin/core/yolo_detector.cpp:210-253 | the candidates of a higher floor are those of a lower one that reach it, in the same order |
| YoloDetector.BestClass | integrations/nx/plugin/core/yolo_detector.cpp:213-224 | the scan over the classes finds the best one |
| YoloDetector.Decoded | integrations/nx/plugin/core/yolo_detector.cpp:207-253 | all candidates lie in the frame and reach the threshold, in output order |
| YoloDetector.SortByConfidence | integrations/nx/plugin/core/yolo_detector.cpp:256-258 | a permutation by falling confidence |
| YoloDetector.Suppress | integrations/nx/plugin/core/yolo_detector.cpp:260-290 | the loop over the suppressed flags returns the non-maximum suppression |
| YoloDetector.Postprocess | integrations/nx/plugin/core/yolo_detector.cpp:197-291 | the survivors of some sort of the candidates |
| IouTracker.BestTrackIsBest | integrations/nx/plugin/core/iou_tracker.cpp:58-76 | the scan finds the lowest-numbered free track of the class with the greatest overlap above the threshold, and none only when none may match |
| IouTracker.MatchIsInjective | integrations/nx/plugin/core/iou_tracker.cpp:56-86 | no track is given to two detections, and matching changes matched tracks only, never their keys |
| IouTracker.MatchIsGreedy | integrations/nx/plugin/core/iou_tracker.cpp:56-86 | every detection gets the free track that overlaps it most as the tracks stood before the pass, and is unmatched only when no free track may match |
| IouTracker.UpdateFacts | integrations/nx/plugin/core/iou_tracker.cpp:39-120 | keys stay distinct and are never reused; reported tracks have the new age, the others keep theirs and exactly the too old ones go |
| IouTracker.UpdateIsGreedy | integrations/nx/plugin/core/iou_tracker.cpp:39-120 | a pass reports the confident detections in order, each under the key of the track, not given to an earlier one, whose box overlaps it most among those of its class, or under a new key if none does enough; a track left remembers the box it was last reported with |
| IouTracker.CreateFacts | integrations/nx/plugin/core/iou_tracker.cpp:88-100 | each unmatched detection gets a track of its own with a new key |
| IouTracker.ExpiryFacts | integrations/nx/plugin/core/iou_tracker.cpp:113-117 | expiry removes exactly the tracks older than the limit and touches no other |
| IouTracker.Tracker.Advance | integrations/nx/plugin/core/iou_tracker.cpp:39-120 | one pass does to tracks, pass and next key what the specification says, and reports each detection's key |
| IouTracker.Tracker.MatchAll | integrations/nx/plugin/core/iou_tracker.cpp:55-86 | the greedy matching loops |
| IouTracker.Tracker.CreateAll | integrations/nx/plugin/core/iou_tracker.cpp:88-100 | the loop that adds tracks |
| IouTracker.Tracker.Expire | integrations/nx/plugin/core/iou_tracker.cpp:113-117 | the erase loop |
| DeviceAgent.PassKeepsStep | integrations/nx/plugin/core/base_device_agent.cpp:336-352 | after every pass with the IoU tracker the records' keys are the live tracks' keys and all ages differ by one offset, across every switch of tracker |
| DeviceAgent.TracksKeepTheirIdentity | integrations/nx/plugin/core/base_device_agent.cpp:118-179 | over any run a track has one id for life, an id names one track of one tracker, and at most one best shot goes out per id |
| DeviceAgent.PassKeepsInv | integrations/nx/plugin/core/base_device_agent.cpp:302-373 | every pass keeps ids, reports and best-shot flags consistent, with either tracker |
| DeviceAgent.RecordLivesIff | integrations/nx/plugin/core/base_device_agent.cpp:144-179 | a pass keeps exactly the records of tracks reported in it or in one of the ten passes before, each with the pass it was last reported in |
| DeviceAgent.TrackerFollowsRequest | integrations/nx/plugin/core/base_device_agent.cpp:118-142 | in every run a pass tracks with the tracker asked for in it, a new one exactly when the pass before had the other or there was none, and then every record begins with the pass |
| DeviceAgent.ReportAges | integrations/nx/plugin/core/base_device_agent.cpp:149-163 | reporting gives exactly the reported keys the age of this pass |
| DeviceAgent.ReportedIds | integrations/nx/plugin/core/base_device_agent.cpp:149-163 | the id reported for a detection is the id on its record |
| DeviceAgent.BestShotsMark | integrations/nx/plugin/core/base_device_agent.cpp:209-235 | a best shot goes out once for a record seen long enough and changes its flag only |
| DeviceBestShots.BestShotIff | integrations/nx/plugin/core/base_device_agent.cpp:209-235 | in every run a pass sends a best shot for an id if and only if it reports the id, the id was first reported at least three passes before, and none went out for it |
| DeviceBestShots.ReportsTellTheirPass | integrations/nx/plugin/core/base_device_agent.cpp:144-163 | a report carries the number of its pass, so the first report of an id tells when it began |
| DeviceAgent.BaseDeviceAgent.EnsureRequestedTracker | integrations/nx/plugin/core/base_device_agent.cpp:118-142 | a switch clears the records with the tracks |
| DeviceAgent.BaseDeviceAgent.UpdateTrackRecords | integrations/nx/plugin/core/base_device_agent.cpp:144-163 | records and ids of the reported detections |
| DeviceAgent.BaseDeviceAgent.EraseExpired | integrations/nx/plugin/core/base_device_agent.cpp:165-176 | the records too old are erased |
| DeviceAgent.BaseDeviceAgent.CollectBestShots | integrations/nx/plugin/core/base_device_agent.cpp:209-235 | flags and packets of this pass |
| DeviceAgent.BaseDeviceAgent.InferencePass | integrations/nx/plugin/core/base_device_agent.cpp:336-357 | one iteration of the worker loop keeps tracker and records in step |
| TableZone.FillsIff | services/engine/core/table_manager.py:170-187 | a table becomes occupied if and only if it was empty, someone is there, and a sighting at least min_occupied_sec old was not followed by an empty frame more than 2 s after the last person |
| TableZone.ClearsIff | services/engine/core/table_manager.py:195-212 | a table becomes empty if and only if it was occupied, no one is there and the last frame with a person is at least empty_debounce_sec old |
| TableZone.TransitionsAlternate | services/engine/core/table_manager.py:159-220 | transitions alternate and total_sessions_count is the number of EMPTY to OCCUPIED ones |
| TableZone.ClearedDwell | services/engine/core/table_manager.py:188-211 | the dwell time reported at a clearing is the whole seconds from the filling to the last frame that set it, whatever the tracking setting was in between |
| TableZone.DwellCounts | services/engine/core/table_manager.py:190-218 | while a table is occupied its dwell time is that of the last frame that set it: zero if it was not tracked then, else the whole seconds since the filling |
| TableZone.Table.UpdateState | services/engine/core/table_manager.py:159-220 | one frame changes status, times, dwell and count as the state machine says and reports the transition |
| TableSessions.SessionsFollowOccupancy | services/engine/core/table_manager.py:17-33 | a table has at most one open session, an open session means OCCUPIED, and a table there from the start has one exactly while OCCUPIED, one per spell |
| TableSessions.SessionsAreBracketed | services/engine/core/base_pipeline.py:92-115 | over any run of frames and live config changes every session is opened once and closed at most once, after its open |
| TableSessions.ShutdownClosesAll | services/engine/core/base_pipeline.py:150-153 | after the pipeline's shutdown every session opened has exactly one close |
| TableHistories.SeatIsItsHistory | services/engine/core/table_manager.py:275-395 | over frames and live config changes a table's state is the occupancy machine run over the frames seen since it was added, with the thresholds of each time, and a table added live is warm one debounce time after its first frame |
| TableHistories.FrameTells | services/engine/core/table_manager.py:361-395 | in every run a frame opens a session for a table if and only if that machine fills, and closes its session as ended if and only if it clears; of a table added live nothing is told until it is warm |
| TableHistories.ClosesTellWhy | services/engine/usecases/restaurant_counter/pipeline.py:135-147 | in every run only frames open sessions and their closes say ended; a config change closes exactly the sessions of the tables it drops and says so; the shutdown closes what is left as the engine's stop |
| TableSessions.NextKeepsInv | services/engine/core/table_manager.py:275-395 | frames, reconfigurations and the shutdown keep sessions, ledger and occupancy consistent, warm-ups included |
| TableSessions.Occupancy.Close | services/engine/core/table_manager.py:35-39 | closes the table's session once |
| TableSessions.Occupancy.OnChange | services/engine/core/table_manager.py:24-33 | one session per occupied spell |
| TableSessions.Occupancy.OpenInterval | services/engine/core/base_pipeline.py:92-105 | a new session joins the ledger and its open is sent |
| TableSessions.Occupancy.CloseInterval | services/engine/core/base_pipeline.py:107-115 | a close is sent only for a session in the ledger |
| TableSessions.Occupancy.Update | services/engine/core/table_manager.py:369-394 | one frame over all tables; keeps the invariant |
| TableSessions.Occupancy.ApplyConfig | services/engine/core/table_manager.py:275-322 | kept ids keep their state, new ones warm up and removed ones are closed; keeps the invariant |
| TableSessions.Occupancy.EndPipeline | services/engine/core/base_pipeline.py:150-153 | the ledger is emptied with one close each; keeps the invariant |
| LiveFeed.ClosesFollowOpens | apps/api/src/demo/demo-generators.ts:515-541 | over any ticks, silences, gaps, day changes and stops of the feed every close follows an open of its session that is not later |
| LiveFeed.OpenIsWhatIsOpen | apps/api/src/demo/demo-generators.ts:470-503 | no session is opened or closed twice, and the state holds exactly the opens sent and not closed |
| LiveFeed.StopClosesAll | apps/api/src/demo/demo-feed.ts:375-385 | after the feed stops or its camera leaves the group every session opened has its one close |
| LiveFeed.ItemsAreSentOnce | apps/api/src/demo/demo-generators.ts:579-616 | no plan item is sent twice, and items go out in plan order |
| LiveFeed.TickSendsWhatIsDue | apps/api/src/demo/demo-generators.ts:553-617 | in every run a tick first closes what a gap, a new day or silence left open, skips what was due before the last tick, and sends everything else due, but for closes of sessions that are not open |
| LiveFeed.SendSendsDue | apps/api/src/demo/demo-generators.ts:599-615 | the loop over the items due sends all of them, in order, but for the closes of sessions that are not open |
| LiveFeed.ClosesAre | apps/api/src/demo/demo-generators.ts:525-541 | a made-up close of each open session is at the time given, or at the open's if that is later |
| LiveFeed.SplittingATick | apps/api/src/demo/demo-generators.ts:553-617 | without silence, day change or a gap over 60 s, two ticks in place of one send the same messages in the same order and leave the same state |
| LiveFeed.HistoryIsWhole | apps/api/src/demo/demo-generators.ts:398-431 | in the history a session has its open and close if both lie in the window, else neither |
| LiveFeed.HistoryIff | apps/api/src/demo/demo-generators.ts:398-431 | a planned message is in the history, as often as planned, if and only if it lies in the window and so do both ends of its session; the history keeps time order |
| LiveFeed.TickKeeps | apps/api/src/demo/demo-generators.ts:567-616 | every tick keeps brackets, open sessions and the cursor consistent |
| LiveFeed.Feed.CloseAll | apps/api/src/demo/demo-generators.ts:520-541 | a close for each open interval, not before it |
| LiveFeed.Feed.SkipTo | apps/api/src/demo/demo-generators.ts:581-586 | the cursor passes exactly the items not due |
| LiveFeed.Feed.SendDue | apps/api/src/demo/demo-generators.ts:599-615 | the due items go out, closes without an open do not |
| LiveFeed.Feed.LiveMessages | apps/api/src/demo/demo-generators.ts:553-617 | one call returns what it adds to the log and keeps the invariant |
| IntervalStats.RowMeans | apps/api/src/reports/interval-stats.service.ts:67-94 | a row's total is the time the intervals and the range spend in its bucket, and its count is how many of them start there |
| IntervalStats.RowIff | apps/api/src/reports/interval-stats.service.ts:67-94 | the report has a row for a bucket if and only if some interval spends time in it or starts in it, within the range |
| IntervalStats.OverlapIsInstants | apps/api/src/reports/interval-stats.service.ts:67-94 | the time an interval spends in a bucket and the range, and its clipped length, are the numbers of instants there at which it runs; one still open runs until now |
| IntervalStats.ReportConserves | apps/api/src/reports/interval-stats.service.ts:87-94 | the rows' totals sum to the intervals' lengths within the range and their counts to the intervals that start in it |
| IntervalStats.PiecesAddUp | apps/api/src/reports/interval-stats.service.ts:73-86 | an interval's pieces sum to its length clipped to the range, for every interval, also one that ends before it starts |
| IntervalStats.CountedOnce | apps/api/src/reports/interval-stats.service.ts:79-86 | exactly one piece counts an interval that starts in the range (and did not end before it); none counts another |
| IntervalStats.PiecesInBucket | apps/api/src/reports/interval-stats.service.ts:79-86 | the pieces of one interval in one bucket are the overlap of both with the range |
| IntervalStats.InBucketIff | apps/api/src/reports/buckets.ts:32-46 | an instant has a bucket's start if and only if it lies in that bucket |
| IntervalStats.SeriesIs | apps/api/src/reports/buckets.ts:53-71 | the buckets generated are exactly the aligned ones from the first to the last |
| JsonDiff.PatchGivesAfterIff | apps/api/src/cameras/json-diff.ts:14-41 | applied to the first value in any order the differences give the second, if and only if at no shared position a key with an inherited name was removed or an object added under `__proto__` |
| JsonDiff.EmptyIffAlike | apps/api/src/cameras/json-diff.ts:14-41 | there are no differences if and only if the values are deeply equal but for keys `__proto__` at shared positions that one side has and the other has not, with a value that is empty or only `{"__proto__": null}` |
| JsonDiff.DiffIsEveryDifference | apps/api/src/cameras/json-diff.ts:14-41 | a change is reported, and once, if and only if both sides are objects all along its path, one has the next key, and there they differ and are not both objects; before and after are what each side has there |
| JsonDiff.EmptyMeansEqualIff | apps/api/src/cameras/json-diff.ts:14-41 | an empty list of differences says whether two values are deeply equal, if and only if they are not alike in that sense or no such hidden key stands on one side only at any shared position |
| JsonDiff.ProtoIsMissed | apps/api/src/cameras/json-diff.ts:31-36 | `{}` and `{"__proto__": {}}` differ and no difference is found |
| JsonDiff.PointersAreApart | apps/api/src/cameras/json-diff.ts:26-40 | no change's pointer is another's or continues it with whole tokens |
| JsonDiff.ApplyByKey | apps/api/src/cameras/json-diff.ts:27-37 | changes below different keys commute: each key gets its own, in order |
| JsonDiff.Walk | apps/api/src/cameras/json-diff.ts:20-41 | the recursion pushes exactly the differences below a path, whatever order the keys come in |
| JsonDiff.Differences | apps/api/src/cameras/json-diff.ts:14-18 | what is returned is every difference once, with both sides; applied in order to the first value it gives the second if and only if no inherited name is in the way, and it is empty if and only if the values are alike |
| JsonPointer.EscapeRoundTrip | apps/api/src/cameras/json-diff.ts:8 | unescaping as in section 4 of RFC 6901 gives the key back, and an escaped key holds no slash |
| JsonPointer.PointerRoundTrip | apps/api/src/cameras/json-diff.ts:31 | a pointer reads back as its tokens, so a pointer names one path |
| JsonPointer.EscapeHead | apps/api/src/cameras/json-diff.ts:8 | the two replacements together escape each character by itself: ~ as ~0, / as ~1, any other as it is |
| JsonPointer.SegmentPrefixIff | apps/api/src/cameras/json-diff.ts:31 | a pointer continues another with whole tokens if and only if its path continues the other's |
| Csv.CsvRoundTrip | apps/api/src/exports/csv.ts:10-31 | a reader following section 2 of RFC 4180 ends between records with one row each, and gets exactly the cell texts if and only if no row is empty |
| Csv.ReadCell | apps/api/src/exports/csv.ts:10-27 | after a cell the reader holds exactly its text and is not inside quotes, quoted or not |
| Csv.NoFormula | apps/api/src/exports/csv.ts:6-24 | no text cell is seen as a formula, a text that would not be is seen as it is, and so is what is not text |
| Csv.SeenAlikeIff | apps/api/src/exports/csv.ts:20-24 | two texts are seen alike if and only if they are equal or one is the other with the quote a formula is given |

## Left out

Not modelled, because it is plumbing around the cores, foreign code or would only add easy members:

- Redis, Postgres, HTTP, MediaMTX, the file system and OpenCV themselves; the models keep a step that succeeds or fails.
- NestJS controllers, modules, guards, DTOs, Swagger and the CLI; frame drawing, OCR, YUV conversion and model inference.
- ByteTrack, polygon tests and message validation: their results are inputs of the models.
- Random ids, hashes and passwords: session, event and track ids are fresh by construction or by assumption.
- Real time and liveness: join timeouts, back-off lengths and stuck calls. Theorems speak of steps and quiescent states.

What the models abstract, and what that leaves uncaptured:

- Integers are unbounded (the C++ keys and pass counters are 64-bit) and the plugin's floats are exact reals.
- std::sort may order ties either way: the sort is any permutation by falling confidence, and theorems that need a tie order say so.
- A best shot packet is the id it is for; its rectangle and image are left out.
- The tracker sees the detections left by filterReportableDetections, which is not part of this model.
- The worker's `state`, `config_error`, `fps` and stall clocks are left out; they decide nothing about ownership or generations. The config a restarted worker begins with (restart_config) is an input. Releases that follow a critical section without another one between are one step with it. parse_settings raises only SettingsError and threads can always be started.
- `WorkerProtocol` keeps the change a helper or the worker holds as data of the thread; in the source it is a shared object that only its holder changes.
- EventStream is modelled for buffer_size of at least one, and a message is its place in the order of enqueuing.
- Ingest: the camera table does not change during a run, stream entries are not trimmed, and dead letters are not part of the redelivery theorems (a redelivered invalid entry writes another one). A dead letter whose own insert is reported as failed counts as not written.
- Ingest takes the outcome of each transaction, acknowledgement and count as an input, so a run ranges over all ways to fail; losing the consumer group (NOGROUP) is left out.
- Supervisor: a worker is a number; update() on a running worker changes nothing here, and `wanted` lists what is left once repeated camera ids are merged. The loop's back-off after a failed fetch is left out.
- TableZone and TableSessions: the persons per table are inputs (the test of detections against polygons is left out), timestamps are positive and do not decrease, table ids are unique and debounce times not negative, as the settings are checked.
- IntervalStats: the zone's offset is constant over the range, so day buckets are 24 hours long; grouping by camera or subject is the same report on the intervals of each group. The columns avgSec and maxSec are left out.
- LiveFeed: what a day's plan holds is an input, in time order and with new sessions, as planDay's stable sort and random ids give it.
- JsonDiff: the final sort of the differences by pointer is left out, since the theorems hold for every order; numbers and strings are opaque atoms. The code's comment calls both sides plain objects compared key by key; its `in` also sees inherited names, and the model follows the code.
- Csv: cell texts of numbers and JSON values are inputs; batching and back-pressure of streamCsv are left out.
- IngestOrder.EventsAreAnnouncedOnce: says nothing of runs in which the process ends between a commit and its announcement, or a commit that took effect is reported as an error, because those announcements are lost in the code as well.
- IngestOrder.AppliedInStreamOrder: orders a camera's entry after older entries of its own camera only, because a system entry that waits does not hold back later cameras (IngestRetries.SystemEntryIsOvertakenIff).
- WorkerOwnership.NothingIsKept: allows one lost detector per raise of a pipeline's model hook, because the code loses it.
