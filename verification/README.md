# a2akit, modelled in Dafny

a2akit serves A2A agents: clients submit messages that become tasks, workers run user code for them,
and clients watch a task through an event stream, webhooks or polling. This project models the concurrent
core of that server and proves what it keeps over every interleaving:

- **`Tasks`, `MemoryStorage`, `Backends`**: tasks, the merge behind `update_task`, the in-memory store as the
  atomic specification, and the Redis and SQL read-merge-compare-and-set loops that refine it.
- **`Lifecycle`** is a step machine for one task: any number of follow-up submitters, workers, cancellers,
  mark-failed and enqueue-failed writers over one versioned store and one event log. Every await on the store
  or the bus ends a step, so a sequence of events is an interleaving; a crash may hit any actor at any step.
  The store is the sequence of its commits, so a version names a task snapshot. `LifecycleSafety` (transition
  log, message ids), `LifecycleFollowUps`, `LifecycleMarkers`, `LifecycleFinishers`, `LifecycleBatching`,
  `LifecycleChunks` and `LifecycleVersions` prove what no run violates; `LifecycleAnswers`, `LifecycleAnnouncements`
  and `LifecycleTurns` prove that things happen: every helper returns and with the right answer, every state change
  is announced, every call that nobody overtakes lands, every cancel is honoured.
- **`WorkerScript`, `WorkerRun`**: one worker turn on the in-memory store, imperatively: the context object and
  `_run_task_inner` around it, for every script of calls and every way the handler may be left.
- **`MemoryBus`, `MemoryBusLock`, `MemoryBusAttachment`, `MemoryBusDelivery`, `MemoryBusProgress`, `MemoryBusRuns`,
  `RedisBus`, `SubscribeTask`**: both event buses as a log with cursors, the in-memory one with the queue on its
  subscriber lock, and `subscribe_task` over the lifecycle and the in-memory bus together.
- **`RedisBroker`, `RedisDispatch`, `RedisSoloEntries`, `RedisLimits`, `RedisSettlement`, `RedisRecovery`,
  `CancelSignal`**: the stream broker with its adapter, what the retry limits guarantee and what they do not, what each
  delivery comes to, that no operation gets stuck, and the cancel signal.
- **`Webhooks`, `Pagination`**: the bounded drop-oldest webhook queue with worker restart, and offset paging.

Assumptions the model makes, in the system's own terms:

- `update_task` raising means that nothing was committed. In `Lifecycle` a store may withhold the current version
  from a conflict (SQL) and may give up a blind write under contention (SQL and Redis), at any time; the in-memory
  store does neither.
- Ids minted by the server are fresh and differ from ids chosen by clients. Tasks are not deleted meanwhile.
- anyio's lock is FIFO: whoever publishes, subscribes, unsubscribes or cleans up on the in-memory bus queues for it,
  and may be cancelled there.
- A handler calls its context from one coroutine at a time; overlapping calls could put an older batch of artifacts
  behind a newer one.
- An exception of the user's worker may reach either handler (`worker/adapter.py` lines 397 and 412).
- Clocks only advance, and all consumers of the broker agree on the time.
- `nack` and `_requeue_not_due` acknowledge and re-add in one step. Streams are not trimmed, keys do not expire,
  replay state is not purged, and no consumer is deregistered while it has pending entries.
- Each Redis script or transaction and each guarded SQL UPDATE is one step.

Claims that turned out false of the code are kept as such, with the exact condition under which they hold:

- A turn ends terminal or interrupted, and says so once, exactly under the conditions of `TurnConcludes`: a user
  worker that raises `TaskTerminalStateError` on its own leaves the task working, and an outside cancel on top of a
  pause announces two endings.
- A pinned Redis write merges onto a stale read exactly when the caller pins a version that was still in the future
  (`StalePinnedWrite`, `FuturePinLosesAWrite`).
- A progress message can replace the status message of a task that another writer made terminal exactly on the stores
  that may withhold the version from a conflict (`StaleOverwriteExactly`): on SQL, not on Redis or in memory.
- An artifact is streamed before the context takes it over, so a chunk that clients have seen is lost for the store
  exactly when its call was aborted or crashed in between (`ChunksExactly`, `NothingTornExactly`;
  `StreamedNotTakenOver` is such a run).
- A live subscriber of the in-memory bus misses an id exactly when its queue was full, when the id's publisher was
  cancelled while it queued for the lock (`CancelledPublisherMissed`), or when a cleanup or the subscriber's own
  unsubscription was granted the lock before the id's fan-out (`DeliveredExactly`, `MissedExactly`). A cleanup is such a
  cut in practice: `_force_cancel_after` performs it even while another writer's closing event is unpublished
  (`CleanupCutsOff`).
- A resumed in-memory stream can give an id at or below its resume point exactly when the client names an id that the
  server has not assigned yet when `subscribe` is called (`RepeatsExactly`).
- A Redis entry whose bytes are not text ends the stream when replay or gap-fill meets it; a live read steps over it
  (`RedisBus.IterEvents`).
- The dead-letter branch of `nack` is reachable exactly when the adapter retries beyond the broker's limit
  (`NackDeadLettersExactly`); with agreeing limits never.
- Attempt numbers increase in every run exactly when only dead consumers' entries are claimed or the adapter allows a
  single attempt (`AttemptsIncreaseExactly`), and one number can be dispatched twice exactly when a slow but living
  holder's entry may be claimed and both limits leave room for a second attempt (`AttemptRepeatsExactly`).
- A successful run is not always the last one: the operation can be started again exactly when the acknowledgement
  took effect and raised all the same, and both limits leave room for another attempt (`SettledExactly`).
- A cancel can be lost exactly when the server may handle a scope's second `EXISTS` ahead of its `SUBSCRIBE`
  (`LostExactly`): the client library sends them on two connections and does not wait for the confirmation. The
  other results about the signal assume that it does not happen.
- The shutdown sentinel drops the newest webhook snapshot exactly when the queue has room for one item and holds one
  (`SentinelDropsNewest`).

## Model

| member | source | states |
|---|---|---|
| `Tasks.ApplyAllMeaning` | src/a2akit/storage/memory.py:312-324 | per artifact id, the stored list means exactly the writes to that id in order: extend the parts, replace, or add |
| `Tasks.ApplyAllConcat` | src/a2akit/storage/memory.py:267-269 | applying two batches one after the other is applying their concatenation |
| `Tasks.ApplyAllKeepsOrder` | src/a2akit/storage/memory.py:312-324 | artifact ids stay unique, and all of them, stored before or added by the batch, stand in the order in which they were first written |
| `Tasks.MergeKeepsLogShape` | src/a2akit/storage/memory.py:241-304 | an accepted update keeps the log's shape (submitted first, last entry equals the status, terminal only at the end, a later submitted only after an interruption) if and only if it does not resubmit a task that is not interrupted: that the store leaves to its callers |
| `Tasks.MergeExactly` | src/a2akit/storage/memory.py:260-304 | the merge is the one task whose every field is what the update means: history extended, metadata per key, artifacts per id, and status, timestamp, last-modified stamp and transition record (state, time, first text) for a state change with or without message, a message alone, or neither |
| `MemoryStorage.InMemoryStorage.FindByKey` | src/a2akit/storage/memory.py:157-164 | the scan finds a task created for the context and idempotency key, or there is none |
| `MemoryStorage.InMemoryStorage.CreateTask` | src/a2akit/storage/memory.py:140-198 | returns the one task of the key without the just-created mark, or inserts a submitted task with the client's message bound to the context, one transition record and version 1, every field given; an empty key never matches |
| `MemoryStorage.InMemoryStorage.ApplyWrites` | src/a2akit/storage/memory.py:267-269 | the artifact loop computes the fold of all upserts |
| `MemoryStorage.InMemoryStorage.WorkingCopy` | src/a2akit/storage/memory.py:260-304 | the in-place mutations of the working copy add up to the merge and leave each field as the update means it |
| `MemoryStorage.InMemoryStorage.UpdateTask` | src/a2akit/storage/memory.py:207-310 | a conflict exactly on a version mismatch, whether or not the task is terminal; refused exactly when terminal and given a state; else one commit with the next version, each field as the update means it; every failure leaves the store as it was, unknown ids included |
| `MemoryStorage.InMemoryStorage.GetVersion` | src/a2akit/storage/memory.py:344-346 | the version of a known task, none for an unknown one |
| `MemoryStorage.OneTaskPerKey` | src/a2akit/task_manager.py:285-302 | over any run of the store, all creations with one (context, message id) pair return one task and only the first can be told it was just created |
| `Backends.BuildValues` | src/a2akit/storage/redis.py:444-492 | setting only the fields collected in the values dictionary on the row that was read gives the merge, each field as the update means it |
| `Backends.Store.RedisUpdate` | src/a2akit/storage/redis.py:434-529 | whatever others commit between read and script and between the rounds: the last round is one atomic update of the very state it replaces, each field as the update means it (for a pinned version that had been committed), or changes nothing, conflicts report the version, every earlier round was outrun by another commit, and a blind write gives up only after eight that were |
| `Backends.Store.SqlUpdate` | src/a2akit/storage/_sql_base.py:296-380 | the same refinement through the version-guarded UPDATE; a lost guard reports no version and means another commit came in between |
| `Backends.StalePinnedWrite` | src/a2akit/storage/redis.py:75-121 | a pinned Redis write commits a merge of a stale read exactly when the pinned version was still in the future at the read and came true before the script |
| `Backends.FuturePinLosesAWrite` | src/a2akit/storage/redis.py:442-442 | such a write loses another writer's message |
| `LifecycleSafety.StepKeepsInv` | src/a2akit/task_manager.py:304-372 | every step of every actor keeps the invariant: valid commits, pinned decisions, minted ids used at most once |
| `LifecycleSafety.TransitionLogTheorem` | src/a2akit/storage/memory.py:241-310 | in every interleaving, every version ever visible has a well-shaped transition log and pairwise distinct message ids |
| `LifecycleSafety.ShownIsSaid` | src/a2akit/cancel.py:66-81 | in every interleaving, the message a state change leaves on the task is an agent's and the last one in its history, and a canceled task has one |
| `LifecycleFollowUps.DecidedOnReplacedState` | src/a2akit/task_manager.py:304-335 | version read before load plus a pinned write: the task a follow-up (or a failed enqueue) was decided on is the task it replaces |
| `LifecycleFollowUps.AcceptedMeans` | src/a2akit/task_manager.py:316-335 | an accepted follow-up replaced a task that was not terminal, in the same context, interrupted if the message is a user's; it appends the message bound to the task's context, ends an interruption in submitted and changes nothing else |
| `LifecycleFollowUps.AcceptedAtMostOnce` | src/a2akit/task_manager.py:305-345 | however many clients race or retry, one submission of a message id is told to enqueue, none for the id that created the task |
| `LifecycleFollowUps.OneWinnerPerInterruption` | src/a2akit/task_manager.py:391-418 | between two accepted user follow-ups the task was interrupted anew |
| `LifecycleFollowUps.EnqueueFailureSparesLiveTask` | src/a2akit/task_manager.py:191-226 | a failed enqueue turns a task failed only from submitted |
| `LifecycleAnswers.AnsweredExactly` | src/a2akit/task_manager.py:305-349 | over every run a submitter is told duplicate if and only if it found its message stored, which it then is for good, and is turned down as terminal, mismatched, not accepting or out-raced if and only if its load or reload found just that |
| `LifecycleAnswers.OnlyAcceptedWrites` | src/a2akit/task_manager.py:316-345 | an accepted submitter wrote exactly once; duplicate and refused leave no trace |
| `LifecycleAnswers.UndisturbedAnswer` | src/a2akit/task_manager.py:373-418 | while nobody else commits, whatever else happens, an answered submission was accepted if and only if the task was not terminal, its context matched, a user was being waited for and the id was new; otherwise the first failed precondition, or the duplicate, is the answer |
| `LifecycleAnswers.UndisturbedEnqueueFailure` | src/a2akit/task_manager.py:191-226 | while nobody else commits, a failed enqueue that was dealt with has failed the task if and only if it was submitted |
| `LifecycleAnswers.UndisturbedFinish` | src/a2akit/cancel.py:54-134 | while nobody else commits, a cancel or mark-failed that has returned has left a live task canceled or failed by one commit, and a terminal one alone |
| `LifecycleAnswers.HelpersReturn` | src/a2akit/cancel.py:54-134 | a submission, failed enqueue, cancel or mark-failed is over after seven steps of its own, whatever others do |
| `LifecycleAnswers.CallsReturn` | src/a2akit/worker/base.py:712-754 | every call of every actor ends within a number of its own steps fixed when it starts |
| `LifecycleAnnouncements.AnnouncedExactly` | src/a2akit/worker/base.py:822-840 | every state change of every run is announced on the bus, still owed by its writer, or was silenced by a crash or a cancelled or raising publish, exactly one of the three |
| `LifecycleAnnouncements.FinisherAnnounces` | src/a2akit/cancel.py:116-134 | a cancel or mark-failed that has returned has published the closing marker for each commit of its own that carries its state; with OneTerminalMarker, exactly one |
| `LifecycleAnnouncements.SubmissionAnnounces` | src/a2akit/task_manager.py:226-247 | so has a failed enqueue that has returned, and a follow-up accepted out of a pause |
| `LifecycleTurns.FlushLands` | src/a2akit/worker/base.py:767-791 | a flush that nobody overtakes writes the whole buffer and changes neither status nor history |
| `LifecycleTurns.EmitLands` | src/a2akit/worker/base.py:1094-1108 | an emitted chunk is streamed and then buffered behind the others |
| `LifecycleTurns.ProgressLands` | src/a2akit/worker/base.py:1016-1055 | a progress message that nobody overtakes is shown with the state as it is, stays out of the history, takes the buffer along and is announced |
| `LifecycleTurns.LifecycleLands` | src/a2akit/worker/base.py:793-840 | a lifecycle call that nobody overtakes commits state, message, artifacts and metadata at once, then publishes a chunk per own artifact, or its direct reply, and then the one marker |
| `LifecycleTurns.SkipCatchesUp` | src/a2akit/worker/base.py:775-785 | a flush or progress write that loses its retry too keeps its batch and learns the version that beat it |
| `LifecycleTurns.BreakHonoured` | src/a2akit/worker/adapter.py:302-442 | a cancel noticed before or during the handler, or an error with the turn open, ends in a terminal task or in at least two other writes since, and the only state that worker writes is canceled after a cancel, failed after an error |
| `LifecycleTurns.EndedTurnStays` | src/a2akit/worker/adapter.py:412-442 | once a lifecycle call has ended the turn, nothing the handler does or raises touches the status any more |
| `LifecycleTurns.TurnIsOver` | src/a2akit/worker/adapter.py:352-442 | however the handler is left, the turn is over for good after seven more steps of its own |
| `LifecycleMarkers.MarkerFollowsCommit` | src/a2akit/worker/base.py:822-840 | every stream-closing marker follows its publisher's own committed write and carries that state, which ends or pauses the turn |
| `LifecycleMarkers.OneTerminalMarker` | src/a2akit/cancel.py:73-134 | all competing finishers together publish at most one marker with a terminal state |
| `LifecycleFinishers.GivesUpOnlyAfterTwoWrites` | src/a2akit/cancel.py:54-115 | on every store a cancel or mark-failed call returns with the task still running only if at least two other writes committed during it |
| `LifecycleFinishers.DroppedOnlyByLateCancel` | src/a2akit/cancel.py:56-59 | in every run on a store whose blind writes do not give up, a finisher that has returned dropped its artifacts if and only if it found the task terminal at its first load; then it is a cancel and the task is terminal, and mark-failed never drops |
| `LifecycleBatching.BatchingLosesNothing` | src/a2akit/worker/base.py:767-826 | in every interleaving, what a turn has committed followed by what it buffers is what its context took over, in order, through flushes, conflicts, aborts and hand-over; after a lifecycle call the buffer is empty |
| `LifecycleBatching.BatchingIsInvisible` | src/a2akit/worker/base.py:756-791 | with one artifact writer, folding the buffer onto the stored artifacts equals folding every emitted write; ids stay unique |
| `LifecycleBatching.TurnPersistsExactlyOnce` | src/a2akit/worker/adapter.py:365-442 | a finished turn has committed every artifact write once and in order, whatever others did, except exactly the artifacts of a last write that was dropped, by a helper or by the worker's own drain |
| `LifecycleBatching.WorkerDropsOnlyUnderContention` | src/a2akit/worker/adapter.py:397-411 | where blind writes do not give up, no worker's drain drops anything |
| `LifecycleChunks.ChunksExactly` | src/a2akit/worker/base.py:1094-1109 | in every run the chunks a turn streamed are, in order, those whose fate is settled and then the one in flight, and what its context took over is exactly those neither aborted nor crashed, then the artifacts of its lifecycle call |
| `LifecycleChunks.NothingTornExactly` | src/a2akit/worker/base.py:1094-1109 | a turn without a chunk in flight took over everything it streamed if and only if no emitting call was aborted or crashed between streaming and taking over |
| `LifecycleChunks.ClosingAfterStore` | src/a2akit/worker/base.py:817-840 | the chunks a lifecycle call publishes ahead of its marker are, in order, artifacts it has stored already |
| `LifecycleChunks.StreamedNotTakenOver` | src/a2akit/worker/base.py:1094-1109 | a run in which a cancellation between streaming a chunk and taking it over leaves a chunk that is never buffered or written |
| `LifecycleVersions.NoStaleOverwrite` | src/a2akit/worker/base.py:730-754 | on every store that reports the version with a conflict, contended or not, a write carrying a state or status message through a version cached before the terminal write never lands on the terminal task |
| `LifecycleVersions.WithheldVersionOverwrites` | src/a2akit/storage/_sql_base.py:374-380 | a run in which the withheld version lets a retried progress message overwrite a canceled task's status message |
| `LifecycleVersions.StaleOverwriteExactly` | src/a2akit/worker/base.py:730-754 | such an overwrite can happen if and only if the store may withhold the version |
| `WorkerRun.TaskContext.VersionedUpdate` | src/a2akit/worker/base.py:712-754 | for any cached version: refused exactly when the task is terminal and the write carries a state, or a status message against a stale version; otherwise merged once, each field as the update means it, and the version refreshed |
| `WorkerRun.TaskContext.FlushArtifacts` | src/a2akit/worker/base.py:767-791 | for any cached version: writes the whole buffer in order, empties it, changes nothing else that a client sees |
| `WorkerRun.TaskContext.EmitArtifact` | src/a2akit/worker/base.py:1057-1109 | for any cached version: the chunk is streamed; the buffer is written exactly when the interval has elapsed or ten are in it; stored plus buffered artifacts gain exactly the emitted write; nothing happens after the turn ended |
| `WorkerRun.TaskContext.SendStatus` | src/a2akit/worker/base.py:1007-1055 | stores the text as an agent's status message together with the buffer and announces that message, leaving state and history; raises, announcing nothing and keeping the buffer, exactly when the task was made terminal behind the cached version |
| `WorkerRun.TaskContext.TerminalTransition` | src/a2akit/worker/base.py:793-840 | persists buffer and own artifacts with the state; its texts become the agent's status message and the history's last entry, without texts there is none; metadata is added; publishes its chunks or direct reply and then one marker with that message; on a terminal task it raises and keeps buffer and turn; a second lifecycle call is refused and changes nothing |
| `WorkerScript.FirstFinishSpeaks` | src/a2akit/worker/base.py:803-820 | of any script the first lifecycle call has the last word: its state, its message shown and said once, its metadata on top |
| `WorkerRun.Conclude` | src/a2akit/worker/adapter.py:352-442 | what the adapter makes of each way the handler is left: state, message, announcements, and a buffer drained into the store |
| `WorkerRun.RunTaskInner` | src/a2akit/worker/adapter.py:302-442 | for every script of calls and every ending: final state, announced endings, the first lifecycle call's message shown and said and its metadata stored, else what progress calls or the adapter say, every artifact write persisted once and in order except those a shutdown finds buffered; a terminal task is left alone, an earlier cancel request cancels |
| `WorkerScript.TurnConcludes` | src/a2akit/worker/adapter.py:352-442 | exactly when a turn ends terminal or interrupted, exactly when it announces one ending and when two, and exactly when the adapter leaves it canceled or failed |
| `MemoryBus.InMemoryEventBus.Assign` | src/a2akit/event_bus/memory.py:106-127 | the first half of publish appends to the abstract log under the next id and queues for the lock; the ring buffer is the log's newest stretch |
| `MemoryBus.InMemoryEventBus.Ask` | src/a2akit/event_bus/memory.py:154-162 | a subscriber queues for the lock behind every id assigned so far |
| `MemoryBus.InMemoryEventBus.Acquire` | src/a2akit/event_bus/memory.py:127-171 | the longest waiter has its turn: a fan-out, a registration with the counter as bookmark, an unsubscription, a cleanup |
| `MemoryBus.InMemoryEventBus.Fan` | src/a2akit/event_bus/memory.py:127-141 | an event goes to every registered subscriber: handed over, queued, or dropped when full |
| `MemoryBus.InMemoryEventBus.Abandon` | src/a2akit/event_bus/memory.py:127-128 | a waiter that is cancelled leaves the queue; a publisher's id is then fanned out to nobody |
| `MemoryBus.InMemoryEventBus.Next` | src/a2akit/event_bus/memory.py:204-232 | one step of the reader: snapshot the buffer, replay behind the resume point, or take or skip one live event |
| `MemoryBusLock.StepKeepsLock` | src/a2akit/event_bus/memory.py:106-171 | every step keeps the lock queue's promises: fan-outs in id order, a subscriber registers behind all ids assigned before it asked and ahead of all later ones, and an attached one is passed over for an id exactly when its publisher was cancelled |
| `MemoryBusAttachment.AttachedExactly` | src/a2akit/event_bus/memory.py:162-181 | over every run a registered subscriber is attached if and only if neither its unsubscription nor a cleanup was granted the lock since it registered |
| `MemoryBusAttachment.OfferedExactly` | src/a2akit/event_bus/memory.py:127-181 | an id that had its turn has passed a registered subscriber if and only if the subscriber was not let go before |
| `MemoryBusDelivery.CaughtUpExactly` | src/a2akit/event_bus/memory.py:183-232 | a live subscriber that has read everything has yielded exactly the replayed stretch and then all ids since it asked, to the end of the log, except those dropped by its full queue, lost with a cancelled publisher, still waiting, or fanned out after it was let go |
| `MemoryBusDelivery.StreamInOrder` | src/a2akit/event_bus/base.py:54-55 | every stream is strictly increasing in ids, carries the published events, and ends at its first closing event |
| `MemoryBusDelivery.DeliveredExactly` | src/a2akit/event_bus/memory.py:127-257 | exactly which ids behind its starting point, whose publisher has had its turn, a stream gives; a first-time subscriber misses one if and only if its queue was full, the publisher was cancelled, or an unsubscription or cleanup came before the fan-out |
| `MemoryBusDelivery.NothingMissed` | src/a2akit/event_bus/memory.py:127-257 | so every such id is delivered up to the closing event, unless dropped on a full queue, lost with a cancelled publisher, fanned out after a let-go, or evicted before the replay |
| `MemoryBusDelivery.ResumesBehind` | src/a2akit/event_bus/memory.py:162-226 | a stream resumed behind an id already assigned at the call gives nothing at or below it, live, drained or ended |
| `MemoryBusProgress.LockDrains` | src/a2akit/event_bus/memory.py:127-171 | everybody queued on the lock has it after as many grants as stand ahead, longest waiter first |
| `MemoryBusProgress.SubscribeTakesEffect` | src/a2akit/event_bus/memory.py:154-171 | once the lock has come round, a subscriber is registered and attached with the counter as its bookmark |
| `MemoryBusProgress.DetachTakesEffect` | src/a2akit/event_bus/memory.py:172-181 | and one that unsubscribed is attached no longer |
| `MemoryBusProgress.CleanupTakesEffect` | src/a2akit/event_bus/memory.py:243-257 | and after a cleanup nobody is |
| `MemoryBusProgress.ReaderCatchesUp` | src/a2akit/event_bus/memory.py:183-232 | a registered reader has read everything handed to it, or has ended, after finitely many steps of its own |
| `MemoryBusProgress.ExcusedExactly` | src/a2akit/event_bus/memory.py:127-141 | over every run an id counts as dropped if and only if it was fanned out into a full queue, as lost if and only if its publisher was cancelled on the lock, and as evicted exactly when the ring buffer had pushed it out by the time the replay started |
| `MemoryBusRuns.CancelledPublisherMissed` | src/a2akit/event_bus/memory.py:106-141 | a run in which a live subscriber with an idle queue is given id 2 and never id 1 |
| `MemoryBusRuns.RepeatsExactly` | src/a2akit/event_bus/memory.py:204-226 | for every buffer size, queue size, counter and resume point: some run gives an id at or below the resume point if and only if the resume point exceeds the counter at the call |
| `MemoryBusRuns.CleanupCutsOff` | src/a2akit/event_bus/memory.py:243-257 | for all buffer sizes a run in which a cleanup before a fan-out cuts a waiting subscriber off from an event that nothing else stopped |
| `MemoryBusRuns.AttachedMissesNothing` | src/a2akit/event_bus/memory.py:127-257 | a first-time subscriber that is still attached misses only what its queue dropped or a cancelled publisher took along |
| `SubscribeTask.NoTransitionMissed` | src/a2akit/task_manager.py:648-669 | for every run and subscriber, an announced transition whose publisher has had its turn is recorded in the snapshot the client gets or delivered by its stream up to its end, barring a full queue, a cancelled publisher, a cleanup or unsubscription before the fan-out and, when resuming, eviction |
| `SubscribeTask.MissedExactly` | src/a2akit/task_manager.py:648-669 | for a first-time subscriber a transition that is not in the snapshot is missing from the stream if and only if its queue was full, the announcing publisher was cancelled, or a cleanup or unsubscription came before the fan-out |
| `SubscribeTask.ClosesExactly` | src/a2akit/event_bus/memory.py:18-33 | in every run the events that close a stream are exactly the announcements of a state that ends or pauses the turn |
| `SubscribeTask.ClientCatchesUp` | src/a2akit/task_manager.py:648-680 | once registered, a client alone gets its task loaded and, after finitely many reads, everything handed to its stream |
| `RedisBus.Reader.Catch` | src/a2akit/event_bus/redis.py:302-342 | replay and gap-fill yield the decodable entries behind the cursor in order; entries that are no events are passed without moving it, the first that is not text raises |
| `RedisBus.Reader.Batch` | src/a2akit/event_bus/redis.py:359-371 | a live read yields in order up to the first undecodable entry, which moves the cursor and abandons the batch |
| `RedisBus.Reader.Live` | src/a2akit/event_bus/redis.py:344-371 | one turn of the live loop with its tick counter |
| `RedisBus.IterEvents` | src/a2akit/event_bus/redis.py:292-371 | whenever the client stops listening or the generator raises it has received exactly the decodable entries in (start, cursor], in order, cut at the closing event; it raises only over an entry that is not text; a wakeup read delivers all it sees unless an undecodable entry stops it |
| `RedisBus.GarbageStartsOver` | src/a2akit/event_bus/redis.py:292-320 | a client whose resume point is no stream id gets every decodable entry from the first one on |
| `RedisBus.SpanExact` | src/a2akit/event_bus/redis.py:197-221 | that stretch is strictly increasing and holds each decodable entry of its range once and nothing else |
| `RedisBus.SafetyPoll` | src/a2akit/event_bus/redis.py:345-358 | a lost wakeup costs at most thirty timeouts, whatever else the connection brings in between |
| `RedisBroker.NoOperationLost` | src/a2akit/broker/redis.py:351-412 | at every step of every run, with crashes anywhere, an enqueued operation has an unacknowledged entry, is dead-lettered, or was acknowledged after user code was started or a mark-failed attempt |
| `RedisBroker.ActKeepsLoss` | src/a2akit/broker/redis.py:661-762 | each step of a delivery and its handler keeps that, whether its command succeeds, raises before or after taking effect, or the process crashes |
| `RedisDispatch.AttemptsIncrease` | src/a2akit/broker/redis.py:683-750 | when only dead consumers' entries are claimed, the dispatches of an operation carry strictly increasing attempt numbers up to the adapter's limit, through nacks, claims and requeues |
| `RedisDispatch.BoundedDispatch` | src/a2akit/worker/adapter.py:149-195 | user code is started at most max_retries times for one operation |
| `RedisDispatch.NackNeverDeadLetters` | src/a2akit/broker/redis.py:374-390 | unless the adapter's limit exceeds the broker's, nack's dead-letter branch is unreachable |
| `RedisSoloEntries.NoRepeatWithoutReadd` | src/a2akit/broker/redis.py:374-390 | when the broker or the adapter allows a single attempt, no attempt number is dispatched twice, even when living holders' entries are claimed |
| `RedisLimits.NackDeadLettersExactly` | src/a2akit/broker/redis.py:374-390 | over all runs with dead holders only, some nack dead-letters if and only if the adapter's limit exceeds both the broker's limit and one |
| `RedisLimits.AttemptsIncreaseExactly` | src/a2akit/broker/redis.py:661-750 | for every claiming habit and both limits: the attempt numbers of an operation increase in every run if and only if only dead holders' entries are claimed or the adapter allows a single attempt |
| `RedisLimits.AttemptRepeatsExactly` | src/a2akit/broker/redis.py:661-750 | some run dispatches an attempt number twice if and only if living holders' entries may be claimed and both limits are at least two |
| `RedisSettlement.SettledExactly` | src/a2akit/worker/adapter.py:180-195 | when the acknowledgement of a successful run takes effect its entry is acknowledged, and (dead holders only) a longer run starts the operation again if and only if the command raised all the same and both limits leave room for another attempt |
| `RedisSettlement.GivenUpForGood` | src/a2akit/broker/redis.py:351-390 | the last acknowledgement after a failure or of an undecodable entry acknowledges, and ends the operation unless its entry had been acknowledged by an earlier command that raised |
| `RedisSettlement.HeldOutcome` | src/a2akit/worker/adapter.py:140-240 | what a delivery comes to when only user code may raise: acknowledged, and started, put back with the next number and its back-off, dead-lettered or marked failed just as limits and failure say; a success is never marked or put back |
| `RedisSettlement.AttendedEnds` | src/a2akit/worker/adapter.py:179-240 | whatever raises, a held delivery whose consumer lives on ends with its entry acknowledged or its task marked failed |
| `RedisSettlement.CalmEndAcks` | src/a2akit/broker/redis.py:661-762 | a delivery that ends without a crash or a raising command has acknowledged its entry, wherever it started |
| `RedisSettlement.DeliveryEnds` | src/a2akit/worker/adapter.py:139-240 | every delivery is over after ten steps of its own, whatever raises |
| `RedisSettlement.NeverEarly` | src/a2akit/broker/redis.py:683-750 | in every run user code is started only for an entry that decodes and is due, so back-off is waited out through crashes and claims |
| `RedisRecovery.AlwaysCompletable` | src/a2akit/broker/redis.py:661-762 | from every reachable state, after any crashes and errors, every enqueued operation can still be acknowledged after a run or a mark-failed, or dead-lettered |
| `CancelSignal.NoLostCancel` | src/a2akit/broker/redis.py:112-166 | for any number of requesters and scopes, a server that handles SUBSCRIBE before the check after it: once a request and a scope's start-up have finished, the event is set or the message waits on the live subscription and the next listen sets it |
| `CancelSignal.SeenAtOnce` | src/a2akit/broker/redis.py:112-166 | a scope that starts after a request has set the key knows at its first step, without subscribing |
| `CancelSignal.CancelArrives` | src/a2akit/broker/redis.py:112-166 | once a requester has made its two steps and a scope its three, in any interleaving, the listener's next turn leaves the event set |
| `CancelSignal.LostExactly` | src/a2akit/broker/redis.py:112-166 | a cancel can be lost if and only if the server may handle the second check ahead of the SUBSCRIBE |
| `CancelSignal.NoFalseAlarm` | src/a2akit/broker/redis.py:229-236 | an event is set only after some request set the key |
| `Webhooks.WebhookDeliveryService.Enqueue` | src/a2akit/push/delivery.py:152-174 | the put loop, dropping the oldest one at a time, amounts to one push |
| `Webhooks.PushKeepsNewest` | src/a2akit/push/delivery.py:152-174 | after a push the newest items stay, exactly as many as fit beside the new one, which is last; the others are recorded as dropped |
| `Webhooks.KeysExactly` | src/a2akit/push/delivery.py:132-150 | a lane is shared by the same config of the same task only, a config without an id being the default one |
| `Webhooks.FanOutLane` | src/a2akit/push/delivery.py:122-150 | a lane after a fan-out is the lane before it after one delivery per config that leads to it; other lanes are untouched |
| `Webhooks.WebhookDeliveryService.DeliverAll` | src/a2akit/push/delivery.py:122-150 | the service's loop does that to every lane at once, and every lane stays a run of a new one, so the results below hold of it |
| `Webhooks.AttemptsInOrder` | src/a2akit/push/delivery.py:181-219 | across drops, restarts and shutdown, attempts are the handed-over snapshots in order, none twice, and the queue keeps its bound |
| `Webhooks.NothingLost` | src/a2akit/push/delivery.py:132-179 | until a shutdown begins, each snapshot is attempted, queued or dropped, exactly one of them; the newest is never dropped; a finished worker leaves an empty queue |
| `Webhooks.NewestArrives` | src/a2akit/push/delivery.py:181-219 | a snapshot handed over next is attempted once the worker has gone through its queue, as the last of all, and every earlier one was attempted or dropped |
| `Webhooks.Retires` | src/a2akit/push/delivery.py:176-219 | with nothing left to send, a worker that has sent a terminal snapshot or waits in vain is gone, and after its callback so is its registration |
| `Webhooks.GoesAfterTerminal` | src/a2akit/push/delivery.py:205-219 | having sent its last item a worker goes if and only if that snapshot was terminal |
| `Webhooks.ShutdownDrains` | src/a2akit/push/delivery.py:95-121 | at a shutdown the worker attempts what is queued, but for the one snapshot a full queue gave up for the sentinel, and is gone |
| `Webhooks.LateCallback` | src/a2akit/push/delivery.py:176-179 | the done callback of a replaced worker leaves its successor's queue alone |
| `Webhooks.SentinelDropsNewest` | src/a2akit/push/delivery.py:101-102 | the shutdown sentinel drops the newest snapshot exactly when the queue has room for one item and holds one |
| `Pagination.ListTasks` | src/a2akit/storage/memory.py:75-138 | one page is the Python slice at the token's offset (negative offsets included) of a listing as shown: the matching tasks, once each, in descending (timestamp, id) order, with trimmed history and artifacts as asked |
| `Pagination.PageShows` | src/a2akit/storage/memory.py:119-124 | every task on a page is a matching task of the store with its artifacts or none and the newest messages, all else as stored |
| `Pagination.MalformedStartsOver` | src/a2akit/storage/memory.py:115-118 | a token that is no number gives the first page |
| `Pagination.PagesFull` | src/a2akit/storage/memory.py:115-131 | all pages but the last are full, and the last is empty only if the listing is |
| `Pagination.ListingUnique` | src/a2akit/storage/_sql_base.py:453-457 | the order determines the listing, whatever order the store is scanned in |
| `Pagination.TokenRoundTrip` | src/a2akit/storage/memory.py:115-131 | parsing the token rendered for an offset gives the offset back |
| `Pagination.WalkListsEverything` | src/a2akit/storage/memory.py:99-138 | repeating the query with each next token over an unchanged store can be completed, and the pages of every complete walk concatenate to the listing as shown, each reporting its full size |
| `Pagination.WalkIsFollow` | src/a2akit/storage/memory.py:115-131 | page sequences answered by the store along the tokens are exactly the consecutive cuts of the one listing as shown |

## Left out

- `Pagination.ListTasks`: reads a token as decimal digits with an optional minus sign; the other spellings Python's `int` accepts (a plus sign, surrounding space, underscores) are not modelled.
- `Backends.Store.RedisUpdate`: models one task's hash and its interfering writers; key listing, context sets and serialization are left out.
- The second lock round of the in-memory `publish`, which forgets closed subscribers: nobody reads from them.
- `WorkerRun.RunTaskInner`: has no outside writers; the interleavings with them are the `Lifecycle` modules, where a conflict on the working transition just ends the turn.
- Redis `list_tasks`: it sorts without an id tie-break, so the paging result is for the memory and SQL stores.
- Purging of replay state, key expiry, stream trimming, deleting tasks and contexts, and push-config cascades: they end a task's lifetime and would only add excluded cases to every invariant.
- `stream_message` and the blocking form of `send_message`: a snapshot before the subscription and a wait around the parts modelled here.
- Per-task distributed locks and the semaphore of the adapter: they only remove interleavings.
- HTTP delivery of a webhook with its retries and address pinning: an attempt is one step.
- Endpoints, JSON-RPC, SSE framing, v0.3 conversion, the HTTP client, agent cards, authentication, telemetry, hooks, settings and the UI: plumbing around the core.
