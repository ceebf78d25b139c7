# SP1 cluster: coordinator, artifact store and worker node

A Dafny model of the parts of the cluster that have to agree with each other while everything
around them fails: workers die, reports arrive twice or late, streams break, replies are lost,
uploads are cancelled half way. What is proved are statements about every reachable state or every
run, not about single calls.

| files | what they model |
|---|---|
| `ClusterTypes`, `TaskBooks` | proofs, tasks, workers, and the coordinator's atomic steps on its books |
| `BookInvariants`, `BookSteps`, `StepShapes` | the invariants of the books, and that each step keeps them |
| `TaskChannels` | task message channels: buffer, replay, close, sweep |
| `CoordinatorRuns`, `CoordinatorTheorems`, `CallEffects`, `SubscriberRuns`, `SubscriberTruth` | the whole coordinator as a state machine, its runs, what holds in all of them, and what single calls do |
| `QueueOrder`, `PolicyQueues`, `PolicyRuns`, `MethodShapes`, `MethodSteps`, `CoordinatorObject` | the coordinator and its balanced policy as an object updated in place; every method does steps of the state machine |
| `TaskReader`, `MessageStream` | the reconnecting reader of a task channel, against a running coordinator |
| `ProofRows`, `StatusProtocol`, `ClaimTracker`, `Paging` | the API's rows, the protocol that gets a final status into them, the coordinator's loops in it, and the page walk |
| `ArtifactStore`, `ArtifactReads`, `Admission` | the Redis artifact store, its readers, and the memory admission gate |
| `NodeTasks`, `NodeLoop`, `Heartbeats` | the worker node's attempts, reporters and drain, its main loop, and its two heartbeat paths |
| `TreeLayers`, `S3Parts`, `Rounding` | the recursion tree's layers and the S3 range partition |

`dafny verify dfyconfig.toml` checks the whole project.

How things are modelled:

- Every mutating coordinator call runs under one write lock, so it is one step. A run is any
  sequence of calls with any arguments, before shutdown.
- Notices to subscribers are steps of their own: they may go out at any later moment, one by one, and
  find their subscriber gone. A subscription's lookup and its effect are likewise apart.
- The object (`CoordinatorObject.Coordinator`) keeps the source's order of updates and its loops over
  unordered sets; ghost fields record histories. Each call is proved to do one step of the state
  machine followed by whatever the policy assigns.
- Concurrent protocols (status writes, artifact commands, admission, the node) are state machines
  whose steps interleave freely. A call whose reply is lost may still be executed later.
- Time is a natural number: seconds for channel sweeping, milliseconds for heartbeats. Creation times
  and every writer's chunk size are parameters.

Where the code does not do what its comments or its purpose suggest, the code is modelled and the
difference is proved:

- `check_admission` reads the server's memory and then the reservations. An upload that lands and is
  released in between is in neither reading, so the budget can be passed (`Admission.BudgetPassed`);
  `Admission.ApprovalUnsafeExactly` says exactly when.
- A chunked read is not safe against a delete followed by another publication: the comment that a hash
  under a reader can only vanish does not cover a new hash under the same key. `ArtifactReads.OvertakenRead`
  says what is then returned: a mix of two uploads (`ArtifactReads.TwoIncarnationsMix`), or, of a longer
  upload, only the beginning (`ArtifactReads.LongerIncarnationReadShort`), both as a success.
- An artifact that is there all the time, inline or chunked, is reported missing when it is switched to
  chunked and back between a reader's look-ups (`ArtifactReads.SwitchingBackHides`);
  `ArtifactReads.MissingExactly` says exactly when.
- `par_upload_file` for S3 cuts its chunks into runs of `threads` chunks rather than into `threads`
  runs (`S3Parts.UploadSplit`).
- A proof result taken by the status writer between the claimer's check and its claim is not recorded
  (`StatusProtocol.ResultBeforeClaimIsDropped`).
- After the sweep a reader reconnecting to a finished task is told the stream has ended whatever it
  has (`TaskReader.SweptReaderEndsShort`), and one reconnecting to a channel opened anew splices two
  streams (`TaskReader.ReopenedReader`).
- A cancelled attempt whose reporter panics before its report is over is never reported on, and it is the only
  kind (`NodeTasks.DrainLosesNothing`, `NodeTasks.LostForGood`).
- A subscriber can be told that a task failed after it has succeeded: the notice of a final failure goes out
  after the lock is released, and a late completion may come before it
  (`SubscriberTruth.FailureToldAfterSuccess`); `SubscriberTruth.FailureUntrueExactly` says exactly when.
- The comment on `cleanup_stale_task_channels` also speaks of channels whose task is gone; the code
  goes by closing time alone.
- Branches of `fail_task` and `handle_heartbeat` for holds without a task are kept in the model and
  are dead in every reachable state (`CoordinatorTheorems.AssignmentsConserved`).

## Model

| member | source | states |
|---|---|---|
| `CoordinatorTheorems.AssignmentsConserved` | bin/coordinator/src/lib.rs:909-980 | In every reachable state, assignments ever made = policy releases + holds now in all workers' active sets; each task has at most one holder, and a hold's task exists and names its holder. |
| `CoordinatorTheorems.WorkersNeverOverloaded` | bin/coordinator/src/lib.rs:1066-1081 | In every reachable state a worker's cached weight is the weight summed from its holds, and never above its maximum. |
| `CoordinatorTheorems.HeartbeatsOnlyTouchTheClock` | bin/coordinator/src/lib.rs:1084-1197 | In every reachable state a heartbeat changes nothing in the books but the worker's last-heartbeat time, whatever tasks and weight it reports. |
| `CoordinatorTheorems.GpuWeightsExact` | bin/coordinator/src/policy/balanced.rs:244-262 | In every reachable state the policy's GPU weight of a proof is the weight of its GPU tasks now held, and a removed proof has none. |
| `CoordinatorTheorems.TaskCountsExact` | bin/coordinator/src/lib.rs:796-930 | In every reachable state `active_tasks` is the number of tasks neither succeeded nor fatally failed, so the unchecked decrements never underflow; a proof with tasks has a live one. |
| `CoordinatorTheorems.NoTaskStranded` | bin/coordinator/src/policy/balanced.rs:278-371 | In every reachable state a live task that can be queued is either queued exactly once or held, never both and never neither. |
| `CoordinatorTheorems.HooksRunOnce` | bin/coordinator/src/lib.rs:877-907 | In every reachable state the success hooks ran at most once per task, and exactly once for those now succeeded. |
| `CoordinatorTheorems.GpuTimeAddedOnce` | bin/coordinator/src/lib.rs:856-876 | In every reachable state GPU time was added at most once per assignment ever made. |
| `CoordinatorTheorems.SuccessIsFinal` | bin/coordinator/src/lib.rs:1475-1510 | Over every run, a succeeded task is still succeeded for as long as its proof exists, under any later completions, failures, blamed proof failures and worker deaths. |
| `CoordinatorTheorems.RunKeepsHooks` | bin/coordinator/src/lib.rs:877-907 | Over every run, a success once hooked stays hooked. |
| `CoordinatorTheorems.SubscribersAnswered` | bin/coordinator/src/lib.rs:1958-2074 | In every reachable state each accepted (subscriber, task) pair is registered on a live task, has its final notice on the way, was sent a terminal result or UnknownTask, or was due when its subscriber had gone; a Succeeded result is only ever sent for a task that succeeded. |
| `CoordinatorTheorems.MissedOnlyWhenGone` | bin/coordinator/src/lib.rs:2040-2074 | A notice goes unsent only if the subscriber is not connected at that moment. |
| `SubscriberRuns.EachAcceptanceAnswered` | bin/coordinator/src/lib.rs:1958-2074 | Each acceptance for itself: of a missing task UnknownTask goes out at once, of a succeeded one Succeeded, of a fatally failed one FailedFatal; on any other the subscriber stays registered while it is open, and over every later run is still registered, or the final result is on its way, or was delivered in that very run. |
| `SubscriberRuns.NothingElseSaid` | bin/coordinator/src/lib.rs:1995-2024 | Nothing else is said at once: to nobody else, of no other task, and nothing of an open one. |
| `SubscriberTruth.NoticesDecidedTruly` | bin/coordinator/src/lib.rs:2040-2074 | In every reachable state a notice is put on its way only to a subscriber of a task that has not succeeded yet, as a success exactly by that task's completion and as a failure otherwise. |
| `SubscriberTruth.ResultsSentTruly` | bin/coordinator/src/lib.rs:2010-2020 | A result is sent only as the status of a finished task at that moment or as a notice that was on its way. |
| `SubscriberTruth.FailureUntrueExactly` | bin/coordinator/src/lib.rs:1605-1613 | A failure notice is untrue when it is handed over, the task being there and succeeded, exactly when the task is still there and was completed in between. |
| `SubscriberTruth.FailureToldAfterSuccess` | bin/coordinator/src/lib.rs:1605-1613 | It does happen: from every state with such a notice on its way and another task of the proof live, a completion and the delivery tell FailedFatal of a succeeded task. |
| `SubscriberRuns.RegisteredStep` | bin/coordinator/src/lib.rs:828-1618 | Any call leaves a registration in place, or closes its task and puts the result on its way. |
| `SubscriberRuns.DeliveryReaches` | bin/coordinator/src/lib.rs:2040-2074 | A delivered result reaches the subscriber exactly if that is connected at that moment, and is recorded as missed otherwise. |
| `CoordinatorTheorems.ChannelsOpenOnlyForLiveTasks` | bin/coordinator/src/lib.rs:2280-2330 | In every reachable state an open channel belongs to an existing task that is not final; so subscribing after the sweep never reopens a finished one. |
| `CoordinatorTheorems.ReceiversEnd` | bin/coordinator/src/lib.rs:2332-2382 | In every reachable state each receiver of a task that is final or gone has exactly one EndOfStream, and it is the last message. |
| `CoordinatorTheorems.SweptStaysClosed` | bin/coordinator/src/lib.rs:2346-2382 | Subscribing or sending to a finished or unknown task without a channel opens none; the subscriber gets EndOfStream alone. |
| `CoordinatorTheorems.CompletionEffect` | bin/coordinator/src/lib.rs:828-1003 | After a completion the reporter no longer holds the task, which is Succeeded with its retries as they were, and its proof is removed exactly when no other task of it is live. |
| `CoordinatorTheorems.CompletionTold` | bin/coordinator/src/lib.rs:856-907 | It runs the success hook and puts every subscriber's success notice on its way exactly if the task had not succeeded yet, closes the task's channel, and adds the reported GPU time, saturating at 64 bits, exactly if the worker was given the task as one with a GPU and has not reported it before. |
| `CoordinatorTheorems.FailureEffect` | bin/coordinator/src/lib.rs:1443-1618 | After an accepted failure the reporter no longer holds the task; a success is untouched; a retryable failure of a task retried fewer than three times makes it FailedRetryable with one retry more and requeues it once; any other makes it FailedFatal, and removes the proof exactly when the task is a controller, wrap or execution task or no other task is live. |
| `CoordinatorTheorems.FailureRefused` | bin/coordinator/src/lib.rs:1458-1479 | A report from a worker that does not hold the task, or on a task that is gone, changes nothing. |
| `CoordinatorTheorems.FailureTold` | bin/coordinator/src/lib.rs:1540-1613 | Nobody is told of a retry; of a final failure exactly the task's subscribers are, or those of all the proof's tasks if the proof goes down with it; the task's channel is closed. |
| `CoordinatorTheorems.ObjectStaysReachable` | bin/coordinator/src/lib.rs:626-2382 | Whatever the coordinator object does in one call is a run of the model, so the theorems above hold of every state of the object. |
| `CoordinatorTheorems.ObjectStaysReachableAlone` | bin/coordinator/src/lib.rs:1752-1840 | The same for calls after which nothing is assigned. |
| `CoordinatorTheorems.ReachableGood` | bin/coordinator/src/lib.rs:626-2382 | Every reachable state satisfies all invariants at once. |
| `CallEffects.TaskCreated` | bin/coordinator/src/lib.rs:768-825 | A new task is pending, untried and unassigned, counted once, queued once if it can be queued at all, and nothing else changes; without its proof nothing does. |
| `CallEffects.ProofCreated` | bin/coordinator/src/lib.rs:626-683 | A new proof has its first task and no other; one that exists is left alone. |
| `CallEffects.TaskAssigned` | bin/coordinator/src/policy/balanced.rs:81-198 | An assignment takes a waiting task that is neither succeeded nor fatally failed to an open worker of the right kind within its weight; the task runs there, and the attempt is one on a GPU exactly if the worker is no CPU worker. |
| `CallEffects.HeldByTheRightKind` | bin/coordinator/src/policy/balanced.rs:99-107 | In every reachable state a GPU task is held only by a GPU or All worker, a CPU task only by a CPU or All worker, and a task of neither lane by none. |
| `CallEffects.ClosedWorkerDrains` | bin/coordinator/src/lib.rs:1411-1424 | Over every run a closed worker, until it is removed, stays closed and only ever loses holds. |
| `CallEffects.ProofFailed` | bin/coordinator/src/lib.rs:1752-1840 | A proof failure goes ahead exactly when the proof exists and the blamed task, if any, is in it and has not succeeded; then the proof is gone, exactly its tasks' subscribers have failure notices on their way and its tasks' channels are closed; otherwise nothing changes. |
| `CallEffects.WorkerRemoved` | bin/coordinator/src/lib.rs:1338-1408 | A removed worker's holds are each queued again, once, with one requeue more and nothing else about them changed. |
| `CallEffects.MessageSent` | bin/coordinator/src/lib.rs:2292-2317 | A message to an open channel, or to a live task without one, is the next of its buffer and tape and goes to every listener still there; any other is dropped. |
| `CallEffects.ChannelSubscribed` | bin/coordinator/src/lib.rs:269-289 | A subscriber is sent the buffer from its offset, and the end at once if the channel is closed; otherwise it is a listener from then on. |
| `CoordinatorRuns.StepKeeps` | bin/coordinator/src/lib.rs:626-2382 | Each of the twenty-one calls and deliveries, with any arguments, keeps the agreement of books, subscriber desk and channels. |
| `CoordinatorRuns.RunKeeps` | bin/coordinator/src/lib.rs:626-2382 | So does every legal run of calls. |
| `CoordinatorRuns.CompleteCallKeeps` | bin/coordinator/src/lib.rs:828-1003 | A completion, stale or repeated, keeps every invariant. |
| `CoordinatorRuns.FailCallKeeps` | bin/coordinator/src/lib.rs:1443-1618 | A failure report keeps every invariant, in all its branches. |
| `CoordinatorRuns.FailProofCallKeeps` | bin/coordinator/src/lib.rs:1752-1840 | Failing a proof keeps every invariant. |
| `CoordinatorRuns.DeskCallKeeps` | bin/coordinator/src/lib.rs:1928-2027 | Subscriber calls keep every invariant. |
| `CoordinatorRuns.HandOverKeeps` | bin/coordinator/src/lib.rs:2040-2074 | A notice going out, whenever it does, settles what it was owed. |
| `CoordinatorRuns.ChannelCallKeeps` | bin/coordinator/src/lib.rs:2280-2382 | Channel calls keep every invariant. |
| `BookSteps.CompleteKeeps` | bin/coordinator/src/lib.rs:828-980 | A completion keeps holds, weights, counts, conservation, hooks and credits in agreement. |
| `BookSteps.FailKeeps` | bin/coordinator/src/lib.rs:1443-1605 | So does a failure report. |
| `BookSteps.FailProofKeeps` | bin/coordinator/src/lib.rs:1752-1818 | So does a proof failure. |
| `BookSteps.RemoveWorkerKeeps` | bin/coordinator/src/lib.rs:1338-1408 | So does a worker's death. |
| `BookSteps.AssignKeeps` | bin/coordinator/src/policy/balanced.rs:81-198 | So does an assignment by the policy. |
| `BookSteps.AddTaskKeeps` | bin/coordinator/src/lib.rs:768-812 | So does a new task. |
| `BookSteps.SubscribeKeeps` | bin/coordinator/src/lib.rs:1958-2027 | So does a subscription. |
| `BookSteps.WorkerDeathIsFree` | bin/coordinator/src/lib.rs:1328-1408 | A worker's death changes neither `retries`, nor status, nor `active_tasks`; only the requeue tally of the tasks it held goes up by one. |
| `BookSteps.HeartbeatIsStable` | bin/coordinator/src/lib.rs:1137-1182 | With the books in agreement, overwriting the weight with the recomputed one changes neither weight nor holds. |
| `TaskChannels.PushKeeps` | bin/coordinator/src/lib.rs:248-267 | A push keeps every receiver's log a gapless piece of its channel's buffer, including pruned and dropped listeners. |
| `TaskChannels.AttachKeeps` | bin/coordinator/src/lib.rs:269-289 | A late listener replays exactly the buffer from its offset, and is ended at once by a closed channel. |
| `TaskChannels.CloseAllKeeps` | bin/coordinator/src/lib.rs:2332-2345 | Closing channels ends every listener once and for all. |
| `TaskChannels.CloseIsCloseAll` | bin/coordinator/src/lib.rs:2332-2345 | Closing one channel is closing the set of it. |
| `TaskChannels.SendKeeps` | bin/coordinator/src/lib.rs:2292-2317 | Sending keeps the streams sound whether the channel exists, is opened or is refused. |
| `TaskChannels.ListenKeeps` | bin/coordinator/src/lib.rs:2353-2382 | Subscribing keeps the streams sound in its three cases. |
| `TaskChannels.SweepKeeps` | bin/coordinator/src/lib.rs:1914-1925 | Sweeping closed channels leaves every receiver's log complete. |
| `CoordinatorObject.Coordinator.constructor` | bin/coordinator/src/lib.rs:327-347 | The new coordinator is the empty state, in agreement. |
| `QueueOrder.CompareIsPriority` | bin/coordinator/src/policy/balanced.rs:404-446 | The heaps' comparison, arm by arm over all pairs of task types, is lexicographic: key set-up first, then older proofs, then shards, then older tasks. |
| `QueueOrder.CompareLawful` | bin/coordinator/src/policy/balanced.rs:404-446 | So it is a total preorder, as a heap needs it to be. |
| `QueueOrder.InsertOrdered` | bin/coordinator/src/policy/balanced.rs:217-233 | Putting a task where its rank belongs keeps a queue in order. |
| `QueueOrder.HeadFirst` | bin/coordinator/src/policy/balanced.rs:336-339 | Nobody in an ordered queue goes before its head. |
| `CoordinatorObject.Coordinator.FindNextBalanced` | bin/coordinator/src/policy/balanced.rs:49-79 | Finds the waiting proof whose assigned GPU weight is least, the oldest among equals. |
| `CoordinatorObject.Coordinator.FindWorker` | bin/coordinator/src/policy/balanced.rs:95-111 | Finds an open worker of the lane's kind or of kind All with room exactly if there is one, and the one free soonest. |
| `CoordinatorObject.Coordinator.PopQueue` | bin/coordinator/src/policy/balanced.rs:180-196 | Takes exactly the head task off its queue, before which nobody there goes; an emptied GPU queue is removed. |
| `CoordinatorObject.Coordinator.EnqueueTask` | bin/coordinator/src/policy/balanced.rs:217-233 | Queues the task once in the queue of its lane, keeping that queue in priority order, or not at all if it has none. |
| `CoordinatorObject.Coordinator.Grant` | bin/coordinator/src/policy/balanced.rs:113-172 | Books hold, weight, attempt, status, GPU charge and expected end of one assignment. |
| `CoordinatorObject.Coordinator.AssignTask` | bin/coordinator/src/policy/balanced.rs:81-198 | Makes one legal assignment of the head task, to the worker free soonest, or changes nothing because no worker has room. |
| `CoordinatorObject.Coordinator.AssignTasks` | bin/coordinator/src/policy/balanced.rs:278-371 | Terminates, does only legal assignments and discards, and leaves a queue waiting only if its next task, of the least loaded proof for GPU, fits no worker. |
| `CoordinatorObject.Coordinator.PolicyRelease` | bin/coordinator/src/policy/balanced.rs:244-262 | One release debits the proof's GPU weight and drops an entry that reaches zero. |
| `CoordinatorObject.Coordinator.ReleaseRemaining` | bin/coordinator/src/lib.rs:1007-1064 | Found through each task's `worker` field, in any order, every hold on the removed proof but the skipped one is released exactly once. |
| `CoordinatorObject.Coordinator.NotifySubscribers` | bin/coordinator/src/lib.rs:2040-2074 | Every connected subscriber gets the result; the others are recorded as missed. |
| `CoordinatorObject.Coordinator.CloseTaskChannel` | bin/coordinator/src/lib.rs:2332-2345 | Does what the channel model's close does, and nothing if already closed. |
| `CoordinatorObject.Coordinator.CreditGpuTime` | bin/coordinator/src/lib.rs:870-876 | Only the first report of a recorded GPU attempt adds its time. |
| `CoordinatorObject.Coordinator.CompleteTaskBooks` | bin/coordinator/src/lib.rs:828-980 | Removing the proof before releasing holds ends in the same books as the model's release-then-remove. |
| `CoordinatorObject.Coordinator.CompleteTask` | bin/coordinator/src/lib.rs:828-1003 | Does one completion, legal assignments and the notices due; if it freed capacity, nothing that fits is left waiting. |
| `CoordinatorObject.Coordinator.FailProofInternal` | bin/coordinator/src/lib.rs:1752-1840 | Refuses an unknown or succeeded blamed task; otherwise removes the proof, tells every task's subscribers, releases its holds but the skipped one and closes all its channels. |
| `CoordinatorObject.Coordinator.FailProof` | bin/coordinator/src/lib.rs:1842-1865 | Does exactly one proof failure of the model and its notices. |
| `CoordinatorObject.Coordinator.RecordFailure` | bin/coordinator/src/lib.rs:1514-1537 | FailedRetryable with one retry more exactly for a retryable failure with fewer than three retries, else FailedFatal; the count goes down exactly if the task becomes FailedFatal only now. |
| `CoordinatorObject.Coordinator.FailTask` | bin/coordinator/src/lib.rs:1443-1618 | Replies FailedPrecondition exactly to a worker without the task, NotFound for an unknown worker or task; does one failure of the model, legal assignments and the notices due, leaving nothing that fits waiting. |
| `CoordinatorObject.Coordinator.RemoveWorkerInternal` | bin/coordinator/src/lib.rs:1338-1408 | Requeues the dead worker's tasks one by one, in any order, ending in the model's worker removal. |
| `CoordinatorObject.Coordinator.RemoveWorkerAndAssign` | bin/coordinator/src/lib.rs:1427-1439 | The same followed by legal assignments. |
| `CoordinatorObject.Coordinator.AssignedWeight` | bin/coordinator/src/lib.rs:1072-1081 | The loop's sum is the weight of the set of holds. |
| `CoordinatorObject.Coordinator.HandleHeartbeat` | bin/coordinator/src/lib.rs:1084-1197 | Does exactly one heartbeat of the model and then legal assignments. |
| `CoordinatorObject.Coordinator.AddWorkerAndAssign` | bin/coordinator/src/lib.rs:1294-1326 | A known worker changes nothing; a new one is added idle, and nothing that fits is left waiting. |
| `CoordinatorObject.Coordinator.CloseWorkerEntry` | bin/coordinator/src/lib.rs:1411-1424 | Closes the worker to new tasks. |
| `CoordinatorObject.Coordinator.CreateTaskAndAssign` | bin/coordinator/src/lib.rs:768-825 | Adds, counts and queues one task and leaves nothing that fits waiting, or replies NotFound and changes nothing. |
| `CoordinatorObject.Coordinator.CreateProofAndAssign` | bin/coordinator/src/lib.rs:626-683 | Adds a proof with its first task and leaves nothing that fits waiting, or replies AlreadyExists and changes nothing. |
| `CoordinatorObject.Coordinator.OpenSubscriber` | bin/coordinator/src/lib.rs:1928-1950 | A known subscriber keeps its proof; a new one is connected. |
| `CoordinatorObject.Coordinator.ForgetSubscriber` | bin/coordinator/src/lib.rs:1885-1912 | Forgets a subscriber that timed out and nothing else. |
| `CoordinatorObject.Coordinator.AddSubscriptionsTo` | bin/coordinator/src/lib.rs:1958-2027 | Registers on each live task and answers at once for each that is unknown or final. |
| `CoordinatorObject.Coordinator.TaskCanStillSend` | bin/coordinator/src/lib.rs:2280-2286 | True exactly when some proof has the task and it is not final. |
| `CoordinatorObject.Coordinator.SendMessage` | bin/coordinator/src/lib.rs:2292-2317 | Does exactly one send of the model. |
| `CoordinatorObject.Coordinator.SubscribeTaskChannel` | bin/coordinator/src/lib.rs:2353-2382 | Does exactly one subscription of the model. |
| `CoordinatorObject.Coordinator.CleanupStaleTaskChannels` | bin/coordinator/src/lib.rs:1914-1925 | Removes exactly the channels closed for more than 60 seconds. |
| `PolicyRuns.ScheduleRuns` | bin/coordinator/src/policy/balanced.rs:278-371 | What the policy schedules is a legal run that touches the books alone. |
| `MethodShapes.CloseMore` | bin/coordinator/src/lib.rs:1816-1818 | Closing a proof's channels one by one ends each receiver once, as closing them together does. |
| `TaskReader.ForwardedExactlyOnce` | crates/worker/src/client.rs:643-684 | For every interleaving of coordinator calls, broken streams and reconnects while the channel entry exists, what was forwarded is a prefix of what was sent under that entry, and all of it when the reader stops on an EndOfStream. |
| `TaskReader.ReopenedReader` | bin/coordinator/src/lib.rs:2346-2382 | A reader that comes back to a channel opened anew ends up with its old messages followed by the new tape from its count, or from the buffer's end if that is shorter; that is a prefix of the new tape exactly when both parts lie there in place, and with a long enough buffer exactly when the old messages do. |
| `TaskReader.SweptReaderEnds` | bin/coordinator/src/lib.rs:2346-2382 | After the sweep the promise ends: a reader that reconnects to a finished task stops with what it has, complete exactly if it already was. |
| `TaskReader.SweptReaderEndsShort` | bin/coordinator/src/lib.rs:1914-1925 | From every session on a closed channel of a finished task that is not yet at the end, waiting, the sweep, a reconnect and a read end the stream with messages missing. |
| `TaskReader.StreamsGrow` | bin/coordinator/src/lib.rs:248-290 | No call rewrites what a receiver was sent or what an entry buffered. |
| `TaskReader.EntryLasts` | bin/coordinator/src/lib.rs:1914-1925 | Over every run a channel entry is there until more than 60 seconds after it was closed. |
| `MessageStream.DriveMessageStream` | crates/worker/src/client.rs:643-684 | Whatever the streams do, the loop forwards a prefix of the tape, all of it if it stops at an end marker. |
| `MessageStream.ReceiverServes` | bin/coordinator/src/lib.rs:269-289 | Any part of a receiver's log, cut anywhere, is such a stream. |
| `ProofRows.ProofTable.Create` | bin/api/src/service.rs:95-141 | Inserts a Pending row with what was requested, once; a duplicate changes nothing. |
| `ProofRows.ProofTable.Cancel` | bin/api/src/service.rs:143-173 | Cancels only from Pending, and afterwards the row is not Pending. |
| `ProofRows.ProofTable.UpdateRow` | bin/api/src/service.rs:175-276 | Writes the named fields, the five execution columns together, all or nothing behind the Pending guard; an accepted completion leaves the row not Pending. |
| `ProofRows.OutcomeFrozen` | bin/api/src/service.rs:182-261 | No update or cancel changes status, metadata or extra data of a row past Pending. |
| `ProofRows.UpdateWrites` | bin/api/src/service.rs:182-276 | An update is refused exactly if it names nothing, or names no status and finds no row; it is written, column by column what it names and nothing else, exactly if it names something and finds its row, Pending if it names a status. |
| `StatusProtocol.OutcomesFinal` | bin/api/src/service.rs:239-261 | Over every run a row leaves Pending at most once, and its outcome never changes after. |
| `StatusProtocol.OutcomeFromOneCompletion` | bin/coordinator/src/cluster.rs:88-127 | Status, metadata and extra data of a finished row all come from one completion. |
| `StatusProtocol.OutcomeFromResult` | bin/coordinator/src/cluster.rs:101-118 | In every run a Completed row has its outcome, metadata and extra data from a result of that proof in the run that was a success, a Failed one from a result that was not. |
| `StatusProtocol.DroppedOnlyWhenFinal` | bin/coordinator/src/cluster.rs:29-63 | A recorded completion is dropped only when its row has left Pending. |
| `StatusProtocol.NoLostCompletion` | bin/coordinator/src/cluster.rs:88-127 | Over every run of lost replies, late executions, re-issues and cancels, a recorded completion is still recorded while its row is Pending. |
| `StatusProtocol.ResultRecorded` | bin/coordinator/src/cluster.rs:88-118 | A result is recorded and posted, as Completed if it is a success and Failed if not, exactly when its proof is tracked at the moment it is taken. |
| `StatusProtocol.ResultBeforeClaimIsDropped` | bin/coordinator/src/cluster.rs:266-331 | A result taken between the claimer's check and its claim leaves no record, and the proof looks unfinished. |
| `StatusProtocol.LiveProofSurvives` | bin/coordinator/src/cluster.rs:171-233 | Over every run, whatever paging skips, a tracked proof whose row stays Pending, unhandled and within its deadline is never torn down and never forgotten. |
| `StatusProtocol.TeardownNeedsARead` | bin/coordinator/src/cluster.rs:202-233 | A proof is torn down only after a direct read found its row missing, not Pending, handled or past its deadline, and tearing down never drops a recorded completion. |
| `StatusProtocol.ActKeeps` | bin/coordinator/src/cluster.rs:29-356 | Every step of writer, claimer, re-issue and API keeps the protocol's invariants. |
| `StatusProtocol.ReissueNeverBlocked` | bin/coordinator/src/cluster.rs:29-63 | Over every run a recorded completion is being re-issued by exactly one call, or the next sweep re-issues it: the in-flight set never blocks recovery. |
| `ClaimTracker.Tracker.TakeResult` | bin/coordinator/src/cluster.rs:75-118 | Records the exact completion, Completed exactly for a success, before it is sent, or drops the result of an untracked proof. |
| `ClaimTracker.Tracker.CallOver` | bin/coordinator/src/cluster.rs:47-60 | Only an acknowledged call stops the tracking, and only of a finished proof. |
| `ClaimTracker.Tracker.ReissueOne` | bin/coordinator/src/cluster.rs:29-46 | Sends again unless a re-issue for the proof is already running. |
| `ClaimTracker.Tracker.SweepUnconfirmed` | bin/coordinator/src/cluster.rs:339-356 | After the sweep every recorded completion has a re-issue running. |
| `ClaimTracker.Tracker.ClaimListed` | bin/coordinator/src/cluster.rs:262-336 | Tracked proofs keep their state; exactly the usable, created ones of the listing become claimed. |
| `ClaimTracker.Tracker.FailMissing` | bin/coordinator/src/cluster.rs:182-233 | Tears down exactly the claimed, unlisted proofs whose own read, whatever the API does between the reads, found no row, or one not Pending, handled or past its deadline; a read without reply spares its proof. |
| `ClaimTracker.SameApi` | bin/coordinator/src/cluster.rs:202-213 | What happens at the API between two reads depends on the API alone, not on what the tracker has done meanwhile. |
| `Paging.DrainPages` | crates/common/src/client.rs:231-256 | Returns the pages up to the first short one or the cap; fails exactly when a page fails after full ones. |
| `Paging.DedupById` | crates/common/src/client.rs:260-265 | Keeps the first row of each id, in order. |
| `Paging.FirstsOncePerId` | crates/common/src/client.rs:258-265 | No id is left twice, none is lost, and each row kept is the first read of its id. |
| `Paging.GetAllProofRequests` | crates/common/src/client.rs:145-157 | The walk without duplicates, failing exactly when the walk does. |
| `Paging.StillTableWalk` | bin/api/src/service.rs:342-352 | On an unchanging table the walk is exactly the first 100 pages of the ordered listing, each row once. |
| `Paging.WalkedRowsWereRead` | crates/common/src/client.rs:231-256 | Every row returned was on some page read. |
| `ArtifactStore.RedisKeys.Stage` | crates/artifact/src/redis.rs:130-145 | Stages one chunk with the staging TTL in one step. |
| `ArtifactStore.RedisKeys.PublishScript` | crates/artifact/src/redis.rs:646-698 | The script's replies and effects; after a nonzero reply a published hash is there and no inline value; a program is published without expiry, anything else for the retention period. |
| `ArtifactStore.RedisKeys.SetInline` | crates/artifact/src/redis.rs:534-554 | Replaces both forms by the inline value in one step, a program without expiry and anything else for the retention period. |
| `ArtifactStore.RedisKeys.StageAll` | crates/artifact/src/redis.rs:576-614 | Stages every chunk of the upload and touches no other staging. |
| `ArtifactStore.RedisKeys.UploadChunked` | crates/artifact/src/redis.rs:559-572 | Undisturbed, a first upload is what is stored afterwards, a later one leaves the published copy, and no staging is left. |
| `ArtifactStore.RedisKeys.Download` | crates/artifact/src/redis.rs:417-507 | Undisturbed, a download returns what is stored, chunked or inline; an unmarked hash is read as the chunks it has, and fails exactly if there is a gap among them. |
| `ArtifactStore.CommandKeeps` | crates/artifact/src/redis.rs:559-698 | Any command, however late, keeps staging hashes private and on the short TTL and a published hash whole. |
| `ArtifactStore.CommandKeepsClean` | crates/artifact/src/redis.rs:531-698 | Any command keeps the two forms apart. |
| `ArtifactStore.DebrisIsOld` | crates/artifact/src/redis.rs:632-667 | No command makes a hash without its marker: one that is there was there before, unchanged. |
| `ArtifactStore.CountIsWhole` | crates/artifact/src/redis.rs:653-656 | The script's field count is an exact test of completeness. |
| `ArtifactStore.PublishesOnlyWhole` | crates/artifact/src/redis.rs:648-667 | A publish succeeds exactly when nothing is published and every chunk of the attempt is staged. |
| `ArtifactStore.PublishedIsImmutable` | crates/artifact/src/redis.rs:632-667 | Any command leaves a published hash as it is or removes it whole. |
| `ArtifactReads.PublishedIsOneUpload` | crates/artifact/src/redis.rs:559-698 | In every run, debris or not, a hash with marker n is chunks 0 to n-1 of one upload, whose bytes they join to; two looks at one version see the same hash. |
| `ArtifactReads.OneRepresentation` | crates/artifact/src/redis.rs:531-698 | In every run without debris inline value and chunk hash never coexist, staging is always on the short TTL and nothing else ever is. |
| `ArtifactReads.ChunksFromOwners` | crates/artifact/src/redis.rs:426-504 | In every run a chunked read that succeeds, whatever count it goes by, joins chunk by chunk the pieces of the uploads published at the moments those chunks were read, each in its place. |
| `ArtifactReads.ReadOfOne` | crates/artifact/src/redis.rs:426-504 | If all its chunks come from one upload, it returns that upload from its start, and whole exactly when the count is that upload's own, overtaken or not. |
| `ArtifactReads.ReadOfTwo` | crates/artifact/src/redis.rs:426-504 | If they come from two, it returns the first chunks of the one and the following ones of the other up to the count. |
| `ArtifactReads.ReadIsOneUpload` | crates/artifact/src/redis.rs:417-507 | So a reader with no publication between the look-up of its count and its last chunk returns one upload's full bytes or an error, never a mix or a part; debris matters only to a count taken by HLEN. |
| `ArtifactReads.StillRead` | crates/artifact/src/redis.rs:417-507 | An undisturbed read succeeds exactly when the artifact is there, and returns what is stored. |
| `ArtifactReads.SplicedIs` | crates/artifact/src/redis.rs:413-507 | Such a splice, byte for byte, for any two chunk sizes: it is the old upload exactly when the rests agree, the new one (if the count is its own) exactly when the beginnings do, and with no old chunk the new one exactly when the count is its own. |
| `ArtifactReads.OvertakenRead` | crates/artifact/src/redis.rs:413-507 | Deleted and published again after any number of its chunks were read, an artifact's read fails exactly when the new upload has fewer chunks than the count; otherwise it returns the splice as a success. |
| `ArtifactReads.TwoIncarnationsMix` | crates/artifact/src/redis.rs:413-507 | With as many chunks the bytes returned are no upload's exactly when beginnings and rests both differ and no third writer uploaded the mix. |
| `ArtifactReads.LongerIncarnationReadShort` | crates/artifact/src/redis.rs:427-504 | With more chunks the read returns only the beginning of the new upload, as a success; that is no upload's bytes exactly when it is neither the old upload nor a third writer's. |
| `ArtifactReads.MissingExactly` | crates/artifact/src/redis.rs:433-458 | An artifact that is there at every moment is reported missing exactly when both count look-ups find no hash and the inline look-up between them falls on one. |
| `ArtifactReads.OverwriteIsNeverMissing` | crates/artifact/src/redis.rs:433-458 | A reader racing an inline-to-chunked overwrite never reports the artifact missing. |
| `ArtifactReads.SwitchingBackHides` | crates/artifact/src/redis.rs:433-458 | Switched to chunked and back in mid-read, an artifact that is always there is reported missing. |
| `ArtifactReads.CollectChunks` | crates/artifact/src/redis.rs:490-504 | Chunks collected in any order join to the artifact. |
| `Admission.UsedBounded` | crates/artifact/src/redis.rs:147-177 | In every run `in_flight` is the sum of live reservations, and memory passes the budget by at most the bytes that slipped between a decision's two readings. |
| `Admission.BudgetHolds` | crates/artifact/src/redis.rs:314-362 | In every run where no guard that landed bytes since the sample is dropped before the reservations are read, memory never passes the budget. |
| `Admission.BudgetPassed` | crates/artifact/src/redis.rs:327-348 | Otherwise it can: for all x and y within the budget but not together, a run lands both. |
| `Admission.ApprovalUnsafeExactly` | crates/artifact/src/redis.rs:327-348 | An approval allows the budget to be passed exactly when the bytes that slipped exceed the room the check left plus what was freed. |
| `Admission.PollDecidesAsGate` | crates/artifact/src/redis.rs:336-344 | The wait loop's test in saturating sums and the gate of the theorems decide alike, for every budget below the largest 64-bit number. |
| `Admission.CheckAdmission` | crates/artifact/src/redis.rs:310-395 | Small writes bypass; unreadable memory fails open; otherwise it grants at the first poll that fits, however the budget is rounded, and gives up only past the wait cap. |
| `Heartbeats.BeatClock.Record` | bin/node/src/heartbeat.rs:119-121 | The clock after a beat comes back is the clock of the run the bound is proved of; a beat that went well has reached the coordinator. |
| `Heartbeats.BeatClock.IsStale` | bin/node/src/heartbeat.rs:125-131 | Stale exactly when the next prompt has to be covered, which in a sound run is after a failed beat; if not stale, the coordinator has had a beat within 8 seconds. |
| `Heartbeats.StaleExactlyWhenCleared` | bin/node/src/heartbeat.rs:31-34 | In every run the ten-second age limit never decides: the clock is stale exactly when no beat has landed yet or the last one failed. |
| `Heartbeats.EventKeeps` | bin/node/src/heartbeat.rs:186-199 | Every event of thread, main loop and coordinator keeps the deadlines. |
| `Heartbeats.GapBounded` | bin/node/src/heartbeat.rs:22-34 | In every run of failures and recoveries, also one that starts in mid-beat, the coordinator is never without a beat for more than 16 seconds. |
| `Heartbeats.NeverEvicted` | bin/coordinator/src/lib.rs:1219-1233 | Such a worker is never evicted at any configured timeout, whole-second truncation included. |
| `Heartbeats.SilentIsEvicted` | bin/coordinator/src/lib.rs:1219-1233 | A worker silent for a second more than the timeout, at least 20 seconds whatever is configured, is evicted; one heard within the timeout is not. |
| `NodeTasks.ReportsAreHonest` | bin/node/src/lib.rs:209-237 | Completion is reported exactly for a success with metadata, silence exactly for an abort that was no timeout, and the timeout flag never overrides a result. |
| `NodeTasks.StepKeeps` | bin/node/src/lib.rs:318-700 | Every step of main loop, reporters and watchdog keeps counter, ids and the account of every attempt sound. |
| `NodeTasks.CounterExact` | bin/node/src/lib.rs:270-316 | In every run `reporters_in_flight` is the live reporters plus the live wedged reports, and never negative. |
| `NodeTasks.DrainLosesNothing` | bin/node/src/lib.rs:539-542 | In every run a drained exit comes only after every accepted attempt was reported on by its reporter, the watchdog or a wedged batch, or was cancelled and stayed silent, except, exactly, those that were cancelled and whose reporter panicked before any report. |
| `NodeTasks.LostForGood` | bin/node/src/lib.rs:479-488 | Drained or not, such an attempt is reported on in no run after. |
| `NodeTasks.CancelledPanicIsLost` | bin/node/src/lib.rs:479-488 | The exception is real: from every state with an unreported attempt's entry, a cancel and a panic of its reporter, in either order, lose it. |
| `NodeTasks.SuccessorKeepsItsEntry` | bin/node/src/lib.rs:188-196 | Over every run an entry is removed only by its own report, a cancel or the watchdog, never by a stale attempt's reporter. |
| `NodeTasks.RedeliverySurvives` | bin/node/src/lib.rs:403-477 | A task cancelled and redelivered while its first reporter is at work keeps its new entry. |
| `NodeLoop.Loop.OnNewTask` | bin/node/src/lib.rs:396-478 | Accepts exactly when open and not already running the key, counting one reporter and filing a fresh attempt. |
| `NodeLoop.Loop.OnCancel` | bin/node/src/lib.rs:479-488 | Drops the entry at once, so a redelivery under its key is accepted. |
| `NodeLoop.Loop.OnReported` | bin/node/src/lib.rs:188-196 | Drops the reporter's own entry only; every other attempt's entry stays. |
| `NodeLoop.Loop.Watchdog` | bin/node/src/lib.rs:599-674 | Drops entries whose reporter is over and reports failure exactly for those that panicked; of the others aborts exactly those whose work is unfinished past the timeout and not aborted for more than ten seconds, reports exactly those that are, closing the node, and leaves the rest. |
| `NodeLoop.Loop.DrainTest` | bin/node/src/lib.rs:539-542 | Exits as drained only with no entries and a zero counter. |
| `TreeLayers.GetTreeLayerSize` | crates/worker/src/utils.rs:124-146 | The loop's width is ceil(n/2^k) rounded down to even, 1 at the root and 0 past it. |
| `TreeLayers.NextLayer` | crates/worker/src/utils.rs:133-143 | Width plus the node set aside is always ceil(n/2^k). |
| `TreeLayers.LayersPair` | crates/worker/src/utils.rs:124-125 | Every layer but the root pairs off completely. |
| `TreeLayers.JoinsInAll` | crates/worker/src/utils.rs:124-146 | The pair joins over all layers are exactly n-1. |
| `S3Parts.RangesPartition` | crates/artifact/src/s3.rs:229-255 | The inclusive byte ranges (section 14.1.2 of RFC 9110) are never empty and every byte is in exactly one. |
| `S3Parts.DownloadSplit` | crates/artifact/src/s3.rs:233-239 | At most `concurrency` groups, together each chunk once and in order, all but the last of the same size. |
| `S3Parts.UploadSplit` | crates/artifact/src/s3.rs:317-328 | An upload makes at most `concurrency` groups exactly when its chunks are at most threads times concurrency. |
| `S3Parts.UploadOverSplit` | crates/artifact/src/s3.rs:317-328 | Two chunks at concurrency 1 make two groups. |
| `S3Parts.Reassemble` | crates/artifact/src/s3.rs:262-266 | For every arrival order the filled buffer is the object. |
| `S3Parts.CollectParts` | crates/artifact/src/s3.rs:368-375 | For every arrival order each part slot is filled exactly once, in order. |
| `S3Parts.UploadedWhole` | crates/artifact/src/s3.rs:338-375 | The listed parts join to the data uploaded. |

## Left out

- CoordinatorObject.Coordinator.FindNextBalanced: the search does not start from `u32::MAX`, so a proof loaded to exactly that is still found.
- CoordinatorObject.Coordinator.EnqueueTask: the heap is an ordered sequence; its array layout is not modelled.
- CoordinatorObject.Coordinator.Grant: the clock read for an assignment's start is the model's, in whole seconds.
- CoordinatorObject.Coordinator.NotifySubscribers: the set of a subscriber's active subscriptions and message ids are not modelled, nor how often one result is sent.
- CoordinatorTheorems.SubscribersAnswered: at least one answer, since a failing controller's subscribers are told twice.
- TaskReader.ReopenedReader: with a buffer shorter than the reader's count, only up to the next reconnect.
- StatusProtocol.OutcomesFinal: other clients' updates set only `handled`, `deadline` and the execution result, as all callers in the repository do; rows are never deleted, as nothing in it deletes them.
- StatusProtocol.ResultRecorded: the writer's look-up and its insert are one step here; in the source they are two, with nothing awaited in between.
- Admission.CheckAdmission: the floating-point product that gives the budget is a parameter.
- NodeTasks.DrainLosesNothing: a report counts as made when its call is over; a call that has used up its retries is only logged.
- Admission.UsedBounded: writes small enough to bypass the gate, fail-open writes and leftovers of retried attempts are excluded.
- Heartbeats.GapBounded: assumes the thread keeps ticking, prompts are handled within five seconds of each other and a covering beat lands within its deadline.
- NodeLoop.Loop.Watchdog: the calls it awaits between its passes are left out; `NodeTasks` interleaves its removals with everything else.
- ClaimTracker.Tracker.FailMissing: row reads are taken one after another and the status writer waits; `StatusProtocol` interleaves them with everything else.
- ArtifactStore.RedisKeys.Download: nothing else runs meanwhile; `ArtifactReads` has the concurrent reader.
- S3Parts.DownloadSplit: a concurrency of zero, on which the source divides by zero, is excluded.
- Runs after `shutdown`, which clears holds but not weights and stops proofs from being removed.
- 32-bit wrap-around of weights and counters; `active_tasks` is an unbounded integer proved never negative.
- Which kind of worker a task type needs, and what a task weighs: both are parameters of the model.
- Fresh ids: task ids and receiver ids are never reused, as the source draws new ones.
- Messages to workers (new task, cancel, prompt) and the gRPC server's resend map, which gives up after its retry limit.
- Proof expiry and dead-worker collection, beyond the proof failures and worker removals they call.
- The default policy, GPU availability integral, metrics, manifest push, logging, configuration and authentication.
- Redis permits, `exists`, reference counts, connection pools, key routing, compression.
- Claim details of the poll (missing artifact ids, request assembly) and the API's other filters; 64-bit signed casts of its numbers.
- The node's reconnects, silence watchdog and forced exit; only attempts, reporters, drain and heartbeats are modelled.
- The bidder, fulfiller, network gateway, command line and test harness, which would add short mappings only.
