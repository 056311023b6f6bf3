# iWF server: verified models

iWF runs user workflows as interpreter workflows on Temporal or Cadence. These Dafny modules model
the parts of the server whose correctness is spread over several functions, several runs or several
clients, and prove what those parts promise.

- **Continue-as-new.** A long workflow closes its run and starts the next one, which fetches the
  state of the closed run page by page and starts over when the checksum changes
  (`Paging.dfy`, `SnapshotTransfer.dfy`, `TransferErrors.dfy`). The state that moves is in classes
  (`InternalChannel.dfy`, `SignalReceiver.dfy`, `ContinueAsNewer.dfy`, values in `CarriedState.dfy`), and the
  next run is rebuilt from it (`ResumedRun.dfy`). `Runs.dfy` and `Lifecycle.dfy` are about a workflow over any
  number of runs: publishing, signalling, waiting, delivering, timers, RPC updates and hops in any order.
  `Histories.dfy` and `Deliveries.dfy` say what they hold in terms of what happened: requests, registrations
  and deliveries. `Draining.dfy` proves that the next hop is always within reach, and `WorkflowRun.dfy` that
  the objects of a run take exactly these steps.
- **Waiting for commands.** The validator of wait-until responses (`Commands.dfy`), the trigger
  condition (`DeciderTrigger.dfy`, with the sorted keys of `Utils.dfy`), and what they promise together
  (`TriggerProperties.dfy`).
- **Large values in a blob store.** The store and its faults (`BlobStore.dfy`), what writing and loading
  do to lists of objects (`ExternalStorage.dfy`), state inputs over chains of transitions
  (`StateInputs.dfy`), data attributes in place (`DataAttributes.dfy`), from the start API through
  the memo to the get API (`Memo.dfy`), and the clean-up activity (`BlobCleanup.dfy`).
- **Idempotent start.** The start API as one call (`StartApi.dfy`, options and reuse policies in
  `StartRequests.dfy`) and as a protocol between any number of clients and a backend with at most one open
  run for a workflow id (`StartProtocol.dfy`).

`dafny verify dfyconfig.toml` checks everything.

## How the code is modelled

Code that changes things step by step is a method or a class with the same fields, branches and loops,
proved against a function on values; what the code promises is proved about these functions, over all
inputs, runs and interleavings.

- A nil pointer is `None`. A Go panic is a result of its own (`SlicePanic`, `Panic`, `PanicError`, `None`
  for `Retrieve`), never a precondition.
- `int32` arithmetic wraps around, and `int32(f)` of a float that is too large is what amd64 gives. The page
  count is an exact ceiling; the code divides float64 values, which gives the same count for data shorter
  than 2^53 bytes.
- The order in which Go visits a map is open: every result holds for every order. Sorted keys have one order
  (`Utils.OneEnumeration`).
- JSON is any `encode`/`decode` with `decode(encode(s)) == Some(s)`; MD5 is any function that is not empty
  and has no collision among the snapshots of one transfer.
- The transport of a page is the identity on bytes. This is an assumption: pages are cut at byte offsets
  (service/interpreter/continueAsNewer.go:157-165), which can split a character, and the checksum is a
  string of raw bytes.
- The environment is arbitrary: the server's snapshot at every request, failing requests, failing store
  accesses, failing backend calls, closed runs, and the order in which clients act are parameters.
- Backend and store are abstract: the backend keeps at most one open run for a workflow id and hands the
  memo on when a run continues as new; the store is append-only but for its clean-up, and `uuid.New()` never
  repeats.
- Byte lengths of strings are lengths of sequences.

## What the code does not do

Where a property fails for the code as it is, the exact condition is proved.

- A page is served exactly when `pageSize * (n + 1)` fits in int32. Otherwise the slice expression panics,
  because the end of the page is clamped after it was computed (`Paging.PageExact`; 1.6 GB with pages of
  1.5 GB are an input, `Paging.SecondPagePanics`). A load without changes succeeds if and only if that holds
  for the last page (`SnapshotTransfer.StableTransfer`). Data whose length is not an int32 is never
  transferred (`Paging.LongDataNeverCompletes`).
- The loader starts over when the checksum changes, but not when the snapshot has become too short for the
  page it asks for: the handler then answers with its "wrong pageNum, ... shouldn't happen" error. That ends
  the load where the attempts of a request are limited. By default they are not
  (service/common/retry/policy.go:86-91), and the load stays at this request until a snapshot has the page
  again (`TransferErrors.StaysAtItsRequest`), which may be never (`TransferErrors.ShrunkenSnapshotHangs`); the
  same goes for a slice panic. When every request is answered, a load fails at a request if and only if this
  happens (`TransferErrors.TransferErrsExactly`, input in `TransferErrors.ShrinkingSnapshotFails`). It cannot
  happen while the number of pages never drops, and then the load succeeds
  (`TransferErrors.GrowingTransferSucceeds`).
- The validator accepts combinations that name an id more often than there are commands with it. Such a
  request can never be met unless another combination can (`TriggerProperties.CanEverBeMet`,
  `TriggerProperties.RepeatedIdIsStuck`).
- A state execution that waited for commands is deregistered only when its execute API succeeds
  (service/interpreter/workflowImpl.go:1038). If the API fails and the workflow proceeds to a configured
  state (1021-1024, 305-313), the registration stays, and the next continue-as-new resumes the finished
  execution. Every state execution finishes at most once, and is live until then, if and only if this
  does not happen (`Lifecycle.ExactlyOnceFromTheStart`, `Lifecycle.LeakedExecutionRunsAgain`).
- A worker that returns a small next input beside a reference to a stored object loses the data: the next
  worker gets what the reference leads to. Data is kept if and only if it is over the threshold, or has no
  reference, or the reference leads to the same data (`StateInputs.SameDataExactly`, input in
  `StateInputs.StaleReferenceWins`). The encoding is always kept.
- A retry whose id reuse policy is to terminate a running run does not get the run that holds its request id:
  it ends it and gets a new one (`StartProtocol.TerminatingRetryReplacesTheRun`). A call gets the open run if
  and only if it meets it, ignores "already started" errors, and has no request id or the one the run holds
  (`StartProtocol.RetryGetsTheOpenRun`).
- Two kinds of calls succeed with an empty run id: a cron on Temporal, which only creates a schedule, and a call
  whose older policy field is unknown to the client of the backend, which then returns neither a run nor an
  error (service/client/temporal/client.go:165-169), so that nothing is started at all. All other successes
  name a run (`StartProtocol.SuccessNamesARun`).
- A start with a request id panics, and so returns an error, if the open run was started without one
  (`StartProtocol.RetryMeetsTheOpenRun`, run in `StartProtocol.RetryOfPlainStartPanics`); a large start input
  without an encoding panics after its blob was written (`StartApi.ExternalizeStartInput`).
- The clean-up stops at the first path of a page that is older than the cut-off, while the comment at
  config/config.go:46-48 says newer. The model follows the code. On a page in the order of the dates,
  one old path means that nothing of it is deleted (`BlobCleanup.DeletesAllGoneExactly`).

## Model

| member | source | states |
|---|---|---|
| Paging.PageCountIsCeil | service/interpreter/continueAsNewer.go:152-153 | the recursive page count is the least `c` with `length <= pageSize * c` |
| Paging.SamePageSize | service/interpreter/continueAsNewer.go:72-151 | for every configured int32, also zero and negative ones, loader and handler work with one page size: the configured one if it is positive, else 1 MiB |
| Paging.WrongPageExactly | service/interpreter/continueAsNewer.go:152-156 | a page is refused with the "wrong pageNum" error if and only if its number is not below the page count |
| Paging.PageExact | service/interpreter/continueAsNewer.go:148-165 | for a page below the page count, `0 <= start < end <= len`; it is served if and only if `pageSize * (n + 1)` fits in int32, then with exactly these bytes; otherwise the slice panics |
| Paging.SmallIsTransferable | service/interpreter/continueAsNewer.go:152-161 | length plus page size within int32 is enough for every page to be served |
| Paging.PagesPartition | service/interpreter/continueAsNewer.go:148-165 | all pages are served, none is empty, all but the last are full, and in order they are the whole data |
| Paging.LongDataNeverCompletes | service/interpreter/continueAsNewer.go:152-165 | a sequential reader of data longer than int32 meets a page that is not served before any page that is announced as the last |
| Paging.SecondPagePanics | service/interpreter/continueAsNewer.go:157-165 | a data length and a page size, both int32, for which page 0 of 2 is served and page 1 panics |
| SnapshotTransfer.AcceptKeepsPartial | service/interpreter/continueAsNewer.go:98-105 | accepting a page keeps the buffer a true beginning of the snapshot, and completes it exactly when the loop ends |
| SnapshotTransfer.LoadIsOneSnapshot | service/interpreter/continueAsNewer.go:79-106 | whatever the server holds at each request, and whichever requests fail, received data is the whole of one snapshot held at one of the requests; also when the snapshot changes and changes back, and for any length |
| SnapshotTransfer.TransferIsOneSnapshot | service/interpreter/continueAsNewer.go:76-114 | the same for the decoded result of a load from the start: never a mix of two snapshots |
| SnapshotTransfer.LoadWithinBudget | service/interpreter/continueAsNewer.go:79-106 | from any point of a load, the number of requests still to come is bounded by the changes to come, the pages needed and what is already accepted |
| SnapshotTransfer.TransferStops | service/interpreter/continueAsNewer.go:79-106 | at most `k` changes and `N` pages: the load has stopped after `(k + 1) * N` requests |
| SnapshotTransfer.StableTransfer | service/interpreter/continueAsNewer.go:79-106 | without changes and failures the load succeeds if and only if every page can be served and there is time for all; then after exactly `TotalPages` requests, so without reset and without rejected page |
| SnapshotTransfer.LoadInternalsFromPreviousRun | service/interpreter/continueAsNewer.go:72-114 | the loop with its page number, last checksum and buffer computes exactly the transfer that the lemmas are about, for every environment |
| TransferErrors.TransferErrsExactly | service/interpreter/continueAsNewer.go:79-156 | when every request is answered with a transferable snapshot and a failed request ends the load, it errors if and only if at some request the loader's page number is at or above the page count of the snapshot held then |
| TransferErrors.GrowingTransferSucceeds | service/interpreter/continueAsNewer.go:79-106 | while the page count never drops, the load returns data after at most `(k + 1) * N` requests, whatever changes |
| TransferErrors.ShrinkingSnapshotFails | service/interpreter/continueAsNewer.go:79-156 | two transferable snapshots, the second shorter, for which the second request fails, and with it the load if a failed request ends it |
| TransferErrors.RetryingAgrees | service/interpreter/continueAsNewer.go:79-106 | a load in which no request fails is the same with unlimited attempts |
| TransferErrors.RetryingIsOneSnapshot | service/interpreter/continueAsNewer.go:79-106 | with unlimited attempts, as by default, and any failures, received data is still the whole of one snapshot held at one of the attempts |
| TransferErrors.StaysAtItsRequest | service/interpreter/continueAsNewer.go:79-90 | with unlimited attempts the load stays at a request exactly as long as its page is not served - error or panic - and goes on from there |
| TransferErrors.ShrunkenSnapshotHangs | service/interpreter/continueAsNewer.go:79-156 | after a snapshot has shrunk for good, a load with unlimited attempts is still loading after any number of attempts |
| Commands.ListCommandIds | service/interpreter/activityImpl.go:420-432 | the ids of timers, signals and channel commands, in this order, with the empty id for nil |
| Commands.AreAllCombinationIdsValid | service/interpreter/activityImpl.go:408-418 | true if and only if every id of every combination is an id of a command |
| Commands.HasEmptyId | service/interpreter/activityImpl.go:383-397 | true if and only if some command has no id |
| Commands.CheckCommandRequest | service/interpreter/activityImpl.go:367-406 | exactly which requests are accepted, which are rejected for which reason, and which make the validator panic |
| Commands.AcceptableExactly | service/interpreter/activityImpl.go:367-432 | acceptance in terms of the fields of the request: no commands, ALL, ANY, or combinations of which every id is that of a command, all with ids that are not empty; the newer trigger field overrides the older one |
| Utils.DeterministicKeys | service/interpreter/utils.go:25-34 | for keys of any ordered type: exactly the keys, strictly increasing |
| Utils.OneEnumeration | service/interpreter/utils.go:25-34 | that determines the result: one set of keys has one enumeration |
| DeciderTrigger.AppendIds | service/interpreter/deciderTriggerer.go:28-31 | panics if and only if an index is out of range or an id is nil; otherwise appends the ids of exactly the completed commands, each once |
| DeciderTrigger.CountIds | service/interpreter/deciderTriggerer.go:42-45 | the map holds the multiplicity of every id of the combination and nothing else |
| DeciderTrigger.DecrementCounts | service/interpreter/deciderTriggerer.go:47-54 | decrement-and-delete keeps the map equal to the combination minus the ids visited so far, as multisets |
| DeciderTrigger.IsCovered | service/interpreter/deciderTriggerer.go:42-57 | the decrement-and-delete loop answers true if and only if the combination is a sub-multiset of the completed ids, so in any order of visiting |
| DeciderTrigger.IsAnyCombinationCovered | service/interpreter/deciderTriggerer.go:41-59 | true if and only if some combination is covered |
| DeciderTrigger.IsDeciderTriggerConditionMet | service/interpreter/deciderTriggerer.go:10-65 | the verdict, and the panic, are the function of the sets of completed indexes that the lemmas of `TriggerProperties` are about |
| TriggerProperties.AcceptedNeverPanics | service/interpreter/deciderTriggerer.go:26-61 | an accepted request never makes the trigger panic or read a nil id, for any completed commands in range |
| TriggerProperties.NoCommandsIsMet | service/interpreter/deciderTriggerer.go:16 | a request with three empty lists is met |
| TriggerProperties.AllMeansEvery | service/interpreter/deciderTriggerer.go:16-21 | a request for ALL, in the newer field or without it in the older one, is met if and only if every index of all three lists is completed |
| TriggerProperties.AnyMeansSome | service/interpreter/deciderTriggerer.go:22-25 | a request for ANY is met if and only if some index is completed |
| TriggerProperties.CombinationMeansEnough | service/interpreter/deciderTriggerer.go:26-61 | a combination request is met if and only if some combination has, for each of its ids, at least as many completed commands with that id as it names it |
| TriggerProperties.PanicsExactly | service/interpreter/deciderTriggerer.go:16-61 | the trigger panics if and only if there are commands and the trigger is unknown, or a combination request has a completed index out of range or without an id |
| TriggerProperties.EqualCountsMeansAll | service/interpreter/deciderTriggerer.go:18-21 | in range, as many completed indexes as commands means every index |
| TriggerProperties.TriggerMonotone | service/interpreter/deciderTriggerer.go:16-64 | more completions in range never turn a met condition into an unmet one, for all three trigger types |
| TriggerProperties.MetWhenAllCompleted | service/interpreter/deciderTriggerer.go:16-64 | with every command completed an accepted request is met; a combination request if and only if some combination is coverable by the commands |
| TriggerProperties.CanEverBeMet | service/interpreter/deciderTriggerer.go:16-64 | the same condition decides whether any reachable completions meet the request |
| TriggerProperties.NoRepeatIsSatisfiable | service/interpreter/activityImpl.go:398-417 | a validated combination that repeats no id is coverable |
| TriggerProperties.RepeatedIdIsStuck | service/interpreter/activityImpl.go:398-417 | a request that the validator accepts and that no completions ever meet: the no-repeat hypothesis is needed |
| InternalChannels.PublishedToQueues | service/interpreter/InternalChannel.go:44-54 | a list of publishings extends every queue by exactly its own messages in order, and creates no empty queue |
| InternalChannels.SentConcat | service/interpreter/InternalChannel.go:44-54 | what a list of publishings sends to a channel: publishings that come later send their messages later |
| InternalChannels.InternalChannel.HasData | service/interpreter/InternalChannel.go:39-42 | true if and only if the abstract queue has a message; with no empty queues, if and only if the key is in the map |
| InternalChannels.InternalChannel.GetInfos | service/interpreter/InternalChannel.go:29-37 | the size of every queue as int32, and keys for exactly the channels with data |
| InternalChannels.InternalChannel.ProcessPublishing | service/interpreter/InternalChannel.go:44-54 | every queue grows by the messages sent to it, in order; no empty queues arise |
| InternalChannels.InternalChannel.Retrieve | service/interpreter/InternalChannel.go:56-70 | panics if and only if `HasData` is false; otherwise takes the head of this queue, leaves all others, and deletes a queue that becomes empty |
| SignalReceivers.SignalReceiver.ReceiveSignal | service/interpreter/signalReceiver.go:227-238 | the signals pending for a name are appended to its queue, in order, and no other queue changes |
| SignalReceivers.SignalReceiver.Retrieve | service/interpreter/signalReceiver.go:245-259 | panics if and only if `HasSignal` is false; otherwise takes the head of this queue and leaves all others |
| CarriedState.OverlayExact | service/interpreter/continueAsNewer.go:118-124 | the resume map has exactly the registered and the queued ids; for an id that is queued it holds the request after which none with this id follows, for any other the registered one |
| CarriedState.RebuiltQueue | service/interpreter/stateRequestQueue.go:16-63 | a queue rebuilt from a dump, in any order of the map, dumps to the same start requests and the same resume map |
| ContinueAsNew.OutputCollector.Add | service/interpreter/outputCollector.go:18-22 | appends the output unless it is nil |
| ContinueAsNew.NonNilConcat | service/interpreter/outputCollector.go:18-22 | the outputs that are kept stay in order |
| ContinueAsNew.StateRequestQueue.WithResumeRequests | service/interpreter/stateRequestQueue.go:16-29 | the start requests in order, then one resume request for each entry; both are recovered by the two getters |
| ContinueAsNew.StateRequestQueue.GetAllStateStartRequests | service/interpreter/stateRequestQueue.go:43-52 | exactly the queued start requests in order |
| ContinueAsNew.StateRequestQueue.GetAllStateResumeRequests | service/interpreter/stateRequestQueue.go:54-63 | exactly the queued resume requests in order |
| ContinueAsNew.ContinueAsNewer.GetSnapshot | service/interpreter/continueAsNewer.go:117-136 | every part of the dump: channels, signals, start requests, outputs and what other objects keep, as they are; registered executions with their progress as it is now, queued resume requests winning |
| ContinueAsNew.ContinueAsNewer.AddPotentialStateExecutionToResume | service/interpreter/continueAsNewer.go:170-187 | registers state, locals and request, and the maps of completed commands by reference; what is registered changes for this id only |
| ContinueAsNew.ContinueAsNewer.RemoveStateExecutionToResume | service/interpreter/continueAsNewer.go:192-194 | exactly this id is no longer registered |
| ContinueAsNew.CompleteChannelCommand | service/interpreter/workflowImpl.go:776-799 | a message that a command thread takes after the registration is in the next snapshot as this command's result, and no longer in its queue |
| ResumedRuns.LoadedIsSnapshot | service/interpreter/workflowImpl.go:108-115 | with any failures of requests, what a hop loads is the dump of the closed run |
| ResumedRuns.LoadPreviousRun | service/interpreter/workflowImpl.go:108-115 | the same for the methods; if no request fails, the load succeeds exactly for transferable dumps |
| ResumedRuns.Rebuild | service/interpreter/workflowImpl.go:119-134 | new objects with nothing registered whose dump is the dump they were rebuilt from |
| ResumedRuns.ResumeFromPreviousRun | service/interpreter/workflowImpl.go:108-134 | the next run's dump equals the closed run's dump in every part, through snapshot, pages, load and rebuild; and exactly when the hop succeeds |
| Runs.HopCarriesSnapshot | service/interpreter/workflowImpl.go:108-134 | a hop that succeeds starts the next run from the snapshot of the drained run, however the transfer went; its parts by name are in `Histories.HopKeepsParts` |
| Runs.StepConserves | service/interpreter/InternalChannel.go:44-70 | no step of any kind loses, duplicates or reorders a message of an internal channel or a signal |
| Runs.MessagesConserved | service/interpreter/InternalChannel.go:19-70 | over every run with any number of hops: what was taken from a channel, or from the signals of a name, followed by what is queued grows by exactly what was sent, in order |
| Runs.EmptyQueuesNeverArise | service/interpreter/InternalChannel.go:19-70 | over every run with any number of hops no key maps to an empty queue |
| Runs.OneQueueThatNeverMoved | service/interpreter/InternalChannel.go:19-70 | from the start of a workflow: retrieved followed by queued is what was sent, in order, and no empty queues |
| Runs.OutputsCollected | service/interpreter/outputCollector.go:9-26 | over every run with any number of hops the outputs are the non-nil outputs added, in order |
| Runs.StepCountsUpdates | service/interpreter/workflowUpdater.go:57-134 | the in-flight counter is the number of RPC updates that have begun and not finished, and no hop happens while there is one |
| Runs.UpdateStaysInItsRun | service/interpreter/continueAsNewer.go:196-233 | over every run: an update that publishes and requests states does so in the run in which it began; no hop comes in between |
| Lifecycle.RunInv | service/interpreter/workflowImpl.go:232-315 | in every reachable state the progress of every registered or queued execution is the fold of its deliveries (what that means is `Deliveries.ResultsAreTheDeliveries`), its request was validated, queued resumes have distinct ids, and every id was created by this workflow |
| Lifecycle.TriggerNeverPanics | service/interpreter/workflowImpl.go:802-829 | in every reachable state the decider trigger of every waiting execution gives a verdict without panic |
| Lifecycle.WaitingThreadCanEnd | service/interpreter/workflowImpl.go:829-834 | a waiting thread can either finish or be suspended for a hop, never both and never neither |
| Lifecycle.MetStaysMet | service/interpreter/workflowImpl.go:701-834 | a delivery while the threads drain never turns a wait that is over into one that is not |
| Lifecycle.StartThreadsAt | service/interpreter/workflowImpl.go:246-255 | taking the queue starts one thread for each resumed id and one for each new id, and no others |
| Lifecycle.SnapshotInfos | service/interpreter/continueAsNewer.go:117-124 | the resume map of a reachable state holds exactly the registered and the queued executions, with everything delivered to them |
| Lifecycle.StepExact | service/interpreter/workflowImpl.go:305-313 | the one step that lets a finished execution stay live is a registered execution that fails and proceeds, and it always does |
| Lifecycle.ExactlyOnceUnlessLeak | service/interpreter/workflowImpl.go:1021-1041 | over every run with any number of hops: every state execution is finished once or live, never both, in every state, if and only if no registered execution failed and proceeded |
| Lifecycle.ExactlyOnceFromTheStart | service/interpreter/workflowImpl.go:1021-1041 | the same for every run from the start of a workflow |
| Lifecycle.HopResumesTheUnfinished | service/interpreter/workflowImpl.go:108-134 | after a hop the queue resumes exactly the unfinished executions, each once, with all their results, and requests the same new states |
| Lifecycle.LeakIsReachable | service/interpreter/workflowImpl.go:1021-1024 | a four-step run in which a finished execution is still registered |
| Lifecycle.LeakedStaysOverRuns | service/interpreter/workflowImpl.go:1021-1038 | nothing before the next hop removes the registration of a leaked execution or changes its results |
| Lifecycle.LeakedExecutionRunsAgain | service/interpreter/workflowImpl.go:1021-1038 | every leaked execution, whatever happens until the next hop, is resumed after it with its wait over, and its execute API can succeed: it has then finished twice |
| Histories.HopKeepsParts | service/interpreter/workflowImpl.go:108-134 | a hop happens without threads and updates; channels, signals, counts, data and search attributes and the other carried parts, outputs and start requests of the next run are, part by part, those of the closed run, and nothing is registered or running |
| Histories.HopKeepsExecutions | service/interpreter/workflowImpl.go:108-134 | the next run's resume requests are exactly the infos registered or queued before, with state, locals, request and results, each once |
| Histories.LastGivenIsCarried | service/interpreter/workflowImpl.go:121-132 | over every run with any number of hops, the parts that other objects keep are those given last |
| Histories.RequestsConserved | service/interpreter/stateRequestQueue.go:34-79 | over every run with any number of hops: the states started, in order, followed by the states still requested, grow by what workers, RPCs and failed states request, input included |
| Histories.ExecutionsComeFromEvents | service/interpreter/stateExecutionCounter.go:71-75 | over every run: the n-th execution of a state has number n and an id of its own; what is registered or queued for an id is the state started with it, and the locals and request of the first wait registered for it |
| Deliveries.ReceiveExactly | service/interpreter/workflowImpl.go:719-789 | when a channel or signal command gets a message - its own command, without a result - and what happens: the head leaves its queue and is the result of this command of this execution; nothing else changes |
| Deliveries.FinishTimerExactly | service/interpreter/workflowImpl.go:690-716 | the same for the status of a timer command |
| Deliveries.ResultsAreTheDeliveries | service/interpreter/workflowImpl.go:690-800 | over every run with any number of hops: no command gets two results, and the results registered or queued for an execution are exactly the messages and statuses delivered to it |
| Deliveries.AllWaitEndsExactly | service/interpreter/workflowImpl.go:802-834 | in every reachable state, an execution that waits for ALL can complete if and only if each of its commands has had a delivery |
| Deliveries.AnyWaitEndsExactly | service/interpreter/workflowImpl.go:802-834 | one that waits for ANY, if and only if there was a delivery to it |
| Draining.EndThread | service/interpreter/workflowImpl.go:584-834 | every thread of a reachable state, fresh, resumed or waiting, can be brought to its end without touching messages or other threads |
| Draining.HopIsReachable | service/interpreter/continueAsNewer.go:196-233 | from every reachable state, with any number of threads and updates, some events without further message, delivery or request drain the run; and if its dump can be served page by page, a hop succeeds then |
| WorkflowRuns.WorkflowRun.RegisterExecution | service/interpreter/workflowImpl.go:793-799 | registering is the step of the model, on objects: a new execution with its state, locals and request and without results, a resumed one as it was; its maps are shared with no other execution |
| WorkflowRuns.WorkflowRun.StartAllThreads | service/interpreter/workflowImpl.go:220-255 | taking the queue and numbering the new executions is the step of the model |
| WorkflowRuns.WorkflowRun.RunChannelCommand | service/interpreter/workflowImpl.go:766-789 | a command thread of an internal channel takes exactly the step of the model: the head of the queue is in the registered map of channel results, at this index, and the tail is left |
| WorkflowRuns.WorkflowRun.RunSignalCommand | service/interpreter/workflowImpl.go:730-751 | the same for a signal, in the map of signal results |
| WorkflowRuns.WorkflowRun.RunTimerCommand | service/interpreter/workflowImpl.go:701-715 | the same for a timer: its status, fired or skipped, is in the map of timer results |
| WorkflowRuns.WorkflowRun.CheckTrigger | service/interpreter/workflowImpl.go:802-804 | the decider trigger on the registered maps is the trigger of the model |
| WorkflowRuns.WorkflowRun.CompleteExecution | service/interpreter/workflowImpl.go:1038-1041 | success removes the registration, and is the step of the model |
| WorkflowRuns.WorkflowRun.ProceedAfterFailure | service/interpreter/workflowImpl.go:305-313 | failure with a configured state queues this state, keeps the registration, and is the step of the model |
| WorkflowRuns.WorkflowRun.EndUpdate | service/interpreter/workflowUpdater.go:115-133 | the handler publishes, requests states and counts down: the step of the model |
| WorkflowRuns.WorkflowRun.ContinueAsNewRun | service/interpreter/workflowImpl.go:108-134 | drained objects, snapshot, pages, load and rebuilt objects are the hop of the model; it succeeds if and only if the run is drained and the transfer completes, and then every field of the new objects is that of the old ones |
| BlobStores.BlobStore.WriteObject | service/common/blobstore/store_impl.go:81-96 | either an error that stores nothing, or a location in the active storage, under today's date and this workflow id, that never held anything; nothing else changes |
| BlobStores.BlobStore.ReadObject | service/common/blobstore/store_impl.go:98-110 | succeeds if and only if no fault and the object is there, with the data stored there |
| ExternalStorage.ProcessKeepsMeaning | service/interpreter/activityImpl.go:488-516 | the rewritten object resolves to the original data and encoding, with at most one new blob: none if the current input is reused; a failed write changes nothing stored |
| ExternalStorage.ProcessExactly | service/api/service.go:911-931 | one object, case by case: data up to the threshold stays; larger data takes the reference of a current input with the same data, or else is written to a new location of this workflow; it fails if and only if that write fails |
| ExternalStorage.WriteAllSucceedsExactly | service/api/service.go:911-931 | a list is written if and only if the store fails for none of the objects that are too large and not reusable; each takes one request |
| ExternalStorage.WorkingStoreTakesAll | service/api/service.go:911-931 | when the store works, every list is written |
| ExternalStorage.WriteAllMeaning | service/api/service.go:911-931 | entries before the first failure stand for the originals, entries from it on are untouched, nothing stored changes, and success costs one blob for each large entry that is not reused; when it succeeds is `WriteAllSucceedsExactly` |
| ExternalStorage.LoadAllMeaning | service/api/service.go:934-950 | a load that succeeds replaces each entry by what it resolves to; it succeeds if no request fails and no reference dangles |
| ExternalStorage.LoadAllSucceedsExactly | service/api/service.go:934-950 | a list is loaded if and only if every reference leads to an object and the store fails for none of them |
| ExternalStorage.LoadAllExactly | service/api/service.go:934-950 | then entries without a reference are as they were, and the others have the data stored there, with the references kept by the API and dropped by the interpreter |
| ExternalStorage.WriteThenLoadRestores | service/api/service.go:911-950 | writing, then loading from the grown store, restores every entry in place with encoding and data |
| ExternalStorage.WriteThenLoadIsIdentity | service/api/service.go:911-950 | for entries without references, that is exactly the data that was given |
| ExternalStorage.SecondWriteIsFree | service/api/service.go:911-931 | after a successful write no inline data exceeds the threshold, and a second write stores and changes nothing |
| ExternalStorage.PartialWriteLosesNothing | service/api/service.go:911-931 | if a write fails on the way every entry still resolves to its original data |
| StateInputs.ProcessNextStateInput | service/interpreter/activityImpl.go:488-516 | the writes through the pointer are exactly the processing of the value; it fails if and only if the input is too large, not reusable, and the store fails, and then the object is as before |
| StateInputs.WriteNextStateInputs | service/interpreter/activityImpl.go:479-486 | the same for the list of next states, in order, up to the first error; it succeeds if and only if the store does not fail for any large input that is not reused |
| StateInputs.LoadStateInput | service/interpreter/activityImpl.go:185-192 | the input is replaced by inline data, and the copy kept for reuse has its references |
| StateInputs.LoadInputMeaning | service/interpreter/activityImpl.go:521-559 | the loaded input is what the reference resolves to, and the copy says truthfully what is stored where |
| StateInputs.LoadInputExactly | service/interpreter/activityImpl.go:521-559 | an input without a complete reference is left alone; any other loads if and only if the store does not fail and has the object, and then what worker and copy get |
| StateInputs.ExecuteSucceedsExactly | service/interpreter/activityImpl.go:185-272 | a transition succeeds if and only if its input does not dangle and the store fails neither for it nor for a large next input that is not the current one again |
| StateInputs.WorkingStoreRunsTheChain | service/interpreter/activityImpl.go:185-272 | while the store works and no reference that is passed on leads nowhere, every worker of a chain of any length gets its input |
| StateInputs.EveryStateSeesWhatWasReturned | service/interpreter/activityImpl.go:185-272 | over chains of transitions of any length, with any workers and any store failures, every worker gets the encoding that the worker before returned for it, and its data: large data through the store, small data as it is unless a reference stands beside it |
| StateInputs.SameDataExactly | service/interpreter/activityImpl.go:492-494 | the next worker gets exactly the returned data if and only if it was over the threshold, had no reference, or its reference leads to the same data |
| StateInputs.StaleReferenceWins | service/interpreter/activityImpl.go:185-494 | a worker that returns "y" beside a reference to "x", and the next worker gets "x" |
| StateInputs.UnchangedInputStoredOnce | service/interpreter/activityImpl.go:488-559 | a large stored input that is passed on unchanged is never stored again, however long the chain |
| StateInputs.TransitionCost | service/interpreter/activityImpl.go:479-516 | a transition stores one blob for each next input that is over the threshold and not the loaded current input again |
| DataAttributes.WriteDataObjectsToExternalStorage | service/api/service.go:911-931 | the slice and the store after the loop, also when a write fails or storage is disabled; it succeeds if and only if the store fails for none of the large attributes; keys never change |
| DataAttributes.LoadDataObjectsFromExternalStorage | service/api/service.go:934-950 | the slice and the store after the loop, also when a read fails; references stay beside the data, and keys never change |
| Memos.BuildMemo | service/api/service.go:81-142 | the memo built step by step is the start memo that the lemmas are about |
| Memos.FillMemoAt | service/api/service.go:134-136 | a key is in the filled memo if and only if it was there or is given; the attribute given last for it wins |
| Memos.StartMemoExactly | service/api/service.go:81-142 | the memo key by key: the request id, then the attribute given last for a key, the marker of memo use and the worker URL, in this order of precedence, and nothing else |
| Memos.HasKeyExactly | service/api/service.go:134-136 | an attribute without a key counts as one with the empty key |
| Memos.StartMemoRequestId | service/api/service.go:124-142 | the request id is in the memo whatever the data attributes are called, and so is the marker of memo use |
| Memos.SelectFromMemo | service/api/service.go:404-428 | exactly the requested entries without system prefix, all if no key is requested, each once |
| Memos.SelectionExactly | service/api/service.go:404-428 | which entries these are: all without system prefix if no key is requested, otherwise those of the requested keys, with their values |
| Memos.GetDataAttributes | service/api/service.go:396-474 | when memo, query or neither decides, and what is loaded and returned in each case, errors included |
| Memos.MemoRoundTrip | service/api/service.go:119-473 | data attributes given at start come back from the get API as exactly the requested subset, with the original data and encoding, whether or not they went through the store; no system entry comes back, and for repeated keys the last one counts |
| Memos.MemoRoundTripIsIdentity | service/api/service.go:119-473 | for attributes without references, what comes back is exactly what was given |
| StartProtocol.StartKeepsBackend | service/client/temporal/client.go:148-212 | a new run gets a new id and the call's memo, and replaces an open run only if the policy terminates it; "already started" names a run of this workflow id; an empty run id comes from a schedule or an unknown policy only; no run is changed |
| StartProtocol.RunKeepsInv | service/api/service.go:186-217 | over every interleaving of starts, describes, closings and continued runs, every success names a run of its workflow id whose memo holds the call's request id |
| StartProtocol.RequestIdsNeverShareARun | service/api/service.go:186-217 | calls with different request ids never both succeed with the same run |
| StartProtocol.SuccessNamesARun | service/client/temporal/client.go:165-201 | over every interleaving a success names a run if and only if the call is no cron on Temporal and its policy is supported |
| StartProtocol.RetryMeetsTheOpenRun | service/api/service.go:188-217 | a retry that meets an open run gets it, panics or fails exactly as the run's memo holds the same, no or another request id, whatever others do between the two backend calls |
| StartProtocol.RetryGetsTheOpenRun | service/api/service.go:80-217 | every call while a run is open, with any policy and options and whatever others do meanwhile: it gets that run if and only if it meets it - supported policy that does not terminate, no schedule, no memo on Cadence -, ignores "already started" errors, and has no request id or the one in the run's memo |
| StartProtocol.NewRunExactly | service/client/temporal/client.go:148-212 | a call gets a new run if and only if its policy is known and supported, it creates no schedule and asks Cadence for no memo, and no run is open or its policy terminates it; the new run is the open one, with the call's memo |
| StartProtocol.SecondCron | service/client/temporal/client.go:171-201 | of two cron calls on Temporal for a workflow id the second fails, whatever happens in between, unless it ignores "already started" errors; it succeeds without a run if it ignores them and has no request id |
| StartProtocol.StartIsIdempotent | service/api/service.go:186-217 | what the request id is for: from the start of a run until it is closed or terminated, over any number of runs that it continues as and any interleaving, every call that meets the open run, ignores "already started" errors and has its request id succeeds with the open run and starts nothing |
| StartProtocol.TerminatingRetryReplacesTheRun | service/common/compatibility/workflowStartOptions.go:7-25 | under a terminating policy a retry ends the open run, also one with its own request id, and gets a new one |
| StartRequests.PolicyOfFields | service/common/compatibility/workflowStartOptions.go:7-25 | which value of which of the two policy fields leads to which policy, the newer one overriding; in particular when a run is terminated, and when the conversion panics |
| StartProtocol.RetryOfPlainStartPanics | service/api/service.go:195-204 | a run of two starts, the first without a request id, in which the second panics |
| StartApi.ExternalizeStartInput | service/api/service.go:168-184 | for every threshold: a large input becomes a reference to its data, any other input stays; exactly when it fails or panics, and what it has stored by then |
| StartApi.PrepareStart | service/api/service.go:80-184 | exactly when the start gets as far as the backend - policy, search attributes, store, workflow id, encoding -, with which data attributes and input, and when it panics instead of failing |
| StartApi.PreparedExactly | service/api/service.go:80-184 | that condition in terms of the request and the faults of the store: a working store, a known policy, mapped search attributes, a workflow id without reserved characters and an encoding for a large input are enough |
| StartApi.AskBackend | service/api/service.go:186-217 | answer and backend after the start and describe calls, with the memo built step by step; what the answer is: `RunlessExactly`, `RunMetExactly` and `AfterDescribeExactly` |
| StartApi.RunlessExactly | service/client/temporal/client.go:148-201 | the calls for which no run is created or met - backend error, memo on Cadence, unsupported policy, cron on Temporal -, with answer and backend, from the fields of the call |
| StartApi.RunMetExactly | service/api/service.go:186-217 | every other call: it meets the open run unless it terminates it, or a closed run that its policy rejects, and then fails, gets this run, or asks for its memo; or it gets a new run |
| StartApi.AfterDescribeExactly | service/api/service.go:195-217 | after the describe call the request id in the memo decides: missing - panic, another one - failure, the same one - success |
| StartApi.ApiV1WorkflowStartPost | service/api/service.go:56-218 | the answer, the backend and the store after the call; without a call to the backend, whether it failed or panicked; a success names a run of this workflow id, holding the request id if there is one, and input and data attributes stand for what was given |
| BlobCleanup.CleanupPage | service/interpreter/activityImpl.go:580-613 | deletes exactly the paths of workflows that are gone, up to the first old path or the first abort; succeeds if and only if there is no abort before the first old path; and the store after that, also when a deletion fails half-way |
| BlobCleanup.CleanupBlobStore | service/interpreter/activityImpl.go:561-621 | only paths of workflows that the backend does not know are touched; success if and only if every page was listed and clean, and then exactly the deletes of all pages happened; and the store after that |
| BlobCleanup.PathExactly | service/common/blobstore/interfaces.go:37-56 | for the path of a date and a workflow id: it is dated as the calendar says, old if that is before the cut-off, and gone if the backend does not know this workflow id |
| BlobCleanup.NotAPathExactly | service/common/blobstore/interfaces.go:37-56 | a path is skipped if and only if it is the path of no date and workflow id |
| BlobCleanup.WrittenIsWellNamed | service/common/blobstore/store_impl.go:81-96 | what is written for a workflow id that the start API accepts is listed under its date and this workflow id |
| BlobCleanup.UnderIsItsPath | service/common/blobstore/store_impl.go:165-198 | the key prefix of a listed path covers exactly the objects of this path: that of no other workflow id it is a prefix of |
| BlobCleanup.KnownWorkflowsKeepTheirObjects | service/interpreter/activityImpl.go:591-609 | every object survives of which the backend knows the workflow when its path is looked at |
| BlobCleanup.KnownWorkflowsResolve | service/interpreter/activityImpl.go:591-609 | so everything such a workflow has moved to the store still resolves to what it did |
| BlobCleanup.CleanupKeepsKnownWorkflows | service/interpreter/activityImpl.go:561-621 | the same for the activity, however it ends |
| BlobCleanup.SlashInWorkflowIdLosesObjects | service/common/blobstore/interfaces.go:10-19 | why workflow ids are restricted: objects of an id with a slash are deleted when the backend does not know the part before it |
| BlobCleanup.PageDeletesOnlyGone | service/interpreter/activityImpl.go:586-600 | no deleted path is older than the cut-off, none belongs to an existing workflow |
| BlobCleanup.OldPathBlocksItsPage | service/interpreter/activityImpl.go:586-589 | on a page in the order of the dates an old path means that nothing is deleted |
| BlobCleanup.NoOldPathDeletesAllGone | service/interpreter/activityImpl.go:580-613 | without old paths exactly the paths of workflows that are gone are deleted |
| BlobCleanup.DeletesAllGoneExactly | service/interpreter/activityImpl.go:580-613 | on a page in the order of the dates, all paths of workflows that are gone are deleted if and only if no path is old or there is none to delete |

## Left out

- Transport of pages: identity on bytes, see above; what happens to a character cut in two, or to the raw bytes of the checksum, on their way through JSON is not modelled.
- JSON syntax and MD5: an abstract round trip, and a checksum without collisions within one transfer.
- Retries of the dump activity: in `SnapshotTransfer` all attempts of one request are one outcome; single attempts, without limit, are in `TransferErrors`.
- Execution ids: a pair of state id and number instead of the string "stateId-number".
- Resume requests: the order of the rebuilt queue is left open, so every statement holds for any order of the string keys.
- Other parts of the dump: data attributes, search attributes, counts of currently executing states and stale timer skips are carried and compared, but what changes them within a run is one arbitrary event.
- Aliasing between runs: the dump is a value, as it is after serialization; within a run the maps of completed commands are shared objects.
- System signals, draining of signals that were not received before a hop, the firing time of timers, and the legacy version of the wait for command threads.
- Runs: failures that fail the whole workflow, the thresholds that trigger continue-as-new, and the log lines of draining by wall clock.
- Aliased next inputs: `StateInputs.WriteNextStateInputs` requires distinct pointers, which decoded responses have.
- Disabled external storage for state inputs: the code then skips the call; chains are about the enabled case.
- StartApi.PrepareStart: mapping of search attributes is one outcome, and the workflow configuration with its overriding is not modelled.
- StartApi.ApiV1WorkflowStartPost: workflow configuration, start delay and logging are not modelled. The policy is part of the call; which closed run a policy rejects is a choice of the environment. What a schedule starts later is an event of its own.
- Memo encryption and the data converter.
- `overrideWorkflowConfig`, `needLocking`, `GlobalVersioner`: field-by-field copies and single comparisons.
- The write and load helpers of the interpreter for data attributes (service/common/blobstore/helpers.go): the same loops as in service/api/service.go.
- The listing of S3 and the batches of a deletion: a list of pages, and for each deletion success or the objects lost before it failed. Objects written while the clean-up runs are not modelled.
- Other APIs of the service, HTTP, metrics and event emission.
