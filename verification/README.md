# A model of the file-processing platform

The platform lets users and guests upload files straight to object storage, turns them
into jobs on a queue, works the jobs off with retries, announces progress over Redis
Pub/Sub and WebSockets, and cleans up after abandoned uploads and guests. Its correctness
rests on a few conditional updates, on foreign keys and on fresh ids, while everything
else interleaves at every `await`. This project models that protocol and what surrounds
it, and proves what it keeps.

## What is modelled

**The platform as one step machine** (`Machine`, over `Store`, `Calls`, `Attempt`,
`Sweeps`). A `World` holds the `users`, `files` and `jobs` tables, the bucket, the log of
published messages, signed upload forms, API calls in flight, queued payloads with their
running attempts, `failed` handlers at work and cleanup sweeps. A step is one await of one
of them. Every awaited call may succeed, fail without effect, or take effect although the
caller sees an error; calls, attempts and sweeps go on with what they read earlier, stale
or not. A `Run` is any sequence of steps that are possible from the empty state.

* `TableInvariant`, `ProcessInvariant`, `ControlSteps`: each write as an `Effect`, what its
  writer must know, and that every step of every process keeps the tables in order.
* `StorageAgreement`, `Retry`, `Outputs`, `OutputAgreement`, `AttemptInputs`, `RowProgress`,
  `FailureTexts`: seven further invariants over the same steps.
* `Guarantees`, `Drain`, `Finality`, `JobEnding`, `ObjectKeeping`, `Overwriting`,
  `FailureCount`: what follows for all reachable states and all runs.
* `Races`, `Exceptions`, `SharedKeys`: runs that show that the exceptions do occur.

**The code that takes those steps**, statement by statement, as classes that write the
shared state in place: `Repositories` (both repositories, the bucket, Redis), `Services`,
`Processors`, `Cleanup`. Each method is proved equal to the machine's process run on its
own (`Solo`); what such an undisturbed run achieves is stated there and in `AttemptResult`.

**The event pipeline**: what an attempt publishes (`AttemptEvents`, `Announcements`),
printing and parsing of channel names (`Channels`), the WebSocket manager and its two maps
(`Registry`, `WsManager`), the route and subscription handlers that drive it (`Gateway`),
what each socket is sent over a whole log (`Delivery`), the browser's reducer
(`ClientView`), its hook with the effect that opens and closes the socket (`JobHook`), and
all of it together (`EndToEnd`).

**Beside them**: refresh-token sessions (`Session`), the browser client's shared token
refresh (`SilentRefresh`), paged listings (`Pagination`, `PageOrders`), the limit on API keys when calls
overlap (`ApiKeys`) and storage keys (`Keys`).

## Main results

* In every reachable state a confirmed upload has an object of exactly the reserved size,
  unless a sweep has removed it and is about to delete the row, or failed there. An upload
  is safe from that in every run exactly if no sweep already running has its removal ahead,
  and its owner is registered or a job on it is stuck active.
* In every reachable state the output of a completed compress or convert job has an object
  of exactly the recorded size, whatever retries, late handlers and sweeps did, unless the
  job is a guest's and a sweep has removed what was under that key; which can happen to an
  output that no sweep is to delete, as the outputs of two attempts share a key. With its
  input there, a registered user's output keeps its object in every run exactly if no
  attempt can still store another size: not the one at work, nor one after it.
* Each job belongs to the owner of its file, and its output is that owner's; job rows are
  consistent; files only move forward; a registered user's file never disappears; however
  many confirmations race, at most one takes effect.
* The worker drains any queue in a bounded number of steps and stops only when all is
  settled. Once a payload is finished and its failures are written, the status of its job
  is final, and decided by the last attempt if those writes were prompt. A completed job
  stays completed exactly if all its attempts have concluded and no failure is still to be
  written, and an active job is stuck exactly then; a cancelled one stays failed exactly if
  no attempt is to come.
* While an attempt is at work its job's row shows how far it is: 0, 33 and 66 percent, or
  20 a stage, and 100 once completed, whatever earlier attempts and their handlers do. The
  error text of a job, and each failure announced, is what one of its attempts threw.
* An undisturbed sweep goes for exactly the files it should, by age, owner and use, and
  leaves every other row, and every other object.
* Every socket is sent exactly the well-formed events for which it was open and
  subscribed, in order. Take any run in which an attempt gets from any of its awaits to its
  return. A browser's hook that has got to showing the job active, on a socket where what it
  said has arrived, ends up showing the completion exactly if no failure of an earlier
  attempt is announced before it; with one announced before, it shows that failure and
  stops listening for good. A hook that starts with the job pending opens a new socket at
  the first progress, where the same holds of it, so that it always ends up showing the
  completion if no failure was being handled while the attempt was at work. A live hook has
  always subscribed; a final status, once rendered, never changes.
* After any history of calls a login succeeds exactly with the password its user last set,
  and a refresh token is accepted exactly if it is unexpired and opened its user's current
  session.
* However the answers to the browser's requests interleave, those to each request decide
  what becomes of it: only a first 401 leads to a refresh and a second sending, and at most
  one refresh call is in flight.
* With `k` overlapping calls a user can get `4 + k` API keys and no more; pages that come
  from separate queries show each row once, however ties are ordered, exactly if no tie
  crosses a page boundary.

## Where code and documentation disagree

The model follows the code.

* `packages/types/src/websocket.ts:46` says that `job:failed` is sent once, after retries
  are exhausted. The worker sends it for every attempt that throws: `FailureCount` gives
  the exact count, `Exceptions` a job with two such messages that completes, and another
  whose last message is a failure behind its completion.
* `apps/web/src/hooks/useJobWebSocket.ts:14-18` takes a failure for the end of the job and
  closes the socket (lines 38-39, 99-109). With the message above, the panel misses the
  success of a retry: `EndToEnd` says exactly when, `Exceptions` has such a run. A panel
  that shows the job pending closes its socket too at the first progress, and opens another.
* `packages/types/src/domain.ts:72-75` has both an output path and an output file for every
  completed job. Each processor sets one of them; `Outputs` says which jobs have which.
* `packages/types/src/enums.ts:14-16` lets no failed job but a retried one become active
  again, and no completed one fail. A cancelled job that is still queued becomes active; a
  completed one fails when the last publication of its attempt does, since the `failed`
  handler overwrites the status. `Exceptions` has a run of each, `Finality` the conditions.
* The same lines let an active job end. One whose last attempt threw stays active for ever
  if the handler could not write the failure; `JobEnding` has the condition, `Exceptions`
  a run.
* `apps/worker/src/cleanupGuestResources.ts:8-9` never interrupts work in flight. A pending
  job created after the sweep fetched its file is deleted with it (`Exceptions`).
* `apps/web/src/hooks/useJobWebSocket.ts:27-32` starts from the progress of the job row. A
  retry announces 0 again, which can take the shown progress back; `ClientView` gives the
  condition.

## Assumptions

* Random ids are fresh, 36 characters long and without a slash, so they differ from
  `processed`.
* A queued payload has one live attempt at a time.
* The calls joined by `Promise.all` have all ended, in any order, when the attempt ends.
* A signed upload form admits exactly the reserved size under exactly its key.
* The browser renders what a message changed, and runs the hook's effect, before it takes
  the next one; no handler is called on a socket after `close`.
* Token hashing is injective, and a password matches only its own hash.
* The clock, the results of image transformations and of path functions, the order of
  query results and the way each call ends are inputs (`Environment`).

## Model

| member | source | states |
|---|---|---|
| `Guarantees.ReadyUploadsHaveTheirObject` | apps/api/src/services/FileService.ts:87-119 | in every reachable state a ready upload has an object of exactly its recorded size, unless a sweep removed it and is about to delete the row, or failed to |
| `ObjectKeeping.ObjectIsKeptExactly` | packages/db/src/repositories/FileRepository.ts:98-124 | a ready upload keeps its object, while ready, in every run if and only if no running sweep has its removal ahead, and its owner is registered or a job on it is stuck active |
| `OutputAgreement.OutputsHaveTheirObject` | apps/worker/src/processors/CompressProcessor.ts:68-90 | after any run the output of a completed job exists and has its object, of exactly the recorded size, however often the job was attempted, unless it is a guest's and a sweep has removed what was under that key and left nothing there |
| `OutputAgreement.CompletedOutputsHaveTheirObject` | apps/worker/src/processors/CompressProcessor.ts:68-90 | so a registered user's completed compress or convert job names an existing output with an object of exactly the recorded size |
| `SharedKeys.OlderOutputTakesObjectAlong` | apps/worker/src/cleanupGuestResources.ts:22-31 | in a reachable state with all processes at rest a guest's completed job names a ready output that has no object: the sweep took it with the output of an earlier attempt, recorded under the same key |
| `OutputAgreement.OutputIsKept` | apps/worker/src/processors/ConvertProcessor.ts:78-92 | a registered user's stored output keeps row and object in every run if no attempt of its job is still to store another size under its key |
| `Overwriting.OutputIsKeptExactly` | apps/worker/src/processors/CompressProcessor.ts:36-90 | with the input there and a name that an attempt can give, a registered user's output keeps its object in every run if and only if no attempt can still store another size: not the one at work from where it is, nor one after it, which is to come when that one is not the last and can throw |
| `AttemptInputs.InputIsTheFile` | apps/worker/src/processors/CompressProcessor.ts:39-44 | what an attempt has read of its input stays the file's row but for status and time of update, in every reachable state |
| `Overwriting.OutputCanBeOverwritten` | apps/worker/src/processors/CompressProcessor.ts:68-85 | a reachable output of a registered user, recorded by an attempt that then failed, loses agreement in some run to the next attempt, after other bytes of the same size were uploaded for the input |
| `StorageAgreement.StepKeepsStorage` | apps/worker/src/cleanupPendingUploads.ts:18-31 | every step of every process keeps storage agreement, for ready files and for confirmations that have checked their object |
| `StorageAgreement.MarkingKeepsStorage` | packages/db/src/repositories/FileRepository.ts:89-96 | marking a file ready on the strength of an earlier check keeps agreement, whatever happened since the check |
| `StorageAgreement.RemovingKeepsStorage` | apps/worker/src/cleanupGuestResources.ts:22-29 | the removal of an object, if it takes effect, breaks agreement for the sweep's own target only |
| `StorageAgreement.DeletingKeepsStorage` | apps/worker/src/cleanupGuestResources.ts:31 | the deletion of the row ends that exception, unless it fails |
| `Races.ConfirmedFileCanLoseItsObject` | apps/worker/src/cleanupPendingUploads.ts:18-31 | a run in which a sweep overtakes a registered user's confirmation and then fails leaves a ready file without object and no sweep at work |
| `Guarantees.JobsReferToTheirOwnersFiles` | packages/db/src/schema/jobs.ts:9-18 | in every reachable state a job's file exists and is its user's, and its output, if any, is an existing, non-pending file of that user |
| `TableInvariant.HardDeleteKeepsJobs` | packages/db/src/schema/jobs.ts:11-18 | deleting a file row takes its jobs along and leaves no reference to it |
| `TableInvariant.EffectKeepsTables` | packages/db/src/repositories/JobRepository.ts:75-106 | every write whose cause knows what it must keeps ids, files, ownership and job rows in order, and only moves them forward |
| `ControlSteps.StepKeepsControl` | apps/api/src/services/JobService.ts:29-42 | every step of every process, on reads however stale, keeps the tables and all processes in order |
| `Guarantees.JobRowsAreConsistent` | packages/db/src/repositories/JobRepository.ts:75-106 | progress is between 0 and 100; pending means untouched, failed means an error message, completed means 100 |
| `RowProgress.RowShowsTheAttempt` | apps/worker/src/processors/CompressProcessor.ts:36-66 | in every reachable state the row of a job with an attempt at work, and not bound to throw, shows 0, 33 or 66 percent by where the attempt is, 20 times the stage for a default job, and 100 once completed |
| `Guarantees.JobsLiveForward` | packages/db/src/repositories/JobRepository.ts:75-102 | over any run a job keeps file, owner and type, never returns to pending, and stays gone once gone |
| `Guarantees.FilesLiveForward` | packages/db/src/repositories/FileRepository.ts:80-96 | over any run a file keeps all but its status, which moves from pending over ready to deleted; a registered user's file stays |
| `Guarantees.ConfirmedAtMostOnce` | apps/api/src/services/FileService.ts:87-119 | over any run at most one step makes a given file ready |
| `Guarantees.OneConfirmationIsAccepted` | apps/api/src/services/FileService.ts:113-118 | in any state a confirmation past its check is told of success if and only if it is the one that makes the file ready, else refused |
| `Guarantees.OnlyGuestFilesDisappear` | apps/worker/src/cleanupGuestResources.ts:19-33 | a row disappears only if its owner is not a registered user, before and after |
| `Guarantees.UploadKeysAreDistinct` | apps/api/src/services/FileService.ts:56-57 | in every reachable state no other file is stored under the key of an upload |
| `Guarantees.AttemptsAreBounded` | apps/api/src/queue/jobQueue.ts:10-15 | a payload is attempted at most three times, and given up only after three |
| `Guarantees.QuietMeansInactive` | apps/worker/src/worker.ts:71-82 | a job with no attempt running and no failure to be written is not active, unless the write of a failure was lost |
| `JobEnding.StuckExactlyWhenDone` | apps/worker/src/worker.ts:71-82 | an active job stays active in every run if and only if all its attempts have concluded and no failure of it is still to be written |
| `Exceptions.JobCanStayActive` | apps/worker/src/worker.ts:71-82 | in a reachable state all payloads are finished, all handlers are done, and a job is active and stays so in every run |
| `Guarantees.OutcomeFollowsLastAttempt` | apps/worker/src/worker.ts:40-82 | once a payload is finished and its failures were written promptly, its job is completed exactly if the last attempt returned, else failed |
| `Guarantees.UnqueuedJobsAreUntouched` | apps/api/src/services/JobService.ts:39-42 | a job whose enqueuing failed is never active or completed |
| `Retry.StepKeepsRetry` | apps/worker/src/worker.ts:71-82 | every step keeps the agreement between job statuses, attempts and outstanding handlers, however late those are |
| `Drain.WorkerRunsTerminate` | apps/api/src/queue/jobQueue.ts:10-15 | without new calls the worker takes at most 81 steps a payload and 2 a handler, however attempts fail |
| `Drain.IdleWorkerHasDrained` | apps/worker/src/worker.ts:40-82 | when no worker step is possible every payload is finished and every handler done |
| `Attempt.RankDecreases` | apps/worker/src/processors/CompressProcessor.ts:36-90 | every await of an attempt brings it nearer to its end |
| `Finality.FinishedJobsAreFinal` | apps/worker/src/worker.ts:40-82 | once a payload is finished and its failures are written the status of its job never changes again in any run, but for the cancellation of one that reads pending |
| `Finality.CompletionHoldsExactlyWhenDone` | apps/worker/src/worker.ts:71-82 | a completed job stays completed in every run if and only if all its attempts have concluded and no failure of it is still to be written |
| `Exceptions.CompletedJobCanFail` | apps/worker/src/processors/defaultProcessor.ts:52-53 | a reachable completed job has a run that makes it failed |
| `Exceptions.CancelledJobCanBecomeActive` | apps/worker/src/processors/defaultProcessor.ts:31-32 | a reachable cancelled job has a run that makes it active |
| `Exceptions.TwoFailuresThenCompletion` | apps/worker/src/worker.ts:71-82 | a reachable job is completed with two failures announced for it |
| `Exceptions.LateFailureCanFollowCompletion` | apps/worker/src/worker.ts:74-78 | in some run an attempt returns and the last message about its job is still a failure |
| `Exceptions.FailureCanPrecedeCompletion` | apps/worker/src/worker.ts:71-82 | in some run an attempt returns and a failure of its job is announced before its completion |
| `Exceptions.GuestSweepCanTakePendingJob` | apps/worker/src/cleanupGuestResources.ts:19-33 | in a reachable state the next step of a guest sweep deletes a pending job whose payload waits in the queue |
| `Finality.CancellationHoldsExactlyOutOfQueue` | packages/db/src/repositories/JobRepository.ts:88-102 | a job just cancelled stays failed in every run if and only if no attempt of it is to come |
| `Finality.QueuedJobsRevive` | apps/worker/src/processors/CompressProcessor.ts:36 | a job waiting for an attempt has a run that makes it active, whatever its status |
| `FailureCount.FailuresAreConserved` | apps/worker/src/worker.ts:71-82 | over any run the attempts that threw are the `job:failed` messages sent, the failures still handled and those the listener gave up; at most three messages |
| `FailureTexts.FailuresSayWhatWasThrown` | apps/worker/src/worker.ts:71-82 | after any run a job's error text is what one of its attempts threw, or that of a cancellation, and each `job:failed` message about it carries what one of them threw |
| `FailureTexts.HandlerIsListener` | apps/worker/src/worker.ts:71-82 | the two steps of a handler of the machine do what the listener does on its own |
| `Outputs.CompletedImagesHaveOutputs` | apps/worker/src/processors/defaultProcessor.ts:49-53 | a registered user's completed job has an output file if and only if it compresses or converts, anyone's an output path if and only if it does not; no job has the column of the other kind |
| `Keys.UploadKeysNeverCollide` | apps/api/src/services/FileService.ts:56-57 | upload keys are equal exactly if owner, random id and extension are |
| `Keys.OutputKeysNeverCollide` | apps/worker/src/processors/ConvertProcessor.ts:78-80 | output keys are equal exactly if owner, job and file name are, whatever the name |
| `Keys.OutputKeysAreNotUploadKeys` | apps/worker/src/processors/CompressProcessor.ts:68 | no output key is an upload key |
| `AttemptEvents.ReturnedAttemptAnnouncedAll` | apps/worker/src/processors/CompressProcessor.ts:36-90 | an attempt that returns has published its progress and completion, each once and in order, whatever was done between its awaits |
| `Announcements.EverythingPublishedIsDeliverable` | apps/worker/src/worker.ts:74-78 | every message ever published can be decoded and names, in channel and body, a job that was queued |
| `Announcements.RunPublishes` | apps/worker/src/processors/defaultProcessor.ts:42-53 | the log grows over a run by what its attempts and handlers publish, in order |
| `Announcements.AttemptAnnouncesItsSuccess` | apps/worker/src/processors/ConvertProcessor.ts:46-103 | while an attempt runs from any await to its return, what is published about its job is the rest of its progress and its completion in order, and else only failures of earlier attempts; not even those if none was being handled at the start |
| `Channels.JoinUndoesSplit` | apps/api/src/ws/redisSubscriber.ts:20-24 | joining the parts of a string gives the string back |
| `Channels.SplitUndoesJoin` | apps/api/src/ws/redisSubscriber.ts:20-24 | splitting joined separator-free parts gives the parts back |
| `Channels.ChannelRoundTrip` | apps/worker/src/worker.ts:77 | the channel printed for an event and a job is parsed to the same event and job, even if the id has colons |
| `Channels.ParsesExactly` | apps/api/src/ws/redisSubscriber.ts:20-24 | a channel is read as an event and a job if and only if it has that form |
| `Registry.OneUserSuffices` | apps/api/src/ws/WsManager.ts:27-33 | taking a socket from the one user found is taking it from all, so the loop may stop there |
| `Registry.AddedStaysInStep` | apps/api/src/ws/WsManager.ts:18-24 | adding a new socket keeps both maps on the same sockets, each under one user, no user empty |
| `Registry.RemovedStaysInStep` | apps/api/src/ws/WsManager.ts:26-35 | removing a socket keeps the maps in step |
| `Registry.SubscriptionStaysInStep` | apps/api/src/ws/WsManager.ts:39-45 | subscribing and unsubscribing keep the maps in step |
| `Registry.GoneSocketsAreIgnored` | apps/api/src/ws/WsManager.ts:26-45 | no call on a removed socket changes anything, and removing an unknown one does not either |
| `Registry.RemoveUndoesAdd` | apps/api/src/ws/WsManager.ts:18-35 | removing a socket just added gives the maps back |
| `WsManager.WsManager.Add` | apps/api/src/ws/WsManager.ts:18-24 | the two maps become those with the socket added, in step if it is new |
| `WsManager.WsManager.Remove` | apps/api/src/ws/WsManager.ts:26-35 | the loop with its early exit removes the socket from both maps and nothing else |
| `WsManager.WsManager.Subscribe` | apps/api/src/ws/WsManager.ts:39-41 | the job is added to the subscriptions of a known socket |
| `WsManager.WsManager.Unsubscribe` | apps/api/src/ws/WsManager.ts:43-45 | the job is taken from the subscriptions of a known socket |
| `WsManager.WsManager.Broadcast` | apps/api/src/ws/WsManager.ts:52-59 | each open socket subscribed to the job is sent the event once, no other socket anything |
| `Gateway.Gateway.OnConnection` | apps/api/src/routes/ws/index.ts:13-30 | a connection without a valid token is closed and unknown to the manager, any other is registered under its subject |
| `Gateway.Gateway.OnMessage` | apps/api/src/routes/ws/index.ts:33-46 | a message changes the manager's maps as the log item does, any other message nothing; the JSON text `null` throws before anything has changed |
| `Gateway.Gateway.OnClose` | apps/api/src/routes/ws/index.ts:49-51 | the end of a connection removes the socket from both maps |
| `Gateway.Gateway.OnPublication` | apps/api/src/ws/redisSubscriber.ts:18-37 | a publication is sent to exactly the sockets that the log item names, or to none if malformed |
| `Gateway.Gateway.Run` | apps/api/src/routes/ws/index.ts:30-51 | the handlers called for the items of a log in order leave the state of that log, and each socket's own record of what it was sent is what the log makes due |
| `Gateway.Gateway.SentWhatIsDue` | apps/api/src/ws/WsManager.ts:52-59 | in the state that a log leaves, each socket was sent what the log makes due |
| `Delivery.SentIsDue` | apps/api/src/ws/redisSubscriber.ts:18-37 | for every log each socket is sent exactly the well-formed publications for which it was open and subscribed, in order and once |
| `Delivery.RegistryFollowsLog` | apps/api/src/routes/ws/index.ts:30-51 | whether a socket is registered, open or subscribed can be read off the log of events alone |
| `Delivery.SubscribedBySaying` | apps/api/src/routes/ws/index.ts:33-46 | a connected socket is subscribed to a job if and only if the last its client said about it is a subscription |
| `Delivery.UsersFollowLog` | apps/api/src/ws/WsManager.ts:18-35 | a socket is among those of exactly the user it connected as, for as long as it is connected |
| `Delivery.DecodesExactly` | apps/api/src/ws/redisSubscriber.ts:18-37 | a publication is decoded if and only if its channel is `job:<event>:<id>` and its body an object, whose fields win over type and job |
| `Delivery.RegistryStaysInStep` | apps/api/src/routes/ws/index.ts:30-51 | the order in which the route calls the manager keeps its maps in step |
| `ClientView.LossyProgressNeverFalls` | apps/web/src/hooks/useJobWebSocket.ts:67-90 | whatever was shown before and whichever events of a successful attempt are lost, from the first that arrives on the shown progress never decreases |
| `ClientView.InitialProgressHoldsExactly` | apps/web/src/hooks/useJobWebSocket.ts:20-30 | the progress shown at first is never undercut if and only if the first event that arrives carries at least as much |
| `ClientView.RetryTakesProgressBack` | apps/worker/src/processors/CompressProcessor.ts:36-37 | a view at 66 is undercut by the events of a retry, all of them arriving |
| `ClientView.RoundedProgressGrows` | apps/worker/src/processors/defaultProcessor.ts:35-40 | rounded progress grows with the stage from 0 to exactly 100, for any number of stages |
| `ClientView.RoundedIsNearest` | apps/worker/src/processors/defaultProcessor.ts:40 | rounded progress is the number nearest to the exact one, halves rounded up |
| `ClientView.SuccessEvents` | apps/worker/src/processors/CompressProcessor.ts:36-90 | the events of a success are ascending progress up to at most 100, then the completion |
| `ClientView.MissingFieldsAreFilledIn` | apps/web/src/hooks/useJobWebSocket.ts:67-90 | what every event makes of the view, also with fields missing or null; one for another job or of another type changes nothing |
| `JobHook.JobWebSocket.OnRender` | apps/web/src/hooks/useJobWebSocket.ts:37-47 | the effect leaves the state alone unless the status has changed; else it leaves the old socket, and opens a new one unless the status is final |
| `JobHook.JobWebSocket.OnOpen` | apps/web/src/hooks/useJobWebSocket.ts:48-50 | an opened socket is live, and the subscription is sent on it |
| `JobHook.JobWebSocket.OnMessage` | apps/web/src/hooks/useJobWebSocket.ts:52-90 | an event of the job changes the view as the reducer says, any other nothing |
| `JobHook.JobWebSocket.OnBreak` | apps/web/src/hooks/useJobWebSocket.ts:92-97 | a broken socket is not reopened, and leaves its notice if there was an error |
| `JobHook.LiveHookIsSubscribed` | apps/web/src/hooks/useJobWebSocket.ts:48-50 | whatever has happened since mounting, on a live socket the hook has said that it subscribes to its job, and once that has arrived the server has the socket subscribed to that job alone |
| `JobHook.BreakShows` | apps/web/src/hooks/useJobWebSocket.ts:92-97 | a broken socket leaves its notice if there was an error, and is not replaced while the status stays |
| `JobHook.FinalStatusStays` | apps/web/src/hooks/useJobWebSocket.ts:37-39 | once a final status has been rendered nothing that can happen changes the hook |
| `JobHook.HookCompletesExactly` | apps/web/src/hooks/useJobWebSocket.ts:76-82 | through any breaks and reopenings, a hook not yet showing a final status ends up showing the completion with its output exactly if it took that event in |
| `JobHook.PendingHookReopens` | apps/web/src/hooks/useJobWebSocket.ts:99-109 | the first progress of a job shown pending makes the hook unsubscribe and connect anew |
| `JobHook.FirstFinalDecides` | apps/web/src/hooks/useJobWebSocket.ts:69-90 | what a live hook showing the job active ends up showing, and whether its socket is closed, is settled by the first final message about the job |
| `EndToEnd.HookSeesCompletion` | apps/web/src/hooks/useJobWebSocket.ts:37-109 | in any run in which an attempt gets from any of its awaits to its return, a hook that has got to showing the job active, on a socket where what it said has arrived, ends up showing it completed with its output if and only if that is announced before any failure of the job, as when none was being handled at the start; else it ends up showing it failed, with the error announced |
| `EndToEnd.SubscribedHookSeesCompletion` | apps/web/src/hooks/useJobWebSocket.ts:37-109 | the same for a hook on any open socket that is subscribed |
| `EndToEnd.ExpectantHookMovesOn` | apps/web/src/hooks/useJobWebSocket.ts:37-109 | in any run a hook showing the job pending stays as it is until something is announced about the job; progress then makes it leave its socket for a new one, a completion or failure for good |
| `EndToEnd.PendingHookSeesCompletion` | apps/web/src/hooks/useJobWebSocket.ts:37-109 | once a hook that showed the job pending has been told of progress, and what it said on its new socket has arrived before the attempt ends, it ends up showing the completion if and only if no failure is announced first from there on |
| `EndToEnd.PendingHookCompletes` | apps/web/src/features/converter/hooks/useConvertFlow.ts:75-78 | it always does when no failure of the job was being handled while the attempt was at work |
| `EndToEnd.AnyHookCompletesExactly` | apps/web/src/hooks/useJobWebSocket.ts:37-109 | in such a run a hook that loses messages or reopens its socket shows the completion exactly if it takes it in |
| `EndToEnd.SubscriberIsSentCompletion` | apps/api/src/ws/redisSubscriber.ts:18-37 | in such a run a socket that stays open and subscribed is sent the completion |
| `Session.AuthService.Register` | apps/api/src/services/AuthService.ts:59-76 | the reply and the new table are those of the specification: a taken address changes nothing, else a session is opened |
| `Session.AuthService.Login` | apps/api/src/services/AuthService.ts:78-99 | the same for a login, which replaces the stored session |
| `Session.AuthService.Refresh` | apps/api/src/services/AuthService.ts:101-126 | the same for a refresh, which ends the session on a genuine token that is not the stored one |
| `Session.AuthService.Logout` | apps/api/src/services/AuthService.ts:128-130 | the stored session of the user is cleared |
| `Session.AuthService.ChangePassword` | apps/api/src/services/AuthService.ts:145-162 | the password is replaced if the current one is given; the session stays |
| `Session.AuthService.SetRefreshTokenHash` | packages/db/src/repositories/UserRepository.ts:33-38 | only the stored hash of an existing user changes |
| `Session.StoredSessionIsOpenSession` | apps/api/src/services/AuthService.ts:59-130 | after any history of calls the stored hash is that of the session the transcript shows as open |
| `Session.RefreshAcceptsTheOpenSession` | apps/api/src/services/AuthService.ts:101-126 | a token is accepted if and only if it is signed, unexpired and issued by the registration or login that opened its subject's session |
| `Session.OneSessionPerUser` | apps/api/src/services/AuthService.ts:95-96 | after any history at most one token of a user is accepted |
| `Session.ReplayEndsTheSession` | apps/api/src/services/AuthService.ts:119-123 | after a genuine token other than the current one was presented, no token of the user is accepted until the next login |
| `Session.LoginNeedsThePassword` | apps/api/src/services/AuthService.ts:78-99 | after any history of calls a login is answered with a session of the configured length if and only if the address is registered and the password is the one its user last set, else refused |
| `Session.RegistrationNeedsAFreeAddress` | apps/api/src/services/AuthService.ts:59-76 | a registration succeeds if and only if no one has registered the address |
| `Session.ChangeNeedsThePassword` | apps/api/src/services/AuthService.ts:145-162 | a password is changed if and only if its user gives the one last set |
| `SilentRefresh.ApiClient.OnResponseError` | apps/web/src/api/client.ts:25-39 | a first 401 marks the request and waits for the shared refresh call, started if there is none; any other error rejects the request and starts nothing |
| `SilentRefresh.ApiClient.OnRefreshSettled` | apps/web/src/api/client.ts:32-37 | the shared call is settled and no longer shared |
| `SilentRefresh.ApiClient.OnResumed` | apps/web/src/api/client.ts:39-48 | a waiter sends again with the new token, or clears the session and is rejected |
| `SilentRefresh.RefreshIsShared` | apps/web/src/api/client.ts:21-50 | in any interleaving one refresh call is in flight at most, no request is sent more than twice, refresh calls do not outnumber first 401s, and waiters of a failed one get their own errors |
| `SilentRefresh.AnswersDecide` | apps/web/src/api/client.ts:25-49 | in any interleaving the answers to each request, in order, decide whether it is marked, resolved or rejected, and with which error; refresh calls do not outnumber the requests whose first error answer is a 401, and only those are sent twice |
| `SilentRefresh.TokenFollowsLastRefresh` | apps/web/src/api/client.ts:39-48 | in any interleaving there is no access token, and the waiter is rejected with its own error, if the waiter resumed last belonged to a failed refresh; else the token is that of its refresh |
| `SilentRefresh.RefreshTerminates` | apps/web/src/api/client.ts:25-49 | at most five things happen per request, and nothing more can happen only when every request is resolved or rejected |
| `Pagination.PagesPartition` | packages/db/src/repositories/FileRepository.ts:44-68 | pages 1 to the page count, taken in order, are exactly the matching rows |
| `Pagination.PageSizes` | apps/api/src/services/FileService.ts:121-132 | all pages but the last are full, the last is not empty, later ones are; no pages exactly if no rows |
| `Pagination.TotalIsExact` | apps/api/src/services/FileService.ts:121-132 | each page reports how many rows all pages together hold |
| `Pagination.RowIsOnOnePage` | packages/db/src/repositories/JobRepository.ts:40-63 | a matching row is on one page, at its place there |
| `Pagination.FilterKeepsExactly` | packages/db/src/repositories/FileRepository.ts:47-55 | the matching rows are rows that match, each as often as in the table |
| `Pagination.FilterKeepsOrder` | packages/db/src/repositories/FileRepository.ts:57-64 | the matching rows come in the order of the table |
| `Pagination.FilesListedExactly` | packages/db/src/repositories/FileRepository.ts:46-64 | a file is on some page if and only if it is the caller's, not deleted, and passes the search |
| `Pagination.JobsListedExactly` | packages/db/src/repositories/JobRepository.ts:42-59 | a job is on some page if and only if it is the caller's and has the status and file asked for |
| `Pagination.DistinctTimesPartition` | packages/db/src/repositories/FileRepository.ts:57-64 | pages from separate queries, each in its own order by time, still are exactly the matching rows if all times differ |
| `PageOrders.PagesPartitionExactly` | packages/db/src/repositories/JobRepository.ts:53-59 | pages from separate queries over distinct rows show each matching row exactly once, however rows of the same time are ordered, if and only if no two rows on either side of a page boundary have the same time |
| `Pagination.TiesCanRepeatRows` | packages/db/src/repositories/JobRepository.ts:53-59 | with a tie two pages can show the same row |
| `ApiKeys.ApiKeyService.CreateKey` | apps/api/src/services/ApiKeyService.ts:43-61 | a lone call succeeds exactly below five keys and then adds one |
| `ApiKeys.ApiKeyService.RevokeKey` | apps/api/src/services/ApiKeyService.ts:63-68 | the key goes exactly if it is the user's |
| `ApiKeys.LoneCallIsCreate` | apps/api/src/services/ApiKeyService.ts:43-61 | the steps of a call that is alone do what the service's call does |
| `ApiKeys.RevokeTakesOwnKey` | apps/api/src/services/ApiKeyService.ts:63-68 | in a run too a revocation takes a key from its owner only |
| `ApiKeys.KeysAreBounded` | apps/api/src/services/ApiKeyService.ts:43-68 | with at most k overlapping calls keys and pending inserts stay within 4 + k, across revokes; so five for calls in turn |
| `ApiKeys.BoundIsMet` | apps/api/src/services/ApiKeyService.ts:44-53 | for every k some run reaches 4 + k keys |
| `Repositories.FileRepository.Create` | packages/db/src/repositories/FileRepository.ts:35-38 | the row is inserted if the call took effect |
| `Repositories.FileRepository.FindById` | packages/db/src/repositories/FileRepository.ts:71-78 | the row is returned exactly if it is the user's |
| `Repositories.FileRepository.SoftDelete` | packages/db/src/repositories/FileRepository.ts:80-87 | only the user's own row is marked deleted, whatever its status |
| `Repositories.FileRepository.MarkReady` | packages/db/src/repositories/FileRepository.ts:89-96 | the row becomes ready, and the caller learns of it, exactly if it was the user's and pending |
| `Repositories.FileRepository.FindExpiredPending` | packages/db/src/repositories/FileRepository.ts:98-103 | exactly the pending files created before the cutoff, each once |
| `Repositories.FileRepository.FindExpiredGuestFiles` | packages/db/src/repositories/FileRepository.ts:105-124 | exactly the ready files before the cutoff whose owner has no row and which no pending or active job uses, each once |
| `Repositories.FileRepository.HardDelete` | packages/db/src/repositories/FileRepository.ts:126-128 | the user's row goes with its jobs, and references to it as an output are cleared |
| `Repositories.JobRepository.Create` | packages/db/src/repositories/JobRepository.ts:31-34 | the row is inserted, or refused when its file does not exist |
| `Repositories.JobRepository.FindById` | packages/db/src/repositories/JobRepository.ts:66-73 | the row is returned exactly if it is the user's |
| `Repositories.JobRepository.UpdateStatus` | packages/db/src/repositories/JobRepository.ts:75-86 | status and given columns are set whatever the status was, or nothing when the output file does not exist |
| `Repositories.JobRepository.Cancel` | packages/db/src/repositories/JobRepository.ts:88-102 | the row becomes failed exactly if it is the user's and pending |
| `Repositories.JobRepository.UpdateProgress` | packages/db/src/repositories/JobRepository.ts:104-106 | only the progress of an existing row changes |
| `Processors.Worker.ReportProgress` | apps/worker/src/processors/CompressProcessor.ts:47-51 | the three joined calls end in any order, each with its effect, and the first error in that order is thrown after the last |
| `Processors.Worker.ProcessImage` | apps/worker/src/processors/ConvertProcessor.ts:36-104 | compressing and converting end, with their effects on all state, as the machine's image attempt does |
| `Processors.Worker.FinishImage` | apps/worker/src/processors/CompressProcessor.ts:62-90 | the same for the part after the transformation: name, object, row, completion, announcement |
| `Processors.Worker.ProcessDefault` | apps/worker/src/processors/defaultProcessor.ts:23-54 | the staged processing ends as the machine's default attempt does |
| `Processors.Worker.RunStages` | apps/worker/src/processors/defaultProcessor.ts:36-47 | the loop over the stages does |
| `Processors.Worker.Process` | apps/worker/src/worker.ts:42-60 | any job type is dispatched to the attempt that the machine runs for it |
| `Processors.Worker.OnFailed` | apps/worker/src/worker.ts:71-82 | the error is written to the row, and announced on `job:failed:<id>` only if the write was acknowledged |
| `AttemptResult.UndisturbedImageAttempt` | apps/worker/src/processors/CompressProcessor.ts:68-90 | an undisturbed attempt adds one ready file of the owner, named and typed by the job's format, with an object of exactly the transformed size, completes the job with it and changes no other file, job or object |
| `AttemptResult.UndisturbedDefaultAttempt` | apps/worker/src/processors/defaultProcessor.ts:23-54 | an undisturbed default attempt completes the job with the path `processed/<file>/output.txt`, and changes nothing else |
| `AttemptResult.MissingInputThrows` | apps/worker/src/processors/CompressProcessor.ts:36-42 | an image attempt whose input is not there, or another user's, marks the job active and throws, naming the file; nothing else changes |
| `AttemptResult.MissingObjectThrows` | apps/worker/src/processors/CompressProcessor.ts:44-45 | so does one whose input has no object, with the error of the storage |
| `AttemptResult.FailedCallThrows` | apps/worker/src/processors/ConvertProcessor.ts:46-103 | any other call that is not acknowledged ends the attempt with its error |
| `Cleanup.Sweeper.CleanupGuestResources` | apps/worker/src/cleanupGuestResources.ts:12-36 | the loop ends as the machine's sweep over the fetched rows does, and reports their number |
| `Cleanup.Sweeper.CleanupPendingUploads` | apps/worker/src/cleanupPendingUploads.ts:11-34 | the same for the pending sweep |
| `Cleanup.GuestSweepAccounts` | apps/worker/src/cleanupGuestResources.ts:19-36 | an undisturbed guest sweep removes exactly the ready files, not written since the cutoff, of owners without a user row and with no pending or active job, as many as it reports; with them go only completed or failed jobs, and no object but under their keys |
| `Cleanup.PendingSweepAccounts` | apps/worker/src/cleanupPendingUploads.ts:18-34 | an undisturbed pending sweep marks exactly the pending files created before the cutoff deleted and leaves none; a file created since keeps its row, and its object unless a swept row shares its key |
| `Cleanup.ObjectsRemovedExactly` | apps/worker/src/cleanupPendingUploads.ts:18-28 | a sweep that gets through removes the objects of its targets as far as the removals take effect, a failed removal notwithstanding, and no others |
| `Cleanup.ThrowsExactly` | apps/worker/src/cleanupGuestResources.ts:22-33 | a sweep is ended by a row write that is not acknowledged and by nothing else |
| `Services.FileService.CreateUploadUrl` | apps/api/src/services/FileService.ts:42-85 | the call ends as the machine's does; the form is for the reserved key and exactly the reserved size |
| `Services.FileService.ConfirmUpload` | apps/api/src/services/FileService.ts:87-119 | the call ends as the machine's does |
| `Services.FileService.Delete` | apps/api/src/services/FileService.ts:142-151 | the call ends as the machine's does |
| `Services.JobService.Create` | apps/api/src/services/JobService.ts:23-45 | the call ends as the machine's does and queues the payload that the machine queues |
| `Services.JobService.Cancel` | apps/api/src/services/JobService.ts:68-80 | the call ends as the machine's does |
| `Services.ReserveSucceedsExactly` | apps/api/src/services/FileService.ts:46-66 | a lone reservation succeeds exactly for a size from 1 to 50 MiB and calls that succeed; reply and new row are given for every size and every way the calls end |
| `Services.ConfirmSucceedsExactly` | apps/api/src/services/FileService.ts:87-119 | a lone confirmation succeeds exactly for a ready file, or a pending one with an object of its size; every other case has its own reply, and only that row's status changes |
| `Services.DeleteSucceedsExactly` | apps/api/src/services/FileService.ts:142-151 | a lone deletion succeeds exactly for the owner's file that is not deleted, marking only that one; each refusal has its own reply |
| `Services.CreateJobSucceedsExactly` | apps/api/src/services/JobService.ts:29-42 | a lone creation succeeds exactly for a ready file, adding and queuing one pending job; each refusal has its own reply |
| `Services.CancelSucceedsExactly` | apps/api/src/services/JobService.ts:68-80 | a lone cancellation succeeds exactly for the owner's pending job, and changes nothing but that row; each refusal has its own reply |

## Left out

- `Overwriting.OutputIsKeptExactly`: the bytes of an object are not modelled, only how many;
  the size of a transformed image is an input, also where the same bytes are transformed.
- `Gateway.Gateway.OnMessage`: what an exception thrown in a handler does to the server.
- `JobHook.JobWebSocket.OnRender`: a change of the token, or from one job id to another, after
  which the hook keeps the old view, and a message that overtakes the rendering of the one before.
- `Session.RefreshAcceptsTheOpenSession`: calls come one after the other; overlapping calls
  of the service, and the truncation of long passwords by bcrypt, are not modelled.
- `Pagination.PagesPartition`: the table does not change between two requests. The search
  test is any predicate on names, not the pattern syntax of `ilike`.
- `Drain.WorkerRunsTerminate`: backoff delays, job retention, stalled-job re-delivery and
  crashes of the worker process are not modelled.
- `Processors.Worker.ProcessImage`: compressing and converting share one method because
  they share their stages; image bytes, quality options and content types are not modelled,
  and fetching an object and reading its stream is one await.
- `Attempt.RankDecreases`: `Promise.all` rejects at its first error while the other calls
  go on; in the model the attempt ends when all of them have.
- `Services.FileService.CreateUploadUrl`: expiry and content type of the form, the public
  URL and the configured maximum size (the default is used) are not modelled.
- `Session.AuthService.Register`: access tokens, guest tokens and `me` are not modelled.
- Download streams, single lookups, listing API keys and the renaming of rows for replies.
- Message bodies are values after `JSON.parse`; printing and parsing JSON is not modelled.
- React components, stores, HTTP routes and schemas other than the order of calls in the
  WebSocket route, configuration, logging, migrations and containers.
- The internals of PostgreSQL, MinIO, BullMQ, Redis, sharp, bcrypt and jsonwebtoken.
