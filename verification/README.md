# The CV job pipeline, verified

A visitor's form becomes a PDF in three services. The gateway inserts a row, puts
a one-shot API key aside and publishes `requested`. The ai-processor takes that key
(GETDEL), calls the model and publishes `structured` or `failed`. The cv-generator
renders, checks the page limit, stores the PDF and publishes `rendered` or `failed`.
The gateway projects those events into guarded SQL updates while a sweeper and a
watcher of exhausted deliveries write the same rows, and a status stream replays a
job's events to the browser. Delivery is at least once, runs overlap, replies get
lost, and on top of that the code promises effects that happen once.

This project models that protocol, the code of each service that takes part in it,
and the text and index code around it, and proves what the code promises.

## How it is put together

| files | content |
|---|---|
| `Wrappers`, `Text`, `Subjects`, `Events` | strings, subjects and message ids, events and their bodies |
| `JobStore` | rows, the guarded statements as functions, and the class that runs them |
| `Projection` | the gateway's state and operations, and the runner class that performs them |
| `HandlerLaws` | what each gateway handler comes to, told from subject, body and row alone |
| `ProjectionLaws`, `DeliveryLaws`, `FateLaws`, `CounterLaws` | what holds over every run of the gateway: freezing, conservation, deadlines, repeats, order, which write decides how a row ends, and what each counter counts |
| `Sse` | the status stream, against the row |
| `Stream`, `Natsx`, `PullLoop` | publishing with de-duplication, the retry loop, the consume loop |
| `AiProcessor`, `CvGenerator`, `Submission` | each handler twice: as one effect per step, and as the class that is proved to perform exactly those steps |
| `Pipeline` | the whole system: any number of jobs, runs interleaved effect by effect |
| `WorkerLaws`, `JobLaws`, `DeliveryBound`, `PipelineLaws`, `StorageLaws` | invariants of a run, a job and the system, and the main results |
| `JobFates`, `ReplayLaws`, `QuietLaws`, `KeyLaws`, `BilledLaws` | how jobs of the pipeline end and what their clients see, what is left of a job that is over, the key from form to claim, and what a model that bills saves in deliveries |
| `Scenarios`, `Extremes` | reachable states that show what those results are about and where they stop |
| `Links`, `Catalog` | the links box, the model catalog, its search and its bucket |

The system is deterministic in its actions: whatever the outside decides (how a
statement, a publish, a model call or an upload comes back, and whether it took
effect) is part of the action. A run is any sequence of actions, and an action that
is not enabled changes nothing, so "for every sequence of actions" is "for every
interleaving". A statement or publish that reports an error may still have taken
effect; nowhere is the opposite assumed unless a row below says so.

A worker's `Step` is one effect: validate, look up, claim, build, one model call,
one publish. The class methods are proved to end where driving `Step` to its end
ends, so what is proved of interleaved steps is about the same code.

## What the code does that its documentation does not say

- The status stream and the row can end apart. `Sse.SnapshotPlusReplay` gives the exact condition for any
  replayed history against any writes that reached the row, and `ReplayLaws.ReplayOfTheStream` gives it
  for every job of every run: the first ending event of the stream and the first ending write of
  the row must come to the same. They need not, because the stream ignores the stage of a
  failure (`Sse.StaleFailureMisleads`), does not decode the bodies of `structured` and `rendered`
  (`Sse.GarbledBodyDiverges`), keeps its order where a nak lets the row see another
  (`Sse.ReorderedEventsDiverge`), and is told nothing of sweeps, advisories and submissions that
  gave up (`Sse.UntoldFailureDiverges`).
- A key in Valkey that is not text, and a catalog entry with a provider the worker does
  not support, are only noticed after GETDEL: the key is gone. The comments say that an
  unusable request never burns the key; `WorkerLaws.RunAndKey` says when it does.
- A processing and a rendering failure of one job share a message id, so the second can
  be dropped as a duplicate of the first. If the row ignored the first, nobody is told:
  `Scenarios.FailureCanGoUnheard`. A job is over when nothing of it can be delivered and no
  run of it that is still alive is unfinished. `QuietLaws.OverRowIsLive` says when its row is
  live nonetheless: it waits for an advisory on a message that ran out of deliveries
  (`Extremes.DeliveriesCanRunOut`), or it is forgotten. `QuietLaws.OnlySweepOrAdvisoryEndsIt` says what
  can end it. An advisory whose statement fails is dropped for good (`Extremes.AdvisoryDecides`).
- A claim loser's failure that reaches the row while it is pending wins over the PDF that
  the other run goes on to deliver: `Scenarios.DeliveredIsNotCompleted`.
  `JobFates.DeliveredEndsCompleted` says exactly when a delivered PDF ends completed.
- A terminal statement that takes effect while its reply is lost is counted by nothing: the
  redelivery finds no row to move (`Extremes.CompletionCanGoUncounted`).
  `PipelineLaws.PipelineConserves` tallies such rows apart.
- The structured CV is kept only if `structured` lands before the row ended: `FateLaws.CvNeedsOrder`.
- The submission limits speak of characters and count bytes: `Submission.TooLongMeansBytes`, and
  `Submission.AccentedDescriptionIsTooLong` for a description within the stated limit that is turned away.
- The design notes give the ai-processor a redelivery back-off; the code sets none, and
  the delivery limits used here are the code's.

## Model

| member | source | states |
|---|---|---|
| PipelineLaws.CompletedMeansDelivered | services/cv-generator/src/cv_generator/handler.py:130-153 | in every reachable state of every interleaving, a completed row carries its job's own object key, that object is in storage with at most 2 pages, and `requested`, `structured` and `rendered` are all in the stream |
| StorageLaws.CompletedRowsServeTheirOwn | services/cv-generator/src/cv_generator/storage.py:8-31 | over the one object store all jobs share, where a later upload under a key replaces the earlier: what lies under a completed row's key `cvs/{id}.pdf` was uploaded by a run of that very job and has at most two pages |
| StorageLaws.CompletedRowsShareNoKey | services/cv-generator/src/cv_generator/storage.py:8-9 | in every reachable state two completed rows of different jobs never carry the same key |
| StorageLaws.RunIsShelved | services/cv-generator/src/cv_generator/handler.py:136-143 | in every reachable state the store holds under each job's key exactly what that job's own runs last uploaded, and nothing else |
| PipelineLaws.KeyIsUsedByOneRun | services/ai-processor/src/ai_processor/handler.py:139-181 | over a job's whole life at most one run ever obtains its API key, and the model is called with it at most one time more than there are retry delays, whatever is redelivered or overlaps |
| PipelineLaws.NothingSettledIsLost | libs/python/cv-shared/src/cv_shared/consumer.py:89-109 | an acknowledged `requested` has `structured` in the stream, an acknowledged `structured` has `rendered`, a terminated one of either kind has `failed`, de-duplication included |
| PipelineLaws.AcknowledgedIsApplied | services/gateway/internal/jobs/jobs.go:246-256 | an event the gateway acknowledged stays applied: applying it again at any later time changes no field of the row |
| KeyLaws.MissingKeyWasTaken | services/gateway/internal/web/handlers.go:196-257 | over every run whose submissions passed the gateway's checks and whose bucket agrees with its catalog on which models are fake, a run reports a missing key only if an earlier GETDEL took it or 900 seconds have passed since the row was created |
| KeyLaws.RunKeyFits | services/gateway/internal/web/handlers.go:201-204 | in those runs every job without a key is one of the fake model, and no run of a fake-model job ever comes to claim one |
| KeyLaws.KeyNamesDiffer | services/gateway/internal/apikeys/apikeys.go:27-29 | different jobs keep their keys under different names |
| PipelineLaws.DeliveriesAreBounded | services/gateway/internal/jetstream/jetstream.go:76-107 | one submission stores at most three `structured` and causes at most 23 deliveries over the three consumers together and 18 more for each of those: never more than 77, in any run |
| Extremes.DeliveryBoundIsReached | services/gateway/internal/jetstream/jetstream.go:76-107 | a run, of the fake model, in which one submission causes all 77 |
| BilledLaws.BilledDeliveriesAreBounded | services/ai-processor/src/ai_processor/handler.py:103-127 | over every run whose submissions passed the gateway's checks and whose bucket agrees with its catalog, a job of a model that bills has at most one `structured` in its stream and causes at most 41 deliveries |
| PipelineLaws.PipelineRunsGateway | services/gateway/internal/jobs/jobs.go:161-256 | what the pipeline does to the gateway is a run of the gateway's own operations, so that everything proved of those holds of it |
| PipelineLaws.PipelineConserves | services/gateway/internal/jobs/jobs.go:214-238 | in every reachable state the counters, the submissions' own failures and the statements that took effect and reported an error add up to the terminal rows; where no statement does that they are all there is, and each counter is the number of rows that ended its way |
| Extremes.CompletionCanGoUncounted | services/gateway/internal/jobs/jobs.go:214-218 | a run after which the row is completed and `rendered` acknowledged while the completed counter is still zero: the reply was lost and the redelivery found nothing to move |
| PipelineLaws.PipelineJobsEnd | services/gateway/internal/jobs/jobs.go:309-334 | with sweeps at most a period apart no job of the pipeline is live later than twice threshold plus period |
| PipelineLaws.RunStands | services/ai-processor/src/ai_processor/handler.py:86-190 | the invariant behind these results (shape of the stream, provenance of the PDF, one claim, honest settlements, the key accounted for, the delivery weight, rows backed by events) holds after every run |
| PipelineLaws.JobNextKeeps | services/cv-generator/src/cv_generator/handler.py:90-163 | every single effect of every run keeps a job's invariant and is paid for by the weight that bounds deliveries |
| Scenarios.JobsCanComplete | services/gateway/internal/jobs/jobs.go:205-218 | for any id, form, CV and PDF of at most two pages there is a run that ends with the row completed, holding that CV and key, and that PDF in storage |
| JobFates.FailedMeansStruck | services/gateway/internal/store/store.go:189-232 | in every reachable state, a row is failed iff some failing write came before every `rendered` and, if a processing failure, before every `structured`; its error is the text of such a write, and that write comes from an event of the job's stream, or from an action of the run that was enabled and took effect: a sweep, an advisory on a message of the job with no delivery left, or its own submission failing the row with one of its two texts |
| JobFates.CompletedMeansSpared | services/gateway/internal/store/store.go:169-187 | in every reachable state, a row is completed iff `rendered` reached it and no such failing write did |
| JobFates.DeliveredEndsCompleted | services/gateway/internal/jobs/jobs.go:207-218 | once the gateway acknowledged `rendered`, the job is completed iff no failing write struck its row while it was live, or pending for a processing failure |
| JobFates.WrittenIsBacked | services/gateway/internal/jobs/jobs.go:161-307 | every write that ever reaches a row has its origin in the run: an event stored in that job's stream, or an enabled action that took effect, a sweep, an advisory on an exhausted message of that job, or that job's submission failing its row |
| ReplayLaws.ReplayOfTheStream | services/gateway/internal/web/sse.go:105-187 | in every run, a client that connected at any earlier moment and replays all its job's stream holds ends on exactly the row's state iff the row was terminal when it connected or the first ending event of the stream and the first ending write of the row come to the same |
| Scenarios.DeliveredIsNotCompleted | services/gateway/internal/store/store.go:189-196 | that condition can fail: a run in which the PDF is stored and `rendered` published while the row is, and stays, failed by a claim loser |
| Scenarios.FailureCanGoUnheard | libs/python/cv-shared/src/cv_shared/natsx.py:115-118 | a run after which the rendering failed, the only failure in the stream is an earlier and ignored one, everything is settled, and the row still says rendering |
| QuietLaws.OverRowIsLive | services/gateway/internal/jobs/jobs.go:227-307 | in every reachable state, the row of a job of which nothing can be delivered and no living run is unfinished is live iff no `rendered` reached it and no write struck it; it then waits for an advisory on a message that ran out of deliveries, or it is forgotten (no sweep, advisory or given-up submission reached it, the stream holds no `rendered` and none but processing failures, and once `requested` was stored the row has its CV), and if it waits for none it is live iff it is forgotten, and then, `requested` being stored, at rendering with a failure in the stream |
| QuietLaws.QuietRowIsLive | services/gateway/internal/jobs/jobs.go:227-238 | where every message of such a job is settled: live iff forgotten, and then, `requested` being stored, at rendering with a failure in the stream |
| QuietLaws.OverRowWaits | services/gateway/internal/jobs/jobs.go:267-311 | once a job is over, no action but a sweep or an advisory on one of its own messages changes its row |
| QuietLaws.OnlySweepOrAdvisoryEndsIt | services/gateway/internal/jobs/jobs.go:267-334 | over any further run without those the row of such a job stays exactly as it is |
| QuietLaws.AdvisoryEndsIt | services/gateway/internal/jobs/jobs.go:297-306 | an advisory can be raised on such a job only while a message of it ran out of deliveries unsettled; it fails a live row iff its statement takes effect, and else changes nothing |
| Extremes.DeliveriesCanRunOut | services/gateway/internal/jetstream/jetstream.go:85-86 | a run in which three deliveries of `requested` end in a nak and the job is over with its row still pending |
| Extremes.AdvisoryDecides | services/gateway/internal/jobs/jobs.go:297-301 | there, an advisory whose statement fails leaves the row pending and one that takes effect fails it |
| QuietLaws.QuietRowWaits | services/gateway/internal/jobs/jobs.go:309-311 | once every message of a job that is over is settled, no action but a sweep changes its row |
| QuietLaws.OnlyTheSweeperEndsIt | services/gateway/internal/jobs/jobs.go:309-334 | over any further run without a sweep the row of a job with every message settled stays exactly as it is |
| ProjectionLaws.RowsOnlyMoveForward | services/gateway/internal/store/store.go:158-218 | over any run from a consistent table: completed iff the key is set, failed iff the error is set, statuses never move back, a terminal row never changes, no row disappears |
| ProjectionLaws.ProcessingFailureOnlyHitsPending | services/gateway/internal/jobs/jobs.go:227-233 | a processing failure changes a row iff the statement took effect and the row never entered rendering; such a row has no structured CV |
| ProjectionLaws.CountersAccountForTerminalRows | services/gateway/internal/jobs/jobs.go:297-330 | over every run the completed rows are those counted completed, and the failed rows those counted failed, swept, or failed by the submission itself; statements that took effect but reported an error are tallied apart and are zero when there are none |
| CounterLaws.CountersTellHowRowsEnded | services/gateway/internal/jobs/jobs.go:214-330 | over every run without lost replies: completed is the number of rows that a `rendered` ended, failed of those that a `failed` or an advisory ended, swept of those that a sweep ended, poisoned under each event of those that an advisory on such a message ended |
| ProjectionLaws.NoJobStaysLive | services/gateway/internal/store/store.go:220-232 | with effective sweeps at most a period apart, a job older than twice threshold plus period is terminal, since `updated_at` is refreshed at most once before that |
| ProjectionLaws.DeployedBound | services/gateway/internal/jobs/jobs.go:312-320 | with ten minutes and one minute that is 22 minutes |
| ProjectionLaws.BoundIsReached | services/gateway/internal/store/store.go:222-227 | the bound is exact: for every threshold and every positive period a punctual run has a live row at that very age |
| FateLaws.RowMeetsItsFate | services/gateway/internal/store/store.go:158-232 | status, key and error of a row are those of the first write that ends it, a decodable `rendered`, or a failure that is no processing failure after `structured`, whatever came before and after; without one, of whether `structured` landed |
| FateLaws.FailedIffStruck | services/gateway/internal/store/store.go:169-218 | for any writes in any order: failed iff a failure strikes, completed iff `rendered` lands and none strikes |
| FateLaws.EveryRowMeetsItsFate | services/gateway/internal/jobs/jobs.go:161-334 | over every run of the gateway each row has the fate of the writes that took effect on it since its creation |
| DeliveryLaws.RepeatsChangeNothing | services/gateway/internal/store/store.go:158-218 | inserting later repeats of causes that already took effect anywhere leaves the projected row the same in every field, timestamps included |
| DeliveryLaws.RowIsItsWrites | services/gateway/internal/jobs/jobs.go:161-334 | the row after any operations is the projection of the events, sweeps, advisories and submission failures that took effect on it, whatever else the gateway did between them |
| DeliveryLaws.AtLeastOnceIsExactlyOnce | services/gateway/internal/jobs/jobs.go:158-334 | hence the row is what the first effective occurrence of each makes of it |
| DeliveryLaws.HighestEventWins | services/gateway/internal/store/store.go:155-187 | without failures the final status is that of the highest event among them, and the key is set iff `rendered` is among them |
| DeliveryLaws.OrderIsIrrelevant | services/gateway/internal/store/store.go:158-187 | two orders, with any repeats, of the same kinds of successful events end in the same status, key and error |
| FateLaws.CvNeedsOrder | services/gateway/internal/store/store.go:155-167 | for any writes, failures, sweeps and advisories included, the structured CV is stored iff some decodable `structured` landed before the row ended |
| Projection.Runner.HandleMsg | services/gateway/internal/jobs/jobs.go:161-256 | the new table, counters and disposition are the specified operation of the old ones, for every subject, body and statement outcome |
| HandlerLaws.RequestedIsGood | services/gateway/internal/jobs/jobs.go:189-190 | `cv.{id}.requested` is acknowledged and changes nothing |
| HandlerLaws.StructuredMoves | services/gateway/internal/jobs/jobs.go:192-205 | `cv.{id}.structured`: a body that does not decode is terminated; else exactly a pending row moves to rendering with the CV, and the message is acknowledged iff the statement reported success, and given back otherwise |
| HandlerLaws.RenderedCompletes | services/gateway/internal/jobs/jobs.go:207-218 | `cv.{id}.rendered`: likewise; exactly a pending or rendering row is completed with the key, and counted as completed iff the statement reported so |
| HandlerLaws.FailedFails | services/gateway/internal/jobs/jobs.go:220-238 | `cv.{id}.failed`: likewise; a pending row fails, a rendering one unless the stage is processing, and it is counted as failed iff the statement reported so |
| HandlerLaws.OthersAreTerminated | services/gateway/internal/jobs/jobs.go:165-170 | every other subject is terminated and changes nothing |
| Projection.Runner.ProjectRendered | services/gateway/internal/jobs/jobs.go:207-218 | one guarded completion and its count, and whether the statement reported success |
| Projection.Runner.ProjectFailed | services/gateway/internal/jobs/jobs.go:220-238 | the failure statement chosen by stage, and its count |
| Projection.Runner.HandleAdvisory | services/gateway/internal/jobs/jobs.go:267-307 | the job of the message an advisory points at is failed past the stage guard; it is counted failed and poisoned iff the row moved and the statement reported so |
| HandlerLaws.AdvisoryFails | services/gateway/internal/jobs/jobs.go:292-306 | an advisory on a message of `cv.{id}.{event}` fails a pending or rendering row whatever its stage, and counts it as failed and under that event as poisoned iff the statement reported so |
| HandlerLaws.AdvisoryWithoutJob | services/gateway/internal/jobs/jobs.go:286-296 | an advisory that leads to no job's message changes nothing |
| Projection.Runner.SweepTick | services/gateway/internal/jobs/jobs.go:319-331 | one tick fails exactly the stuck rows and counts them iff the statement reported success |
| HandlerLaws.SweepFails | services/gateway/internal/jobs/jobs.go:319-331 | a sweep fails exactly the pending and rendering rows older than the threshold and counts them under swept only, iff the statement reported success |
| Projection.Runner.SweepLoop | services/gateway/internal/jobs/jobs.go:312-334 | any number of ticks is that run of clock and sweep operations |
| JobStore.Store.CreateJob | services/gateway/internal/store/store.go:95-104 | one pending row is inserted iff the statement took effect; the id is returned iff it reported so |
| JobStore.Store.MarkRendering | services/gateway/internal/store/store.go:155-167 | only a pending row moves; every other row and id is untouched |
| JobStore.Store.MarkCompleted | services/gateway/internal/store/store.go:169-187 | only a non-terminal row moves, and its creation time is reported iff it moved |
| JobStore.Store.MarkFailedProcessing | services/gateway/internal/store/store.go:189-196 | only a pending row is failed |
| JobStore.Store.MarkFailed | services/gateway/internal/store/store.go:198-202 | only a non-terminal row is failed |
| JobStore.Store.MarkFailedWhere | services/gateway/internal/store/store.go:204-218 | the row moves iff its status is in the guard, and the report says whether it did |
| JobStore.Store.SweepStuck | services/gateway/internal/store/store.go:220-232 | exactly the non-terminal rows older than the threshold fail, and their number is returned |
| Sse.HandleJobEvents | services/gateway/internal/web/sse.go:105-187 | what a client is sent is the specified fold over any sequence of events, heartbeats, failed writes and disconnects |
| Sse.RanksStrictlyRise | services/gateway/internal/web/sse.go:171-179 | whatever the history, a client sees strictly rising ranks, never repeats a state, and gets at most three updates |
| Sse.LinksAreTheJobs | services/gateway/internal/web/sse.go:32-59 | every update ever sent carries the link `/jobs/{id}/download` iff it says completed, and an error iff it says failed |
| Sse.NothingAfterABreak | services/gateway/internal/web/sse.go:153-187 | after a disconnect, a failed heartbeat or a failed write of an update nothing more is sent |
| Sse.SnapshotPlusReplay | services/gateway/internal/web/sse.go:105-187 | a client that connects after any of the writes to a row and then replays any history ends on exactly the state of the live row, error and link included, iff it connected after the end, or history and writes first end alike (both rendered, or failed with one text), or neither ends and both got as far; bodies that do not decode, another order and writes that are no events are all in |
| Sse.ReplayInOrder | services/gateway/internal/web/sse.go:105-187 | where only events reached the row, in stream order, that is: iff it connected after the end, or the history does not first end in a stale processing failure or a garbled `rendered` that the row did not repeat, nor stay open on garbled `structured` alone |
| Sse.CleanHistoryAgrees | services/gateway/internal/jobs/jobs.go:227-233 | with bodies that decode and no processing failure after `structured`, every client ends on exactly the live row: the case the design relies on |
| Sse.StaleFailureMisleads | services/gateway/internal/web/sse.go:71-77 | a history after which the client has been shown failed while the row is completed |
| Sse.ReorderedEventsDiverge | services/gateway/internal/jobs/jobs.go:246-250 | the same events in another order in the stream than at the row: the client ends failed, the row completed |
| Sse.UntoldFailureDiverges | services/gateway/internal/jobs/jobs.go:297-330 | any sweep, advisory or given-up submission leaves a client that replayed everything waiting at pending on a failed job |
| Sse.GarbledBodyDiverges | services/gateway/internal/web/sse.go:69-70 | a `rendered` whose body does not decode leaves the row alone but tells the client it is done |
| AiProcessor.JobHandler.Call | services/ai-processor/src/ai_processor/handler.py:86-128 | the handler's final state, key, stream, sleeps, failure labels and disposition are where driving its one-effect steps ends, for every way the outside answers |
| AiProcessor.JobHandler.Structure | services/ai-processor/src/ai_processor/handler.py:145-181 | the attempt loop leaves the run where the recursive loop leaves it, reports its failure unguarded, and never reaches the final assertion |
| AiProcessor.WholeLoop | services/ai-processor/src/ai_processor/handler.py:145-181 | that loop calls again exactly after a broken connection or a status of 408, 429 or 500 and above while a delay is left, stops at the first other outcome, sleeps exactly the matching prefix of the delays, and brings a CV iff the last call did |
| AiProcessor.TransientIsWorthAnotherCall | services/ai-processor/src/ai_processor/handler.py:48-67 | an outcome is transient iff it is a connection-level error or one of those statuses |
| AiProcessor.TextMatchesReason | services/ai-processor/src/ai_processor/handler.py:157-178 | each label comes with its own text, two calls get the same text iff they get the same label, and each label has its exact causes by status and kind of error |
| AiProcessor.JobHandler.ModelEntry | services/ai-processor/src/ai_processor/handler.py:130-137 | an entry, an absent key, unparsable bytes and a failing bucket each continue the run where its steps do |
| AiProcessor.JobHandler.ClaimApiKey | services/ai-processor/src/ai_processor/handler.py:139-143 | likewise for GETDEL: taken, absent, undecodable, reply lost, never run |
| AiProcessor.JobHandler.Announce | services/ai-processor/src/ai_processor/handler.py:118-127 | a CV that does not convert is left to redelivery with nothing published; one that does is announced by the retry loop |
| AiProcessor.JobHandler.Fail | services/ai-processor/src/ai_processor/handler.py:183-190 | one failure label, one publish of a processing failure, and a terminal error iff that was accepted |
| AiProcessor.AnnouncingIsRetry | services/ai-processor/src/ai_processor/handler.py:118-127 | announcing step by step is the publish retry loop; acknowledged iff its last attempt was accepted |
| WorkerLaws.AiRunEnds | services/ai-processor/src/ai_processor/handler.py:86-190 | a run left alone always ends; the model is called iff request, entry, key and provider allow it; a run whose last call brought a CV is acknowledged iff that converts and `structured` was accepted; a run with something to tell the user publishes that text, is terminated iff the report was accepted (a value error inside the guard being reported in its place) and else redelivered, and a run with nothing to tell is redelivered with the stream untouched |
| WorkerLaws.RunAndKey | services/ai-processor/src/ai_processor/handler.py:95-108 | a run consumes the key iff the request is valid, its model is in the bucket and not the fake one, and GETDEL runs; it holds a key iff one was there; it blames a missing key iff it came to claim one and there was none |
| WorkerLaws.UndecodableKeyIsBurnt | services/ai-processor/src/ai_processor/handler.py:139-143 | a key that is not text is consumed without a call and reported as invalid input |
| WorkerLaws.AiKeyMoves | services/ai-processor/src/ai_processor/handler.py:139-143 | only the claim touches the key, and the run that comes to hold it is the one that removed it |
| WorkerLaws.AiPublishes | services/ai-processor/src/ai_processor/handler.py:118-127 | an effect stores at most one event, of the run's own kind, and none once the run has stored one |
| WorkerLaws.AiSettlesHonestly | services/ai-processor/src/ai_processor/handler.py:183-190 | a run ends acknowledged only with `structured` in the stream and terminated only with `failed` in it |
| CvGenerator.JobHandler.Call | services/cv-generator/src/cv_generator/handler.py:90-154 | the handler ends where driving its one-effect steps ends, for every way the outside answers |
| CvGenerator.JobHandler.Deliver | services/cv-generator/src/cv_generator/handler.py:127-154 | page limit, upload and publish, in that order, end where the steps do |
| CvGenerator.JobHandler.Fail | services/cv-generator/src/cv_generator/handler.py:156-163 | one failure label and one publish of a rendering failure; terminated iff accepted |
| CvGenerator.AnnouncingIsRetry | services/cv-generator/src/cv_generator/handler.py:145-153 | announcing step by step is the publish retry loop with its default delays |
| WorkerLaws.CvRunEnds | services/cv-generator/src/cv_generator/handler.py:90-163 | a run left alone stores the PDF iff input, rendering and page count allow it and the upload ran; it is acknowledged iff the upload is known done and `rendered` accepted, terminated iff there was an objection and its report was accepted, and otherwise redelivered; the stream afterwards is exactly that of the one report or announcement |
| WorkerLaws.CvPublishes | services/cv-generator/src/cv_generator/handler.py:136-153 | `rendered` is only ever stored with the PDF in storage, and a run stores at most one event |
| WorkerLaws.CvStores | services/cv-generator/src/cv_generator/handler.py:127-141 | nothing over the page limit reaches storage, and nothing leaves it |
| Natsx.JetStreamContext.PublishEvent | libs/python/cv-shared/src/cv_shared/natsx.py:97-122 | one publish under the event's id: stored, dropped as a duplicate, or lost, as the outside decides |
| Natsx.JetStreamContext.PublishWithRetry | libs/python/cv-shared/src/cv_shared/natsx.py:125-167 | retries transport errors only: the reply is the first that is none, or the last of a spent budget; the sleeps are exactly the matching prefix of the delays; at most one message is stored; an accepted publish leaves one with its id; the final assertion is never reached |
| Natsx.RetryStops | libs/python/cv-shared/src/cv_shared/natsx.py:142-167 | the recursive form of that loop: how often it publishes, how long it sleeps in between and how it comes back |
| Stream.AcceptedIsStored | libs/python/cv-shared/src/cv_shared/natsx.py:115-118 | an accepted publish leaves a message with that id in the stream whether it was stored now or dropped |
| Stream.PublishStores | services/gateway/internal/jetstream/jetstream.go:64-71 | a publish stores its event iff it reached the server and no message of the job carries its id within the window |
| PullLoop.RunPullLoop | libs/python/cv-shared/src/cv_shared/consumer.py:61-115 | every message that is fetched and whose handler is not cancelled is settled once and in order: acknowledged iff the handler returned, terminated iff it raised a terminal error, given back iff it raised anything else; only settlements that went through are counted; nothing is fetched once the stop event is set; the loop breaks off exactly at a failed fetch, a cancellation or a failed settlement |
| Submission.Server.HandleJobCreate | services/gateway/internal/web/handlers.go:184-272 | a refusal in the order of the checks changes nothing; an insert that reports an error leaves the row iff it took effect and goes no further; else the row is created, then the key stored, then `requested` published, and the row failed with the matching text iff one of those reported an error |
| Submission.GoesOnIffInOrder | services/gateway/internal/web/handlers.go:188-237 | a submission goes on iff the trimmed description is not empty, the model is in the catalog and fake or with a key, the profile is saved with career text and details that decode, and both texts are within 20,000 and 100,000 bytes |
| Submission.ReasonsHaveCauses | services/gateway/internal/web/handlers.go:192-222 | the empty description, the unknown model, the missing key, the missing profile and the long description are each answered iff that is the first thing wrong |
| Submission.ProfileReasonsHaveCauses | services/gateway/internal/web/handlers.go:211-237 | likewise for the long career text, the incomplete profile and the internal error |
| Submission.Server.HandOffJob | services/gateway/internal/web/handlers.go:248-270 | key before publish, for 900 seconds, no publish after a failed key write, and the row failed with the text of the step that reported an error |
| Submission.BytesAndCharacters | services/gateway/internal/web/limits.go:64-72 | what the limits count is between one and four times the characters, and as many iff all are ASCII |
| Submission.BytesOfCharacter | services/gateway/internal/web/limits.go:64-72 | bytes add up over characters, one to four each by code point |
| Submission.TooLongMeansBytes | services/gateway/internal/web/handlers.go:216-221 | a description is turned away as too long iff its bytes exceed the limit stated in characters, which an ASCII one within the limit never does |
| Submission.AccentedDescriptionIsTooLong | services/gateway/internal/web/handlers.go:216-221 | 10,001 accented letters, within the stated 20,000 characters, are turned away as too long |
| Subjects.ParseOfSubject | services/gateway/internal/jetstream/jetstream.go:39-57 | parsing undoes printing iff neither half contains a dot; otherwise the subject is refused |
| Subjects.SubjectOfParse | services/gateway/internal/jetstream/jetstream.go:50-57 | printing undoes parsing on every accepted subject |
| Subjects.PythonAgreesWithGo | libs/python/cv-shared/src/cv_shared/natsx.py:52-57 | the workers read the same job id and event off every subject the gateway accepts |
| Subjects.MsgIdInjective | services/gateway/internal/jetstream/jetstream.go:44-48 | two jobs or two of the four events never share a message id, whatever the ids contain |
| Links.ParseLinks | services/gateway/internal/web/handlers.go:119-138 | the loop computes the line-wise parse |
| Links.BareLine | services/gateway/internal/web/handlers.go:123-132 | a blank line is skipped, and a line without a space or tab inside is one link with both halves equal to it |
| Links.LabelledLine | services/gateway/internal/web/handlers.go:128-135 | otherwise the URL is what follows the last space or tab, and the label all before it, both trimmed |
| Links.LineByLine | services/gateway/internal/web/handlers.go:121-137 | a text is parsed line by line: what its first line yields, then what the rest yields |
| Text.SpaceCodePoints | services/gateway/internal/web/handlers.go:124-134 | what trimming takes off, by code point |
| Links.ProfileLinks | services/gateway/internal/web/handlers.go:111-115 | the loop prints one line a link |
| Links.PrintedLineByLine | services/gateway/internal/web/handlers.go:111-115 | links are printed one a line as label, space, URL, with a newline between lines and none at the end |
| Links.ParsedIsCanonical | services/gateway/internal/web/handlers.go:121-138 | every parsed label and URL is non-empty and trimmed, on one line, the URL without blanks |
| Links.ParsePrintParse | services/gateway/internal/web/handlers.go:97-138 | parse, print, parse again gives the same list for every text, also with CRLF line ends |
| Links.PrintParse | services/gateway/internal/web/handlers.go:111-138 | printing loses nothing of a link iff it is canonical |
| Catalog.FirstInvalidKeyRune | services/gateway/internal/catalog/catalog.go:81-99 | the position is that of the first character outside the charset, and none iff all are inside |
| Catalog.ModelCatalog.Check | services/gateway/internal/catalog/catalog.go:54-67 | an entry passes iff it is acceptable and its key new; a refusal names the entry and the first thing wrong with it |
| Catalog.ModelCatalog.Load | services/gateway/internal/catalog/catalog.go:48-79 | the file loads iff it is non-empty with acceptable entries and distinct keys; each entry has its model's key, id and display name, none of them empty, and the provider of that name; the list is in file order, the index is the list viewed as a map, and a refusal is that of the first bad entry |
| Catalog.ProviderIsNamed | services/gateway/internal/catalog/catalog.go:60-64 | a provider is known iff its upper-cased name is one of the five, and then it is that one |
| Catalog.KeyCharset | services/gateway/internal/catalog/catalog.go:81-99 | the characters of a key, by code point |
| Catalog.ModelCatalog.Get | services/gateway/internal/catalog/catalog.go:139-142 | found iff listed, and then an entry of the list under that key |
| Catalog.IsSubsequence | services/gateway/internal/catalog/catalog.go:167-184 | true iff a strictly increasing embedding of the needle exists |
| Catalog.GreedyIsEmbedding | services/gateway/internal/catalog/catalog.go:173-183 | taking every match at once, left to right, misses no embedding |
| Catalog.Search | services/gateway/internal/catalog/catalog.go:149-165 | an entry is in the result iff it is in the catalog and the trimmed lower-case query embeds in its lower-case key or display name |
| Catalog.ResultIsFiltered | services/gateway/internal/catalog/catalog.go:157-164 | the result is the catalog without the entries where it does not, in catalog order |
| Catalog.MatchingMembers | services/gateway/internal/catalog/catalog.go:157-164 | an entry is in the result iff it is in the catalog and matches |
| Catalog.ExtendingNarrows | services/gateway/internal/catalog/catalog.go:152-165 | the result of an extended query is a search within the result of the shorter one |
| Catalog.Seed | services/gateway/internal/catalog/catalog.go:101-137 | from any bucket, success iff all writes succeed, and then exactly the catalog's keys and values; at no moment, early stops included, does a key that both revisions have go missing |
| Catalog.Evict | services/gateway/internal/catalog/catalog.go:116-136 | every key outside the catalog goes and no other |

## Left out

- NATS, Postgres, Valkey, S3, Typst, pypdf and the model providers themselves: each is an atomic step whose outcome is chosen by the action, with de-duplication by message id, delivery limits, GETDEL, expiry and statement guards kept.
- Stream ageing after 24 hours and the bucket's object lifecycle: the stream of a job only grows and stored PDFs stay.
- The two-minute de-duplication window as a duration: whether it has passed is chosen by each publish, except that a run's own retries, seconds apart, fall within the window its own stored message opened.
- Crashes in the middle of a gateway handler: a worker run can die between any two effects, a gateway operation is atomic but for the lost reply.
- SweepLoop, RunPullLoop and HandleJobEvents: the endless loops are proved over any finite sequence of ticks, rounds or wake-ups seen so far.
- Job ids containing a dot are not submitted in the pipeline: the database generates UUIDs. What such an id would do to a subject is in `Subjects.ParseOfSubject`.
- AcknowledgedIsApplied: says nothing about the counters, whose at-least-once side is `ProjectionLaws.CountersAccountForTerminalRows`.
- Mapped: Go's case mappings are any function on characters, one character to one; invalid UTF-8 in strings is not modelled.
- MissingKeyWasTaken: assumes that the bucket and the catalog agree on which models are fake; the seeding that makes them agree is `Catalog.Seed`, and the time between a new catalog and its seeding is not modelled.
- The catalog entry's optional description, the reading of the YAML file and protobuf encoding of entries.
- Re-encoding: a CV that decodes but cannot be written as JSON counts as a body that does not decode, which the gateway treats alike.
- Spans, logs, histograms, the heartbeat of a running handler and the backlog gauges; of the counters, those of terminal, swept and poisoned jobs and the workers' failure labels are kept.
- HTTP routing, templates, sessions, body limits and headers; of the handlers, only job submission and the links box of the profile form.
- The field-by-field protobuf, pydantic and Typst conversions, prompts, agents, provider construction beyond its three outcomes, settings, health servers, the bind loops at start-up, and deployment files.
