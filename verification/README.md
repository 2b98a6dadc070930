# A verified model of the content pipeline

The pipeline turns an artist's order into published content: a selection of assets, blueprints,
generated images or video scenes, rendering, quality control and publishing. Orders advance through
tasks that workers execute from queues and that an orchestrator follows up; around them stand an
image codec with perceptual hashing, an asset chooser, per-channel publishing limits and a fallback
chain of generation backends under a daily budget. This project models those parts in Dafny and
proves what they keep. `dafny verify dfyconfig.toml` checks everything.

## How the parts fit

- **Task lifecycle** (`TaskStates`, `Lifecycle`, `Platform`): one `World` holds the task rows, the
  job queue as a multiset, the runs in progress, the at-least-once queue of outcome notices, the
  event log, and the blueprint, content and scene tables. Each service method is one step and steps
  interleave freely; a claim, a scene write, a completion and a failure are separate steps, and a
  job or notice may be delivered again. A request for any task and the reopening of any scene are
  steps too: operator approval and regeneration are made of these. `Platform.Store` holds the same
  tables as fields and its methods are proved to change them exactly as the step functions say. On
  the steps rest `NoStranded` (no waiting task without a job, no running task without a run or a
  notice), `Accounting` (claims, entries and the fuel of automatic retries, read off the event log),
  `FollowUps` (a request is served, and what a completion or a verdict asks for), `Failures` (which
  failures are tried again, and what operators' actions do), `Exclusion` (when two executions of one
  task can coexist), `Rows` and `Redelivery` (which rows exist, and that redelivery adds none),
  `FanIn` and `StuckVideo` (rendering after the last scene, and two runs without it), `Spawning` (a
  completion touches tasks only through `createTask`) and `Ids` (the idempotency key as a string).
- **PNG codec** (`Bytes`, `Crc`, `Filter`, `Chunks`, `Png`, `PngDecoder`): the encoder, the
  table-driven checksum on JavaScript numbers, the chunk walk and the in-place scanline
  reconstruction, against the byte equations of section 6 of RFC 2083 and with round trips.
  Compression is a pair of functions supplied by the caller, constrained only to give back the one
  data stream in question.
- **Perceptual hashes** (`Hamming`): thresholding, packing into hexadecimal digits, and the distance.
- **Asset choice** (`StableSort`, `Diversify`): the session round-robin.
- **Blueprints** (`ScenePlan`, `Blueprint`): the restartable loop with its rotating cursor, and the
  rounding of the scene plan.
- **Channels** (`Publishing`, `ChannelHealth`, `Assignment`): headroom, quarantine and release, and
  the division of jobs over channels. `ChannelHealth.ChannelRecord` is the row changed in place.
- **Fallback** (`Registry`, `Generation`): registration order, the usable chain, and the budget.

## Where the code and its documentation differ

The model follows the code; each difference is a lemma.

- A claim does not make an execution exclusive by itself. Exactly one outstanding execution on each
  RUNNING row is kept by exactly those steps that neither move a RUNNING task away by escalation or
  cancellation nor redeliver a handled failure (`Exclusion.ExclusiveStep`), and a second simultaneous
  run begins exactly when a waiting row is claimed whose earlier run is still at work
  (`Exclusion.SecondRunIff`).
- Rendering after the last scene can fail: a failure handled while another run of the same
  scene has already written its scene marks that scene FAILED, and no RENDER task follows
  (`StuckVideo.AVideoCanStick`). An operator who asks for the rendering of one scene before the video
  is rendered can have quality control send a made scene back too early
  (`StuckVideo.ACheckCanComeTooEarly`). Besides these two only reopening a made scene by hand breaks the
  rule for a video, or a scene task asked for before the video exists, which no caller does; whatever
  happens to other tasks and whatever else is asked for by hand does not (`FanIn.FanInStep`).
- A channel's quarantine, documented as never ending by itself, ends in an observation that finds no
  removals and more posts than the cap (`Publishing.QuarantineStep`); a release to a cap below the
  day's count makes that reachable (`Publishing.QuarantineCanEndByItself`).
- The daily cap counts rows by their creation day and status, not uploads: an attempt left over from
  yesterday uploads today uncounted (`Publishing.CarriedUploadEscapesCap`), and so do a post taken down
  again and an upload after which something fails, which is recorded FAILED and may be repeated
  (`Publishing.LostUploadEscapesCap`). `Publishing.UploadsAccounted` shows that, as long as the status
  row itself can be written, no other upload is missed.
- An observation of a channel whose cap is below one raises the cap to one
  (`Publishing.ObservationLowersCap`).
- The fallback chain stops at the first backend the budget does not cover, even when a cheaper one
  stands behind it (`Generation.ResultIsFirstAffordableIff`).
- From 15998 seconds on, scene plans two seconds over a multiple of four come out one second too
  long (`ScenePlan.PlanIsExactIff`). Orders cannot ask for that: libs/contracts/src/order.dto.ts:13
  admits 5 to 600 seconds, where every plan is exact.
- Scenes regenerated after quality control start no new rendering: the RENDER request repeats the
  finished first key (`FanIn.FirstRenderIsFinal`).
- The signature test of `readPngSize` looks at four of the eight bytes, and chunk names are compared
  without their top bits.

## Model

| member | source | states |
|---|---|---|
| Platform.Store.CreateTask | libs/orchestration/src/task-factory.service.ts:46-110 | reuses a DONE or live row, revives a dead one, inserts a missing one; exactly the created or revived tasks are QUEUED with one more job and one more event, and no row is left dead |
| Platform.Store.Transition | libs/orchestration/src/task-factory.service.ts:161-182 | moves the row and logs it when the table allows, and otherwise changes nothing |
| Platform.Store.Claim | apps/worker/src/worker-runner.service.ts:50-59 | the claim succeeds exactly on waiting rows and turns them RUNNING |
| Platform.Store.StartProcessor | apps/worker/src/processors/video-generation.processor.ts:32-51 | a processor starts; a finished scene is not made again, any other scene turns GENERATING |
| Platform.Store.TakeJob | apps/worker/src/worker-runner.service.ts:61-76 | a job is executed when its claim succeeds and skipped otherwise, possibly staying in the queue for redelivery |
| Platform.Store.Produce | apps/worker/src/processors/video-generation.processor.ts:126 | the scene is written DONE before the run ends |
| Platform.Store.Complete | apps/worker/src/worker-runner.service.ts:81-92 | DONE is written whatever the state has become, and the notice goes out |
| Platform.Store.FailRun | apps/worker/src/worker-runner.service.ts:94-103 | a failed run leaves the row as it is and sends its notice |
| Platform.Store.MarkContentFailed | apps/orchestrator/src/failure-handler.service.ts:134-141 | a final failure marks the task's scene FAILED unless the task is a publish |
| Platform.Store.Handle | apps/orchestrator/src/failure-handler.service.ts:31-117 | defers, retries, falls back, escalates or fails as the class of the failure and the counters say, with one more job exactly when the task is tried again; counters are saved before a transition that may be refused |
| Platform.Store.FindContent | libs/orchestration/src/orchestrator.service.ts:99 | finds the content of a blueprint if there is one |
| Platform.Store.FindScene | libs/orchestration/src/orchestrator.service.ts:139 | finds a content's scene by number if there is one |
| Platform.Store.MaterializeScenes | libs/orchestration/src/orchestrator.service.ts:136-152 | adds exactly the scenes of the plan that are missing |
| Platform.Store.CreateSceneTasks | libs/orchestration/src/orchestrator.service.ts:116-123 | requests one task for each scene of the content |
| Platform.Store.FanOutOne | libs/orchestration/src/orchestrator.service.ts:97-132 | one blueprint: content, scenes, tasks |
| Platform.Store.FanOutContents | libs/orchestration/src/orchestrator.service.ts:85-134 | all blueprints of the order and no others |
| Platform.Store.AllScenesDone | libs/orchestration/src/orchestrator.service.ts:154-157 | there is a scene and every scene is DONE |
| Platform.Store.HandleQcResult | libs/orchestration/src/orchestrator.service.ts:164-219 | the latest verdict blocks, publishes, or starts one more attempt while attempts are left |
| Platform.Store.ReopenScenes | libs/orchestration/src/orchestrator.service.ts:195 | exactly the content's scenes become PENDING |
| Platform.Store.OnTaskDone | libs/orchestration/src/orchestrator.service.ts:28-82 | the follow-up of each kind of task, and after a check what its latest verdict says |
| Platform.Store.Approve | libs/orchestration/src/approval.service.ts:105-134 | asks for the content's publish task unless it is posted already |
| Platform.Store.RegenerateByHand | apps/api/src/content/content.service.ts:125-154 | reopens the scene named, if any, and requests one task of the module for the next attempt; refused when the scene is not one of the content |
| Lifecycle.RegenerationIsSteps | apps/api/src/content/content.service.ts:135-154 | a regeneration by hand is a reopening and a request, so runs of the model contain it |
| Lifecycle.ApprovalIsStep | libs/orchestration/src/approval.service.ts:126-133 | so is an operator's approval, a request |
| Platform.Store.ManualRetry | apps/api/src/task/task.service.ts:41-62 | an operator's retry raises the counter and requeues through RUNNING |
| Platform.Store.ManualCancel | apps/api/src/task/task.service.ts:64-67 | cancels where the table allows |
| Platform.Store.CancelOrder | apps/api/src/order/order.service.ts:186-194 | exactly the order's waiting tasks become CANCELLED, without jobs or events |
| Platform.Store.Scan | apps/orchestrator/src/sla-monitor.service.ts:39-55 | the overdue rows escalate one after another, refusals being skipped |
| Platform.ScanEscalatesOnlyRunning | apps/orchestrator/src/sla-monitor.service.ts:40-49 | a scan escalates exactly the RUNNING rows among the overdue ones; a QUEUED row stays |
| NoStranded.LiveStep | libs/orchestration/src/task-factory.service.ts:57-103 | every step, in any interleaving and with any task requested at any time, keeps each waiting task's job and each running task's run or failure notice |
| NoStranded.NoTaskIsStranded | apps/worker/src/worker-runner.service.ts:50-104 | over whole runs from any world without stranded tasks, no task is ever stranded |
| NoStranded.ReachableIsLive | libs/orchestration/src/task-factory.service.ts:57-103 | in every world reachable from the empty one no task is stranded |
| NoStranded.HandleEffect | apps/orchestrator/src/failure-handler.service.ts:46-116 | a handled failure touches one row and leaves it neither RUNNING nor waiting without a job |
| Accounting.ClaimsNeverExceedEntries | apps/worker/src/worker-runner.service.ts:50-71 | over all runs, successful claims of a task never exceed its entries into waiting states, whatever the queue holds |
| Accounting.DoneIsFinal | libs/orchestration/src/task-factory.service.ts:61-69 | a DONE task keeps its state and is never claimed again |
| Accounting.DoneRowStillCounts | apps/orchestrator/src/failure-handler.service.ts:107-111 | a late failure notice still raises the retry counter of a DONE row |
| Accounting.AutomationIsBounded | apps/orchestrator/src/failure-handler.service.ts:46-66 | executions gained over any run are at most the retries and deferrals left, plus revivals |
| Accounting.FreshTaskBound | apps/orchestrator/src/failure-handler.service.ts:19 | an unrevived task runs at most 1 + (maxRetry − retryCount) + 24 times |
| Accounting.RequeueSpends | apps/orchestrator/src/failure-handler.service.ts:94-116 | every automatic requeue strictly lowers what is left; a deferral never touches retryCount |
| Accounting.RefusedFailureLeavesState | libs/orchestration/src/task-factory.service.ts:169-171 | a failure notice for a DONE, CANCELLED or requeued task moves nothing but counters |
| Failures.FailureOutcome | apps/orchestrator/src/failure-handler.service.ts:46-116 | a failure of a RUNNING task queues it again exactly if it is the 24th deferral or earlier, or a passing failure with retries left, as FALLBACK without a backend and RETRY otherwise, one counter up; else it ends FAILED or ESCALATED by class; the log and the scene follow |
| Failures.FreshTaskBoundAttained | apps/orchestrator/src/failure-handler.service.ts:94-116 | for every task some run without revivals executes it exactly as often as the bound allows |
| Failures.JobOutcome | apps/worker/src/worker-runner.service.ts:50-76 | a job starts a run exactly when its row is QUEUED, RETRY or FALLBACK, and is skipped otherwise |
| Failures.ManualRetryOutcome | apps/api/src/task/task.service.ts:41-62 | exactly ESCALATED, FAILED, RETRY and FALLBACK rows are queued again, one retry up, through RUNNING |
| Failures.ManualCancelOutcome | apps/api/src/task/task.service.ts:64-67 | every row but DONE and FAILED ones turns CANCELLED |
| Failures.SlaOutcome | apps/orchestrator/src/sla-monitor.service.ts:40-49 | a breach escalates a RUNNING row and does nothing to any other |
| Failures.OrderCancelOutcome | apps/api/src/order/order.service.ts:186-194 | exactly the waiting rows of the order turn CANCELLED, and no job of the order left in the queue starts anything |
| Exclusion.ExclusiveStep | apps/worker/src/worker-runner.service.ts:68-81 | a step keeps one outstanding execution on each RUNNING row and none on any other if and only if it neither escalates nor cancels a RUNNING task nor leaves a handled failure to be delivered again |
| Exclusion.SecondRunIff | apps/worker/src/worker-runner.service.ts:50-71 | a task gets a second simultaneous run exactly when a waiting row is claimed while its earlier run is still at work |
| Exclusion.CalmRunsAreExclusive | apps/worker/src/worker-runner.service.ts:50-59 | over runs of such steps every task has at most one outstanding execution, and exactly the RUNNING ones have it |
| Rows.ShapeStep | libs/orchestration/src/orchestrator.service.ts:85-152 | every step, requests by hand for any key included, keeps one content per blueprint, one scene per planned number, their first tasks, and messages that refer to existing rows |
| Rows.ShapeRun | libs/orchestration/src/orchestrator.service.ts:28-82 | so does every run, and what identifies a content, a scene or a task never changes |
| Rows.FanOutFits | libs/orchestration/src/orchestrator.service.ts:97-132 | fanning out keeps the tables fitting and adds nothing but first generation rows |
| Rows.OddRowsAreByHand | apps/api/src/content/content.service.ts:145-154 | in every reachable world a task whose kind, scene or attempt the pipeline never asks for was requested by hand |
| Rows.KeysFitStep | libs/orchestration/src/orchestrator.service.ts:28-82 | the tasks of one content keep natural keys, and past its first round a RENDER row, exactly as long as nobody asks by hand for another key of it (or for rows that do not exist), whatever is asked for other contents |
| Spawning.OnTaskDoneSpawns | libs/orchestration/src/orchestrator.service.ts:28-82 | a completion acts on tasks only as a sequence of createTask requests |
| FollowUps.RequestEffect | libs/orchestration/src/task-factory.service.ts:57-103 | a missing row is inserted and an ESCALATED, FAILED or CANCELLED one revived, QUEUED with one more job and log entry; any other row is left alone, and so is every other task |
| FollowUps.RequestServes | libs/orchestration/src/task-factory.service.ts:57-103 | after a request its task is DONE, at work, or waiting with a job, whatever state the row was in |
| FollowUps.RequestStepServes | libs/orchestration/src/task-factory.service.ts:46-103 | so it is after an operator's request in every reachable world |
| FollowUps.ApprovalServes | libs/orchestration/src/approval.service.ts:120-133 | an approval serves the publish task of a content that is not posted |
| FollowUps.RegenerationServes | apps/api/src/content/content.service.ts:131-154 | a regeneration opens the scene named and serves the next attempt of the module that remakes the part named |
| FollowUps.VerdictDecides | libs/orchestration/src/orchestrator.service.ts:164-219 | BLOCKED changes nothing; PASS serves the publish task exactly if approved; FAIL serves attempt results + 1 of the image, the rendering or every scene, by what failed, exactly while attempts are left; no other task is touched |
| FollowUps.VerdictDelivered | libs/orchestration/src/orchestrator.service.ts:164-219 | the same for the delivery of a check's completion after any run |
| FollowUps.NextStage | libs/orchestration/src/orchestrator.service.ts:33-79 | a selection asks for the blueprints, an image or rendering for check number results + 1, the last finished scene for the rendering, and nothing else is touched |
| FollowUps.BlueprintDelivered | libs/orchestration/src/orchestrator.service.ts:85-134 | after any run, delivering a blueprint completion leaves every blueprint of the order with its content and each of its first tasks served, dead ones included |
| FollowUps.PublishNeedsPass | libs/orchestration/src/orchestrator.service.ts:213-219 | over every run, a PUBLISH row that nobody asked for by hand belongs to a content with a recorded PASS |
| Redelivery.DeliveryFansOut | libs/orchestration/src/orchestrator.service.ts:41-43 | delivering a blueprint completion gives each blueprint its content, scenes and tasks |
| Redelivery.FannedOutRun | libs/orchestration/src/orchestrator.service.ts:98-110 | over every run, short of a new blueprint for the order, the order stays fanned out |
| Redelivery.RedeliveryAddsNoRows | libs/orchestration/src/task-factory.service.ts:58-69 | delivering again, after any run whatever was asked for by hand in it, adds no content, scene or task row |
| Redelivery.SecondDeliveryAddsNoRows | libs/orchestration/src/task-factory.service.ts:58-69 | from the empty world: any run, a delivery, any further run without a new blueprint for the order, and a second delivery adds no row |
| Redelivery.ExactlyOnce | libs/orchestration/src/orchestrator.service.ts:97-131 | exactly one content per blueprint, one scene per plan entry, and among the naturally keyed first generation rows exactly one per scene or image |
| Redelivery.FirstGenerationIsAskedFor | libs/orchestration/src/orchestrator.service.ts:112-131 | in every reachable world a content has the first generation rows fan-out asks for, and no other but by hand |
| Redelivery.RegenerationIsBounded | libs/orchestration/src/orchestrator.service.ts:179-210 | over every run, at most max(1, maxQcAttempts) generation or render rows of a kind per content and scene, plus one for each further attempt asked for by hand, however often notices are redelivered |
| FanIn.FanInStep | libs/orchestration/src/orchestrator.service.ts:53-64 | content by content and for arbitrary requests by hand, a step keeps the fan-in property if and only if it does none of this: before the first rendering a made scene is marked FAILED by a failure, reopened by hand or sent back by quality control; or a scene task is asked for before its content exists |
| FanIn.OvertakenBreaks | apps/orchestrator/src/failure-handler.service.ts:139-141 | handling a final failure that marks a made scene does break it, for the content of the scene |
| FanIn.FanInSentBack | libs/orchestration/src/orchestrator.service.ts:192-203 | a failed check that sends scenes back breaks it exactly when one of them had been made before the first rendering |
| FanIn.RenderFollowsScenes | libs/orchestration/src/orchestrator.service.ts:55-60 | over every run that does not disturb this video, whatever happened to other tasks and was asked for by hand: once its scene tasks are DONE and their notices consumed the first RENDER row exists, and every other RENDER row of the first attempt was asked for by hand |
| FanIn.RenderFollowsInCalmRuns | libs/orchestration/src/orchestrator.service.ts:55-60 | in particular in runs with exclusive executions in which no scene of this video is reopened by hand and no unusual task of it asked for; there is then exactly one such row |
| FanIn.RenderOnlyAfterAllScenes | libs/orchestration/src/orchestrator.service.ts:154-157 | the first RENDER row appears only when the video has scenes and all are DONE, or at a request by hand for that very row |
| FanIn.ExclusiveNeverOvertakes | apps/worker/src/worker-runner.service.ts:50-59 | with exclusive executions and natural keys of the video no failure marks a made scene of it before the first rendering |
| FanIn.FirstRenderIsFinal | libs/orchestration/src/orchestrator.service.ts:57-60 | once the first RENDER task is DONE, no later completion of a scene task does anything, at any point of any run |
| StuckVideo.AVideoCanStick | libs/orchestration/src/orchestrator.service.ts:53-64 | a concrete run from the empty world, without any request or reopening by hand, settles every scene task and never creates RENDER |
| StuckVideo.ACheckCanComeTooEarly | apps/api/src/content/content.service.ts:134-154 | a concrete run from the empty world: the rendering of one scene is asked for by hand, its check sends the scene back, and the settled first scene task leaves no RENDER |
| Ids.KeyIdentifiesTask | libs/common/src/util/ids.ts:11-20 | two requests share a key exactly when kind, target, scene and attempt agree |
| Ids.KeyExample | libs/common/src/util/ids.ts:11-20 | the order of the fields, on three examples |
| Crc.PolynomialValue | libs/model-abstraction/src/media/png.ts:13 | the constant is the reflected generator polynomial of RFC 2083 |
| Crc.CrcTable | libs/model-abstraction/src/media/png.ts:9-17 | entry n is eight polynomial division steps of n |
| Crc.ComputeCrc32 | libs/model-abstraction/src/media/png.ts:19-23 | for every byte string the table-driven loop on signed and unsigned 32-bit numbers gives the bit-by-bit checksum |
| Crc.LookupFeedsByte | libs/model-abstraction/src/media/png.ts:21 | one table lookup brings in one byte, bit by bit |
| Crc.SingleByteErrorDetected | libs/model-abstraction/src/media/png.ts:19-23 | damage to any single byte changes the checksum |
| Crc.KnownChecksums | libs/model-abstraction/src/media/png.ts:20-22 | the checksum of nothing is 0 and that of one byte FF is FF000000, which fixes the preset and the final complement |
| Crc.TopBitLast | libs/model-abstraction/src/media/png.ts:12-14 | the most significant bit of a byte is divided last |
| Filter.PaethIsNearest | libs/model-abstraction/src/media/phash.ts:191-198 | the nearest of a, b, c to a + b − c, the first of them on a tie |
| Filter.ReconIffObeys | libs/model-abstraction/src/media/phash.ts:156-172 | the byte equations of sections 6.2 to 6.6 of RFC 2083 hold of the reconstructed row and of no other |
| Filter.ReconInvertsFilter | libs/model-abstraction/src/media/phash.ts:156-172 | reconstruction of a filtered row gives back the row, for all five filters |
| Filter.FilterInvertsRecon | libs/model-abstraction/src/media/phash.ts:156-172 | and filtering a reconstructed row gives back the data |
| Filter.UnfilterInverts | libs/model-abstraction/src/media/phash.ts:143-173 | for every image and every choice of filters row by row, reconstruction returns the image |
| Filter.FilterInverts | libs/model-abstraction/src/media/phash.ts:143-173 | every readable data stream is the filtered form of its reconstruction |
| Filter.ReconstructRow | libs/model-abstraction/src/media/phash.ts:156-172 | the inner loop leaves in place the row whose bytes obey the equations of its filter type, leaves earlier bytes alone, and stops exactly at an unknown filter type |
| Filter.ReconstructImage | libs/model-abstraction/src/media/phash.ts:147-173 | the outer loop fills the buffer with all rows, or stops exactly when some row's filter type is unknown |
| Filter.NarrowToRgb | libs/model-abstraction/src/media/phash.ts:177-184 | sample j of pixel k is sample j of the four-byte pixel k |
| Chunks.WriteChunk | libs/model-abstraction/src/media/png.ts:25-32 | length, name, data and the checksum over name and data |
| Chunks.DamageShows | libs/model-abstraction/src/media/png.ts:25-32 | the checksum field of a written chunk is that of its name and data as they stand, and damage to one byte of them shows |
| Chunks.CollectImageData | libs/model-abstraction/src/media/phash.ts:132-140 | the loop ends, stays in bounds and collects what the walk meets |
| Chunks.WalkCollects | libs/model-abstraction/src/media/phash.ts:132-140 | for any split of IDAT over chunks and any other chunks between, exactly the payloads in front of the end chunk |
| Chunks.TruncationYieldsPrefix | libs/model-abstraction/src/media/phash.ts:134-137 | a file cut anywhere yields a prefix of the whole file's image data |
| Png.HeaderReadsBack | libs/model-abstraction/src/media/png.ts:69-74 | a header gives back dimensions, bit depth and colour type, whatever follows |
| Png.SizeReadIff | libs/model-abstraction/src/media/png.ts:69-74 | dimensions are read exactly from files of at least 24 bytes that begin with the signature's first four bytes and an IHDR chunk |
| Png.PaintRaw | libs/model-abstraction/src/media/png.ts:37-49 | every row is a zero byte and the painted samples modulo 256 |
| Png.RawUnique | libs/model-abstraction/src/media/png.ts:37-49 | a picture has only one such stream |
| Png.EncodePng | libs/model-abstraction/src/media/png.ts:36-66 | the file is the signature and the three chunks over the one uncompressed stream of the picture; there is none exactly when a size does not fit 32 bits |
| PngDecoder.DecodeTruecolorPng | libs/model-abstraction/src/media/phash.ts:123-188 | refuses exactly the files that show no truecolour picture; fills the buffer with the picture of the others, whose samples obey the filter equations on the inflated image data |
| PngDecoder.DecodedObeys | libs/model-abstraction/src/media/phash.ts:145-184 | every decoded picture, whoever wrote the file, is the first three samples of rows that obey the equations byte by byte |
| PngDecoder.RefusedIff | libs/model-abstraction/src/media/phash.ts:125-171 | refused are exactly files that are not 8-bit truecolour, hold no image data, cannot be inflated, are too short or name an unknown filter |
| PngDecoder.DecodeInverts | libs/model-abstraction/src/media/phash.ts:123-188 | any filters, any chunk split, three or four samples a pixel: the decoder returns the picture |
| PngDecoder.RoundTrip | libs/model-abstraction/src/media/png.ts:36-74 | decoding the file the encoder returns gives exactly the painted samples modulo 256, and its dimensions |
| PngDecoder.PaintedSample | libs/model-abstraction/src/media/png.ts:42-48 | which sample of a row belongs to which pixel and colour |
| Hamming.HammingDistance | libs/model-abstraction/src/media/phash.ts:18-26 | the number of differing bits, or the largest safe integer for different lengths |
| Hamming.DistanceIsMetric | libs/model-abstraction/src/media/phash.ts:18-26 | symmetric, bounded, triangle inequality, zero exactly when the digits agree |
| Hamming.LengthsApart | libs/model-abstraction/src/media/phash.ts:19 | strings of different lengths have distance 2^53 − 1, more than any two of one length below 2^51 |
| Hamming.ZeroIffEqual | libs/model-abstraction/src/media/phash.ts:17-26 | hashes in lower case are equal exactly when their distance is zero |
| Hamming.PackingKeepsBits | libs/model-abstraction/src/media/phash.ts:86-88 | the digits carry the bits unchanged |
| Hamming.PackedDistance | libs/model-abstraction/src/media/phash.ts:17-26 | the distance of packed hashes is the number of bits in which they differ |
| Hamming.HashOfCoefficients | libs/model-abstraction/src/media/phash.ts:74-88 | sixteen digits: a zero bit and 63 comparisons with the median, in order |
| Hamming.HashIsBalanced | libs/model-abstraction/src/media/phash.ts:74-84 | at most 31 bits are set, exactly 31 when the median is not repeated above itself |
| Hamming.HashBit | libs/model-abstraction/src/media/phash.ts:76-88 | bit 4k + i is the bit of weight 8, 4, 2, 1 of digit k, set exactly when its coefficient exceeds the median |
| Hamming.CaseDoesNotMatter | libs/model-abstraction/src/media/phash.ts:21 | upper-case digits count as lower-case ones |
| StableSort.SortAscending | libs/domain/src/selection/fit-score.ts:240 | sorting by a numeric comparator orders the elements |
| StableSort.SortStable | libs/domain/src/selection/fit-score.ts:240 | and keeps equal elements in their order |
| Diversify.GroupBySession | libs/domain/src/selection/fit-score.ts:233-238 | each session's list holds its elements in order, sessions in order of first appearance |
| Diversify.TakeTurns | libs/domain/src/selection/fit-score.ts:242-255 | the loop deals round by round and ends with k elements or with every session used up |
| Diversify.TurnsFill | libs/domain/src/selection/fit-score.ts:253 | when every session is used up everything has been dealt, so the exit without progress is never taken with more candidates than places |
| Diversify.DealtFront | libs/domain/src/selection/fit-score.ts:245-252 | what is dealt from a session is the front of its own list, one element a round |
| Diversify.DealIsFair | libs/domain/src/selection/fit-score.ts:242-254 | a session with elements left is never two behind another |
| Diversify.DealTakesBest | libs/domain/src/selection/fit-score.ts:239-252 | exactly the best min(k, sessions) sessions appear, their heads first, by score |
| Diversify.BestMeansBetter | libs/domain/src/selection/fit-score.ts:239-252 | no session left out has a better first element than one taken, and the first elements come in falling score |
| Diversify.DiversifyTop | libs/domain/src/selection/fit-score.ts:229-256 | exactly min(k, n) elements, all of them in order when they fit, and otherwise dealt fairly with the better sessions first |
| ScenePlan.BuildScenePlan | apps/worker/src/processors/blueprint.processor.ts:129-164 | the loop with its running remainder makes the plan described scene by scene |
| ScenePlan.PlanIsExactIff | apps/worker/src/processors/blueprint.processor.ts:130-143 | never shorter than asked for, and for which durations exact |
| ScenePlan.ScenesInRange | apps/worker/src/processors/blueprint.processor.ts:125-163 | for every duration the scenes last three to six seconds and are numbered from one |
| ScenePlan.ThousandScenesAreExact | libs/domain/src/order/cost-estimator.ts:21-24 | up to a thousand scenes, as the estimate counts them, the plan is exact |
| ScenePlan.RealAndMadeAlternate | apps/worker/src/processors/blueprint.processor.ts:145-147 | with assets real and generated scenes alternate, real first; without, none is real |
| Blueprint.PickRotating | apps/worker/src/processors/blueprint.processor.ts:180-185 | n elements going round from the start position |
| Blueprint.Process | apps/worker/src/processors/blueprint.processor.ts:45-85 | the three nested loops fill the missing slots, keep existing rows, move the cursor over both, and report every slot in order |
| Blueprint.SlotsOfOrder | apps/worker/src/processors/blueprint.processor.ts:46-50 | each channel has the rows 1 to outputs times quantity, each once |
| Blueprint.SlotCount | apps/worker/src/processors/blueprint.processor.ts:46-50 | channels times outputs times quantity slots |
| Blueprint.SlotAt | apps/worker/src/processors/blueprint.processor.ts:46-50 | slot by slot: channel after channel, in each the output types in order, quantity of each, numbered through from one |
| Blueprint.CursorCounts | apps/worker/src/processors/blueprint.processor.ts:103-106 | the cursor moves by one for an image and by the number of scenes for a video |
| Blueprint.AssetsRecur | apps/worker/src/processors/blueprint.processor.ts:145 | the scenes of a plan go through its assets in order, over and over |
| Blueprint.FilledPlans | apps/worker/src/processors/blueprint.processor.ts:51-60 | each missing slot gets the plan of its own place in the rotation, whatever else was missing |
| Blueprint.RestartCompletes | apps/worker/src/processors/blueprint.processor.ts:51-56 | from any subset of its rows a run ends with the table of an uninterrupted one |
| Blueprint.RestartAnywhere | apps/worker/src/processors/blueprint.processor.ts:45-85 | in particular when stopped after any number of slots |
| Blueprint.EvenUse | apps/worker/src/processors/blueprint.processor.ts:45-60 | no asset is handed out to the slots two times more often than another, for any output types |
| Blueprint.VideoOrderShowsRotation | apps/worker/src/processors/blueprint.processor.ts:103-106 | in a video order the scenes show exactly the assets handed out, in rotation |
| Blueprint.ScenesUseAssetsEvenly | apps/worker/src/processors/blueprint.processor.ts:45-85 | in the finished table of a video order, restarted or not, the numbers of scenes showing any two selected assets differ by at most one |
| Publishing.RoomMeans | libs/orchestration/src/channel-health.service.ts:56-89 | a slot is free exactly when the channel is active, not quarantined, past the interval and below the cap |
| Publishing.RoomFromRows | libs/orchestration/src/channel-health.service.ts:54-87 | the same from the rows: every post is old enough and those of the day are fewer than the cap |
| Publishing.AttemptOutcome | apps/worker/src/processors/publish.processor.ts:48-155 | nothing happens on an inactive channel or for a content that is up; otherwise the row ends UPLOADED exactly with room and if all went well, else FAILED, and keeps its creation time; no other row changes |
| Publishing.StatusOutcome | apps/api/src/channel/channel.controller.ts:138-157 | making a post public changes its status to PUBLISHED and nothing else |
| Publishing.CapStep | libs/orchestration/src/channel-health.service.ts:81-104 | every step stays within the cap, a release exactly when its cap covers the day's count |
| Publishing.CapHolds | libs/orchestration/src/channel-health.service.ts:163-172 | over any serialised run the count stays within the cap and the throttling branch is never reached |
| Publishing.QuarantineStep | libs/orchestration/src/channel-health.service.ts:152-180 | exactly when a step other than a release ends quarantine |
| Publishing.QuarantineHolds | libs/orchestration/src/channel-health.service.ts:221-235 | within the cap only a release ends quarantine, and until then nothing is posted |
| Publishing.QuarantineUploadsNothing | apps/worker/src/processors/publish.processor.ts:80-82 | nor uploaded without being recorded |
| Publishing.ObservationOutcome | libs/orchestration/src/channel-health.service.ts:145-219 | a removed post quarantines the channel; otherwise more posts of the day than the cap throttle it and lower the cap by one, not below one; otherwise a throttled channel is active again and any other stays as it is |
| Publishing.RemovalStopsUploads | libs/orchestration/src/channel-health.service.ts:152-161 | after a removal the next observation quarantines the channel, and within the cap nothing is uploaded over any run until a release |
| Publishing.OperatorOutcome | libs/orchestration/src/channel-health.service.ts:222-248 | a quarantine leaves no room; a release makes the channel active under the smaller of the cap asked for and the safe one |
| Publishing.QuarantineCanEndByItself | libs/orchestration/src/channel-health.service.ts:163-168 | a run in which an observation ends a quarantine |
| Publishing.ObservationLowersCap | libs/orchestration/src/channel-health.service.ts:167 | throttling lowers the cap by one, and raises it only from below one |
| Publishing.UploadsAccounted | libs/orchestration/src/channel-health.service.ts:250-259 | every real upload of a day is counted, carried over, withdrawn, or lost by a failure after it |
| Publishing.UploadsWithinCap | apps/worker/src/processors/publish.processor.ts:80-82 | real uploads exceed the cap at most by the carried, withdrawn and lost ones, and not at all in runs without these |
| Publishing.CarriedUploadEscapesCap | libs/orchestration/src/channel-health.service.ts:250-259 | two uploads in a day under a cap of one, through a row left from yesterday |
| Publishing.LostUploadEscapesCap | apps/worker/src/processors/publish.processor.ts:134-153 | one content uploaded twice under a cap of one, the first upload recorded FAILED |
| ChannelHealth.ChannelRecord.AssertCanPublish | libs/orchestration/src/channel-health.service.ts:95-104 | refuses exactly without room, and names quarantine |
| ChannelHealth.ChannelRecord.StartPublish | apps/worker/src/processors/publish.processor.ts:48-74 | an inactive channel is refused, a posted row skipped, any other row is UPLOADING before the guard |
| ChannelHealth.ChannelRecord.FinishPublish | apps/worker/src/processors/publish.processor.ts:76-155 | uploads only behind the guard; the row is UPLOADED when the upload and all that follows succeed, and FAILED otherwise, even after an upload |
| ChannelHealth.ChannelRecord.Publicize | apps/api/src/channel/channel.controller.ts:138-157 | only posted rows are made public |
| ChannelHealth.ChannelRecord.Observe | libs/orchestration/src/channel-health.service.ts:145-180 | a removal quarantines and leaves no room, more posts than the cap throttle and lower the cap, a throttled channel is freed otherwise |
| ChannelHealth.ChannelRecord.ObserveToday | libs/orchestration/src/channel-health.service.ts:208-219 | the metrics are the day's count, all removals and the channel's own cap |
| ChannelHealth.ChannelRecord.Release | libs/orchestration/src/channel-health.service.ts:222-235 | active again, with a cap no higher than the observed safe one |
| ChannelHealth.ChannelRecord.Quarantine | libs/orchestration/src/channel-health.service.ts:237-248 | quarantined, nothing else changed |
| Assignment.Assign | libs/orchestration/src/channel-health.service.ts:110-139 | fails exactly when a channel is unknown, and otherwise divides the jobs into those that fit and those deferred with their channel's reason |
| Assignment.DeferredSayWhy | libs/orchestration/src/channel-health.service.ts:126-128 | every job put off carries its own channel's reason |
| Assignment.PlanUsesRoom | libs/orchestration/src/channel-health.service.ts:124-132 | each channel gets exactly min(its jobs, its headroom) |
| Assignment.PositionsPartition | libs/orchestration/src/channel-health.service.ts:122-132 | plan and deferred are subsequences that together have every job |
| Assignment.InPositions | libs/orchestration/src/channel-health.service.ts:125-131 | a job is in the one or the other according to the jobs before it |
| Assignment.DeferredAfterRoomIsUsed | libs/orchestration/src/channel-health.service.ts:126-128 | a job is deferred only when its channel's room has gone to jobs before it |
| Assignment.PlannedFitsCap | libs/orchestration/src/channel-health.service.ts:106-131 | what is planned for a channel fits its cap beside the day's posts, and nothing is planned for one that may not publish |
| Registry.ModelRegistry.Register | libs/model-abstraction/src/registry.service.ts:19-27 | the capability's list with the backend sorted in, the other lists unchanged, and every list the outcome of its registrations |
| Registry.PriorityThenRegistration | libs/model-abstraction/src/registry.service.ts:21-23 | after any registrations the list is by priority, and by registration where priorities are equal |
| Registry.UsableMeans | libs/model-abstraction/src/registry.service.ts:40-60 | a backend is usable when it costs no more than asked and a health answer younger than the time to live, or without one its own answer now, says so |
| Registry.ModelRegistry.IsHealthy | libs/model-abstraction/src/registry.service.ts:40-52 | a fresh cached answer or the backend's own, and asking changes no later answer |
| Registry.ModelRegistry.Resolve | libs/model-abstraction/src/registry.service.ts:54-63 | the usable backends in list order; fails exactly when there is none |
| Registry.ChainPositions | libs/model-abstraction/src/registry.service.ts:56-60 | the chain is the subsequence of exactly the usable backends |
| Generation.GenerationService.Allow | libs/model-abstraction/src/cost-guard.service.ts:50-61 | allowed without agent, without positive budget, or within it; a refusal pauses the agent |
| Generation.GenerationService.Generate | libs/model-abstraction/src/generation.service.ts:51-92 | over a registry made by registrations: a request the cache does not answer has a result exactly when some registered backend is used, every usable one before it in registry order being affordable and failing; the outcome and the books follow |
| Generation.TriedIff | libs/model-abstraction/src/generation.service.ts:71-91 | exactly when the loop ends with a result, with the budget, or without a backend |
| Generation.ResultIsFirstAffordableIff | libs/model-abstraction/src/generation.service.ts:72-74 | the first affordable backend that succeeds is used exactly when no backend before it is too expensive |
| Generation.ResultInRegistrationOrder | libs/model-abstraction/src/registry.service.ts:54-63 | after any registrations the list is by priority and then by registration, and a call ends with a result exactly when some entry is usable, affordable and succeeding while every usable one before it is affordable and fails |
| Generation.FirstWorkingIsUsedIff | libs/model-abstraction/src/generation.service.ts:71-91 | the first usable, affordable, succeeding entry of the registry is the one used exactly when no usable one before it is too expensive |
| Generation.RequestUsesRegistry | libs/model-abstraction/src/generation.service.ts:68-83 | the same for a request to the service over its registry |
| Generation.CheapBackendIsNotReached | libs/model-abstraction/src/generation.service.ts:72-74 | a concrete budget of 5 and an empty log: the dear first backend stops the call and pauses the agent although the second is affordable |
| Generation.SettledWithinBudget | libs/model-abstraction/src/cost-guard.service.ts:52-60 | a call of honest backends keeps every agent within its budget |
| Generation.CanSpendIff | libs/model-abstraction/src/cost-guard.service.ts:50-61 | an amount is allowed exactly when with it in the log the agent is within its budget for the day, or has none |
| Generation.SettledBooks | libs/model-abstraction/src/generation.service.ts:71-91 | a call adds exactly its result's cost to its own agent's day, pauses that agent exactly when the budget stopped it, and changes nothing on a cache hit |
| Generation.BooksBalance | libs/model-abstraction/src/generation.service.ts:71-83 | over every sequence of calls and days each agent's spending of a day is what its results of that day cost |
| Generation.BudgetHolds | libs/model-abstraction/src/generation.service.ts:71-83 | so does every sequence of calls and days |

## Left out

- Second-round video rendering: after a quality-control retry of scenes the RENDER task is requested with attempt 1, whose key is already DONE, so no new render follows (FanIn.FirstRenderIsFinal); the fan-in property is stated for the first round only.
- Redelivery.ExactlyOnce: speaks of the attempt-1 rows of a fanned-out order; the rows of later rounds are counted by RegenerationIsBounded.
- FanIn.RenderFollowsScenes: asks that no step disturbs the video in question, because a disturbed one can stay without RENDER (StuckVideo.AVideoCanStick, StuckVideo.ACheckCanComeTooEarly).
- FanIn.RenderOnlyAfterAllScenes: leaves out a request by hand for the RENDER row itself, which asks about no scene.
- Crashes between a row save and its enqueue, lost notices, database isolation and two jobs with one millisecond's identifier: service methods are atomic steps.
- Task priorities, payloads, delays, deadlines and the scan's limit of 100 rows: a step may take any waiting job or any overdue row.
- Content and order statuses: no modelled property depends on them; a DONE scene is taken to have its stored artifact.
- Platform.Store.Approve: whether the content is posted already, or has no channel, is a parameter; publications belong to another part of the model.
- Platform.Store.RegenerateByHand: the guard on the content's status is left out, so the model's runs contain more regenerations than the program allows.
- The decision of the approval policy after a passed quality control is a parameter of the step.
- Blueprint rows are fanned out in table order, not by sequence number; plan entries are the numbers 1 to the plan's length.
- The size limits of Node buffers and the implementation of zlib: compression and decompression are function parameters.
- The discrete cosine transform and grey-scale reduction: floating point; hashing starts from the coefficients, as real numbers.
- Prompts, subtitles, layouts and styles of blueprints: functions of the inputs alone, without a property of their own.
- Concurrent publishing on one channel: the check and the upload are one step, and no time passes between them; of credentials, optimising, signing, the upload and the writes after it the model keeps whether a post went up and whether it was recorded.
- Publishing.UploadsWithinCap: bounds real uploads by the cap itself only in runs without carried, withdrawn and lost uploads, because the property is false beyond them (Publishing.CarriedUploadEscapesCap, Publishing.LostUploadEscapesCap).
- Time passing while several health checks of one chain are made, and a cost log that cannot be written: a call sees one instant, and its log line is written.
- The embedding path, which records its cost without asking the budget: Generation.BudgetHolds is about `generate` only.
- Scores, eligibility, cost estimates beyond the scene count, content stages, roles, controllers, storage, notifications and the user interface: each is settled by reading a branch or two, or is plumbing.
