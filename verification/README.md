# StudyMate backend: protocols and invariants

This project models the parts of StudyMate's Go backend whose guarantees span many functions, and
proves what they keep. Tables are maps, one SQL statement is one atomic step, a transaction commits or
rolls back as a whole, and every result is about all inputs, all interleavings or all histories.

| area | modules |
|---|---|
| resumable page upload | `ChunkProtocol` (one page as a state machine over its calls), `UploadTables` (the handlers over tables and object store), `ChunkRace` (two chunk requests at once), `UploadWakeup` (interleaved completion handlers), `Receipts`, `ObjectKeys` |
| scan jobs | `ScanLifecycle` (the machine of workers, users, uploads and administrators), `ScanReferences`, `ScanLease`, `ScanReviews` (what a job says about its exam), `ScanBatches`, `ScanWorker` (the worker's code), `ScanHistories`, `ScanModel` |
| quiz cache | `ContentCache`, `ContentKey` |
| drafts and attempts | `DraftInput`, `Drafts`, `Attempts`, `AttemptHistory` (attempts while quizzes change), `ReviewAgreement`, `Scores` |
| billing | `Billing` (one call after the other), `BillingCalls` (every interleaving), `Subscriptions` |
| notifications | `NotificationQueue`, `PushSender`, `RateLimit`, `CircuitBreaker` |
| practice and progress | `PracticeSets`, `SkillGaps`, `Streaks` |

Code that changes state is a class whose methods are proved equal to a step on values; the results are
lemmas about histories of those steps. Outside calls (OCR, AI, object store, clock, database choices such
as an unordered `LIMIT 1`, evictions, failures) are parameters.

Where the code does not keep what it looks like it keeps, the model follows the code:

- A page whose chunks were deleted but which could not be marked uploaded is stranded for good
  (`ChunkProtocol.MarkFailureStrands`, `StrandedForever`).
- Two chunk requests at once can lose a receipt that was answered, or reopen an uploaded page, which then
  has receipts without chunks and can never be completed (`ChunkRace.WriteLosesReceiptIff`,
  `WriteReopensIff`, `ChunkProtocol.ReopenedNeverCompletes`).
- A page row added or reopened between another handler's count and its write lets a job leave `uploading`
  early, a second handler writes `pending` onto a job that may be claimed already, and a failure of the only
  handler left to write loses the wakeup until a completion call is repeated
  (`UploadWakeup.EarlyIffUncountedPage`, `WritesLateIff`, `StaysUploadingIff`, `RepeatedCompletionRecovers`).
- Requeueing a job that a worker holds, and a worker that is silent for longer than the lease, put a job into
  two hands (`ScanLease.RequeueDoublesIff`, `ClaimCanDoubleIff`, `ScanHistories.JobHeldTwice`); a job left in `ocr_complete` is never
  reclaimed (`OCRCompleteIsNeverReclaimed`).
- `SaveDraft` checks the status before its transaction, so a late save rewrites a published quiz; quizzes in
  the cache are out of its reach (`ScanReferences.CompleteQuizChangesIff`, `CachedQuizIsFrozen`,
  `ScanHistories.LateSaveRewritesPublished`).
- A publication between a worker's link and its last status write leaves the job of a published exam asking
  for a review, for good (`ScanReviews.ReviewsStayDraftsIff`, `AsksInVainForever`,
  `ScanHistories.PublishedExamStaysInReview`).
- `PurgeAll`, a store whose Valkey write failed and an invalidation whose Valkey delete failed leave the old
  entry visible, and a lookup that read a row before it was removed writes it back to Valkey after
  (`ContentCache.RefinesIff`, `PurgeAllLeavesHitsIff`, `FailedValkeyWriteIsSeenIff`, `StaleRefillIff`).
- A blank option before the chosen one moves the answer (`DraftInput.ChosenOptionStaysIff`), and an
  explanation generated at publication stays hidden behind the empty row the worker wrote
  (`Drafts.GeneratedExplanationShownIff`).
- Two CreateAttempt calls at once open two attempts (`AttemptHistory.SecondAttemptIffOvertaken`,
  `OverlappingCallsOpenTwo`).
- A late save, a question added to a quiz that is already being attempted, and the deletion of an option that
  was chosen make the review of a completed attempt disagree with its score (`ReviewAgreement.DisturbedIff`,
  `LateSaveBreaksReview`).
- Two completions of one order that both read it before either marks it extend twice, and a completion that
  fails between its mark and its upsert never extends (`BillingCalls.CountsTwiceIff`, `OverlapIsReached`,
  `AbortLosesExtension`).
- Every fresh capture of a failed order buys another month, a failed delivery swallows its own retries, the
  first PayU callback decides its order, and a cancellation forfeits stacked time
  (`Billing.FailedOrderKeepsExtending`, `FailedDeliveryIsSwallowed`, `FirstPayUCallbackDecides`,
  `CancelForfeitsIff`).
- When a date lies after today, which an attempt's client can send, the list-based streak counts from that
  date: it adds the days up to it to the streak if all of them are there, and otherwise counts only days
  after today (`Streaks.StreaksCompared`).
- A question of a committed practice set that is deleted with its draft is missing for every later caller
  (`PracticeSets.SetChangesIff`, `IncompleteSetIsServed`).
- A score of 100 does not mean all correct from 2000 questions on (`Scores.FullMarksIff`).
- `skillgaps.go` says a separator in a subject cannot occur; without that the key still names one row, but
  not the subject's (`SkillGaps.SplitReversesKeyIff`, `KeyReversesSplit`).

## Model

| member | source | states |
|---|---|---|
| ChunkProtocol.ReceiptsAreFirstAcceptedCalls | backend/internal/scan/upload_chunked.go:81-136 | after any chunk calls in any order, with repeats, rejections and completions that failed without deleting chunks, receipts and stored chunks are those of the first well-formed request for each number of the first agreed total |
| ChunkProtocol.CompletionIffEveryChunkAccepted | backend/internal/scan/upload_chunked.go:194-210 | the receipt check passes iff every chunk 0..total-1 has been accepted, and then no stored chunk is missing |
| ChunkProtocol.ComposedPageIsAcceptedChunks | backend/internal/scan/upload_chunked.go:212-243 | the stored page is the accepted chunks in index order and can never exceed the page limit |
| ChunkProtocol.UploadedNamesItsObject | backend/internal/scan/upload_chunked.go:228-250 | in every history an uploaded page names the key of the completion call that composed it, and what that call stored is the chunks of that moment in index order |
| ChunkProtocol.ChunkAnswersMean | backend/internal/scan/upload_chunked.go:81-136 | what the answers received, already received and total mismatch say about the page, in every history without a completion that deleted chunks |
| ChunkProtocol.SplitFileComesBack | backend/internal/scan/upload_chunked.go:81-243 | a file cut into 512 KB chunks comes back byte for byte, whatever else was sent to the page |
| ChunkProtocol.UploadedIsFinal | backend/internal/scan/upload_chunked.go:75-79 | no later call of either kind changes an uploaded page |
| ChunkProtocol.ChunkStepKeepsInv | backend/internal/scan/upload_chunked.go:97-136 | a chunk call keeps receipts distinct, in range and backed by stored chunks; the first chunk's page-size check can never fire |
| ChunkProtocol.CompleteStepKeepsInv | backend/internal/scan/upload_chunked.go:194-250 | so does a completion call, whichever of its writes fail |
| ChunkProtocol.MarkFailureStrands | backend/internal/scan/upload_chunked.go:228-250 | a completion that cannot mark its page strands it iff the chunks were already deleted |
| ChunkProtocol.StrandedForever | backend/internal/scan/upload_chunked.go:81-136 | no later call ever changes or completes a stranded page |
| ChunkProtocol.StrandedIsReached | backend/internal/scan/upload_chunked.go:228-250 | one chunk and one completion that deletes it and cannot mark the page strand a page |
| ChunkProtocol.HollowForever | backend/internal/scan/upload_chunked.go:81-227 | a chunk with a receipt that is not stored is never accepted again, so no chunk and completion calls ever compose its page |
| ChunkProtocol.ReopenedNeverCompletes | backend/internal/scan/upload_chunked.go:81-227 | a page reopened by a late write after its chunks were deleted never completes again, unless the late chunk was its only one |
| ChunkProtocol.SealedIsUploadedOrStranded | backend/internal/scan/upload_chunked.go:194-250 | after any history the page is uploaded or stranded iff some completion marked it or deleted its chunks and failed to, so every history is covered |
| ChunkRace.WriteLosesReceiptIff | backend/internal/scan/upload_chunked.go:75-136 | in every interleaving a request's write drops a chunk's receipt iff, since its read, another request wrote the row last with that chunk in it, and this one neither read it nor is it |
| ChunkRace.WriteReopensIff | backend/internal/scan/repository.go:439-460 | it reopens an uploaded page, with the receipts of its read and its own, iff since its read a completion marked the page and nothing was written after |
| ChunkRace.OneAtATimeLosesNothing | backend/internal/scan/upload_chunked.go:97-136 | one request after the other, the receipts are exactly the chunks that were answered as received |
| ChunkRace.OverlapLosesReceipt | backend/internal/scan/upload_chunked.go:97-136 | a history of two requests that loses an answered chunk |
| ChunkRace.OverlapReopensPage | backend/internal/scan/upload_chunked.go:75-136 | a history of two requests and a completion that reopens an uploaded page |
| Receipts.Pigeonhole | backend/internal/scan/upload_chunked.go:194-210 | distinct receipts below n are all of 0..n-1 iff there are n |
| Receipts.SortInts | backend/internal/scan/upload_chunked.go:199-205 | sorting in place gives an ascending permutation |
| ObjectKeys.PrefixSelectsOnePage | backend/internal/scan/upload_chunked.go:289-291 | as strings, the chunk prefix of a page matches that page's chunk keys and no other page's |
| ObjectKeys.ChunkKeyInjective | backend/internal/scan/upload_chunked.go:289-291 | different chunks never share an object key |
| ObjectKeys.PageKeyDeterminesPage | backend/internal/scan/upload_chunked.go:235-237 | as strings, keys of composed pages differ for different pages |
| UploadTables.UploadTables.HandleChunkUpload | backend/internal/scan/upload_chunked.go:40-145 | the handler performs one protocol step on its page, changes no other page, refuses missing headers and foreign jobs without a trace, and every uploaded page still names its object |
| UploadTables.UploadTables.HandleUploadComplete | backend/internal/scan/upload_chunked.go:147-263 | when it answers composed, all chunks 0..total-1 were stored and the page is uploaded and names an object in the store that holds them in index order; otherwise no page row changes; pages uploaded before keep their objects, and the job moves to pending only when all pages are uploaded; the gap and size branches are dead |
| UploadTables.UploadTables.FindGap | backend/internal/scan/upload_chunked.go:199-210 | sort and scan find the smallest chunk number that was not received |
| UploadTables.UploadTables.CheckReceipts | backend/internal/scan/upload_chunked.go:186-210 | the receipt checks refuse for a wrong total or too few receipts and for nothing else |
| UploadTables.UploadTables.Compose | backend/internal/scan/upload_chunked.go:212-227 | the loop returns the concatenation of all chunks, or the first one that is not stored |
| UploadTables.UploadTables.ChunkAlreadyReceived | backend/internal/scan/upload_chunked.go:307-314 | true iff the number is among the receipts |
| UploadTables.UploadTables.RecordChunkReceipt | backend/internal/scan/upload_chunked.go:316-326 | a receipt is added once and never twice |
| UploadTables.DeleteChunksView | backend/internal/scan/upload_chunked.go:237-243 | deleting a page's chunk prefix empties that page and leaves every other page's chunks |
| UploadWakeup.LastPageWakesTheJob | backend/internal/scan/upload_chunked.go:245-257 | in any interleaving of completion handlers, with any failures that do not take away the only wakeup, once they are done and all pages are uploaded the job has left uploading |
| UploadWakeup.StaysUploadingIff | backend/internal/scan/upload_chunked.go:245-257 | with any failures whatever, the job is then still uploading iff some failure lost the wakeup and nothing after it made it good |
| UploadWakeup.WakeupLostIff | backend/internal/scan/service.go:106-112 | a step loses the wakeup iff it is the failure of the only handler that would have written, after the last page is uploaded |
| UploadWakeup.WakeupRecoveredIff | backend/internal/scan/upload_chunked.go:172-184 | a step makes a lost wakeup good iff it marks a page, takes the idempotent path having seen the job uploading, or adds or reopens a page |
| UploadWakeup.JobWaitsForLastPage | backend/internal/scan/repository.go:450-477 | with any failures, the step that takes the job out of uploading finds every page uploaded, if no page was added or reopened between some handler's count and write |
| UploadWakeup.EarlyIffUncountedPage | backend/internal/scan/repository.go:462-477 | in every run a handler wakes the job too early iff a page is not uploaded that its count did not cover or that was reopened since |
| UploadWakeup.RepeatedCompletionRecovers | backend/internal/scan/upload_chunked.go:172-184 | repeating a completion call wakes a job whose wakeup was lost |
| UploadWakeup.FailureLosesWakeup | backend/internal/scan/service.go:106-112 | a history that leaves a fully uploaded job in uploading: one page, its handler fails after marking it |
| UploadWakeup.PageAddedTooLate | backend/internal/scan/repository.go:431-437 | a page row created between count and write lets the job leave early |
| UploadWakeup.ReopenedTooLate | backend/internal/scan/repository.go:439-448 | a counted page reopened before the write lets the job leave early |
| UploadWakeup.WritesLateIff | backend/internal/scan/upload_chunked.go:251-257 | in every run a handler writes pending onto a job that has left uploading iff another handler has written before |
| UploadWakeup.HandlersWritePending | backend/internal/scan/upload_chunked.go:172-257 | a handler writes pending iff it found every page uploaded and, on the path for a composed page, had seen the job uploading |
| UploadWakeup.ClaimedJobIsPutBack | backend/internal/scan/upload_chunked.go:251-257 | two last pages: a job claimed after the first handler's write is put back by the second |
| ScanWorker.ScanTables.PickJobs | backend/internal/scan/worker_repository.go:28-45 | the claim takes the oldest claimable unlocked rows, at most the limit, and all of them if there are fewer |
| ScanWorker.ScanTables.ClaimPendingJobs | backend/internal/scan/worker_repository.go:28-66 | claims the oldest claimable unlocked rows up to the limit, one if the limit is not positive, and marks exactly these |
| ScanWorker.ScanTables.Poll | backend/internal/scan/worker.go:163-185 | a poll of an idle worker is the claim step of the machine, with a batch no larger than MaxConcurrent |
| ScanWorker.ScanTables.constructor | backend/internal/scan/worker.go:105-107 | a worker without a positive limit runs five jobs at once |
| ScanWorker.ScanTables.ProcessJob | backend/internal/scan/worker.go:187-326 | the method does to the tables what the ordered stretches of ProcessJob do |
| ScanWorker.ProcessedIsRun | backend/internal/scan/worker.go:187-326 | ProcessJob, undisturbed, is a run of the state machine |
| ScanWorker.ProcessedOutcome | backend/internal/scan/worker.go:187-326 | the job ends in the status its reading and generation call for, is let go, and no other job or hold changes |
| ScanWorker.ProcessedRow | backend/internal/scan/worker.go:187-326 | field by field: a mixed page waits with its text saved, a cache hit links the quiz the asked tier held, a new quiz is linked and the text cleared, a failure leaves link and text; only a new quiz changes quizzes and cache |
| ScanWorker.NewQuizOutcome | backend/internal/scan/worker.go:397-446 | a generated quiz is complete and linked to its job, and is cached iff it is not a draft |
| ScanWorker.ScanTables.PersistQuestions | backend/internal/scan/worker.go:411-415 | the loop appends every question, in order, to its own quiz |
| ScanBatches.BatchesBoundedInEveryRun | backend/internal/scan/worker.go:163-185 | a worker process never has more than MaxConcurrent jobs in flight, in any interleaving |
| ScanReferences.RefsHoldInEveryRun | backend/internal/scan/worker.go:264-325 | in every interleaving jobs link only complete quizzes, and neither cache tier ever points at a draft or an unfinished quiz |
| ScanReferences.CachedQuizIsFrozen | backend/internal/scan/worker.go:417-441 | a quiz that a cache tier once served stays published with the same questions whatever happens later |
| ScanReferences.CompleteQuizChangesIff | backend/internal/quiz/review.go:120-165 | a complete quiz's questions change in a step iff a pending SaveDraft commits different ones |
| ScanReferences.PublishedQuizIsFrozen | backend/internal/quiz/review.go:131-133 | published quizzes of every kind are frozen as long as each save commits while its quiz is still a draft |
| ScanReviews.StatusTellsPublication | backend/internal/quiz/review.go:224-230 | in runs that keep the lease and publish no exam before its worker has written its last status, a finished job says review_ready iff its quiz is a draft and quiz_ready iff it is published |
| ScanReviews.ReviewsStayDraftsIff | backend/internal/scan/worker.go:316-326 | a step keeps review_ready for drafts iff it publishes no exam whose worker has linked it and not yet written the job's last status |
| ScanReviews.EarlyPublicationAsksInVain | backend/internal/scan/worker.go:316-326 | such a publication makes the job quiz_ready, and the worker's write then makes it review_ready though its exam is published |
| ScanReviews.AsksInVainForever | backend/internal/quiz/review.go:172-183 | nothing ever mends it: the exam cannot be published again and no other step moves the job |
| ScanReviews.ExamHasOneJob | backend/internal/scan/worker.go:397-446 | in every run an exam is linked by at most one job |
| ScanReviews.PublicationEffects | backend/internal/quiz/review.go:212-237 | a publication marks the quiz, moves exactly the jobs its user has for it to quiz_ready, and changes nothing else |
| ScanLease.NoJobHeldTwice | backend/internal/scan/worker_repository.go:32-45 | with any number of workers, first status writes within 30 minutes and requeueing only where it is meant, no job is ever held by two workers |
| ScanLease.LeaseHoldsInCarefulRuns | backend/internal/scan/worker.go:187-326 | in those runs a held job's row always shows its holder's progress |
| ScanLease.ReadyJobsAreReady | backend/internal/scan/worker.go:292-300 | a quiz_ready job has a complete published quiz, a review_ready one a complete quiz, a needs_strategy one its saved text |
| ScanLease.ClaimDoublesIff | backend/internal/scan/worker_repository.go:36-40 | a claim hands out a job twice iff its batch holds a stale processing row whose worker is still running |
| ScanLease.ClaimCanDoubleIff | backend/internal/scan/worker_repository.go:32-45 | some claim of an idle worker hands out a job twice iff the row of a held job is processing and older than the lease |
| ScanLease.RequeueDoublesIff | backend/internal/admin/repository.go:143-153 | after a requeueing write the next claim doubles the job iff somebody held it |
| ScanHistories.JobHeldTwice | backend/internal/scan/worker_repository.go:32-45 | from an empty database a late upload write, and a worker silent for longer than the lease, give one job two holders |
| ScanHistories.LateSaveRewritesPublished | backend/internal/quiz/review.go:120-165 | from an empty database a save that passed its draft check rewrites the quiz after its publication |
| ScanHistories.PublishedExamStaysInReview | backend/internal/scan/worker.go:316-326 | from an empty database a publication before the worker's last status write leaves the job of a published exam in review_ready |
| ScanLease.OCRCompleteIsNeverReclaimed | backend/internal/scan/worker_repository.go:36-40 | an abandoned ocr_complete job stays as it is through every run without a late upload write |
| ContentCache.LookupIsOneMap | backend/internal/scan/cache.go:93-194 | for any operations and evictions a lookup returns, field by field, what one map of stored quizzes and store times holds for seven days, except at the exact expiry instant, where it still returns the quiz |
| ContentCache.StoredIsFound | backend/internal/scan/cache.go:93-248 | a quiz stored at t is found at every t <= t' < t + 604800 with its quiz, count, board, subject and chapter and expiry t + 604800, unless its hash was stored again, invalidated or purged, whatever is evicted and whichever tier answers |
| ContentCache.FoundWasStored | backend/internal/scan/cache.go:93-248 | a hit is always what the last store of its hash stored, at most seven days ago, with nothing in between that replaced or removed it |
| ContentCache.LookupAgreesIff | backend/internal/scan/cache.go:133-153 | the two disagree iff Valkey still shows an entry at its expiry instant |
| ContentCache.RunRefines | backend/internal/scan/cache.go:197-334 | every run of stores, lookups, invalidations, purges and evictions that leaves no tier behind keeps the refinement |
| ContentCache.RefinesIff | backend/internal/scan/cache.go:197-334 | an operation keeps the refinement iff it leaves nothing visible in Valkey that the single map no longer holds |
| ContentCache.WorldRefinesIff | backend/internal/scan/cache.go:93-334 | the same with lookups whose write to Valkey comes later than their read of Postgres |
| ContentCache.StaleRefillIff | backend/internal/scan/cache.go:141-194 | such a write makes something stale visible iff the entry has not expired and was replaced or removed since it was read |
| ContentCache.InvalidatedQuizComesBack | backend/internal/scan/cache.go:141-194 | a lookup that read its row before an invalidation brings the quiz back after it, from any state |
| ContentCache.LookupIsReadAndCopy | backend/internal/scan/cache.go:93-194 | an undisturbed lookup is its read followed by its write |
| ContentCache.RefinesLookup | backend/internal/scan/cache.go:113-194 | repopulating Valkey from Postgres, and deleting a value Valkey still has after its expiry, keep the refinement |
| ContentCache.PurgeAllLeavesHitsIff | backend/internal/scan/cache.go:287-296 | PurgeAll leaves some lookup hitting iff Valkey shows some entry |
| ContentCache.FailedValkeyWriteIsSeenIff | backend/internal/scan/cache.go:240-244 | a store whose Valkey write failed is what the next lookup returns iff Valkey shows no other entry for the hash |
| ContentCache.PurgedQuizStillServed | backend/internal/scan/cache.go:287-296 | a concrete history in which a purged quiz is still served |
| ContentCache.CacheService.Store | backend/internal/scan/cache.go:197-248 | fails iff the input is invalid or the row write fails; otherwise the row, and Valkey if its write succeeds, show the stored quiz field by field until seven days later, and the hit count is one more |
| ContentCache.CacheService.Lookup | backend/internal/scan/cache.go:93-111 | Valkey answers before Postgres, and the tiers afterwards are those of the lookup step |
| ContentCache.CacheService.LookupRedis | backend/internal/scan/cache.go:113-138 | returns a value that has not expired and deletes one that has |
| ContentCache.CacheService.LookupPostgres | backend/internal/scan/cache.go:140-194 | a hit is counted and copied for the time it has left; a miss changes nothing |
| ContentCache.CacheService.Invalidate | backend/internal/scan/cache.go:299-314 | removes the row, then the Valkey value, reporting the first failure |
| ContentCache.CacheService.PurgeExpired | backend/internal/scan/cache.go:325-334 | removes exactly the rows whose expiry has passed and reports how many |
| ContentKey.SameKeyIffSameWords | backend/internal/scan/service.go:222-224 | two texts normalize to the same cache text iff their words agree up to case |
| ContentKey.FieldsOfJoin | backend/internal/scan/service.go:222-224 | splitting joined words gives the words back |
| ContentKey.NormalizeIsIdempotent | backend/internal/scan/service.go:222-224 | normalizing a normalized text changes nothing |
| DraftInput.ValidateDraftInput | backend/internal/quiz/review.go:287-343 | accepts iff there is a question and every one is acceptable, returning for each what the client wrote, trimmed, with its answer set iff the index is that of a kept option, and otherwise blames the first bad one with its number and the first check it fails |
| DraftInput.KeepOptions | backend/internal/quiz/review.go:310-321 | the loop keeps the non-blank options in order, trimmed and labelled |
| DraftInput.KeptComeFromSources | backend/internal/quiz/review.go:310-321 | each kept option has the trimmed text of the option it came from, and its trimmed label or the letter of its position |
| DraftInput.ChosenOptionStaysIff | backend/internal/quiz/review.go:310-331 | the client's option stays the correct one iff no blank option comes at or before it |
| DraftInput.BlankOptionMovesTheAnswer | backend/internal/quiz/review.go:310-331 | an accepted question whose stored answer is not the one chosen |
| DraftInput.SourcesAreTheNonBlank | backend/internal/quiz/review.go:311-315 | an option survives iff it is not blank |
| DraftInput.NormalizeIsIdempotent | backend/internal/quiz/review.go:287-343 | a normalized question is accepted and comes out the same |
| DraftInput.TrimCuts | backend/internal/quiz/review.go:292-319 | trimming cuts white space off both ends, and all of it |
| DraftInput.BlankLabelsAreLetters | backend/internal/quiz/review.go:316-319 | blank labels become A, B, C, ... in order |
| Drafts.SavedAnswerOk | backend/internal/quiz/review.go:326-377 | every saved question has exactly one correct option when its answer is set and none when it is unknown |
| Drafts.PersistedAnswerOkIff | backend/internal/scan/worker.go:661-689 | a persisted question keeps that invariant iff it was extracted or its answer index is in range |
| Drafts.SavingWhatIsShownChangesNothing | backend/internal/quiz/review.go:24-168 | with strictly increasing labels the options are shown as saved, and saving what is shown changes nothing |
| Drafts.SavingTheShownDraft | backend/internal/quiz/review.go:24-168 | SaveDraft accepts what GetDraft shows of a saved draft, unedited, and the whole draft is then the same up to row ids |
| Drafts.DefaultTagsAscend | backend/internal/quiz/review.go:316-319 | the labels given to blank ones are strictly increasing |
| Drafts.AnswerSurvivesReordering | backend/internal/quiz/review.go:75-107 | whatever the labels, sending back what is shown keeps the same option correct |
| Drafts.GeneratedExplanationShownIff | backend/internal/quiz/review.go:195-210 | an explanation generated at publication is shown iff the question had no explanation row |
| Drafts.MissingIsNeedsAnswer | backend/internal/quiz/review.go:101-193 | the questions PublishDraft finds without an answer are those GetDraft counts as needing one |
| Drafts.KeyIsTheCorrectOption | backend/internal/quiz/service.go:520-554 | the unordered LIMIT 1 of the answer key can only return the one correct option |
| Drafts.PublishedExamScoresFull | backend/internal/quiz/review.go:172-239 | on a published exam, choosing every question's correct option scores 100 |
| Drafts.ReviewService.GetDraft | backend/internal/quiz/review.go:24-107 | owners see every question with its own text, type, answer status and first explanation, its options by label, and the number still needing an answer |
| Drafts.ReviewService.SaveDraft | backend/internal/quiz/review.go:111-168 | replaces all questions iff the caller owns a draft and every question is acceptable: each new row holds the trimmed texts in their columns, the kept options in order and the client's option correct; otherwise changes nothing and says why |
| Drafts.ReviewService.PublishDraft | backend/internal/quiz/review.go:172-239 | publishes iff the caller owns a non-empty draft that needs no answer; of each question only the answer status changes, and an explanation is added where none is shown; each refusal has its own error |
| Drafts.ReviewService.PersistQuiz | backend/internal/scan/worker.go:397-445 | stores the generated questions in order, as a draft iff extracted, keeping the answer invariant |
| Drafts.ReviewService.PersistQuestion | backend/internal/scan/worker.go:661-689 | writes one generated question, each text in its column, options labelled and with consecutive ids, the option at the answer index correct, and the answer unknown iff extracted without one |
| Drafts.ReviewService.InsertDraftQuestion | backend/internal/quiz/review.go:355-391 | writes one normalized question with consecutive option ids |
| Drafts.ReviewService.CorrectOption | backend/internal/quiz/review.go:268-275 | finds a correct option iff there is one |
| Drafts.ReviewService.CountMissing | backend/internal/quiz/review.go:184-193 | counts the questions without a correct option in whatever order options are listed |
| ReviewAgreement.ReviewAgreesWithScore | backend/internal/quiz/service.go:331-416 | while quizzes are written, saved and published, for every completed attempt of every run that disturbs none the review's statuses count to the stored correct, wrong and skipped numbers, and the stored score is the percentage of the correct ones |
| ReviewAgreement.ResultAgreesWithReview | backend/internal/quiz/service.go:315-328 | in those runs the correct, wrong, skipped and total numbers that a submission returns, first or repeated, are those of the review |
| ReviewAgreement.FreshReview | backend/internal/quiz/service.go:357-416 | right after a first submission the review shows, question by question, correct iff the last answer is the key's option and skipped iff there is none |
| ReviewAgreement.DisturbedIff | backend/internal/quiz/review.go:345-352 | a step makes the review of a completed attempt disagree iff it adds a question to its quiz, saves the quiz with another number of questions or after some question was answered, or deletes an option chosen in it |
| ReviewAgreement.AgreementKeptIff | backend/internal/quiz/service.go:331-416 | the agreement of all completed attempts survives a step iff it disturbs none of them |
| ReviewAgreement.CarefulRunsAgree | backend/internal/quiz/review.go:131-133 | none is ever disturbed if attempts start at finished quizzes, answers choose among the quiz's own options and saves commit on drafts |
| ReviewAgreement.LateSaveBreaksReview | backend/internal/quiz/review.go:120-165 | for every draft: a save that passed its check before the exam was published leaves a student's review right only if nothing was answered and as many questions are saved |
| ReviewAgreement.ResubmissionReturnsTheSameResult | backend/internal/quiz/service.go:229-239 | after a successful submission every later one returns the identical result and changes nothing, whatever happens to the quiz |
| Attempts.MicrosKeepSeconds | backend/internal/quiz/service.go:485-507 | storing the submission time to the microsecond does not change the seconds taken |
| Attempts.CorrectIsCardinality | backend/internal/quiz/service.go:252-280 | the correct count is the number of questions whose last answer is the key's option |
| Attempts.SkippedIsCardinality | backend/internal/quiz/service.go:252-280 | the skipped count is the number of questions whose last answer is missing or null |
| Attempts.AllRightScoresFull | backend/internal/quiz/service.go:252-286 | answering every question with the key's option scores 100 |
| Attempts.FirstResult | backend/internal/quiz/service.go:252-328 | a first submission returns the numbers of right and unanswered questions, the wrong rest, the score of correct and total, and the whole seconds taken, and stores the same numbers with one answer row a question holding its last choice |
| Attempts.RefusedIff | backend/internal/quiz/service.go:219-227 | each error iff its cause: no such attempt, another user's, or a counting choice that is no option; nothing is then changed |
| Attempts.LastAnswerCounts | backend/internal/quiz/service.go:247-250 | of several answers to a question only the last one counts, and without any nothing is chosen |
| AttemptHistory.SecondAttemptIffOvertaken | backend/internal/quiz/service.go:160-190 | in every run the insert of a CreateAttempt call opens a second attempt iff another call inserted one since this call's look-up, and that one is still open |
| AttemptHistory.OpenSinceLookUp | backend/internal/quiz/service.go:160-190 | while a call waits between look-up and insert, the open attempts of its quiz and user are those inserted since by other calls |
| AttemptHistory.SecondAttemptIff | backend/internal/quiz/service.go:184-190 | a step opens a second attempt iff it inserts one for a quiz and user that have an open one |
| AttemptHistory.OverlappingCallsOpenTwo | backend/internal/quiz/service.go:143-196 | at every published quiz two calls that look up before either inserts open two attempts |
| AttemptHistory.OneOpenInEveryRun | backend/internal/quiz/service.go:143-196 | in every run in which no two such calls of a student overlap, a student never has two open attempts at one quiz |
| AttemptHistory.CreatedIsLookUpThenInsert | backend/internal/quiz/service.go:143-196 | an undisturbed CreateAttempt is its look-up followed by its insert |
| Attempts.ReviewCounts | backend/internal/quiz/service.go:357-416 | the review join yields one status per question and keeps the counts |
| Attempts.QuizService.CreateAttempt | backend/internal/quiz/service.go:143-196 | returns the latest open attempt or a new one of this user at this quiz, in progress, with no numbers and its start to the microsecond; a draft or unknown quiz is not found |
| Attempts.QuizService.Selections | backend/internal/quiz/service.go:247-250 | the last answer to a question counts |
| Attempts.QuizService.GradeAll | backend/internal/quiz/service.go:252-280 | the loop's rows and counters are the graded questions and their numbers |
| Attempts.QuizService.SubmitAttempt | backend/internal/quiz/service.go:199-328 | performs one submission transaction: the first stores and returns the numbers of its answers, a later one returns the stored columns unchanged, and a selection that is no option rolls everything back |
| Attempts.QuizService.GetReview | backend/internal/quiz/service.go:331-416 | returns the join's statuses for completed attempts of the owner, and the right error otherwise |
| Scores.ThreePercentagesAgree | backend/internal/careergoals/practice.go:537-542 | scorePercent, pct and scorePct are the same function of exact rationals |
| Scores.ScoreIsTenths | backend/internal/quiz/service.go:582-588 | a score is one integer division, in tenths |
| Scores.ScoreIsClose | backend/internal/quiz/service.go:582-588 | a score is within 0.05 of the true percentage, with halves rounded up |
| Scores.ScoreInRange | backend/internal/quiz/reports.go:361-370 | scores lie between 0 and 100 |
| Scores.ScoreIsMonotone | backend/internal/quiz/service.go:582-588 | one more correct answer never lowers the score |
| Scores.ScoreSeparates | backend/internal/quiz/service.go:582-588 | up to 1000 questions different results show different scores |
| Scores.FullMarksIff | backend/internal/quiz/service.go:582-588 | 100 is shown iff at most one answer in 2000 is wrong, so below 2000 questions iff all are correct |
| Scores.NoMarksIff | backend/internal/quiz/service.go:582-588 | 0 is shown iff fewer than one answer in 2000 is right, so up to 2000 questions iff none is |
| Scores.ScoreBoundsAreSharp | backend/internal/quiz/service.go:582-588 | both bounds of 2000 are exact |
| Streaks.ComputeStreak | backend/internal/quiz/reports.go:322-343 | the walk ends and returns the length of the run ending today or yesterday |
| Streaks.LoadStreak | backend/internal/careergoals/goals.go:257-300 | the scan returns the length of the run ending at the latest date, or 0 if that is before yesterday |
| Streaks.StreaksAgree | backend/internal/careergoals/goals.go:279-299 | the two algorithms agree on every set of dates with none after today |
| Streaks.StreaksCompared | backend/internal/careergoals/goals.go:279-299 | with a latest date L after today the list counts L - today days more than the walk if all days from today to L are listed, and otherwise only the run ending at L, which lies after today |
| Streaks.RunIsLongest | backend/internal/quiz/reports.go:320-343 | that run is the longest block of days with its end |
| Subscriptions.EndIsLargestDemand | backend/internal/billing/repository.go:154-171 | the end after captures t_1..t_n is the largest of t_i + (n-i+1) months |
| Subscriptions.EntitledTimesAre | backend/internal/billing/repository.go:188-202 | the instants counted are exactly those at which the subscription is found active |
| Subscriptions.EntitledTimeIsMonths | backend/internal/billing/repository.go:154-202 | n captures give exactly n months of entitled time |
| BillingCalls.ActiveEndIsLargestDemand | backend/internal/billing/repository.go:154-179 | in every interleaving of statements an active subscription ends at the largest demand of its captures since the last cancellation |
| BillingCalls.PlanIsLastBought | backend/internal/billing/repository.go:154-179 | in every interleaving a user has a subscription iff some order was bought, and its plan is that of the user's order bought last |
| BillingCalls.OrderIsAsPlaced | backend/internal/billing/repository.go:114-122 | in every interleaving an order has the user and plan it was placed with |
| BillingCalls.CountsTwiceIff | backend/internal/billing/webhook.go:93-118 | in every interleaving a completion finds its order counted already iff, since it read the order, another call extended for it, or the order had failed and counted before |
| BillingCalls.OverlapCountsTwice | backend/internal/billing/repository.go:138-145 | for every pending order, two completions from any paths that both read it before either marks it end with a completed order that counted twice |
| BillingCalls.OverlapIsReached | backend/internal/billing/dev_checkout.go:26-44 | from an empty database a capture and a development completion do so |
| BillingCalls.CompletedIsFinal | backend/internal/billing/webhook.go:93-118 | a completed order with no completion on its way never extends again, whatever calls follow |
| BillingCalls.AbortLosesExtension | backend/internal/billing/webhook.go:107-115 | so a completion that fails between mark and upsert leaves a completed order that never counts |
| BillingCalls.CompletedOrdersCountOnce | backend/internal/billing/webhook.go:38-57 | with repeated or fresh events from any path, one completion of an order at a time and none failing between mark and upsert, a completed order has extended exactly once, or is just about to, and a pending one never |
| BillingCalls.CallIsItsStatements | backend/internal/billing/webhook.go:21-73 | an undisturbed call of any kind, run statement by statement, does what the one-step model says |
| BillingCalls.EntitledForCompletedOrders | backend/internal/billing/dev_checkout.go:26-44 | in such runs, for a user never cancelled and with no completion on its way, the entitled time is exactly a month for each completed order iff no order was captured after failing |
| BillingCalls.ActiveMeansEntitled | backend/internal/billing/repository.go:181-202 | in every interleaving GetEntitlements finds the subscription active at exactly the entitled instants |
| Billing.CaptureExtendsIff | backend/internal/billing/webhook.go:93-118 | a capture extends iff its event is fresh and its order known and not completed, and completes the order only if it is pending |
| Billing.PaidOrderBuysItsPlan | backend/internal/billing/webhook.go:93-118 | on each of the three paths: the exact condition for an order to extend; it then gives its own user its own plan, active, a month longer, and is completed if pending; otherwise nothing but the event row changes |
| Billing.FailedPaymentMarksPending | backend/internal/billing/webhook.go:120-136 | a failed payment marks a pending order as failed, and that is all |
| Billing.CancellationKeepsPlanAndEnd | backend/internal/billing/webhook.go:138-145 | a fresh cancellation event stops an active subscription, keeping its plan and its end, and that is all |
| Billing.EventRowSaysHandled | backend/internal/billing/webhook.go:38-73 | each answer iff its cause, and a fresh event leaves one row that says whether it was handled |
| BillingCalls.SecondExtensionIsForFailedOrder | backend/internal/billing/webhook.go:104-115 | in such runs an order extends a second time only if it is a Razorpay order that has failed |
| Billing.FailedOrderKeepsExtending | backend/internal/billing/repository.go:138-145 | every fresh capture of a failed order buys another month and the order stays failed |
| Billing.CancelForfeitsIff | backend/internal/billing/repository.go:163-179 | a cancellation before the next capture costs time iff some was left |
| Billing.EventCountsOnce | backend/internal/billing/webhook.go:38-51 | once an event row exists no delivery of that event changes anything |
| Billing.FailedDeliveryIsSwallowed | backend/internal/billing/webhook.go:38-57 | an event that came before its order is dropped when it is delivered again |
| Billing.FirstPayUCallbackDecides | backend/internal/billing/webhook.go:162-201 | every PayU callback after the first for an order is dropped |
| Billing.BillingService.HandleRazorpayWebhook | backend/internal/billing/webhook.go:21-73 | one delivery is one step: deduplication first, the event row kept even on failure |
| Billing.BillingService.HandlePayUWebhook | backend/internal/billing/webhook.go:147-208 | one PayU callback is one step |
| Billing.BillingService.CompleteDevCheckout | backend/internal/billing/dev_checkout.go:13-45 | only the order's user can complete it, and a completed order is left alone |
| Billing.BillingService.UpsertActiveSubscription | backend/internal/billing/repository.go:154-171 | the row is active with the bought plan; it stacks a month on an unexpired active row and starts one from now otherwise; no other row changes |
| Billing.BillingService.MarkPayment | backend/internal/billing/repository.go:138-152 | only a pending payment changes status |
| Billing.BillingService.CancelSubscription | backend/internal/billing/repository.go:173-179 | only an active subscription is cancelled; every plan and end stays |
| Billing.BillingService.GetEntitlements | backend/internal/billing/repository.go:181-220 | active iff the row is active and ends later, with its plan and its end |
| NotificationQueue.EveryJobIsInOnePlace | backend/internal/notifications/worker.go:81-189 | in every run each enqueued job is in exactly one of main queue, main loop, in flight, retry queue, retry loop and finished |
| NotificationQueue.Bounds | backend/internal/notifications/worker.go:19-35 | at most ten main-loop jobs at once; retry entries have attempt 1 to 4; a finished job was tried one to five times and waited at most 900 seconds, a dead-lettered one exactly five and 900 |
| NotificationQueue.DeadLetteredIff | backend/internal/notifications/worker.go:358-383 | in every run a job is dead-lettered, once, iff five of its deliveries asked for a retry, and is finished iff that or one did not ask; the dead letters are exactly the finished jobs with five attempts, in order |
| NotificationQueue.FirstComeFirstStarted | backend/internal/notifications/worker.go:81-136 | in every run jobs start in the order in which they were enqueued, and the rest wait in that order |
| NotificationQueue.RetryLoopNeverDeadLetters | backend/internal/notifications/worker.go:169-174 | the retry loop's own exhaustion check never fires and the 30-second backoff is never used |
| NotificationQueue.StepMakesProgress | backend/internal/notifications/worker.go:94-189 | every step but an enqueue lowers the work left |
| NotificationQueue.NeverStuck | backend/internal/notifications/worker.go:94-189 | unless everything is finished some step is possible |
| NotificationQueue.WorkerComesToRest | backend/internal/notifications/worker.go:94-189 | once nothing is enqueued the worker takes no more steps than the work left, whatever the deliveries do |
| NotificationQueue.FifteenStepsPerJob | backend/internal/notifications/worker.go:94-189 | over any history the steps taken and the work left together are at most 15 for each job ever enqueued |
| NotificationQueue.NotificationWorker.GoroutineEnds | backend/internal/notifications/worker.go:130-136 | a finished goroutine frees its slot and its job is recorded, retried or dead-lettered |
| NotificationQueue.NotificationWorker.EnqueueJob | backend/internal/notifications/worker.go:81-91 | a job joins the end of the main queue with no attempts |
| NotificationQueue.NotificationWorker.MainLoopPops | backend/internal/notifications/worker.go:94-129 | the main loop takes the oldest job and holds one at a time |
| NotificationQueue.NotificationWorker.MainLoopStarts | backend/internal/notifications/worker.go:130-136 | the held job starts only while fewer than ten are in flight |
| NotificationQueue.NotificationWorker.RetryLoopResumes | backend/internal/notifications/worker.go:169-183 | the held retry waits its backoff and is then delivered |
| NotificationQueue.NotificationWorker.RetryLoopEnds | backend/internal/notifications/worker.go:185-188 | a delivered retry is recorded, retried or dead-lettered and the loop is free |
| NotificationQueue.NotificationWorker.ScheduleRetry | backend/internal/notifications/worker.go:358-368 | the fifth failed attempt goes to the dead-letter queue, an earlier one to the retry queue with one attempt more |
| NotificationQueue.NotificationWorker.RetryLoopPops | backend/internal/notifications/worker.go:148-183 | the retry loop takes the oldest retry entry and holds one at a time |
| RateLimit.WindowBound | backend/internal/notifications/service.go:517-534 | with a clock that does not go back at most capacity + rate * (t - s) calls are allowed between s and t |
| RateLimit.TokensInRange | backend/internal/notifications/service.go:517-534 | the bucket always holds between 0 and capacity tokens |
| RateLimit.WaitingIsEnough | backend/internal/notifications/service.go:517-534 | after any history, waiting one token's time is enough to be allowed |
| RateLimit.BurstIsAllowed | backend/internal/notifications/service.go:507-534 | a full bucket allows its first capacity calls, however close together |
| RateLimit.NoTokensNoCalls | backend/internal/notifications/service.go:507-534 | a bucket for no requests never allows one |
| RateLimit.TokenBucket.Allow | backend/internal/notifications/service.go:517-534 | refills up to capacity, then takes one whole token or refuses |
| CircuitBreaker.ClosedMeansFewFailures | backend/internal/notifications/fcm.go:293-318 | after any trace the breaker is closed iff its failure count is below the threshold, and the count is then the run of failures since the last success |
| CircuitBreaker.OpensAtThreshold | backend/internal/notifications/fcm.go:293-303 | a closed breaker opens with the threshold-th failure in a row and not before |
| CircuitBreaker.ClosesAfterTwoProbes | backend/internal/notifications/fcm.go:305-318 | it closes again only with the second of two half-open successes with no failure between |
| CircuitBreaker.TwoProbesClose | backend/internal/notifications/fcm.go:293-335 | an open breaker past its timeout closes with a cleared count after two successes and reopens after one failure |
| CircuitBreaker.OpenRefusesIff | backend/internal/notifications/fcm.go:320-335 | an open breaker refuses a check iff the last failure in the trace is within the recovery timeout |
| CircuitBreaker.StaysOpenWithinTimeout | backend/internal/notifications/fcm.go:320-335 | until then nothing closes it and every check is refused |
| CircuitBreaker.Breaker.RecordFailure | backend/internal/notifications/fcm.go:293-303 | counts and dates the failure and opens at the threshold |
| CircuitBreaker.Breaker.RecordSuccess | backend/internal/notifications/fcm.go:305-318 | resets a closed breaker, advances a half-open one, is ignored by an open one |
| CircuitBreaker.Breaker.IsOpen | backend/internal/notifications/fcm.go:320-335 | refuses within the timeout and turns half-open after it |
| PushSender.SenderIsBreakerAndBucket | backend/internal/notifications/fcm.go:216-269 | after any calls the sender is its breaker after the checks and results it saw and its bucket after the requests it got |
| PushSender.ClosedMeansFewFailedBatches | backend/internal/notifications/fcm.go:262-266 | a sender whose breaker is closed has had fewer batches in a row in which more than half of the devices failed than the threshold |
| PushSender.WindowOfSends | backend/internal/notifications/fcm.go:216-252 | between s and t at most capacity + rate * (t - s) multicasts get through, whatever the breaker does |
| PushSender.FCMService.SendMulticast | backend/internal/notifications/fcm.go:216-269 | asks the breaker, then the bucket, and reports a batch as failed iff most of its devices failed; calls refused early touch nothing later |
| PracticeSets.AtMostOneSetPerSlot | backend/internal/careergoals/practice.go:405-450 | for any interleaving, commits and rollbacks at most one set per user, goal and date is committed |
| PracticeSets.CallersGetTheCompleteSet | backend/internal/careergoals/practice.go:341-451 | every caller with an answer has its slot's committed set, the same id as every other caller, with all questions written that have not been deleted since; it is complete iff none has been |
| PracticeSets.AnswersAreFinal | backend/internal/careergoals/practice.go:341-451 | a given answer and a committed set never change, but for the rows of deleted questions |
| PracticeSets.SetChangesIff | backend/internal/quiz/review.go:345-352 | a step changes the rows of a committed set iff it deletes a question among them |
| PracticeSets.IncompleteSetIsServed | backend/migrations/0003_reconciled_schema.sql:238-245 | in any state, deleting a question of a set makes the next caller get an incomplete one |
| PracticeSets.SetIsMade | backend/internal/careergoals/practice.go:341-451 | such a state is reached by one request |
| PracticeSets.LoserFindsTheSet | backend/internal/careergoals/practice.go:418-429 | a request that lost the race always finds the winner's set |
| PracticeSets.RowsForHas | backend/internal/careergoals/practice.go:432-445 | a committed set holds exactly the picked questions whose id parses, each at its place |
| PracticeSets.RowsForAscend | backend/internal/careergoals/practice.go:432-445 | the rows are in the order of their places |
| PracticeSets.SetWasAskedFor | backend/internal/careergoals/practice.go:341-451 | in every run a committed set was picked by a request for its own user, goal and date |
| PracticeSets.RequestIsRun | backend/internal/careergoals/practice.go:341-451 | an undisturbed request is the steps ask, look up, insert, write each question, and commit or roll back |
| PracticeSets.PracticeTables.EnsureTodaySet | backend/internal/careergoals/practice.go:341-357 | a request on its own returns the existing set or commits a complete one, or leaves nothing behind |
| PracticeSets.PracticeTables.GenerateDailySet | backend/internal/careergoals/practice.go:405-451 | commits the rows of all picked questions that have a number for an id, each with its place, or nothing |
| SkillGaps.SplitReversesKeyIff | backend/internal/careergoals/skillgaps.go:113-125 | splitting gives back subject and topic iff the subject has no separator |
| SkillGaps.KeyReversesSplit | backend/internal/careergoals/skillgaps.go:113-125 | a key is put together again from its parts, so different keys go to different rows |
| SkillGaps.UpdateIsUnique | backend/internal/careergoals/skillgaps.go:82-109 | the stored weaknesses do not depend on the order in which the map is walked |
| SkillGaps.UpdatesKeepRange | backend/internal/careergoals/skillgaps.go:88-105 | every weakness stays a multiple of 5 between 0 and 100 |
| SkillGaps.WeaknessFollowsDirection | backend/internal/careergoals/practice.go:544-553 | a known weakness rises iff the topic needs work and it is below 100, and falls iff it improved and is above 0 |
| SkillGaps.RepeatedScores | backend/internal/careergoals/skillgaps.go:96-105 | n equal submissions raise a weakness by 10n up to 100, lower it by 15n down to 0, or leave it |
| SkillGaps.RowFollowsReport | backend/internal/careergoals/practice.go:224-244 | after a submission each topic's row has moved with the direction reported for it: up 10 to at most 100, down 15 to at least 0, or not at all; a topic without a row starts from 0 |
| SkillGaps.TalliesReport | backend/internal/careergoals/practice.go:224-239 | each reported topic has the subject and topic its key is made of, the score of the questions with that key, improved iff above 80 and needs work iff below 60 |
| SkillGaps.TalliesAddUp | backend/internal/careergoals/practice.go:182-212 | the per-topic tallies add up to the set's totals |
| SkillGaps.PracticeService.TallyAll | backend/internal/careergoals/practice.go:189-212 | each key's tally counts its questions and right answers; correct counts the right ones, skipped those without a choice, and wrong the rest |
| SkillGaps.PracticeService.Report | backend/internal/careergoals/practice.go:224-239 | reports exactly the topics with a name, in any order of the map |
| SkillGaps.PracticeService.UpdateSkillGaps | backend/internal/careergoals/skillgaps.go:76-111 | writes one row for each key, all others unchanged, in any order of the map |
| SkillGaps.PracticeService.SubmitPractice | backend/internal/careergoals/practice.go:94-266 | scores a set once, returning its right, skipped and wrong numbers and the topics' report; a second submission returns the stored score with all counts zero and changes nothing |

## Left out

- HTTP, JSON, routing, metrics, logging, audit rows and consent; `parseChunkHeaders` beyond its three checks.
- Object store failures while reading chunks. `ChunkProtocol` and `UploadTables` take the calls for one page one after the other; `ChunkRace` says what happens otherwise, for receipts and status but not for the stored objects.
- MD5, SHA-256, HMAC and webhook signatures: MD5 is any function, the others do not appear. Byte arrays are sequences.
- An empty temp storage key of an uploaded page is not told apart from a missing one.
- OCR, page types, generation modes, chapter summaries, confidence limits, the per-user AI limiter and the deletion of page images: they only choose which step of `ScanLifecycle` comes next. `processJobVision` takes a subset of those steps.
- ScanLease.NoJobHeldTwice: assumes that the first status write comes within 30 minutes and that requeueing writes find the status they are meant for, because the code breaks mutual exclusion otherwise, as `ClaimCanDoubleIff` and `RequeueDoublesIff` state exactly.
- ScanReferences.PublishedQuizIsFrozen: assumes saves in time, because a late SaveDraft commit rewrites a published quiz, as `CompleteQuizChangesIff` states exactly.
- ScanReviews.StatusTellsPublication: assumes the same as `NoJobHeldTwice`, and that no exam is published before its worker's last status write, because the two writes take no lock, as `ReviewsStayDraftsIff` states exactly.
- The check that a draft has questions and all answers is in `Drafts`; in `ScanLifecycle` a publication checks owner and status.
- ContentCache.StoredIsFound: for runs that leave no tier behind, because a purge, a failed Valkey write or a late copy otherwise shows something else, as `WorldRefinesIff` states exactly.
- In `ScanLifecycle` cache entries do not expire; expiry is the subject of `ContentCache`, where a store, an invalidation and a purge are one step each, a lookup one or two, and both tiers read one clock. Undecodable and bare numeric Valkey values, microsecond rounding of expiry times, and unavailable stores are left out there.
- `ContentCache` does not model `created_at`, which the tiers do not agree on, nor the hit log.
- In `Drafts`, SaveDraft and PublishDraft are atomic; their interleavings are in `ScanLifecycle`. Explanation inserts that fail half way, and the language of an explanation, are left out. Labels are compared by any ranking that stands for the collation.
- `DraftInput.Letter` stops at Z; an accepted question has at most six options.
- AttemptHistory.OneOpenInEveryRun: assumes that CreateAttempt calls of one student for one quiz do not overlap, because the look-up and the insert are two statements without a lock, as `SecondAttemptIffOvertaken` states exactly.
- ReviewAgreement.ReviewAgreesWithScore: assumes that no step disturbs a completed attempt, because a save of its quiz cascades to its answers, as `DisturbedIff` states exactly. A submission is one step there, and the student's report rows are left out.
- GetUserReports, GetQuiz, analytics summaries, weekly buckets, trends and the analytics cache.
- BillingCalls.CompletedOrdersCountOnce: assumes that a completion reads its order only when no other call is between its read of that order and its end, and that none fails between mark and upsert, because nothing locks the order, as `CountsTwiceIff` and `AbortLosesExtension` state exactly.
- BillingCalls.SecondExtensionIsForFailedOrder: under the same two assumptions.
- BillingCalls.EntitledForCompletedOrders: under the same two assumptions; leaves out users with a cancellation, whose loss `CancelForfeitsIff` states. Months have a fixed length.
- The notifications that webhooks send, checkout creation beyond the pending row, plans and scan limits.
- Floating-point error everywhere: scores are exact rationals, and the token bucket counts billionths of a token.
- Device-token deactivation, preferences, templates, e-mail, the hourly rate limit and why a delivery asks for a retry. Overlapping SendMulticast calls.
- Redis failures and process shutdown in `NotificationQueue`: a job held by a worker that stops is lost, because a pop removes it from its queue. Jobs are enqueued with no attempts, as every caller does.
- The adaptive question selector, weekly goals, goal selection, and calendar details: days are numbers.
- The database-polling notification path, feature flags, administration lists, and the frontend and mobile code.
