# Registry lease queues, scheduler and pipeline: a verified model

The repository is a crawl registry. Workers lease URLs, processing tasks and text
chunks from three database queues, report results under signed tokens, and an
in-process pipeline, a blob mover, a rechunk command and an embedding client work
beside them. This project models that logic in Dafny and proves what it keeps.

`dafny verify dfyconfig.toml` checks everything.

## How the model is laid out

| file | what it holds |
|---|---|
| `base.dfy`, `keyset.dfy` | options, clock and truncation to seconds, finite sets; ascending ids and keyset pages |
| `lease_table.dfy` | the lease columns the three queues share, the per-row acts, the history of a row, and what every act keeps |
| `frontier.dfy`, `frontier_repo.dfy` | rows of `crawl_frontier` and `domains`, the pick query and its declarative meaning; the repository as a class |
| `frontier_runs.dfy`, `politeness.dfy` | every run of the crawl queue: freshness, lifetime, budgets, politeness |
| `ingest.dfy` | AcceptResult as separate commits, interleaved and cut short by crashes |
| `chunk_queue.dfy`, `chunk_runs.dfy` | the embed queue |
| `task_queue.dfy`, `pipeline.dfy` | the processing queue with its two kinds of owner; the in-process claim loop |
| `headroom.dfy` | the concurrency cap, over all three queues at once |
| `lease_token.dfy` | base64url, the 64-byte token, signing and checking |
| `chunker.dfy`, `rechunk.dfy` | token-space splitting; the paged rebuild of a collection |
| `mover.dfy` | the blob mover |
| `dispatcher.dfy`, `embed_fleet.dfy`, `canonical.dfy` | the trigger cache, the embedding fan-out and its round-robin, URL canonicalisation |

What an operation does is stated twice: through the function from the old state to the
new one, on which the laws about runs rest, and on the columns, fields or bytes
themselves (`ensures` over `old` columns, and the lemmas named OnColumns, OnBytes and
the like), so that neither stands on its own definitions alone.

Each queue is a table (a map of rows) changed by statements. A class with one
method per repository operation is proved against a function from the old table to
the new one; a `...Runs` module then lets steps built from the same functions
interleave in any order and proves what every run keeps. A ghost history per row
records each token issued and how each lease ended.

## Modelling decisions

- A statement or write transaction is one atomic step. A step commits at a time of
  its own; clock readings it uses may be up to `lag` older, because Reserve reads
  the clock before its transaction starts and a token is verified before the UPDATE
  runs. With `lag == 0` every bound takes its simplest form.
- Time is in nanoseconds and truncated to seconds only where the code does it: the
  token's expiry and the SQLite politeness expression.
- Queue modules identify a token with its three claims (item, worker, expiry in
  seconds). `LeaseToken.StoredMatchIsClaimsMatch` justifies this: for a token that
  passes verification, the stored bytes agree exactly when the claims do. HMAC and
  SHA-256 are parameters, injective where a statement says so.
- Hashes, UUIDs, storage keys and row ids are natural numbers.
- Where SQL leaves an order open (ties in ROW_NUMBER, in LIMIT, in `created_at`),
  the model allows every answer the query may give, and statements hold for each.
- Whether a blob delete, an enqueue, a claim or an embed call fails is a parameter, so
  every statement covers every pattern of failures.

## Where the code and its comments differ

The model follows the code.

- `chunker.go` says negative overlaps fall back to the defaults; the code clamps
  them to zero (`Chunker.NegativeOverlapsIff` says exactly when both cut alike).
- `dispatcher.go` says edits take effect within cacheTTL; they do if and only if a
  refresh takes no time. The exact bound is cacheTTL plus the time a listing takes to be
  stored (`TriggerRuns.EditsWithinTtlIff`, `TriggerRuns.EditsWithinIff`).
- `attempt_count <= max_attempts` reads like an invariant and is not one: sweeps
  requeue without looking at it (`FrontierRuns.AttemptLimitIff` says exactly when it
  holds).
- A crawl delay of d milliseconds is not always a gap of d milliseconds
  (`Politeness.DelayIsGapIff` says exactly when it is).
- max_concurrent is a cap only for workers whose reserve requests do not overlap
  (`Headroom.CapHoldsIff`).
- The round-robin over hosts is even across the wrap of its counter only for fleets
  that divide 2^64 (`RoundRobin.FairIff`).
- Canonical drops one default port only, so it is not idempotent on every host
  (`Canonical.StableIff`, `Canonical.DoublePortIsNotStable`).
- The mover's DeleteSrc can strand rows that share a storage key
  (`MoverLaws.StaysWholeIff` gives the exact condition).

## Model

| member | source | states |
|---|---|---|
| FrontierRepository.FrontierRepo.Enqueue | internal/infra/db/gormrepo/frontier_repo.go:213-236 | a URL hash already present is left alone; a new one becomes a queued row without a lease; the answer tells which |
| FrontierRepository.FrontierRepo.EnqueueMany | internal/infra/db/gormrepo/frontier_repo.go:242-276 | the batch leaves the table as one insert after another would, and counts the new rows |
| FrontierModel.FirstJobWins | internal/infra/db/gormrepo/frontier_repo.go:250-276 | within a batch the first job of a hash decides its row; rows that existed keep every column |
| FrontierRepository.FrontierRepo.Reserve | internal/infra/db/gormrepo/frontier_repo.go:290-402 | the new tables, last_request_at included, are those of leasing some legal answer of the pick query, and the returned leases name exactly the rows leased |
| FrontierRepository.FrontierRepo.LeaseEach | internal/infra/db/gormrepo/frontier_repo.go:348-397 | the loop over the picks leases each, stamps each owning domain once, and lists the grants in order |
| FrontierRepository.FrontierRepo.LeasePick | internal/infra/db/gormrepo/frontier_repo.go:348-397 | one pick: leased and granted if still queued, its domain stamped unless an earlier pick did; otherwise nothing |
| Scheduler.PickQuery | internal/infra/db/gormrepo/frontier_repo.go:300-346 | one way an engine may run the ranked query; its answer is legal for a ROW_NUMBER numbering |
| Scheduler.PickedIsSchedule | internal/infra/db/gormrepo/frontier_repo.go:300-346 | an answer of the ranked, limited query is the same thing as a fair schedule stated without ranks, in both directions |
| Scheduler.PickOnColumns | internal/infra/db/gormrepo/frontier_repo.go:300-346 | every pick is queued, scheduled and past its retry time, its domain active, polite and within the capabilities; fewer than parallel_fetches due rows of its domain have a higher priority, or the same one and an earlier schedule |
| Scheduler.LeftOutOnColumns | internal/infra/db/gormrepo/frontier_repo.go:300-346 | a row that these columns admit and a batch that is not full leaves out: parallel_fetches rows of its domain were taken, none of lower priority and none of the same priority scheduled later |
| Scheduler.ScheduleIsFair | internal/infra/db/gormrepo/frontier_repo.go:300-346 | at most parallel_fetches rows per domain; a row left out of a batch that is not full has at least that many candidates of its domain at or ahead of it |
| Scheduler.NumberingIsLegal | internal/infra/db/gormrepo/frontier_repo.go:308-321 | a ROW_NUMBER numbering respecting the order exists for every candidate set |
| FrontierRepository.PicksAreLeasable | internal/infra/db/gormrepo/frontier_repo.go:323-346 | every pick is a queued row whose domain exists, so its UPDATE takes effect |
| FrontierRepository.ReservedOnColumns | internal/infra/db/gormrepo/frontier_repo.go:348-397 | exactly the picks get the worker, a token of hash, worker and truncated expiry, that expiry and one attempt more; exactly the domains owning a pick are stamped; the leases returned say the same |
| FrontierRepository.FrontierRepo.Heartbeat | internal/infra/db/gormrepo/frontier_repo.go:405-419 | moves only the expiry, only of a leased row storing this token, and otherwise reports the lease as not held |
| FrontierRepository.FrontierRepo.Complete | internal/infra/db/gormrepo/frontier_repo.go:422-440 | done and unleased exactly when leased under this token, else nothing changes |
| FrontierRepository.FrontierRepo.Fail | internal/infra/db/gormrepo/frontier_repo.go:444-476 | the row storing this token goes back to the queue with a backoff or is dead, by retryable and attempts |
| FrontierRepository.FrontierRepo.SweepExpired | internal/infra/db/gormrepo/frontier_repo.go:522-531 | exactly the leased rows whose stored expiry has passed are requeued; none is overdue afterwards and the count is that of the rows changed |
| FrontierRepository.FrontierRepo.RequeueByFilter | internal/infra/db/gormrepo/frontier_repo.go:482-501 | exactly the rows hit by the filter are requeued with lease and backoff cleared, whatever their status |
| LeaseTable.LeasingAt | internal/infra/db/gormrepo/frontier_repo.go:351-359 | after any prefix of the grants, exactly the picked rows are leased and every other row is untouched |
| LeaseTable.ActKeepsSound | internal/infra/db/gormrepo/frontier_repo.go:351-531 | every act of any queue keeps lease shape, conservation of leases, the attempt budget and "holds the last token issued" |
| FrontierRuns.StepIsActs | internal/infra/db/gormrepo/frontier_repo.go:213-531 | every statement moves every row by one legal act and changes no row's domain or attempt limit |
| FrontierRuns.EveryRunIsSound | internal/infra/db/gormrepo/frontier_repo.go:213-531 | in every run, operator requeues included: leased exactly when token, worker and expiry are all set; each lease ended once or is the one held |
| FrontierRuns.AttemptsAreBudgeted | internal/infra/db/gormrepo/frontier_repo.go:351-359 | attempt_count equals the leases granted and is at most max_attempts plus sweeps plus requeues |
| FrontierRuns.AttemptLimitIff | internal/infra/db/gormrepo/frontier_repo.go:453-531 | attempts stay within max(1, max_attempts) throughout a run, and queued rows below it, if and only if no sweep or requeue hits the row at its limit |
| FrontierRuns.NextGrantPassesLimit | internal/infra/db/gormrepo/frontier_repo.go:351-359 | after such a hit the row is queued at its limit, and whichever reserve picks it next passes the limit |
| FrontierRuns.SweepsOutrunMaxAttempts | internal/infra/db/gormrepo/frontier_repo.go:522-531 | for every configuration, a run of one row with max_attempts 1 that ends with attempt_count 2 |
| FrontierRuns.EveryRunIsTimely | internal/infra/lease/lease.go:38-50 | with TTL, extension and backoff at least a second (plus clock lag) and operator requeues at least a second after the row's last grant, expiry seconds of one URL's tokens strictly increase |
| FrontierRuns.SupersededTokenIsDead | internal/infra/db/gormrepo/frontier_repo.go:405-476 | in such runs, presenting any token but the last one issued for a URL changes no row, whatever the clocks say |
| FrontierRuns.IssuedOnlyGrows | internal/infra/db/gormrepo/frontier_repo.go:351-359 | the tokens issued for a URL stay issued, in order, in every continuation of a run |
| FrontierRuns.OnlyTheHolderActs | internal/app/service.go:94-176 | a token step that changes anything presented the token now stored, the last one issued, inside its signed expiry, on a leased row; no other row moves |
| FrontierRuns.CompleteActsIff | internal/app/service.go:116-164 | completing acts if and only if the row is leased under the token and was verified no later than its signed second |
| FrontierRuns.StrayTokenIsInert | internal/infra/db/gormrepo/frontier_repo.go:405-476 | a token the row does not store changes nothing |
| FrontierRuns.TokenStepFrames | internal/infra/db/gormrepo/frontier_repo.go:405-476 | a token step touches at most the row its token names |
| FrontierRuns.LeaseLifetimeIsBounded | internal/app/service.go:94-101 | however often the holder heartbeats, the stored expiry stays within TTL plus one extension (plus clock lag) of the grant, and a later sweep takes the row |
| Politeness.PoliteMeans | internal/infra/db/gormrepo/frontier_repo.go:534-543 | the SQLite expression as a bound on whole seconds, and what that means in real time, with when it must hold again |
| Politeness.DelayIsGapIff | internal/infra/db/gormrepo/frontier_repo.go:534-543 | a delay of d ms guarantees a gap of d ms if and only if the last request came early enough in its second: its sub-second part is at most ceil(d / 1000) s - d ms |
| Politeness.TruncationEatsTheGap | internal/infra/db/gormrepo/frontier_repo.go:541 | an instance that fails the condition: two requests one millisecond apart satisfy a delay of 1000 ms |
| Politeness.GrantIsPolite | internal/infra/db/gormrepo/frontier_repo.go:323-371 | a reserve that grants from a domain found it polite, takes at most parallel_fetches of its rows and stamps it |
| Politeness.OtherStepsKeepLastRequest | internal/infra/db/gormrepo/frontier_repo.go:366-371 | no other step moves last_request_at |
| Politeness.GrantsAreSpaced | internal/infra/db/gormrepo/frontier_repo.go:323-371 | from any point of a run on, while the knobs of a domain stay put and wherever it is inserted, its grants lie at least ceil(delay / 1 s), less the clock lag in seconds, apart |
| Politeness.RateIsBounded | internal/infra/db/gormrepo/frontier_repo.go:323-371 | under the same hypotheses any K consecutive seconds see at most ceil(K / D) granting reserves of a domain, D being that spacing, hence at most parallel_fetches times that many of its URLs |
| IngestRuns.DoneMeansArchived | internal/app/service.go:116-164 | under any interleaving of crawl steps and uploads and any crash, while no mover deletes blobs, a done page has a lake row of its URL whose blob is stored; no two lake rows share content and URL; an accepted result names a row of its own page |
| IngestRuns.RetryFindsTheRow | internal/infra/db/gormrepo/lake_repo.go:29-66 | a later upload of the same bytes for the same URL gets the id of the first row and adds none |
| IngestRuns.LakeOnlyGrows | internal/infra/db/gormrepo/lake_repo.go:29-66 | lake rows are never lost or renumbered by results |
| IngestRuns.OnlyCompleteMakesDone | internal/infra/db/gormrepo/frontier_repo.go:422-440 | a page becomes done only by Complete under the held, verified token |
| IngestRuns.PutBlobOnColumns | internal/app/service.go:123-131 | the blob goes under a key of the page's own hash and content type, and nothing else moves |
| IngestRuns.IndexOnColumns | internal/infra/db/gormrepo/lake_repo.go:29-66 | the row of the same URL and content is found, or one is added; no other content of the URL counts as the same |
| IngestRuns.FinishOnColumns | internal/app/service.go:145-147 | a result is accepted exactly when the page is still leased under its token and was verified in time, and then that page is done |
| ChunkRepository.ChunkRepo.ReserveBatch | internal/infra/db/gormrepo/chunk_repo.go:101-189 | some legal answer of "oldest pending first, at most batch" is leased, and exactly that is returned |
| ChunkRepository.ChunkRepo.PickOldest | internal/infra/db/gormrepo/chunk_repo.go:117-120 | distinct pending chunks in creation order, none left out while an older or equal one is taken or room remains |
| ChunkModel.OldestOnColumns | internal/infra/db/gormrepo/chunk_repo.go:117-120 | the picks are pending, distinct, oldest first and at most batch; a pending chunk left out finds the batch full and is no older |
| ChunkRepository.ReservedOnColumns | internal/infra/db/gormrepo/chunk_repo.go:122-189 | exactly the picks get the worker, a token of id, worker and truncated expiry, that expiry and one attempt more |
| ChunkRepository.ChunkRepo.MarkEmbedded | internal/infra/db/gormrepo/chunk_repo.go:192-209 | done exactly when leased under this token |
| ChunkRepository.ChunkRepo.MarkEmbedFailed | internal/infra/db/gormrepo/chunk_repo.go:212-233 | back to pending at once, or failed from the third attempt on, for the row storing this token |
| ChunkRepository.ChunkRepo.SweepExpired | internal/infra/db/gormrepo/chunk_repo.go:236-245 | exactly the overdue leases are requeued; none is left and the count is that of the rows changed |
| ChunkRepository.ChunkRepo.RequeueByFilter | internal/infra/db/gormrepo/chunk_repo.go:285-303 | exactly the chunks hit by the filter are requeued and counted |
| ChunkRepository.ChunkRepo.ReplaceByDocument | internal/infra/db/gormrepo/chunk_repo.go:52-96 | all old chunks of the document replaced by all new ones, or nothing changed at all; which one is decided by the unique keys; the old ids come back in index order |
| ChunkModel.InsertingAt | internal/infra/db/gormrepo/chunk_repo.go:73-88 | after any prefix of the inserts, rows that existed are untouched and the inserted ones are pending and unleased |
| ChunkRuns.EveryRunIsSound | internal/infra/db/gormrepo/chunk_repo.go:101-303 | shape, conservation and budget over every run, replacements and requeues included |
| ChunkRuns.AttemptsAreBudgeted | internal/infra/db/gormrepo/chunk_repo.go:149-245 | leases granted equal attempt_count and are at most 3 plus sweeps plus requeues |
| ChunkRuns.SweptExactlyAfterTtl | internal/infra/db/gormrepo/chunk_repo.go:236-245 | a sweep takes a chunk lease if and only if it reads the clock later than the grant plus TTL |
| ChunkRuns.TokenActsIff | internal/app/embed.go:46-120 | exactly when an issued chunk token still acts: leased, unexpired, and equal to the last token issued |
| ChunkRuns.TokensAreDistinctIff | internal/infra/db/gormrepo/chunk_repo.go:101-189 | in every run the tokens of a chunk are pairwise distinct if and only if no worker was granted it twice inside one expiry second; grants to one worker a second apart are enough |
| ChunkRuns.SupersededActsIff | internal/infra/db/gormrepo/chunk_repo.go:192-233 | some step can still act under the token of a superseded grant if and only if the chunk is leased to the same worker inside the same expiry second |
| ChunkRuns.TokensCanRepeat | internal/infra/db/gormrepo/chunk_repo.go:221-224 | a concrete run in which two leases of a chunk carry the same token and the first holder completes the second lease |
| TaskRepository.TaskRepo.ClaimNext | internal/infra/db/gormrepo/processing_repo.go:37-75 | the lowest queued id of the processor starts running, its attempts counted, its lease columns left NULL |
| TaskRepository.TaskRepo.MarkFailed | internal/infra/db/gormrepo/processing_repo.go:89-108 | back to queued while attempts remain, else failed; lease columns untouched |
| TaskRepository.TaskRepo.MarkDone | internal/infra/db/gormrepo/processing_repo.go:78-87 | the status becomes done and no other column moves |
| TaskRepository.TaskRepo.MarkSkipped | internal/infra/db/gormrepo/processing_repo.go:111-120 | the status becomes skipped and no other column moves |
| TaskRepository.TaskRepo.ReserveBatch | internal/infra/db/gormrepo/processing_repo.go:210-289 | the first batch ids of the wanted kinds are leased and returned, or, when a lake object is missing, nothing changes |
| TaskModel.PicksOnColumns | internal/infra/db/gormrepo/processing_repo.go:230-237 | the picks are queued tasks of the wanted kinds by ascending id; such a task left out finds the batch full and comes later |
| TaskRepository.HandedOnColumns | internal/infra/db/gormrepo/processing_repo.go:238-283 | exactly the picks get the worker, a token of id, worker and truncated expiry, that expiry and one attempt more |
| TaskRepository.TaskRepo.Heartbeat | internal/infra/db/gormrepo/processing_repo.go:292-306 | moves the expiry of the lease stored under this token and no other |
| TaskRepository.TaskRepo.Complete | internal/infra/db/gormrepo/processing_repo.go:309-326 | done exactly when leased under this token |
| TaskRepository.TaskRepo.Fail | internal/infra/db/gormrepo/processing_repo.go:329-357 | requeued or failed by retryable and attempts, for the row storing this token |
| TaskRepository.TaskRepo.SweepExpired | internal/infra/db/gormrepo/processing_repo.go:403-411 | exactly the overdue external leases are requeued, none is left, and the count is that of the rows changed; internal claims have no expiry and stay |
| TaskRepository.TaskRepo.RequeueByFilter | internal/infra/db/gormrepo/processing_repo.go:360-378 | exactly the tasks that match status, worker and processor, where given, are queued without a lease |
| TaskRuns.StepKeepsInv | internal/infra/db/gormrepo/processing_repo.go:37-411 | every step but an operator requeue keeps each running task either fully leased or claimed with no lease column set |
| TaskRuns.RequeueKeepsInvIff | internal/infra/db/gormrepo/processing_repo.go:360-378 | an operator requeue keeps that split if and only if it hits no task the pipeline has in hand |
| TaskRuns.OwnersDoNotMeet | internal/infra/db/gormrepo/processing_repo.go:78-120 | in careful runs no Mark write lands on an externally leased task and no sweep or token step on an internal claim |
| TaskRuns.CarelessRequeueMixesOwners | internal/infra/db/gormrepo/processing_repo.go:360-378 | a concrete run in which a requeue of a claimed task lets a late Mark requeue an external lease, token and all |
| TaskRuns.AttemptsAreBudgeted | internal/infra/db/gormrepo/processing_repo.go:37-411 | in every run attempt_count equals the number of internal claims and external leases of the task, and is at most max(1, max_attempts) plus one per sweep and requeue that put it back |
| TaskRuns.PutsBackOnColumns | internal/infra/db/gormrepo/processing_repo.go:360-410 | what counts as putting a task back: a sweep of its overdue lease, or a requeue whose status, worker and processor match |
| TaskRuns.TokenActsIff | internal/infra/db/gormrepo/processing_repo.go:292-357 | in every run, careless requeues included, some step can act under the token of a grant if and only if the row carries lease columns and the last grant went to the same worker inside the same expiry second |
| TaskRuns.LeaseLifetimeIsBounded | internal/infra/db/gormrepo/processing_repo.go:292-306 | the lease held is that of the last grant; however often it is heartbeated, its stored expiry stays within one extension (plus clock lag) of the expiry granted, and a later sweep takes it |
| PipelineService.Pipeline.Exec | internal/app/pipeline.go:99-122 | the one status write that the processor and the outcome of its work call for, if that write succeeds |
| PipelineService.Pipeline.Drain | internal/app/pipeline.go:87-97 | whatever fails: claims are bounded by the work queued at the start, tasks outside the pool are untouched, and without claim errors nothing internal stays queued; if the Mark writes succeed too, every pooled task is settled |
| PipelineLaws.DrainedOnColumns | internal/app/pipeline.go:87-97 | a queued task of a listed processor is claimed at most max(1, max_attempts - attempts) times and keeps its other columns; every other task is untouched |
| PipelineLaws.SettledOnColumns | internal/app/pipeline.go:99-122 | with the pool emptied and settled, such a task is done, failed or skipped |
| PipelineModel.ServingUsesWork | internal/app/pipeline.go:90-95 | each claim uses up at least one unit of the sum over queued tasks of max(1, max_attempts - attempts) |
| PipelineModel.RetriedFirst | internal/infra/db/gormrepo/processing_repo.go:41-42 | a task that failed with attempts left is the next one claimed |
| PipelineModel.ServingDrains | internal/app/pipeline.go:99-122 | per task, attempts spent and still possible never exceed what it had at the start |
| Headroom.EffectiveBatch | internal/infra/http/policy.go:12-31 | the batch a count allows: nothing at the cap, else the request cut to what remains |
| Headroom.CapUnderRaces | internal/infra/http/policy.go:12-31 | with at most k of a worker's requests between count and lease, held leases plus outstanding grants over the three queues never exceed k times its cap; with k = 1 never the cap |
| Headroom.CapIsReached | internal/infra/http/jobs.go:103-115 | the bound is exact: for every cap and every k some run ends with k times the cap held |
| Headroom.CapHoldsIff | internal/infra/http/policy.go:12-31 | held leases stay within the cap in every run if and only if k <= 1 |
| Headroom.CrawlHeld | internal/infra/db/gormrepo/worker_repo.go:122-134 | no crawl step raises a worker's held count by more than its own reserve's batch |
| Base64Url.RoundTrip | internal/infra/lease/lease.go:48-78 | decoding undoes encoding for every byte string, unpadded (section 5 of RFC 4648) |
| Base64Bits.AlphabetIs | internal/infra/lease/lease.go:48-54 | the digits are the 64 characters of the URL-safe alphabet in order, and no other character has a value |
| Base64Bits.EncodeOnBits | internal/infra/lease/lease.go:48-49 | four digits carry the 24 bits of three bytes, shorter ends padded with zero bits and no padding characters |
| Base64Bits.DecodeOnBits | internal/infra/lease/lease.go:53-57 | the way back, with the texts that do not decode |
| LeaseToken.Sign | internal/infra/lease/lease.go:38-50 | the buffer filled in place is the hash, the two big-endian words and the MAC of both; the raw form is what the text decodes to |
| LeaseToken.LayoutOnBytes | internal/infra/lease/lease.go:38-50 | bytes 0-31 are the hash, 32-39 the worker and 40-47 the expiry second as big-endian words, 48-63 the head of the MAC of the first 48 |
| LeaseToken.TaskPreimageOnBytes | internal/infra/lease/task_lease.go:30-35 | the hashed task key is "task:", three zero bytes and the id as a big-endian word |
| LeaseToken.SignedVerifies | internal/infra/lease/lease.go:53-72 | a signed token verifies, with its claims, exactly until its truncated expiry |
| LeaseToken.VerifiedIsSigned | internal/infra/lease/lease.go:53-72 | whatever verifies carries the MAC of the claims it yields |
| LeaseToken.StoredMatchIsClaimsMatch | internal/infra/lease/lease.go:53-83 | for a verified token, comparing stored bytes and comparing claims are the same test |
| LeaseToken.TaskTokenOpensItsTask | internal/infra/lease/task_lease.go:11-28 | a token signed for a task opens that task and no other, given a collision-free hash |
| LeaseToken.EqualConstantTime | internal/infra/lease/chunk_lease.go:35-45 | the accumulating loop decides equality |
| Chunker.Split | internal/infra/pipeline/chunker/chunker.go:58-127 | the loops return, chunk by chunk, previous overlap, core and next overlap as documented |
| Chunker.SplitOnInputs | internal/infra/pipeline/chunker/chunker.go:42-127 | with size 2800 for a ChunkTokens of zero or below and overlaps cut to 0..size: ceil(n / size) chunks, chunk i decoding its core with the overlap before and after it |
| Chunker.CoreRanges | internal/infra/pipeline/chunker/chunker.go:86-95 | the ranges are the cores, ceil(n / size) of them |
| Chunker.SplitReassembles | internal/infra/pipeline/chunker/chunker.go:38-127 | count ceil(n / size), token counts adding up to n, and the tokens restored by stripping overlaps with the config and counts alone |
| Chunker.SliceIsStretch | internal/infra/pipeline/chunker/chunker.go:97-126 | each chunk's slice is one contiguous stretch of the input |
| Chunker.ShortInputIsOneChunk | internal/infra/pipeline/chunker/chunker.go:58-127 | input within one core gives one chunk of the whole input |
| Chunker.NegativeOverlapsIff | internal/infra/pipeline/chunker/chunker.go:56-79 | clamping negative overlaps to zero and falling back to 400 cut the same slices if and only if neither overlap is negative or the input fits one core |
| RechunkService.RechunkSvc.Rechunk | internal/app/rechunk.go:89-191 | "" refused, "-" the default bucket; a finished run handled exactly the documents its limit allows as one unpaged pass would, a failed listing returns the report of a first part of that pass beside its error; each line lists the old chunk ids in index order |
| RechunkLaws.RechunkOnDocuments | internal/app/rechunk.go:85-191 | the documents handled are those whose collection is the one named, or none for "-", beyond the cursor and in id order; all of them without a limit, the first `limit` with one; every other document keeps its chunks |
| RechunkLaws.LineOnColumns | internal/app/rechunk.go:136-178 | one document's line and the points left, told from dry run, key conflicts, the old ids and whether the point delete fails |
| RechunkLaws.TotalsOnLines | internal/app/rechunk.go:140-178 | the totals start at zero and each line adds its own counts |
| RechunkService.RechunkSvc.Paged | internal/app/rechunk.go:121-189 | pages of at most 100 with a shrinking limit and a moving cursor visit what one pass visits |
| RechunkService.RechunkSvc.Rebuild | internal/app/rechunk.go:136-178 | one document: its report line and the new stores, for dry runs, refused replacements and failing point deletes |
| RechunkService.RechunkSvc.ListByCollection | internal/infra/db/gormrepo/extraction_repo.go:105-125 | the first ids of the bucket beyond the cursor, ascending; all of them when the limit is zero or below |
| RechunkLaws.RunRebuilds | internal/app/rechunk.go:121-189 | with fresh UUIDs nothing fails, each handled document holds exactly Split of its text and every other document's chunks are untouched |
| RechunkLaws.RebuiltOnColumns | internal/app/rechunk.go:193-206 | a rebuilt document holds one pending, unleased chunk per chunk of Split, with its index, text and count, and no other |
| RechunkLaws.NeverAMix | internal/app/rechunk.go:18-21 | each handled document's chunks are all new and its line lists the old ids in index order, or all old and its line says failed |
| RechunkLaws.ResumedIsLonger | internal/app/rechunk.go:52-57 | a limited run and a second one resumed from its last document equal one longer run |
| MoverService.Mover.Run | internal/app/migrator.go:33-64 | for any batch size and failures the shrinking listing is walked as one pass over the rows it started with; equal backends are refused |
| MoverService.Mover.MoveObject | internal/app/migrator.go:66-93 | one object's effect on the table and both stores, for every way it can fail |
| MoverService.PageIsNext | internal/infra/db/gormrepo/lake_repo.go:125-155 | a page read after rows have left the source is the next stretch of the first listing |
| MoverLaws.RunMovesTheRest | internal/app/migrator.go:33-93 | the final table in closed form over the initial lake: a source row is on the target under its old key if and only if its own copy succeeds and no earlier row moved its blob away; all else is as it was; errors count exactly the rows that stay, scanned = copied + errors, skipped = 0 |
| MoverLaws.RowOnColumns | internal/app/migrator.go:66-93 | a row ends on the target under its key with its origin recorded if and only if it was on the source, its blob is there, nothing fails before the update, the size put is its own and no earlier row of the key took the blob away; else it is as it was |
| MoverLaws.StatsOnColumns | internal/app/migrator.go:33-64 | copied counts the rows that moved, errors those left on the source, scanned both |
| MoverLaws.MovedHasItsBlob | internal/app/migrator.go:72-83 | a moved row leaves a blob of its own size and body on the target |
| MoverLaws.SourceBlobsOnColumns | internal/app/migrator.go:87-91 | a source blob is gone if and only if DeleteSrc is on and some row under its key moved and was deleted |
| MoverLaws.GoesUnlessRobbed | internal/app/migrator.go:66-93 | at its turn an object goes if and only if it would have gone at the start and no earlier deleting move took its blob |
| MoverLaws.StaysWholeIff | internal/app/migrator.go:66-93 | every row keeps its blob after every step if and only if no successful move deletes a blob whose key another source row still needs |
| MoverLaws.SafeSettings | internal/app/migrator.go:16-18 | DeleteSrc off, or distinct keys on the source, is always safe |
| MoverLaws.RecrawledPageIsStranded | internal/app/migrator.go:87-91 | two crawls of one page and DeleteSrc: the second row loses its blob |
| TriggerDispatch.TriggerDispatcher.Group | internal/app/dispatcher.go:72-78 | the cache maps each event to its enabled triggers in id order |
| TriggerDispatch.TriggerDispatcher.Refill | internal/app/dispatcher.go:65-83 | under the write lock: the cached entry if another call refreshed, the listing's if not, nothing if the listing failed |
| TriggerDispatch.TriggerDispatcher.EnqueueAll | internal/app/dispatcher.go:44-52 | one job per matching trigger in order, less those whose enqueue failed |
| TriggerDispatch.TriggerDispatcher.Lookup | internal/app/dispatcher.go:54-83 | a fresh cached entry, else what the cache says if it is fresh by then, else the listing's triggers, else none; the cache changes only to a listing's grouping |
| TriggerDispatch.TriggerDispatcher.Fire | internal/app/dispatcher.go:44-83 | the jobs of the triggers the lookup finds, in order, less those whose enqueue failed; with the cache expired, the uncached filter of the fresh listing, or nothing when the listing failed |
| TriggerModel.SelectThenMatch | internal/app/dispatcher.go:44-106 | selecting for the cache and filtering later enqueue what one uncached filter would |
| TriggerModel.MatchesOnFields | internal/app/dispatcher.go:85-106 | an empty filter admits everything, an unreadable one nothing; else the content type begins with the prefix, letters without case, and the source processor is the one given |
| TriggerModel.FiresInIdOrder | internal/app/dispatcher.go:44-83 | one job for each enabled, matching trigger of the event, by ascending id |
| TriggerModel.SentByPosition | internal/app/dispatcher.go:44-52 | with failing enqueues: the jobs of exactly the matching triggers whose enqueue did not fail, in order |
| TriggerRuns.CallsSeeASnapshot | internal/app/dispatcher.go:54-83 | in every interleaving of calls and edits, a call that did not fail enqueues what the table of one moment asks for, at most cacheTTL plus one refresh old |
| TriggerRuns.EditsTakeEffect | internal/app/dispatcher.go:17-18 | a call that returns later than that after the last edit follows it |
| TriggerRuns.SnapshotsOutliveTheTtl | internal/app/dispatcher.go:67-81 | the age of snapshots is bounded by no less: for every refresh time a call is served a snapshot of exactly that age |
| TriggerRuns.EditsWithinIff | internal/app/dispatcher.go:54-83 | every call returning more than a given time after the last edit follows it, in every run, if and only if that time is at least cacheTTL plus what a refresh may take |
| TriggerRuns.EditsWithinTtlIff | internal/app/dispatcher.go:17-18 | edits take effect within cacheTTL if and only if a refresh takes no time between its listing and its store |
| EmbedFleet.Worker | cmd/embedworker/main.go:250-301 | one goroutine fills its own stretch of the results, with what the hosts it picked make of each text, and nothing else |
| EmbedFleet.EmbedAll | cmd/embedworker/main.go:235-304 | every slot is filled with what two hosts of the fleet make of it |
| EmbedModel.FittingSlots | cmd/embedworker/main.go:262-300 | such a slot carries its own chunk's id and lease token, and hosts that agree leave no choice |
| EmbedModel.SlotOnReplies | cmd/embedworker/main.go:255-300 | a slot holds the vector of its place in its sub-batch when that reply has one per text, else the first vector of its own reply, or the reason there is none |
| EmbedModel.EmptyVectorIff | cmd/embedworker/main.go:259-300 | a slot carries an empty vector, which the registry refuses, if and only if a sub-batch reply of the right length is empty there; single replies are checked |
| EmbedRuns.AnyScheduleFillsEverySlot | cmd/embedworker/main.go:235-304 | under any schedule of the goroutines, each request going to the host the round-robin hands it, every slot is filled under its own chunk's id and token by replies of two hosts; when hosts reply alike the results are the same for every schedule |
| EmbedRuns.StepsAreBounded | cmd/embedworker/main.go:240-303 | every step of every schedule decreases a bounded measure |
| EmbedRuns.NeverStuck | cmd/embedworker/main.go:237-302 | with room for one goroutine some step is always possible until all are through |
| RoundRobin.Fleet.Pick | cmd/embedworker/main.go:191-194 | the host at the counter modulo the fleet, on a 64-bit counter |
| RoundRobin.LoadsDifferByAtMostOne | cmd/embedworker/main.go:191-194 | over any stretch of picks that does not cross the wrap, or any at all when the fleet divides 2^64, two hosts' loads differ by at most one |
| RoundRobin.WrapSkews | cmd/embedworker/main.go:191-194 | for any other fleet, 2^64 mod its size plus one picks across the wrap give one host two and another none |
| RoundRobin.FairIff | cmd/embedworker/main.go:191-194 | every stretch of picks is fair up to one if and only if the fleet divides 2^64 |
| Canonical.Canonicalize | internal/infra/urls/canonical.go:14-55 | the fields as edited in place are the canonical form |
| Canonical.SortQuery | internal/infra/urls/canonical.go:28-50 | grouped, sorted and printed in nested loops, the query is its decoded pairs in canonical order |
| Canonical.SameFormIff | internal/infra/urls/canonical.go:11-55 | two URLs share a canonical form if and only if they agree up to host case, one default port, an empty path, the fragment and the order of decoded query pairs (sections 6.2.2.1 and 6.2.3 of RFC 3986) |
| Canonical.HostHasNoCapitals | internal/infra/urls/canonical.go:19 | a canonical host has no capital letter |
| Canonical.CaseDoesNotMatter | internal/infra/urls/canonical.go:19 | URLs that differ in the case of host letters alone have one form |
| Canonical.PlainHostIsKept | internal/infra/urls/canonical.go:19-27 | a host without capitals and without its scheme's default port is kept |
| Canonical.DefaultPortIsDropped | internal/infra/urls/canonical.go:21-27 | ":80" goes for http and ":443" for https |
| Canonical.OtherPartsOnBytes | internal/infra/urls/canonical.go:20-55 | the fragment goes, an empty path becomes "/", scheme and user stay |
| Canonical.QueryPairs | internal/infra/urls/canonical.go:28-50 | the canonical query prints the pairs of the URL's own query |
| Canonical.QueryOnBytes | internal/infra/urls/canonical.go:31-38 | by key and then by value in byte order |
| Bytes.AtMostIff | internal/infra/urls/canonical.go:35-38 | byte order: a prefix comes first, else the smaller byte where two strings first differ |
| Canonical.OneArrangement | internal/infra/urls/canonical.go:35-38 | the canonical order leaves no choice |
| Canonical.StableIff | internal/infra/urls/canonical.go:19-27 | a canonical form is its own canonical form if and only if the URL did not come with its default port twice (http and ":80:80", https and ":443:443") |
| Canonical.DoublePortIsNotStable | internal/infra/urls/canonical.go:21-27 | http://a:80:80/ has the form http://a:80/, which is not stable |
| QueryCodec.EscapeRoundTrip | internal/infra/urls/canonical.go:44-46 | unescaping undoes escaping for every byte string |
| QueryCodec.PrintRoundTrip | internal/infra/urls/canonical.go:30-49 | parsing undoes printing for every list of pairs |
| QueryBytes.EscapeOnBytes | internal/infra/urls/canonical.go:44-46 | unreserved bytes stand for themselves, '+' for a space and %XX in capitals for the rest (section 2 of RFC 3986) |
| QueryBytes.UnescapeOnBytes | internal/infra/urls/canonical.go:30 | outside percent signs '+' is a space and other bytes are themselves |
| QueryBytes.UnescapeOnPercent | internal/infra/urls/canonical.go:30 | a percent sign and two hexadecimal digits are one byte |
| QueryBytes.UnescapeOnBadPercent | internal/infra/urls/canonical.go:30 | any other percent sign spoils the text |
| QueryBytes.ParseOnBytes | internal/infra/urls/canonical.go:30 | pieces end at ampersands |
| QueryBytes.PieceOnBytes | internal/infra/urls/canonical.go:30 | pieces with a semicolon or a bad escape are dropped, the first '=' separates |
| QueryBytes.PrintOnBytes | internal/infra/urls/canonical.go:40-47 | escaped key, '=', escaped value, joined by ampersands |

## Left out

- gorm, SQL dialects, connection pools, migrations: each statement or write transaction is one atomic step over a map of rows.
- The PostgreSQL and MySQL forms of the politeness expression: the SQLite form is modelled.
- Columns that no guard reads: http_status, last_error, timestamps of start and finish, the collection joined into chunk leases.
- SQLite compares timestamps as text when sweeping; the model compares them as times.
- HTTP handlers, PAT lookup, multipart, CLI, logging, Selenium, OCR, S3, Qdrant, Quickwit and Stanza clients: outside events are parameters.
- url.Parse and URL.String: Canonical is modelled on the parsed URL, without opaque URLs and escaped paths, with ASCII case folding.
- The bare "?" of a URL without a query is kept as the flag the parser sets.
- AcceptText and AcceptBlob of the task service beyond their token checks and row changes.
- Links discovered in a page: their scope rules come before EnqueueMany and are settled by reading one branch each.
- A lake row's SHA need not match its blob: keys depend on the URL alone and a later crawl overwrites; nothing of the kind is claimed.
- Re-extraction of a document that already has chunks depends on a constraint in migrations that are not part of this model.
- Cancellation of an embedding fan-out, which leaves slots empty.
- Rows inserted on the source while the mover or the rechunk command runs.
- PipelineService.Pipeline.Exec: the text, documents and chunks an execution writes are not modelled, only its outcome and the status written.
- PipelineService.Pipeline.Drain: no worker, sweeper or operator step is taken between its polls; TaskRuns interleaves all of them, where `TaskRuns.AttemptsAreBudgeted` bounds the claims task by task.
- IngestRuns.DoneMeansArchived: the mover is no step of these runs; a move that deletes its source keeps every row's blob exactly under the condition of `MoverLaws.StaysWholeIff`.
- ChunkRepo.InsertMany, the plain insert of a new document's chunks; its comment says taken indexes are ignored, its statement does not.
- TriggerDispatch.TriggerDispatcher.EnqueueAll: which enqueue fails is given by a parameter; the JSON of a filter is taken as parsed, with ASCII case folding.
