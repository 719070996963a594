# Quotas, job lifecycle, streams and synchronisation of the AI job queue

The service lets users submit AI jobs through an HTTP API. Redis holds the quota counters, one
lock set per user, the hashes of each job and the stream of its text; BullMQ hands jobs to
workers; crons expire stale jobs, drop old locks and copy results to PostgreSQL. The handlers
are sequences of Redis commands and five atomic Lua scripts that interleave freely. This
project models them and proves what they keep.

## How it is built

* `Redis.dfy` has the keys as values and each Lua script as one function; `Scripts.dfy` says
  what each of them replies and changes; `Store.dfy` has the scripts step by step, on an object,
  proved equal to those functions.
* `Lifecycle.dfy` is the protocol as one machine: requests, workers, the failure listener,
  the expiry cron and the sync take single atomic steps in any order, a worker may die between
  any two of its steps, and clock steps remove keys whose deadline has passed. History and
  ledger fields record what happened; no step of the service reads them. `JobInvariant`,
  `Concurrency` and `QuotaLedger` hold in every step; `WaitingCounter` says how far each step
  moves a waiting counter away from the backlog; `EventCounts` counts events where they occur;
  `Safety`, `Traces`, `RefundDecision`, `RpmWindow`, `DayQuota`, `Gates` and `Outcomes` draw
  the guarantees over whole runs from them; `Hazards` and `DayHazard` show where the service keeps
  less, with runs that lead there.
* `Service.dfy` has the handlers themselves as methods over the store, with arbitrary steps of
  everybody else between two commands; `Handlers.dfy` has what they are specified by. Each
  method says what it leaves in Redis. All states that it goes through are a run of the machine,
  so every theorem about runs holds of them (`ServiceSafety.HandlersAreSafe`), and where a decision depends on
  what a command found, the contract names the position of that state in the run.
* `ResultStream.dfy` has the stream, the events made from it and the client of the documented
  contract; `StreamServer.dfy` has the worker that writes a stream and the server that replays
  it, with the stream growing and the peer leaving at any moment. `Sessions.dfy` is a client
  over many connections of all kinds. `Sse.dfy` prints and parses events as text.
* `SyncModel.dfy` and `SyncDb.dfy` are the synchronisation cron, `SyncRace.dfy` one chunk of it
  while others write the same hashes, `Selection.dfy` the model
  chain and the fallback loop, `Backlog.dfy` the backlog bound, `CronLock.dfy` the lock around
  a cron job, `GeminiErrors.dfy` the error mapping.

## What the environment is taken to do

* Redis runs a command or a script atomically and does not lose data. It fails only while a
  result is served or a chunk is synchronised. A key is gone once the clock reaches its
  deadline.
* BullMQ has each job in one place, runs it in one worker at a time, may retry it any number of
  times, requeues or fails it when its worker dies, and delivers its final `failed` event once,
  to one listener. It refuses to remove a job only while a worker has locked it, and keeps
  finished jobs.
* A worker may die between any two commands of an attempt, of `finalizeSuccess` and before
  BullMQ learns of the success. The expiry cron may remove a job that it listed while it was
  waiting and that has failed or finished since. A `failed` event of an attempt that is to be
  retried is looked at before the next attempt begins, perhaps after the expiry cron has
  removed the job. The invariants, the concurrency bound, the per-minute bound and the ledgers
  hold whatever of this happens. The other guarantees are stated exactly: `Traces.OneOutcome`
  counts the writes, `Outcomes.OverturnOf` are the steps that change the answer of /status, and
  `WaitingCounter.DriftOf` those that move a waiting counter away from the backlog.
* `getJobs` returns up to 501 jobs of each kind, in any order. One pass of the expiry cron runs
  at a time (`CronLock`); what an earlier one had listed and not removed is forgotten.
* A process of the failure listener or of the expiry cron that dies is one whose steps do not
  go on; nobody repeats them.
* The limits of models and users do not change during a run. The lock TTL is a constant.
* The meta of a job outlives the job, and a hash goes only after the row of the job was
  written. Rows are written and kept by the sync alone.

## Where code and documentation differ

* The documentation says that a client may resume with the id of the last event. The events of
  a stored result carry the job id, which the endpoint does not accept as a cursor; a
  connection cut between the snapshot of a stored result and its `done` leaves the client with
  such a cursor (`StreamServer.FinishedResultDelivers`). The model follows the code.
* The documentation says that jobs with only a meta hash are persisted as failed. The sync
  looks at result keys only; such a row arises only when a result key vanishes between the scan
  and the read, and then it replaces the row that was there (`SyncModel.VanishedResult`).
* The architecture notes list worker crashes as handled. A worker that dies after it has written
  a success is retried; if that attempt fails, `failed` is written over the success and the
  place of a wrong model may be released (`Hazards.DeathAfterSuccess`). The flag
  provider_completed is cleared by the next attempt, so an answered job may be refunded
  (`Hazards.AnsweredJobIsRefunded`).
* A pass of the expiry cron takes the seconds to midnight once. Applied after midnight they end
  the counters of the new day early (`DayQuota.ExpiryCutsTheNewDay`), so that a user can exceed
  the quota of that day (`DayHazard.QuotaIsExceeded`).
* The mark synced_at is set without another look at the result: if it was rewritten since it was
  read, the mark is false, and the row stays as it is (`SyncRace`).
* The event that reports a server error carries the job id, like those of a stored result
  (`StreamServer.ServerErrorSpoilsCursor`).
* A rejection because the queue is full keeps the user's token and lock
  (`Hazards.FullQueueKeepsLockAndToken`), and an expiry gives the user's token back to the day
  of the expiry (`Hazards.ExpiryRefundsItsOwnDay`).
* /status says completed before the result is there, because the meta is written first; if the
  worker dies in between it says so of a job that is waiting again (`Outcomes.StatusBeforeOutcome`).
* A streaming job whose provider is silent for ten seconds has no stream yet, so the live loop
  ends its connection without an event (`StreamServer.LiveLoop`).

## Model

| member | source | states |
|---|---|---|
| StoreModule.Store.CombinedCheckAndAcquire | src/redis/luaScripts/combinedCheckAndAcquire.lua:15-68 | the commands with their early returns change the counters and locks as the script's function on the whole database says, and reply its code |
| StoreModule.Store.ConsumeExecutionLimits | src/redis/luaScripts/consumeExecutionLimits.lua:1-38 | the reply is -1 if and only if a positive per-minute limit would be exceeded, -2 if and only if that is not so and a positive daily one would, and 1 otherwise; then both counters go up and live for their TTLs, and a refusal changes nothing |
| StoreModule.Store.ReturnTokensAtomic | src/redis/luaScripts/returnTokensAtomic.lua:1-35 | up to three counters are lowered, clamped at zero and given a fresh deadline |
| StoreModule.Store.DecrAndClampToZero | src/redis/luaScripts/decrAndClampToZero.lua:1-7 | the counter is lowered by one unless that would be negative |
| StoreModule.Store.ExpireStaleJob | src/redis/luaScripts/expireStaleJob.lua:36-54 | waiting count, lock, user token, result and meta change together as the script's function says |
| Scripts.AcquireReplies | src/redis/luaScripts/combinedCheckAndAcquire.lua:33-52 | the reply is 0, -4 or -2 if and only if the locks, the user or the model is the first gate that is closed, and 1 if and only if none is |
| Scripts.AcquireTakesTokens | src/redis/luaScripts/combinedCheckAndAcquire.lua:59-66 | an acquisition takes tokens of a limited user and no others, and renews the deadlines of both days |
| Scripts.AcquireTakesLock | src/redis/luaScripts/combinedCheckAndAcquire.lua:31-57 | a request drops the locks of its user that are over; an admitted one holds a lock until the lock TTL is over, and nobody else's locks change |
| Scripts.ReturnMoves | src/redis/luaScripts/returnTokensAtomic.lua:20-34 | a refund lowers both model counters, to zero at the lowest, renews their deadlines, and leaves every other key |
| Scripts.ExpiryWrites | src/redis/luaScripts/expireStaleJob.lua:36-54 | an expiry gives back a place and the user's token, drops the lock of the job and no other, and writes the failure into the hashes of the job and no other, whose text and model stay |
| Safety.RunIsGood | src/worker/handleJob.ts:35-61 | the invariants of counters, locks, ledgers and hashes hold in every state of every interleaving, with workers dying anywhere and the expiry cron removing finished jobs |
| Safety.WaitingCounterConserved | src/routes/resume/prepareJobSubmission.ts:79-90 | in every run queue:waiting of a model is, in all states, the number of its requests between INCR and answer plus its unfinished jobs, if and only if no step abandons a place of it, releases a place that nobody holds or takes up a finished job again; abandoned places alone leave it too high by their number |
| Safety.DecrementsNeverClamp | src/redis/luaScripts/decrAndClampToZero.lua:1-7 | as long as nothing undercounts, every step that lowers a waiting counter finds it positive and lowers it by exactly one, except a release of a place that nobody holds, which is clamped exactly at zero |
| Safety.BacklogNeverExceedsBound | src/routes/resume/prepareJobSubmission.ts:75-90 | as long as nothing undercounts, increment, compare and decrement by any number of requests never admit more unfinished jobs than the larger bound |
| Safety.ConcurrencyBound | src/redis/luaScripts/combinedCheckAndAcquire.lua:31-57 | jobs of a user that were admitted within the lock TTL and have no outcome all hold their lock and number at most max_concurrency |
| Safety.DailyCounterMatchesLedger | src/redis/luaScripts/consumeExecutionLimits.lua:21-36 | a daily counter is grants minus returns, its missing part is exactly accounted for, and it never exceeds a positive limit |
| RpmWindow.RpmBound | src/redis/luaScripts/consumeExecutionLimits.lua:21-36 | in every window shorter than the minute TTL a model is charged at most rpm times plus once for each refund in the window |
| Gates.DelayIsDue | src/redis/luaScripts/consumeExecutionLimits.lua:21-38 | in every run a job is delayed only if its model was charged rpm times since the minute key began to live, and fails for the day only if it was charged rpd times since the day key did; it is turned away whenever that many charges were not given back, and charged to both counters otherwise |
| Gates.RefusalIsDue | src/redis/luaScripts/combinedCheckAndAcquire.lua:42-52 | in every state of every run a user or a model is without a token only if the whole limit was taken since its key began to live, and whenever it was taken beyond what was given back |
| Traces.ChargedOnceRefundedOnce | src/worker/consumeLimitsIfNeeded.ts:18-54 | over any retries a job is charged once, plus once for each worker that died before noting it, and refunded at most once, or twice if listener and expiry both handle it, and only if charged |
| RefundDecision.FailureRefundsExactlyWhenDue | src/worker/queueEvents.ts:70-85 | in every run a final failure is refunded if and only if a charge was noted before and no completion was noted after the last call of the provider |
| RefundDecision.ExpiryRefundsExactlyWhenDue | src/cron/expireStaleJobs.ts:40-58 | an expiry refunds if and only if that was so, and the meta was there, at the moment it read the flags |
| RefundDecision.CompletedCallIsNotRefunded | src/worker/handleJob.ts:47-52 | a job that has noted its completion is never refunded unless a later attempt calls again or the cron holds older flags |
| Traces.OneOutcome | src/worker/finalizeSuccess.ts:14-29 | success, final failure and expiry write one result between them, plus exactly one each time a job with a result is taken up again and for a late expiry: a finished job has one outcome if and only if neither happened |
| Outcomes.StatusIsAbsorbing | src/routes/resume/resume.ts:157-184 | from the first outcome on /status answers it, though its three reads happen in three different states, if and only if no failure or expiry is written over a success and no attempt is marked when its result hash is gone; a first failure is answered for ever in every run |
| Outcomes.StatusBeforeOutcome | src/routes/resume/resume.ts:157-184 | before the first outcome, whatever states its reads fall into, /status is not found exactly until the job is enqueued, then queued, in progress, or completed once a success has begun to be written; it is in progress whenever a worker has marked the job and has not put it back |
| Outcomes.OutcomeIsStored | src/worker/finalizeSuccess.ts:20-25 | in every run an outcome exists exactly when the result hash or the row does; unless overturned, both tell it |
| DayQuota.QuotaPerLife | src/redis/luaScripts/combinedCheckAndAcquire.lua:42-46 | while a daily key lives, tokens taken are at most the limit plus tokens given back, and the counter moves by their difference |
| DayQuota.KeyLivesThroughDay | src/redis/luaScripts/combinedCheckAndAcquire.lua:59-66 | if every TTL that is set on a key within a day was taken in that day, the key does not start anew before midnight, whatever touches it |
| DayQuota.TtlOfSourceReaches | src/utils/time.ts:3-14 | counting from a time without milliseconds to the next midnight, every TTL reaches that midnight, for each day |
| DayQuota.QuotaPerDay | src/redis/luaScripts/combinedCheckAndAcquire.lua:42-62 | in every window within a day, whatever came before it, acquisitions or charges are at most the limit plus the refunds in the window, if the TTLs set in it were taken in that day |
| DayQuota.TouchFallsShort | src/cron/expireStaleJobs.ts:20-21 | a touch leaves a key with a deadline short of midnight if and only if its TTL was taken the day before and less than a day ago |
| DayQuota.ExpiryCutsTheNewDay | src/cron/expireStaleJobs.ts:60-77 | a pass that starts in the last second of a day leaves the user counter of the next day one second to live, after which it starts anew |
| DayHazard.QuotaIsExceeded | src/cron/expireStaleJobs.ts:20-77 | for every configuration with a daily quota of two and an ordinary midnight there is a run in which a user acquires four tokens in the first second of a day although one is given back |
| Hazards.FullQueueKeepsLockAndToken | src/routes/resume/prepareJobSubmission.ts:82-89 | a QUEUE_FULL rejection changes the waiting counter and nothing else |
| Hazards.SecondReleaseUndercounts | src/worker/queueEvents.ts:123-125 | one release too many leaves an exact waiting counter exact if and only if the backlog is empty |
| Hazards.ExpiryRefundsItsOwnDay | src/cron/expireStaleJobs.ts:64-77 | the counter of the admission day goes down if and only if the job expires on that day and the counter is positive |
| Hazards.DeathAfterSuccess | src/worker/finalizeSuccess.ts:14-29 | from every state after the success was begun to be written, a death and a final failure lead to `failed` over whatever text is stored and release one place of the model that was used, whichever the job queued for |
| Hazards.DeathAfterRelease | src/worker/finalizeSuccess.ts:29 | a death after the release puts the job into the backlog again while the counter stays |
| Hazards.ExpiryAfterTheEnd | src/cron/expireStaleJobs.ts:29-77 | a job that was read while waiting and removed after it failed or finished gets the expiry written over its result and a place taken from the backlog, beside what its own handler does |
| Hazards.ListenerMissesJob | src/worker/queueEvents.ts:49-68 | a listener that looks for a job after the expiry cron has removed it fails it for good and releases a place once more |
| Hazards.AnsweredJobIsRefunded | src/worker/handleJob.ts:47-52 | for every configuration there is a run in which the provider answers and the job is refunded |
| ServiceModule.Service.SubmitJob | src/routes/resume/prepareJobSubmission.ts:57-103 | whatever others do between the commands: a request is refused with the gate that was closed when the last model was tried, every earlier one being absent or used up when it was tried; otherwise it gets the first model that was not, and the queue is full if and only if INCR found no place in the backlog; a failed enqueue leaves the job rejected, an accepted one waits with its meta |
| ServiceModule.Service.SelectAvailableModel | src/routes/resume/modelSelection.ts:38-102 | with others at work between the attempts, each model of the chain in turn is passed over if and only if it is absent or its day is used up, in the state in which it is tried; the first other one decides, by locks, user and model, and all are passed over exactly when the answer is that no model has a token |
| Handlers.PlaceIsWithinBound | src/routes/resume/prepareJobSubmission.ts:75-90 | the backlog has a place if and only if it is empty, or shorter than 27 minutes of work at the rate of the model and the mode and than a positive daily limit |
| ServiceModule.Service.CompareAndDecr | src/routes/resume/prepareJobSubmission.ts:82-90 | the request is accepted if and only if its own INCR reply is within the bound; otherwise the counter goes down by one, and nothing else changes |
| ServiceModule.Service.EnqueueJob | src/routes/resume/enqueueJob.ts:37-72 | either the meta names user, models and status and nothing else changes, or the waiting counter goes down by one and nothing else changes |
| ServiceModule.Service.MarkInProgress | src/worker/markInProgress.ts:5-18 | status and time of the attempt are written; every other hash, counter, lock and job stays |
| ServiceModule.Service.ConsumeLimitsIfNeeded | src/worker/consumeLimitsIfNeeded.ts:18-54 | the job is requeued if the minute of its model is used up at that moment, fails uncharged if only the day is, and is otherwise charged once, which is noted; tokens noted before are never consumed again |
| ServiceModule.Service.CallModel | src/worker/handleJob.ts:47-52 | after an answer provider_completed is set, after an exception it is cleared and the job is delayed or failing |
| ServiceModule.Service.HandleJob | src/worker/handleJob.ts:35-61 | whatever others do and wherever the worker dies, an attempt charges at most once and not at all if a charge was noted; its tokens are put off or denied only if the minute or the day was used up when it asked; a successful one leaves meta, result and lock as finalizeSuccess promises |
| ServiceModule.Service.FinalizeSuccess | src/worker/finalizeSuccess.ts:8-30 | unless the worker dies, at the end meta and result tell the answer and its model, the lock is gone and the result was written once, whatever others did in between |
| ServiceModule.Service.DecideRefund | src/worker/queueEvents.ts:70-85 | the counters change by the refund script if and only if user and model are known, tokens were consumed and the call did not complete; nothing else changes, and without meta nothing at all |
| ServiceModule.Service.OnFailed | src/worker/queueEvents.ts:46-126 | an event of a job that is found and not failed, or that has no meta, changes nothing; otherwise, also when the expiry cron has removed a job that was to be retried, result and meta end as failed with the reason and the code that clients know it by (or those of the expiry) and the lock is gone |
| Handlers.ExpiryIsTheScript | src/redis/luaScripts/expireStaleJob.lua:36-54 | the machine's expiry step, in time or late, and the Lua script are the same change of the database |
| ServiceModule.Service.ExpireListed | src/cron/expireStaleJobs.ts:40-77 | the job is expired if and only if no worker has it at the moment of its removal; otherwise nothing is written |
| Handlers.GetJobs | src/cron/expireStaleJobs.ts:29-30 | the list has waiting and delayed jobs of the queue, each once, and all of a kind that has no more than 501 |
| ServiceModule.Service.ExpireQueue | src/cron/expireStaleJobs.ts:27-78 | the same for one queue; every other job only goes its own way |
| ServiceModule.Service.ExpireStaleJobs | src/cron/expireStaleJobs.ts:19-80 | unless a worker has a listed job when the pass is about to remove it, every job that stood in its queue when the list was taken, was past the limit and whose kind fitted on a page is expired at the end of the pass, whatever others do at any point; no job is that was not past the limit |
| ServiceModule.Service.CleanupOrphanLocks | src/cron/cleanupOrphanLocks.ts:9-21 | the pass drops the locks that are over at its start, one set after the other, and touches no job |
| ServiceSafety.HandlersAreSafe | src/worker/handleJob.ts:35-61 | after any use of the handlers all invariants hold, and the waiting counter of a model is exact if no step has made it drift |
| ResultStream.ConnectionKeepsAgreement | src/routes/resume/streamingLogic.ts:79-136 | a connection cut after any event leaves a client with exactly the text up to its cursor, and never moves the cursor back |
| ResultStream.ResumedStreamIsExact | src/routes/resume/streamingLogic.ts:172-207 | over any number of connections, each cut anywhere, the buffer is the concatenation of the chunks up to the cursor |
| ResultStream.SnapshotIsWorthDeltas | src/routes/resume/streamingLogic.ts:88-119 | the snapshot of any stream, of whatever attempts, leaves a new client with the text and cursor of all its entries; without a terminal entry that is where its deltas lead |
| ResultStream.SnapshotTells | src/routes/resume/streamingLogic.ts:88-119 | a snapshot carries the id of the last entry and the state of the last attempt: in progress before any terminal entry, else what the last one says, with code and message of a failure |
| ResultStream.FinishedClientHasWholeText | src/worker/executeModel.ts:34-61 | a client that was told that a single-attempt job is done holds the whole text |
| ResultStream.OpenConnectionDelivers | src/routes/resume/streamingLogic.ts:143-211 | a connection that stays open delivers the whole text, and tells the client so if and only if the client had not yet seen the last entry |
| ResultStream.TraceFollowsGrammar | src/routes/resume/streamingLogic.ts:88-136 | at most one snapshot and only first, at most one terminal event and only last, ids never decrease, no snapshot after a cursor |
| StreamServer.ExecuteModel | src/worker/executeModel.ts:12-81 | the stream gets one entry per chunk and one terminal entry, and the returned text is what these entries add up to |
| StreamServer.FirstAttemptIsWhole | src/worker/executeModel.ts:34-61 | a first successful attempt leaves a complete stream whose text is the stored result |
| StreamServer.Aggregate | src/routes/resume/streamingLogic.ts:88-118 | the loop over the history computes the text, the last status and the error of all entries |
| StreamServer.SendEntries | src/routes/resume/streamingLogic.ts:121-136 | a batch is sent entry by entry, stops at the first terminal one and ends the response exactly then or when the peer has gone |
| StreamServer.StreamHistory | src/routes/resume/streamingLogic.ts:73-137 | what was sent is the trace of the entries found, and the cursor for the live loop stands right after them |
| StreamServer.LiveLoop | src/routes/resume/streamingLogic.ts:176-210 | whatever each XREAD returns, the response is one trace of the stream; it ends once, after a terminal event or with the stream, unless the peer has gone |
| StreamServer.HandleActiveStreaming | src/routes/resume/streamingLogic.ts:143-211 | a job whose meta says streaming, and that has a stream or is not queued, gets one trace, the whole of it if it is a single success that outlives the connection; any other job with meta or stream gets exactly one snapshot without content, with its status and five seconds to wait; the rest get nothing; the response is ended exactly once |
| StreamServer.ServeResultStream | src/routes/resume/resume.ts:64-104 | the stored result comes before the trace of a streamed job or the snapshot for polling, and the archived row after them; if a read throws at any point, the trace sent so far is followed by one SERVER_ERROR; every response is ended once |
| StreamServer.ServerErrorSpoilsCursor | src/routes/resume/resume.ts:94-103 | a server error leaves a client its text and the job id for a cursor |
| StreamServer.TrySendFinishedResult | src/routes/resume/streamingLogic.ts:12-35 | a stored result is sent as a snapshot with its content, status and error and an end with model and time, and nothing is sent without one |
| StreamServer.FinishedResultDelivers | src/routes/resume/streamingLogic.ts:17-31 | the stored result leaves the client done with its text; cut after the snapshot it leaves the job id as cursor |
| StreamServer.PollKeepsAgreement | src/routes/resume/streamingLogic.ts:161-168 | the snapshot for polling keeps a client that has its text right if and only if its buffer is empty |
| StreamServer.Connect | src/routes/resume/streamingLogic.ts:143-211 | a reader that connects with its cursor is a reader again afterwards, further on, or done, unless a poll meets its text; one that stays to the end of a single success that outlives the connection has the whole text, and a new one is done |
| Sessions.VisitKeepsRight | src/routes/resume/resume.ts:64-104 | a connection of any of the four kinds, cut anywhere, keeps the client right if and only if it is not a poll that meets text |
| Sessions.SessionIsRight | src/routes/resume/resume.ts:64-104 | over any number of such connections the client holds exactly the chunks up to its cursor, or the stored text once it has been sent |
| Sse.Socket.SendSSE | src/utils/sse.ts:45-63 | one message is written as printed, or nothing to a destroyed socket |
| Sse.ParseSSE | test/helpers/sse-parser.ts:12-45 | the nested loops compute the events of the parts between empty lines |
| Sse.RoundTrip | test/helpers/sse-parser.ts:12-45 | parsing printed messages, retry lines and keep-alives gives back exactly the messages |
| Sse.PrintAndParse | test/helpers/sse-parser.ts:12-45 | the parser's loops, run on the printer's text, return the messages |
| SyncModel.UpsertKeepsSafe | src/cron/syncDbResults.ts:148-163 | upserting the rows of a chunk keeps every mark true and makes the rows of its complete jobs agree with their hashes |
| SyncModel.UpsertWrites | src/cron/syncDbResults.ts:57-83 | the upsert writes every column from the field it belongs to, also of a row for a missing result, and keeps the owner, requested model and time of a row that was there |
| SyncModel.VanishedResult | src/cron/syncDbResults.ts:57-83 | a vanished result replaces a stored row by missing_result if and only if the meta is there and stale |
| SyncDb.Flatten | src/cron/syncDbResults.ts:126-146 | there are 12 values per row and reading them through the placeholders gives the rows back |
| SyncDb.ReadChunk | src/cron/syncDbResults.ts:30-40 | replies 2i and 2i + 1 are the meta and the result of key i |
| SyncDb.ParseChunk | src/cron/syncDbResults.ts:42-112 | the loop collects for each key the row, the keys to expire and the mark that its hashes call for |
| SyncDb.SyncChunk | src/cron/syncDbResults.ts:26-177 | a chunk that ends has written each row from the hashes of its job, marked its results and given the keys it looked at five minutes; one that throws has changed nothing; every state in between is safe |
| SyncDb.SyncPass | src/cron/syncDbResults.ts:15-178 | every visited job with an unmarked result has a row with the id, user, resume, requested model and time of its meta (a row that was there keeps them), the processed model of the meta, and status, data, errors and times of the result; one whose result is missing for long has a failure row; every other row stays; in every state a marked result has its row and deadlines shrink only after the row; a complete pass visits and marks every key |
| SyncDb.SyncTwice | src/cron/syncDbResults.ts:92-123 | after a complete first pass, which has written the row of every key as stated and marked every complete job, a second pass leaves rows and hashes exactly as they were |
| SyncRace.SyncChunkAmid | src/cron/syncDbResults.ts:26-177 | while others write any hashes between its commands, a chunk writes the rows from the hashes it has read, and each of its marks is true if and only if the result hash still tells what was read |
| SyncRace.FalseMarkIsKept | src/cron/syncDbResults.ts:92-94 | a row that disagrees with a marked result is never written again |
| Selection.LoadModelsByType | src/services/modelSelector.ts:26-73 | each list has exactly the models of its type that have limits, each once, ascending by priority and in the order of the ids where priorities tie |
| Selection.ResolveModelChain | src/services/modelSelector.ts:100-112 | the chain has every model that serves the mode exactly once, the last of the preferred type first and the fallbacks in order; it is an error if and only if none serves |
| Selection.ChainIsComplete | src/services/modelSelector.ts:75-112 | the chain names every eligible model once, the last of the preferred type first and the rest in order; there is none exactly when nothing is eligible |
| Selection.SelectAvailableModel | src/routes/resume/modelSelection.ts:38-102 | the loop admits to the first present model with spare quota or reports the gate that is closed, dropping nothing but expired locks |
| Selection.SelectionTakesOne | src/redis/luaScripts/combinedCheckAndAcquire.lua:54-68 | a selection takes one user token and one lock and nothing from anybody else |
| Backlog.ComputeMaxQueueLength | src/routes/resume/queueUtils.ts:6-13 | the bound is at least one and at most a positive daily limit |
| Backlog.BoundHoldsItsWork | src/routes/resume/queueUtils.ts:6-13 | the bound is the least number from one up that holds 27 minutes of work at the lesser of both rates, cut off at a positive daily limit |
| Backlog.BoundMonotoneInRpm | src/routes/resume/queueUtils.ts:6-13 | a faster model never gets a shorter backlog |
| Backlog.BoundMonotoneInRpd | src/routes/resume/queueUtils.ts:11-12 | a larger daily limit never gets a shorter backlog, and no limit gets the longest |
| Backlog.FullBacklogDrains | src/routes/resume/queueUtils.ts:1-13 | a full backlog drains within thirty minutes when a job takes at most three |
| Backlog.SlowModelMissesTheSla | src/routes/resume/queueUtils.ts:10-12 | without that limit rounding up can exceed the thirty minutes |
| CronLock.RunExcludes | src/cron/utils/runWithLock.ts:11-22 | if every run ends in time, at most one process is inside and every DEL removes the deleter's own lock |
| CronLock.SecondEntersOnOverrun | src/cron/utils/runWithLock.ts:11-22 | a second process gets in if and only if the first has overrun, and then loses its lock to the first |
| CronLock.Cluster.RunWithLock | src/cron/utils/runWithLock.ts:5-25 | the job runs if and only if the key is free and leaves no lock behind |
| GeminiErrors.NormalizationKeepsVerdict | src/ai/providers/gemini/errorMapping.ts:72-99 | normalising keeps the retry verdict if and only if the parts of the error agree in four stated ways |
| GeminiErrors.NormalizationIsStable | src/ai/providers/gemini/GeminiProvider.ts:135-179 | normalising twice decides the same as normalising once |
| GeminiErrors.Verdicts | src/ai/providers/gemini/GeminiProvider.ts:135-179 | network codes are retried, client errors and the five fatal names are not, whatever else is said; UNAVAILABLE and DEADLINE_EXCEEDED without a number are retried, INTERNAL unless the message tells of a too long context |

## Left out

- BullMQ, ioredis, Fastify, authentication, PostgreSQL with its triggers and policies: libraries; they appear only as the environment above.
- Failures of Redis commands outside the serving of a result, and `queue.add` and the meta write in `enqueueJob` succeeding one without the other: they are one step that succeeds or fails.
- Limits changed while jobs run, the user-limits cache and the admin routes.
- Time zones: a day is a function from instants to dates and a number of seconds to midnight, both arbitrary; `DayQuota.CountsToNext` says what the source's clock does, except when daylight saving time changes.
- JSON: an inverse pair of functions; `parseMaybeJson` is the identity on the content of events.
- Real ids and keys: users, models and jobs are numbers, stream ids are positions in time order.
- The adaptive snapshot for a job that has meta but no stream is modelled; the polling itself is the client's.
- Prompt building, schemas, health and list routes, shutdown, worker concurrency: no hard property.
- ServiceModule.Service.DecideRefund: models reading the meta and the refund script as one step, because no other process writes the fields it reads while the final failure of a job is pending.
- ServiceModule.Service.HandleJob: does not model that `handleJob` returns normally after `moveToDelayed`; the job is simply delayed.
- StreamServer.ExecuteModel: does not model the time to live of the stream key; a reader's stream may expire between any two reads, and nobody writes to it again during the same connection.
- Safety.DailyCounterMatchesLedger: states the ledger since the key last expired; `DayQuota.QuotaPerDay` bounds a day.
- DayQuota.QuotaPerDay: does not bound a day in which a TTL is applied that was taken on the day before; `TouchFallsShort` says when that shortens the key, and `DayHazard.QuotaIsExceeded` that the bound then fails.
- ServiceModule.Service.OnFailed: takes the state that BullMQ reports to be `failed` only after the last attempt; the counter that is released is that of the machine's step, stated by `ReleaseFailed`.
- SyncDb.SyncPass: takes the hashes of the listed jobs to be written by nobody else during the pass, and one creation time for all rows that lack one; `SyncRace` has a chunk with others at work.
- Selection.SelectAvailableModel: models the loop with nobody else at work, to say which model it picks; `ServiceModule.Service.SelectAvailableModel` has the loop with others at work.
- Backlog.ComputeMaxQueueLength: computes over exact numbers; the source multiplies by 0.9 in floating point.
- GeminiErrors.NormalizationKeepsVerdict: takes the four phrases of a too long context as a given predicate and ignores names that every JavaScript object has.
