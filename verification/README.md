# Verified model of MEDDOWBOT

MEDDOWBOT is a Telegram bot that downloads media. Users send links; a preflight worker looks the request up in a
content cache, fetches metadata, shows a quality menu or hands over to a download worker; a sweep in the bot process
revives jobs whose worker went silent. This project models the parts of it that hold state or arithmetic, and proves
what they keep. `dafny verify dfyconfig.toml` checks all of it.

## What is modelled

**The job pipeline.** `JobTable` is the `download_jobs` table and the statements that change it. `Pipeline` is the
whole system as a step system: the table, the messages with their handlers or queued for the two workers, the runs in
progress, split at their awaits, and the rows that the sweep has read and not yet written. A step is one atomic act
of a user, a handler, a worker or the sweep, and any interleaving of steps is a behaviour. Losing a message, dying in
the middle of a task, and a round of the sweep that fails after queueing messages are steps too. `PipelineMachine` is
the same system as a class: the table, the tasks and the sweep's rows as fields, and one method for each procedure of
the code, written statement by statement as the code is. Each method is proved to perform exactly the steps named in
its contract; `Steps` spells out the state that each step leads to, and `Journeys` strings steps together. On top of
the step system:

- `JobTableInvariants`: what every step keeps about rows and tasks. `Stamps`: what the times on a row mean, and
  that the cache serves the file finished last.
- `Quiescence` and `AtRest`: the system comes to rest by itself; what rest looks like; which jobs can be unfinished then.
- `CacheSoundness` and `MenuRun`: when the content cache serves the right file, and a behaviour in which it does not.
- `Recovery`: how often the sweep revives a job.
- `Cancellation` and `Completion`: when `/cancel` lasts, and when DONE does.

**The proxy pool.** `ProxyPool` has the rows, selection, the health state machine and the latency average;
`ProxyFairness` has round robin over serial calls and least-used selection with concurrent callers.

**The Redis counters.** `RateLimiter` is the Lua script on timed runs; `Quota` is the counter of concurrent jobs with
its commands interleaved.

**Loops and orderings.** `Formats` (format choice and quality menu), `History` (pagination), `Progress` (the throttled
listener), `Cookies` (the registry with one active file per platform). `Text` has splitting at colons and decimal
numerals, `Sums` has sums over sets and bags.

## What the code does not keep

Where a lemma is named, it proves the point on a concrete behaviour or as an exact condition; the others can be read
off the steps of the model.

- A tap on the quality menu that hits the cache closes the row while it still carries the hash of the "best" request,
  so the next "best" request is served a file of the tapped quality (`MenuRun.MenuBreaksCache`). The cache is sound
  exactly when every completing step finds its own hash on the row (`CacheSoundness.CacheSoundExactly`), and always
  where jobs keep one quality (`CacheSoundness.OneQualityIsSound`).
- A row can be DONE without a file id: exactly when a download finishes with an empty upload list
  (`JobTableInvariants.DoneHasFileExactly`). The list comes from a glob over the file stem (utils/archiver.py:49), and
  a stem with square brackets in it can match nothing.
- DONE can turn into FAILED: the last notice is sent inside the same `try` (workers/download.py:219-230), so it can
  undo any download (`Completion.LastNoticeUndoesDone`), and a round of the sweep that read the row before it was
  finished writes its verdict afterwards (bot/main.py:63-77). DONE lasts exactly when every task left of the job only
  delivers, stops, or is bound to hit the cache on the job's own row, and a round that has read it has at most such a
  message to queue (`Completion.DoneFinalExactly`).
- A cancelled job stays cancelled exactly when no task is left that writes its row and no round of the sweep that
  read it has it still to queue or to give up on (`Cancellation.CancelFinalExactly`); the workers never look at the
  status.
- README.md:31 promises that jobs survive crashes. A message is gone once delivered, and a row with no heartbeat is out
  of the reach of the sweep (bot/main.py:59): a job whose first message is lost stays PENDING
  (`AtRest.LostMessageStrandsJob`). Once the system is at rest, a job is finished exactly if it was covered again after
  every step that stranded it (`AtRest.EveryJobFinishes`). Only the loss of its last task before the download strands
  a waiting job; no death of a download does.
- The bound of three recoveries holds for rounds of the sweep that commit. A round that fails after queueing is rolled
  back and leaves its messages behind, any number of times (`Recovery.FailingRoundsUnbounded`).
- The sweep gives up on a row without stamping `completed_at` (bot/main.py:67-70). FAILED rows are all stamped exactly
  as long as it never gives up on a row that was never completed (`JobTableInvariants.FailedStampedExactly`).
- database/models.py:220 says that a worker refreshes the heartbeat every 30 seconds. The code stamps it at the start
  of the download and before compression only, so the sweep can revive a job whose download is under way, and then it
  is downloaded twice at the same time (`Recovery.DownloadedTwice`). A round reads a RUNNING job exactly when its last
  stamp lies more than five minutes back (`Recovery.ReadExactly`).
- README.md:33 calls the rate limiter a token bucket. It is a fixed window, so one window length can see up to
  `2 * limit - 1` allowed calls, and does (`RateLimiter.RateBoundIsReached`).
- A denied caller who waits exactly the returned seconds can be denied again: Redis rounds the TTL. It happens exactly
  when the rounding goes down, by at most 499 milliseconds (`RateLimiter.RoundedWaitExactly`).
- An administrator's DISABLED is undone by a failure that makes three in a row, counting those from before
  (`ProxyPool.DisabledSurvivesExactly`).
- A caller that releases a quota slot it does not hold can let too many in (`Quota.StrayReleaseBreaksLimit`): the limit
  can be exceeded exactly when the counter has lost something and there are more callers than the limit
  (`Quota.ExceedableExactly`).
- Two cookie uploads for one platform in the same second block every later discovery of that file
  (`Cookies.SameSecondUploadsBlockDiscovery`).
- On an empty format list "audio" and "best" raise, other qualities give nothing (`Formats.ChoiceIsRight`).

## Readings and assumptions

- SHA-256 is taken to be injective, so a url hash is the hashed text itself. A Telegram file id carries the request
  it was produced for; no step reads that part.
- Qualities have no colon: they are "best", or part of callback data split at colons, either from the quality menu
  (handlers/download.py:77) or from the settings menu (handlers/settings.py:118).
  `CacheSoundness.ColonMakesTextAmbiguous` shows why this matters.
- Job ids are never issued twice (they are random UUIDs).
- A query with ORDER BY and LIMIT 1 may return any row that no other row has to come before.
- Redis keeps expiries in milliseconds and answers TTL in seconds, rounded to the nearest.
- Outcomes of foreign code (metadata extraction, download, compression, uploads, Telegram calls) are parameters of
  the steps and methods, as are clock readings.

## Model

| member | source | states |
|---|---|---|
| Pipeline.EveryMsgKept | workers/preflight.py:155-161 | workers only pass messages on: whatever holds of all messages in the system and of one newly queued goes on holding |
| Pipeline.OutcomesExactly | workers/preflight.py:103-161 | for every configuration, quality, metadata and right choice of a format: each of the four outcomes of preflight occurs exactly under its own condition |
| Pipeline.WarnedExactly | workers/preflight.py:133-153 | past the menu, the large-file question is asked if and only if the chosen format has a known size above 2000 MB with a local server, or above the warning limit without |
| Pipeline.FittingFormatIsDownloaded | workers/preflight.py:133-161 | with the warning limit not below the size limit, a numeric quality at which some format fits always goes to the download, never to the large-file question |
| Pipeline.TapLeadsToDownload | workers/preflight.py:103-161 | a tap on an offered height at which something fits ends its second preflight in a download |
| PipelineMachine.Bot.UpdateStatus | database/crud.py:108-128 | the unconditional UPDATE, column by column: the named columns and the status are set, RUNNING sets started_at to the current time, DONE, FAILED and CANCELLED set completed_at to it, every other column and row stays, and a missing row is not recreated |
| PipelineMachine.Bot.Cancel | database/crud.py:131-148 | success exactly when the row is there and PENDING or RUNNING; then it is CANCELLED and completed now, and otherwise nothing changes |
| PipelineMachine.Bot.GetActiveJobByUser | database/crud.py:151-163 | returns a PENDING or RUNNING row of the user than which no other such row was created later, and nothing exactly when the user has none |
| PipelineMachine.Bot.ClearHistory | database/crud.py:190-193 | performs exactly the step that removes the user's rows |
| PipelineMachine.Bot.ProcessDownload | handlers/download.py:23-55 | the row is created for the user at the current time, PENDING, at "best" for a YouTube link and at the user's setting for any other, and then its message is queued or lost with the handler |
| PipelineMachine.Bot.HandleQualitySelection | handlers/download.py:73-110 | from raw callback data: fewer than three parts, a failing edit, an id that does not parse or an unknown job do nothing; otherwise the row gets the tapped quality, and then a message with its url and that quality is queued or lost with the handler |
| PipelineMachine.Bot.CancelCommand | handlers/cancel.py:15-31 | a newest PENDING or RUNNING job of the user ends up CANCELLED and completed now, and nothing else changes; nothing is cancelled exactly when the user has no such job |
| PipelineMachine.Bot.FindCached | workers/preflight.py:55-66 | the row returned is DONE with the hash and a file, and every such row was completed no later; nothing is returned exactly when there is no such row |
| PipelineMachine.Bot.Lookup | workers/preflight.py:49-71 | is a hit or miss step of the system for the text url:quality; the file delivered is the one on the row hit, which no other finished row of that text was completed after, and at a miss there is none |
| PipelineMachine.Bot.EndPreflight | workers/preflight.py:103-161 | for the right choice of a format, whatever it is: the menu exactly for "best" on YouTube, the IndexError exactly for "audio" or "best" on an empty list, the large-file question exactly above the limit, the download otherwise; the menu shown is the right menu, and there is none on any other path |
| PipelineMachine.Bot.SizeCheck | workers/preflight.py:133-153 | the same for a request that shows no menu: the two warning branches ask exactly above 2000 MB with a local server and above the warning limit without one, an unknown size counting as nothing |
| PipelineMachine.Bot.PreflightTask | workers/preflight.py:29-161 | an undisturbed run is hit and delivery, or miss and failure, or miss, RUNNING mark and end; the row hit is the one completed last, and the final row and tasks are named |
| PipelineMachine.Bot.UploadAll | workers/download.py:181-205 | succeeds exactly when every part does, and then keeps the id of the last part, NULL for no parts |
| PipelineMachine.Bot.DownloadTask | workers/download.py:29-236 | for every outcome of download, compression, uploads and last notice, the steps performed, in order, and the row they leave, each stamp with the clock reading taken for it |
| PipelineMachine.Bot.Requeue | bot/main.py:64-76 | the loop body queues the message of a row recovered less than three times, with the row's url and its quality or 720, and does nothing for any other |
| PipelineMachine.Bot.Write | bot/main.py:66-70 | one row of the commit: heartbeat and the retry count read plus one, FAILED after the third, every other column as it is by then |
| PipelineMachine.Bot.RecoverStaleJobs | bot/main.py:45-77 | a round that does not fail writes exactly the RUNNING rows with a heartbeat more than 300 seconds old, with the retry count plus one and FAILED after the third, queues exactly one message for each of them with recoveries left, and touches nothing else |
| JobTableInvariants.ConsistentKept | database/crud.py:108-148 | every step keeps: rows and tasks carry the url their job was created with, RUNNING rows are started, DONE and CANCELLED rows are completed, a FAILED row lacks completed_at only after more than three recoveries, and a round of the sweep holds rows whose retry count nobody else has changed |
| JobTableInvariants.AlwaysConsistent | database/crud.py:89-148 | that holds in every state of every behaviour |
| JobTableInvariants.OnlyCreateAddsRows | database/crud.py:89-128 | no step but creation adds a row, and creation uses a new id |
| JobTableInvariants.RemovedStaysRemoved | database/crud.py:190-193 | a job once created and now gone is gone in every later state: no worker, sweep or tap recreates it |
| JobTableInvariants.ClearRemovesUser | database/crud.py:190-193 | clearing removes all rows of the user, keeps all others as they are, and leaves queued and running tasks alone |
| JobTableInvariants.DoneHasFileStep | workers/download.py:181-217 | a step keeps "DONE rows have a file id" if and only if it does not finish a download of an existing job with an empty upload list |
| JobTableInvariants.DoneHasFileExactly | workers/download.py:181-217 | over whole behaviours: DONE rows always have a file id if and only if no such step occurs |
| JobTableInvariants.FailedStampedStep | bot/main.py:67-70 | a step keeps "FAILED rows have completed_at" if and only if it is not the sweep giving up on a row never completed |
| JobTableInvariants.FailedStampedExactly | bot/main.py:67-70 | over whole behaviours: FAILED rows always have completed_at if and only if no such step occurs |
| JobTableInvariants.RetryCountNeverDrops | bot/main.py:66 | the retry count of a row rises by one when the sweep writes it and changes at no other step |
| Stamps.StampsAreLast | database/crud.py:122-125 | in any behaviour completed_at is the time at which the row was last delivered, finished, failed or cancelled, and started_at the time at which it was last marked RUNNING |
| Stamps.HitServesLatest | workers/preflight.py:55-66 | in any behaviour a cache hit serves, of all finished rows for its request, one that was closed last |
| Stamps.MissMeansNone | workers/preflight.py:55-66 | in any behaviour a cache miss means that no finished row serves the request |
| Quiescence.PipelineStepDecreases | workers/preflight.py:93-161 | every step of a handler, a worker or a sweep that does not fail strictly lowers one natural-number measure |
| Quiescence.OtherStepBudget | handlers/download.py:32-55 | a user's step raises it by at most 62 for a new job and 14 for a tap, a failing round of the sweep by at most 15 for each of its rows |
| Quiescence.RestReached | bot/main.py:49-77 | a run of such steps alone is no longer than the measure it starts with |
| Quiescence.WorkBoundedByInputs | bot/main.py:49-77 | over any behaviour the system takes at most 62 steps per job, 14 per tap and 15 per row of a round that failed |
| AtRest.LatestMatch | workers/preflight.py:55-66 | among the matches of the cache query there is one that none completed later, so the query has an answer |
| AtRest.TaskGoesOn | workers/download.py:59-236 | every queued or running task can always take a step other than dying |
| AtRest.RoundGoesOn | bot/main.py:64-77 | a round of the sweep can always go on with a row that is still there |
| AtRest.RestExactly | bot/main.py:54-62 | the system is at rest if and only if no task is queued or running, no round of the sweep is under way and no RUNNING row has a heartbeat |
| AtRest.CoveredKept | workers/preflight.py:93-161 | a step that does not let go of a task on its way to the download keeps a waiting job supplied with one |
| AtRest.CoveredExactly | workers/preflight.py:93-161 | a step keeps a covered job covered if and only if it does not end the last task on its way to the download while the row still waits |
| AtRest.AlwaysCoveredExactly | workers/preflight.py:93-161 | over whole behaviours: the job is covered in every state if and only if no step strands it |
| AtRest.FinishedExactly | bot/main.py:54-62 | at rest a job is DONE, FAILED or CANCELLED if and only if it is covered |
| AtRest.EveryJobFinishes | workers/download.py:59-230 | in any behaviour that ends at rest, crashes of downloads and lost duplicates included, a job is finished if and only if it was covered again after every step that stranded it |
| AtRest.LostMessageStrandsJob | bot/main.py:57-60 | for any job: if its first message is lost the system is at rest with the row PENDING |
| CacheSoundness.CacheTextInjective | workers/preflight.py:49 | equal cache texts come from equal (url, quality) pairs, for colon-free qualities and any url |
| CacheSoundness.ColonMakesTextAmbiguous | workers/preflight.py:49 | two different requests with the same text, once a quality has a colon |
| CacheSoundness.SoundStep | workers/download.py:208-217 | a step keeps "hash and file of a DONE row agree" if and only if a completing step finds its own hash, or none, on its row |
| CacheSoundness.HitFindsRequested | workers/preflight.py:55-71 | a hit on a sound table finds a file produced for exactly the request |
| CacheSoundness.CacheSoundExactly | workers/preflight.py:164-179 | over whole behaviours: the cache is sound in every state if and only if every completing step passes that guard |
| CacheSoundness.HitsDeliverWhatWasAsked | workers/preflight.py:164-179 | then each cached delivery hands over a file downloaded for the url and quality of its message |
| CacheSoundness.OneQualityIsSound | handlers/download.py:95-108 | where every job keeps the quality it was created with, the cache is sound in every state of every behaviour |
| MenuRun.MenuBreaksCache | workers/preflight.py:174-179 | twenty-five steps by three users with one YouTube link, ending in a "best" request answered with a 720 file, after a tap on a button that was on the menu shown |
| Recovery.AtMostThreeRevivals | bot/main.py:64-77 | in any behaviour the sweep puts a job back on the queue at most three times, not counting rounds that failed after doing so; outside a round the retry count on the row says how often |
| Recovery.FailingRoundsUnbounded | bot/main.py:72-79 | rounds that fail after queueing, at any readings of the clock that find the row stale, put a job on the queue once each with its row unchanged |
| Recovery.LastSweepFails | bot/main.py:64-70 | in any run in which only the sweep touches a RUNNING row, the sweep writes it at most four times, and it is FAILED exactly from the time after its remaining recoveries on |
| Recovery.FourthSweepFails | bot/main.py:54-70 | the same by the clock, in any such run: rounds that start more than 300 seconds after the row's last heartbeat and do not fail are counted; outside a round the row is FAILED if and only if they outnumber its remaining recoveries, so from the fourth on, and completed_at is never stamped |
| Recovery.HeartbeatIsLastStamp | workers/download.py:59-65 | in any behaviour the heartbeat of a row is the time at which a download last started or refreshed it or the sweep last wrote it |
| Recovery.ReadExactly | bot/main.py:54-62 | in any behaviour a round reads a job if and only if its row is RUNNING and that time lies more than 300 seconds before the round, whether or not its download is under way |
| Recovery.SweptWhileDownloading | bot/main.py:54-77 | for any request and any two times that far apart, a behaviour in which the sweep queues a job while its download runs |
| Recovery.DownloadedTwice | bot/main.py:64-77 | and then two downloads of the job run at the same time |
| Cancellation.StaysCancelled | handlers/cancel.py:26-29 | with neither left and no tap, a cancelled row stays CANCELLED or is cleared, in any run |
| Cancellation.TaskWrites | workers/download.py:59-65 | from any point of a run, a task that may write leads in at most three steps to a row that is no longer CANCELLED |
| Cancellation.SweepWrites | bot/main.py:64-77 | so does a round of the sweep that has the job still to queue or to give up on |
| Cancellation.CancelFinalExactly | database/crud.py:131-148 | a cancelled job stays cancelled through every tap-free continuation if and only if neither is left |
| Completion.StaysDone | workers/preflight.py:164-179 | with only harmless tasks and rounds left and no tap, a DONE row stays DONE or is cleared, in any run |
| Completion.ReachMiss | workers/preflight.py:55-66 | whatever other rows the cache holds, users can bring about a miss for any request that the job's own row does not match, without touching that row |
| Completion.TaskUndoes | workers/download.py:219-230 | from any point of a run, a task that is not harmless can go on until the row is no longer DONE |
| Completion.SweepUndoes | bot/main.py:64-77 | so can a round of the sweep that has the row to give up on, or such a message to queue |
| Completion.DoneFinalExactly | database/crud.py:108-128 | a DONE job stays DONE through every tap-free continuation if and only if neither is left |
| Completion.LastNoticeUndoesDone | workers/download.py:208-230 | for any request and any uploads, a behaviour in which the row is DONE and then FAILED because the last notice raises, with the file id still on it |
| ProxyPool.HealthRefinesHistory | utils/proxy.py:108-152 | from a fresh row, consecutive_failures is the length of the trailing failure run, the totals are the counts, and the row is DEAD if and only if that run is at least three |
| ProxyPool.DisabledSurvivesExactly | utils/proxy.py:145-150 | a row disabled after any history stays DISABLED if and only if no later outcome ends in three failures in a row, those before included; from then on it is DEAD or ACTIVE by the usual rule |
| ProxyPool.AverageIsWeightedSum | utils/proxy.py:118-123 | the stored average is the weighted sum of all samples, 0.9^(n-1) for the first and 0.1 * 0.9^(n-1-i) for the others, with weights adding up to 1 |
| ProxyPool.AverageWithinSamples | utils/proxy.py:118-123 | the average stays within any bounds that hold for the samples |
| ProxyPool.ContainsExactly | utils/proxy.py:57-58 | the substring test holds if and only if the text is something, the part, and something |
| ProxyPool.Manager.SelectProxy | utils/proxy.py:85-106 | the chosen row is ACTIVE, does not end in three failures, and was last used, or is used, no later or no more than any ACTIVE row, never-used rows first; nothing is returned exactly when every row ends in three failures |
| ProxyPool.Manager.GetProxyForUrl | utils/proxy.py:49-83 | only enabled, only for domains with youtube.com or youtu.be anywhere in them; the chosen row gets the time and one use more, no other row changes |
| ProxyPool.Manager.RecordProxySuccess | utils/proxy.py:108-133 | names the new row: the average moves by a tenth, one success more, no failure in a row, ACTIVE unless DISABLED; keeps every row what its history makes of it, ignores an unknown id |
| ProxyPool.Manager.RecordProxyFailure | utils/proxy.py:135-152 | the same for a failure: one more in total and in a row, DEAD from the third in a row on |
| ProxyFairness.PicksDiffer | utils/proxy.py:92-93 | fewer than n picks apart, n ACTIVE proxies, two picks differ |
| ProxyFairness.EveryWindowVisitsAll | utils/proxy.py:71-93 | every n consecutive picks take each ACTIVE proxy exactly once, from any initial stamps, null or not |
| ProxyFairness.RoundRobinIsFair | utils/proxy.py:71-93 | after t picks each ACTIVE proxy was picked floor(t/n) or ceil(t/n) times |
| ProxyFairness.LeastUsedBalances | utils/proxy.py:64-95 | with at most k callers between select and update, recorded uses plus picks under way stay within max(k, initial spread) of the least use count, and so does the spread |
| ProxyFairness.BoundIsReached | utils/proxy.py:64-95 | for every k, a run of k callers that takes two fresh proxies exactly k uses apart |
| RateLimiter.CallsNeverExtend | cache/rate_limiter.py:17-27 | after a call the TTL is in (0, window], and a call on a live key does not move its expiry |
| RateLimiter.LiveTtlInRange | cache/rate_limiter.py:17-27 | in every timed run a live key has counted a call and has a TTL in (0, window] |
| RateLimiter.RateBound | cache/rate_limiter.py:17-27 | any interval no longer than n windows, of any run, has at most (n + 1) * limit - 1 allowed calls |
| RateLimiter.RateBoundCeil | cache/rate_limiter.py:17-27 | fewer than (ceil(T / W) + 1) * limit for length T, and at most 2 * limit - 1 in one window length |
| RateLimiter.RateBoundIsReached | cache/rate_limiter.py:17-27 | for every limit, window and n, a run that reaches the bound |
| RateLimiter.AllowedSplits | cache/rate_limiter.py:17-27 | counting allowed calls of a run in two stretches, with the key carried over, is counting them in one |
| RateLimiter.NoLimitNoCalls | cache/rate_limiter.py:23-25 | with a limit of zero or below nothing is ever allowed |
| RateLimiter.WaitExactly | cache/rate_limiter.py:17-27 | in any run, a denied caller is allowed at a later time, with no call in between, if and only if the TTL of the key has passed |
| RateLimiter.RoundedWaitExactly | cache/rate_limiter.py:55-63 | with the TTL rounded to seconds as it is returned: waiting exactly that long is enough if and only if the rounding did not go down, it falls short by at most 499 milliseconds, and half a second more is always enough |
| RateLimiter.Store.CheckRateLimit | cache/rate_limiter.py:30-63 | a call on a live counter is counted without moving its expiry, and any other opens a window of 3600 seconds; allowed exactly up to the user's override or sixty times the per-minute rate; the wait returned is the TTL to the nearest second, and only that user's key changes |
| Quota.InvariantKept | utils/quota.py:56-87 | counter = holders + unreverted rejections, holders within the limit, and nobody about to SET to zero: kept by every command |
| Quota.HoldersNeverExceedLimit | utils/quota.py:56-69 | that holds in every state of every interleaving of callers that release only what they hold |
| Quota.SetZeroNeverReached | utils/quota.py:82-87 | the SET branch is never taken in such an interleaving |
| Quota.LetInExactly | utils/quota.py:56-69 | a caller is let in if and only if its INCR finds holders and unreverted rejections together below the limit |
| Quota.StrayReleaseBreaksLimit | utils/quota.py:82-87 | a six-command interleaving with one stray release, after which two hold at limit one |
| Quota.ExceedableExactly | utils/quota.py:56-87 | from any state in which the limit holds and no release is under way, whatever came before: disciplined callers can exceed the limit if and only if holders and rejections outnumber the counter and there are more callers than the limit |
| Quota.Counters.CheckAndIncrement | utils/quota.py:43-69 | undisturbed: admits exactly below the limit and leaves the counter as it was when it refuses, an unset counter counting as zero |
| Quota.Counters.Decrement | utils/quota.py:72-87 | undisturbed: takes one off a positive counter and makes any other zero |
| Formats.SelectBestFormat | utils/ytdlp.py:115-157 | the loop and the early returns compute Choose |
| Formats.SortedIsStable | utils/ytdlp.py:126 | the insertion sort that stands for the reversed `sorted` is descending and keeps the elements of each key in the order of the list |
| Formats.StableHeadIsEarliestMax | utils/ytdlp.py:126 | the head of any such arrangement is the earliest maximal element of the list |
| Formats.SortedFirstIsEarliestMax | utils/ytdlp.py:126-133 | so filtering and taking the head of the sort gives the earliest maximal element among those that pass the filter |
| Formats.EarliestMaxUnique | utils/ytdlp.py:152 | there is only one such element |
| Formats.ChoiceIsRight | utils/ytdlp.py:123-157 | for every list and quality: earliest maximum among the eligible, else of all by size, else None or the IndexError |
| Formats.RightChoiceUnique | utils/ytdlp.py:123-157 | that describes one choice |
| Formats.AudioChoice | utils/ytdlp.py:123-127 | "audio" takes the largest format without a video codec, the earliest of equals, an unknown size counting as zero |
| Formats.BestChoice | utils/ytdlp.py:129-133 | "best" takes the largest format with video, the earliest of equals, whatever the size limit |
| Formats.HeightChoice | utils/ytdlp.py:135-152 | any other quality, a number or else 720, takes of the formats with video that are not taller and not known to be too large the tallest, then the largest, then the earliest |
| Formats.FallbackChoice | utils/ytdlp.py:125-155 | with nothing that qualifies, every quality takes the largest format of all, the earliest of equals |
| Formats.TallestFitting | utils/ytdlp.py:140-152 | for a numeric quality at which something fits, the choice fits and nothing that fits is taller |
| Formats.RaisingTargetNeverLowersHeight | utils/ytdlp.py:140-152 | a higher numeric quality never yields a lower height, as long as something fits the lower |
| Formats.CollectHeights | workers/preflight.py:108-117 | collects exactly the offered heights, each once |
| Formats.RowsOfTwo | workers/preflight.py:125-126 | flattening the rows gives the buttons back; all rows but the last have two |
| Formats.BuildQualityMenu | workers/preflight.py:107-126 | the buttons are the distinct heights from 144 up with video, strictly descending, and then audio, in rows of two of which only the last may be shorter |
| Formats.MenuUnique | workers/preflight.py:111-123 | that describes one list of buttons |
| Formats.TapRecoversButton | handlers/download.py:77-82 | splitting the callback data of any button gives back its job and the decimal height or "audio" |
| Formats.TappedHeightIsChosen | utils/ytdlp.py:140-152 | tapping an offered height at which something fits chooses a fitting format of exactly that height |
| Formats.TappedAudioIsAudioOnly | utils/ytdlp.py:123-127 | the data of a tap on Audio splits into the job and a quality that chooses the largest audio-only format, when there is one |
| Text.SplitJoin | handlers/download.py:77 | splitting undoes joining at the first colon |
| Text.LastColonUnique | workers/preflight.py:49 | a text splits at its last colon in one way |
| Text.ParseDecimal | utils/ytdlp.py:135-138 | parsing the decimal text of a number gives the number |
| Text.ParseExactly | utils/ytdlp.py:135-138 | a text is a number exactly when it is digits after at most one sign, and a minus sign negates |
| History.BuildHistoryMessage | handlers/history.py:60-112 | for any list and requested page: the first, the last or the requested page of five, exactly its lines with their ranks, and Prev and Next exactly where there is such a page |
| History.PagesPartition | handlers/history.py:64-79 | following Next from page 1 shows every job once, in order, with its rank |
| History.EachJobOnOnePage | handlers/history.py:68-79 | the line numbered k + 1 is on page k / 5 + 1 and on no other |
| History.ClampedPageIsValid | handlers/history.py:65-66 | there are as many pages of five as it takes; a request before the first becomes the first, one after the last becomes the last, any other is kept, and the page is not empty |
| Progress.StartProgressListener | cache/progress.py:64-103 | the loop computes the listener state that the lemmas below are about |
| Progress.ConsumesThroughFirstFinal | cache/progress.py:70-103 | exactly the events through the first of 100 percent or more are consumed |
| Progress.AtMost21Edits | cache/progress.py:82-92 | at most 21 edits succeed, 20 before the final event, whatever fails |
| Progress.TwentyOneEditsReached | cache/progress.py:82-92 | a stream with 21 successful edits |
| Progress.EditsAreSpaced | cache/progress.py:82-92 | attempts are for progress events, in order and once each, and one below 100 percent comes at least three seconds after every earlier success |
| Progress.NothingPassedOver | cache/progress.py:80-99 | a consumed progress event without an attempt came after 20 edits or within three seconds of a success |
| Cookies.RegisterKeepsOneActive | utils/cookies.py:130-142 | registering keeps: on each platform exactly the last registered row is active |
| Cookies.OnlyLastIsActive | database/crud.py:227-231 | then at most one row of a platform is active, and it is the last one |
| Cookies.CopiesExactly | utils/cookies.py:48-56 | the number of rows found for a file is none or more than one exactly when no row, or two different rows, have its platform and name |
| Cookies.DiscoverExactly | utils/cookies.py:39-64 | discovery raises if and only if a file it finds already has two rows; otherwise each found file has one row afterwards and no other file gains or loses one |
| Cookies.DiscoverKeepsOneActive | utils/cookies.py:39-64 | a discovery that does not raise keeps the last registered row the active one |
| Cookies.DiscoveryIsIdempotent | utils/cookies.py:48-64 | repeating a discovery changes nothing |
| Cookies.SameSecondUploadsBlockDiscovery | utils/cookies.py:118-119 | after two uploads with one file name, every discovery that finds the file raises |
| Cookies.ActiveCookieUnambiguous | database/crud.py:227-237 | after any serial run of uploads and discoveries the lookup finds at most one row, the last registered |
| Cookies.Registry.GetActiveCookie | database/crud.py:227-231 | raises exactly when two rows of the platform are active, finds nothing exactly when none is; while the registry is in order it returns the last registered row |
| Cookies.Registry.SaveCookieFile | utils/cookies.py:130-142 | adds the new row as active, switches the other rows of the platform off and changes nothing else, and keeps one active row per platform |
| Cookies.Registry.DiscoverLocalCookies | utils/cookies.py:39-64 | the loop over files does what DiscoverExactly is about; a lookup that raises leaves the rows as they were; one active row per platform is kept |

## Left out

- The commit of a sweep writes its rows one step at a time, and a round may fail between them: the model has every behaviour of the one transaction, and more.
- Only one bot process runs the sweep, and its rounds follow one another.
- The sweep's join with the users table: every job is taken to have its user.
- PipelineMachine.Bot.PreflightTask: runs its steps without others in between; interleavings are in `Pipeline`, whose steps the methods perform.
- PipelineMachine.Bot.DownloadTask: the same.
- PipelineMachine.Bot.RecoverStaleJobs: the same, for a round that does not fail; failing rounds are in `Pipeline`.
- PipelineMachine.Bot.ProcessDownload: a link's validity checks and the Reddit bulk handler, which creates jobs with the same step, are not modelled.
- PipelineMachine.Bot.HandleQualitySelection: `uuid.UUID` is any partial function from texts to job ids, and the column width of the quality is ignored.
- Formats.SelectBestFormat: `sorted` and the list comprehensions are functions, and `sorted` is an insertion sort; `int()` takes a sign and ASCII digits, without spaces, underscores or other digits.
- Progress.StartProgressListener: progress messages whose percent is not a number, and waits of the listener after a retry notice, which only move the clock.
- RateLimiter.Store.CheckRateLimit: Redis eviction and the branch that lets a caller in when Redis fails are left out.
- History.BuildHistoryMessage: works on a fixed newest-first list; jobs created at the same instant, and changes between the count and the query, are left out, as are the texts of the lines.
- Cookies.Registry.DiscoverLocalCookies: runs serially; an upload during a discovery is not modelled.
- ProxyFairness.LeastUsedBalances: the set of ACTIVE proxies is fixed; outcomes recorded meanwhile are left out.
- ProxyPool.Manager.SelectProxy: the manager's rows change by use and outcomes only; an administrator's changes of status are covered by `ProxyPool.DisabledSurvivesExactly` alone.
- The `random` and `least_errors` strategies, the health-check loop, and proxy metrics.
- The large-file question's buttons: no handler consumes them, so that path stops there.
- Columns that decide nothing (error texts, file name, size, platform, progress) and the Redis title and confirm keys.
- yt-dlp, FFmpeg, py7zr, uploads and the file system: their outcomes are parameters.
- Of a split archive only the last part's id is stored, as in the code; a cached delivery of all parts is not claimed.
- Disk checks, address filtering, middleware, settings, the admin panel and all message texts.
