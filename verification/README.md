# The crawl frontier, verified

The crawler keeps its work queue in Redis. Twelve Lua scripts, called by about twenty
workers and four reconcilers, move jobs `"<jobID>|<url>"` between the lists `ready` and
`processing` and the sorted set `delayed`; `lease` is both the fencing token and the
reaper's index; `dead`, `attempts`, `strikes`, `listing:next`, `listing:barren` and the
Bloom filter hold what is known about each URL. This project models that frontier, the
worker protocol around it, the scheduler's drain loop, URL canonicalisation and the string
encodings, and proves what the comments in the source promise.

`dafny verify dfyconfig.toml` checks everything.

## How the model is built

* `Frontier.Frontier` is `redisFrontier`: one mutable field per Redis key and one method
  per script, written write by write, loops kept. Clock readings are parameters.
* Redis does not interleave scripts and does not roll them back. Every script method
  therefore takes `cut`, the number of its writes that go through before it dies. Each
  method is proved to do what `Scripts.Do(c, s, op, cut)` says of the store `View()`, for
  every `cut`; `cut == WHOLE` is a script that runs to its end. A looping script is a
  sequence of iterations (`Batch`), of which one may die; runs may even put other steps
  between them. `Reconcilers` proves that every such call is a legal stretch of a run.
* A run is any interleaving of legal script steps, `Execution(c, run, tr)`. `Legal` says
  what the callers in `worker.go` guarantee (a resolution fits its URL's class) and bounds
  the clocks: `0 < now < PENDING`, and every date put into `listing:next` is below
  `PENDING`. Clocks are per call and need not be monotone.
* `Crew` runs the workers: each is a small program (lease, fetch, admit the children one
  script at a time, resolve), any number of them and the reconcilers take turns script by
  script, replies may be lost and workers restarted. Every such story is an `Execution` in
  which children come first; `Outcomes` proves what each resolving turn does to the store,
  `Reckoning` what its worker reports of a listing's children. `Example.LossyCrawl` is one,
  told to its end.
* Three kinds of theorem. With `Atomic(run)` no script breaks off; this is where listing
  exclusivity, conservation, quarantine and the counters live (`Exclusive`, `Guarantees`,
  `Accounting`). With `Avoids(c, run, tr)` scripts break off anywhere but at the hazards of
  `Duplicates`; there a URL never has two jobs and is not retried early. Without either any
  script may break off after any write; FIFO order, fencing, the lease window, no loss,
  crash recovery and crawl completeness hold there (`JobQueue`, `LeaseLaws`, `NoLoss`,
  `Recovery`, `Completeness`, `Crew`).
* The Bloom filter is a set of bits and an arbitrary hash from URLs to bit sets. BF.ADD
  answers 1 iff some bit was missing, so false positives are part of the model.
* `Config.Valid` asks for at least one strike, two non-empty ladders, positive TTLs and a
  non-negative quarantine. Nothing is assumed about the ladders' entries, the lease timeout
  or the hash.

## Findings

* Canonicalisation is not idempotent on the key with an empty video id: the key of
  `https://www.vidlii.com/watch?v=&a` is `https://www.vidlii.com/watch?v=`, whose key is
  nothing (`Canonical.EmptyIdLink`). `Canonical.Idempotent` proves this is the only
  exception, `Canonical.EmptyIdKey` which links lead to it.
* The host check is a prefix check. A kept link with no `@` in the rest of its authority is
  on the host iff the base URL is all of it or is followed by `/`, `?`, `#` or `:`; with an
  `@` there, iff the host comes again behind the last one (`Canonical.KeptIsOnHost`).
  `https://www.vidlii.com.example` is kept (`Canonical.OffHostLink`).
* A verdict is read back correctly iff its reason has no `|` (`Encoding.VerdictRoundTrip`).
  The reasons the crawler writes have none.
* "Failure means duplicate, not loss" holds at every write of every script. Which failures
  mean duplicate: `Duplicates.Hazard` lists the breaks, some of which double a job there and
  then and some of which leave a job unmarked, so that one more whole script starts a second
  one. Runs that avoid them never have two jobs for a URL (`Duplicates.RunKeepsSingle`), and
  each of them leads to two (`Duplicates.TwoJobsIff`).
* A BF.ADD that fails on a new video (a filter at capacity) is such a break, the push coming
  first; `Retry.RetryAfterError` gives the extra job for every break of an admission.
* A URL's strikes exceed its attempts exactly after a break between the two deletions
  (`Accounting.CountedIff`).
* A video that every admission meets in the filter already is never fetched; without breaks
  a video gets a job iff one of its admissions answers New (`Completeness.FetchedIffNew`,
  `NeverFetchedIff`), with breaks iff a push of it stands (`EverLiveIff`). Crawl completeness
  holds up to exactly the videos lost like that (`LostIff`); `Example.LossyCrawl` loses one.
* With a SCHEDULER_BATCH_LIMIT below 1 nothing but a failed call ends the scheduler's loop
  (`Scheduler.Tick`).
* The repository's own README still describes an in-memory channel with an overflow list;
  the code no longer has it and the model follows the code.

## Model

| member | source | states |
|---|---|---|
| Frontier.Frontier.Lease | internal/storage/frontier.go:185-192 | the oldest ready job moves to the head of processing and gets an expiry; empty frontier answers nothing; every break included |
| Frontier.Frontier.AdmitVideo | internal/storage/frontier.go:194-215 | verdict check, push, BF.ADD, rollback of a known video; every break included |
| Frontier.Frontier.PushVideo | internal/storage/frontier.go:207-214 | the job that stands after the push, the BF.ADD and the rollback, for every break |
| Frontier.Frontier.PushListing | internal/storage/frontier.go:229-230 | a new job at the back, then PENDING |
| Frontier.Frontier.AdmitListing | internal/storage/frontier.go:217-233 | verdict check, due check, push, PENDING; answers new, revisit or suppressed |
| Frontier.Frontier.SeedListing | internal/storage/frontier.go:490-492 | score 0 only for a listing without an entry |
| Frontier.Frontier.Ack | internal/storage/frontier.go:265-273 | claims by lease, then drops the job and its counters; stale otherwise |
| Frontier.Frontier.CompleteListing | internal/storage/frontier.go:275-295 | claim, barren count, next visit, cleanup, in the script's write order |
| Frontier.Frontier.Revisit | internal/storage/frontier.go:280-289 | the barren count and the date it gives the next visit |
| Frontier.Frontier.Nack | internal/storage/frontier.go:297-304 | claim, new job, old job removed |
| Frontier.Frontier.Fail | internal/storage/frontier.go:306-335 | claim, counters, then last strike or delay |
| Frontier.Frontier.CountFailure | internal/storage/frontier.go:312-316 | attempts always, strikes only for a strikeable failure |
| Frontier.Frontier.NextAttempt | internal/storage/frontier.go:329-332 | the wait is the ladder's rung for the failures so far, the last rung repeating |
| Frontier.Frontier.StrikeOut | internal/storage/frontier.go:318-327 | the writes of the last strike, listing:next before dead |
| Frontier.Frontier.Delay | internal/storage/frontier.go:329-334 | the delaying branch of the script, whatever its break |
| Frontier.Frontier.Postpone | internal/storage/frontier.go:331-333 | a new job in the delayed set, then the old one removed |
| Frontier.Frontier.Requeue | internal/storage/frontier.go:301-302 | a new job at the back, then the old one removed; shared by three scripts |
| Frontier.Frontier.Terminal | internal/storage/frontier.go:337-349 | claim, listing:next before dead, cleanup |
| Frontier.Frontier.Forget | internal/storage/frontier.go:345-347 | the three closing writes shared by three scripts |
| Frontier.Frontier.ScheduleOne | internal/storage/frontier.go:241-261 | one iteration of the scheduler script |
| Frontier.Frontier.PromoteOne | internal/storage/frontier.go:355-359 | one iteration of the promoter script |
| Frontier.Frontier.ReapOne | internal/storage/frontier.go:368-375 | one iteration of the reaper script |
| Frontier.Frontier.SweepOne | internal/storage/frontier.go:384-391 | one iteration of the sweeper script |
| Frontier.Frontier.RunListingScheduler | internal/storage/frontier.go:235-263 | a page of due listings, item by item; the answer is how many jobs were added |
| Frontier.Frontier.Promote | internal/storage/frontier.go:351-361 | a page of due delayed jobs becomes ready |
| Frontier.Frontier.Reap | internal/storage/frontier.go:363-377 | a page of expired leases is requeued |
| Frontier.Frontier.Sweep | internal/storage/frontier.go:379-393 | the tail window of processing, its unleased jobs requeued |
| Frontier.Frontier.Stats | internal/storage/frontier.go:656-680 | the seven counts, pending and scheduled listings told apart by score |
| Frontier.Frontier.Idle | internal/storage/frontier.go:648-654 | true exactly when no job is live anywhere |
| Keyspace.RangeByScore | internal/storage/frontier.go:239 | ZRANGEBYSCORE with LIMIT: the lowest scores up to the bound, in order, nothing lower left out |
| Keyspace.RemoveDescending | internal/storage/frontier.go:211 | LREM 1 of a queue takes out that member and no other |
| Scripts.AnswerMeansWhole | internal/storage/frontier.go:180-183 | a script that answers has made all its writes |
| Reconcilers.ScheduleCallIsLegal | internal/storage/frontier.go:239-261 | a scheduler call, broken off anywhere, is a legal stretch of a run |
| Reconcilers.PromoteCallIsLegal | internal/storage/frontier.go:354-359 | the same for the promoter |
| Reconcilers.ReapCallIsLegal | internal/storage/frontier.go:366-375 | the same for the reaper |
| Reconcilers.SweepCallIsLegal | internal/storage/frontier.go:382-391 | the same for the sweeper |
| JobQueue.KeepsQueue | internal/storage/frontier.go:30-33 | at every write: ids ordered and at most the counter, leases only on processing jobs, no id in two places |
| JobQueue.LedgerHolds | internal/storage/frontier.go:180-183 | at every write, the live jobs are those before plus at most one added, less at most one removed |
| LeaseLaws.QueueOrder | internal/storage/frontier.go:188 | over any run ids fall strictly along ready then processing, and identify live jobs |
| LeaseLaws.BoundedWait | internal/storage/frontier.go:185-192 | a job with k ahead is what the (k+1)-th lease takes and no earlier one, under any interleaving |
| LeaseLaws.LeasedOnce | internal/storage/frontier.go:30-33 | over any run a job id is leased at most once |
| LeaseLaws.ClaimedOnce | internal/storage/frontier.go:97-99 | once claimed, every later resolution of that id is stale and changes nothing |
| LeaseLaws.SafeLeaseWindow | internal/storage/frontier.go:185-192 | if no reaper's clock reaches now + LeaseTimeout, the lease still runs until exactly then and the holder's answer is not stale |
| NoLoss.LeavesOnlyWithDestination | internal/storage/frontier.go:180-183 | a URL loses its last job only to Ack or once its verdict or next date is already written |
| NoLoss.RunKeepsWeak | internal/storage/frontier.go:180-183 | over any run with breaks: leases within processing, a PENDING listing has a live job, dead listings have a date |
| Exclusive.RunKeepsStrong | internal/storage/frontier.go:47-49 | over any atomic run: one job per URL, PENDING iff live, live never dead, every processing job leased |
| Guarantees.ListingExclusivity | internal/storage/frontier.go:47-49 | a listing is PENDING iff it has a live job, and then exactly one |
| Guarantees.LiveIsNotDead | internal/storage/frontier.go:199-205 | a live URL has no verdict |
| Guarantees.StatsOverRuns | internal/storage/frontier.go:656-680 | ready + processing + delayed is pending listings + live videos; idle means no pending listing |
| Census.StatsCount | internal/storage/frontier.go:656-680 | ready is how many leases in a row would get a job, processing the leases held, dead the URLs condemned and not started since, strikes the URLs with a strike on their record |
| Census.DeadIff | internal/storage/frontier.go:199-205 | a URL is in the dead hash exactly while it has been condemned and not started since, read off the run |
| Guarantees.NewAtMostOnce | internal/storage/frontier.go:207-214 | a video is answered New at most once over any run, breaks and false positives included |
| Answers.EntryIff | internal/storage/frontier.go:217-349 | with breaks: a listing has an entry in listing:next exactly if some step of the run wrote one |
| Answers.ListingAnswers | internal/storage/frontier.go:217-233 | with breaks: an admission that answers is suppressed exactly under a standing verdict or a date to come, otherwise New if no step before gave the listing an entry and DueRevisit if one did |
| Answers.ListingNewAtMostOnce | internal/storage/frontier.go:226-232 | with breaks: a listing is answered New at most once |
| Answers.NewIffUnheardOf | internal/storage/frontier.go:217-233 | without breaks: New exactly when it may be started and was neither seeded nor answered New before |
| Guarantees.VideoConservation | internal/storage/frontier.go:194-215 | from New on a video is live, acked or dead: exactly one |
| Guarantees.OneContainer | internal/storage/frontier.go:19-33 | a live job is in exactly one of ready, processing, delayed |
| Guarantees.StaysDead | internal/storage/frontier.go:451-456 | a dead video stays dead even when scripts break off |
| Guarantees.DeadForever | internal/storage/frontier.go:199-205 | a dead video is never live again |
| Guarantees.QuarantineHolds | internal/storage/frontier.go:318-327 | a dead listing keeps its date and has no job until an admission or schedule at that date or later |
| Guarantees.QuarantineEnds | internal/storage/frontier.go:221-232 | the first such admission or schedule gives it a ready job and drops the verdict |
| Guarantees.StaysDelayed | internal/storage/frontier.go:351-361 | over any run with breaks a delayed job stays delayed while promoter clocks are below its date |
| Guarantees.NoEarlyRetry | internal/storage/frontier.go:329-334 | after a failure at t with backoff b of its own ladder, while promoter clocks are below t + b the URL is neither ready nor leased, in any run that avoids the hazards |
| Guarantees.NoEarlyRetryOverRuns | internal/storage/frontier.go:547-556 | the same after any run without breaks, the rung being the URL's failures since its last success or verdict |
| Accounting.StrikeAccounting | internal/storage/frontier.go:312-316 | attempts and strikes equal the accepted failures since the last success or verdict; strikes stay below the limit |
| Accounting.CountedIff | internal/storage/frontier.go:270-271 | one script, broken off or not, lets strikes exceed attempts exactly at the break between their deletions |
| Accounting.StrikesAreAttempts | internal/storage/frontier.go:24-25 | strikes never exceed attempts in any run that does not break off there |
| Accounting.DeadAtMaxStrikes | internal/storage/frontier.go:318-334 | dead exactly at the last allowed strike, a video for good and a listing for the quarantine; otherwise the wait is the rung, in the strike or the rate-limit ladder as the failure has it, of all failures so far |
| Accounting.BarrenAccounting | internal/storage/frontier.go:280-286 | the barren count equals the completions in a row without a new child |
| Accounting.TtlIsDoubled | internal/storage/frontier.go:287-288 | base times a power of two, capped, equals doubling up to the cap, and lies in (0, max] |
| Accounting.TtlMonotone | internal/storage/frontier.go:287-288 | the interval never falls as the barren count grows |
| Accounting.TtlSaturates | internal/storage/frontier.go:287-288 | it is the cap from the least sufficient number of doublings on, and not before |
| Accounting.NextVisitOverRuns | internal/storage/frontier.go:594-605 | an accepted completion dates the next visit by that rule, from SeedTTL for a seed and ListingBaseTTL for any other listing, in (now, now + max] |
| Recovery.FullPage | internal/storage/frontier.go:144-148 | a page of expired leases is the limit or all there are |
| Recovery.ReapTicksWork | internal/scheduler/scheduler.go:135-145 | each reaper tick requeues the limit or all that is left |
| Recovery.SweepTicksWork | internal/scheduler/scheduler.go:147-157 | each sweeper tick requeues the limit or all that is left |
| Recovery.WindowIsOldest | internal/storage/frontier.go:382 | the sweeper's window is the oldest jobs of processing, its limit of them or all |
| Recovery.CrashRecovery | internal/storage/frontier.go:363-393 | from any state of a run with breaks, enough reaper then sweeper ticks empty lease and processing; the URLs are in ready under fresh ids |
| Promotion.PromoteTicksWork | internal/storage/frontier.go:351-361 | each promoter tick at a date or later makes ready the limit, or all that are left, of the jobs due by that date |
| Promotion.RetryComes | internal/scheduler/scheduler.go:123-133 | after enough such ticks a delayed job's URL is ready under a fresh id, whatever the store |
| Scheduler.Tick | internal/scheduler/scheduler.go:104-121 | under a limit of at least 1 the drain loop ends in any store and however the clock moves, within one call more than there are non-pending listings; without a fault nothing is due at its last reading, and if that was the latest, exactly the listings due then got one job each; under a limit below 1 only a failed call ends it |
| Scheduler.FullPageShrinks | internal/scheduler/scheduler.go:108-118 | a full page leaves fewer non-pending listings |
| Scheduler.DueIsFree | internal/storage/frontier.go:242-255 | in a reachable store nothing due is blocked by a verdict |
| Scheduler.BlockedIsPutOff | internal/storage/frontier.go:244-251 | in any store an iteration on a listing with a standing verdict starts nothing and leaves it no longer due |
| Scheduler.PageCall | internal/scheduler/scheduler.go:109-118 | a call answers its page's length, and a short page means all due listings are started |
| Completeness.RunKeepsAccounted | internal/storage/frontier.go:194-349 | with breaks: every video ever given a job is live, acked or dead; every scheduled listing is live, seeded, completed or was dead |
| Completeness.StaysKnown | internal/storage/frontier.go:194-233 | a URL once admitted stays known |
| Completeness.CrawlComplete | internal/crawler/worker.go:231-273 | in a run with children first, idle with nothing due: on a way from a seed whose pages before the last were each visited, or at any rate never declared dead nor lost, all of those were visited, and its end was visited, declared dead or lost to the filter; breaks included |
| Completeness.BuriedIffEverDead | internal/storage/frontier.go:322-344 | "declared dead" is having been in the dead hash in some store of the run |
| Completeness.EverLiveIff | internal/storage/frontier.go:207-214 | with breaks: a video has ever had a job iff some admission's push stood, that is went through and was not rolled back |
| Completeness.FetchedIffNew | internal/storage/frontier.go:207-214 | without breaks: iff one of its admissions answered New |
| Completeness.NeverFetchedIff | internal/storage/frontier.go:209-213 | without breaks: it has never had a job iff every admission met it in the filter already |
| Completeness.LostIff | internal/storage/frontier.go:209-213 | a video is lost at the end of a run iff it never had a job and other videos, taken in, cover its bits |
| Worker.KeysAre | internal/crawler/worker.go:110-114 | exactly the non-empty keys of the links are admitted |
| Worker.KeysInOrder | internal/crawler/worker.go:127-139 | in the order of the links, one key per link that has one |
| Worker.Crawler.RecordVideo | internal/crawler/worker.go:215-229 | counts the video and keeps it if it is a target |
| Worker.Crawler.AdmitUrl | internal/crawler/worker.go:110-119 | routes the key to the admission of its class; nothing for an empty key |
| Worker.Crawler.EnqueueChildren | internal/crawler/worker.go:127-139 | admits the keys in order up to the first error; the count is the number of New answers |
| Worker.Crawler.HandleOutcome | internal/crawler/worker.go:233-273 | children first, then the one resolution the outcome calls for; stored videos are recorded |
| Worker.HandlingIsLegal | internal/crawler/worker.go:192-210 | everything a worker does fits its URL's class |
| Worker.Crawler.HandleVideo | internal/crawler/worker.go:235-246 | the case of a video page |
| Worker.Crawler.HandleListing | internal/crawler/worker.go:247-254 | the case of a listing page |
| Worker.HandlingAnswersFirst | internal/crawler/worker.go:235-254 | a job is acked or completed exactly when every child's admission was answered and the video was stored |
| Outcomes.HandlingBecomes | internal/crawler/worker.go:233-273 | what each outcome does to the store: which counters move, which ladder or verdict or date applies, where the URL's job is then; no admission without children |
| Outcomes.StrikesIff | internal/crawler/worker.go:260-269 | a URL gets a strike, or dies of it, exactly for a failure that is not a rate limit |
| Outcomes.TurnBecomes | internal/crawler/worker.go:286-319 | the same for a worker's resolving turn in any interleaving; nothing happens if its lease is gone |
| Outcomes.QuarantineLasts | internal/storage/frontier.go:451-456 | a listing condemned at now has no job again before an admission or scheduling at now + quarantine or later |
| Crew.InterleavingIsOrderly | internal/crawler/worker.go:286-319 | any interleaving of the workers' programs with each other, the reconcilers and the seeding, from an empty frontier, is a legal run with children first |
| Crew.CrewCompletesCrawl | internal/crawler/worker.go:121-139 | the same for such a crawl that has come to rest; lost replies, restarts and breaks included |
| Crew.AloneIsHandling | internal/crawler/worker.go:233-273 | a worker whose steps nothing comes between makes exactly the steps of one HandleOutcome, and passes on the same number of New answers |
| Reckoning.CompletionsReportNew | internal/crawler/worker.go:125-138 | in any interleaving every completion reports exactly the New answers its worker got since it leased the page |
| Reckoning.BarrenMeansNothingNew | internal/storage/frontier.go:280-286 | in a crew's crawl without breaks the barren count is the accepted visits in a row, up to now, whose worker was answered New for nothing |
| Example.LossyCrawl | internal/crawler/worker.go:233-273 | one worker crawls a seed with two videos to an idle frontier; the second, whose bits the first one covers, never has a job |
| Example.TrioExists | internal/storage/frontier.go:128-140 | three such links, and the default configuration under one hash for all, to which it applies |
| Retry.RerunAdmitsNone | internal/crawler/worker.go:121-126 | admitting the same links again at the same clock answers New to none and changes only the id counter |
| Retry.AgainAfterBreak | internal/storage/frontier.go:194-233 | one admission broken at any write and repeated: same tables, same jobs, plus exactly the leftover job |
| Retry.RetryAfterError | internal/crawler/worker.go:121-139 | the whole set broken off anywhere and admitted again equals one uninterrupted call, up to ids and that leftover |
| Duplicates.DuplicateIff | internal/storage/frontier.go:180-183 | the breaks that leave a URL with two jobs there and then |
| Duplicates.RunKeepsSingle | internal/storage/frontier.go:180-183 | a run with breaks anywhere but at the hazards keeps at most one job per URL, marked against a second |
| Duplicates.HazardDuplicates | internal/storage/frontier.go:180-183 | every hazard reaches two jobs with at most one more whole script |
| Duplicates.TwoJobsIff | internal/storage/frontier.go:180-183 | after a run without hazards a step opens a way to two jobs by whole scripts iff it breaks off at a hazard |
| Limits.AckOnlyVideos | internal/crawler/worker.go:246 | Ack keeps the frontier sound iff the job is a video |
| Limits.CompleteOnlyListings | internal/crawler/worker.go:254 | CompleteListing keeps it sound iff the job is a listing |
| Canonical.Idempotent | internal/crawler/crawler.go:89-115 | canonicalising twice is canonicalising once iff the key is not the empty-id key |
| Canonical.EmptyIdKey | internal/crawler/crawler.go:102-110 | which links get the empty-id key |
| Canonical.EmptyIdLink | internal/crawler/crawler.go:102-110 | a link that does, and whose key has no key |
| Canonical.KeptIsOnHost | internal/crawler/crawler.go:96-99 | when a kept link's host, user and port aside, is the crawler's |
| Canonical.OffHostLink | internal/crawler/crawler.go:96-99 | a kept link to another host |
| Canonical.PortLink | internal/crawler/crawler.go:96-99 | a kept link to the host with a port |
| Canonical.VideoIffPatternInIt | internal/crawler/worker.go:84-87 | a URL is a video's iff the pattern occurs anywhere in it |
| Canonical.KeepsClass | internal/crawler/worker.go:115 | the key has the class of the link |
| Canonical.VideoKey | internal/crawler/crawler.go:102-110 | a video link's key is base, pattern and the text up to the first ampersand or fragment |
| Canonical.SameKeyIffSameId | internal/crawler/crawler.go:102-110 | two video links share a key iff they share an id |
| Canonical.ListingKey | internal/crawler/crawler.go:113-114 | a listing link's key is the text before the fragment less exactly its trailing slashes |
| Canonical.SameKeyIffSlashesApart | internal/crawler/crawler.go:113-114 | two listing links share a key iff they differ in fragments and trailing slashes only |
| Canonical.NoKeyIff | internal/crawler/crawler.go:96-106 | which links have no key: those that do not begin with the base URL, and those with the video pattern at their very end only |
| Encoding.DecimalRoundTrip | internal/storage/frontier.go:202 | Lua's tonumber reads back every numeral written |
| Encoding.MemberRoundTrip | internal/storage/frontier.go:430-438 | splitting a member at the first bar gives back id and URL, in Go and in Lua |
| Encoding.MembersDistinct | internal/storage/frontier.go:30-33 | members are equal iff ids and URLs are |
| Encoding.LuaAgreesWithGo | internal/storage/frontier.go:356 | the scripts' extraction agrees with splitMember on every string |
| Encoding.VerdictRoundTrip | internal/storage/frontier.go:199-202 | the deadline is read back iff the reason has no bar |
| Text.Index | internal/crawler/crawler.go:92 | the first match, or none |
| Text.TrimRight | internal/crawler/crawler.go:114 | drops all trailing characters of the cutset and nothing else |

## Left out

- Fetching, login, cookies, proxies, HTML parsing, rate limiter: `process` is an arbitrary `PageOutcome` that fits the URL's class; the link list is arbitrary.
- MongoDB: only whether `Upsert` succeeded matters to `HandleOutcome`; the corpus is not modelled.
- Hashing, capacity and the false-positive check of RedisBloom: the hash is arbitrary; a BF.ADD that fails is a script broken off after its push.
- Restart, snapshots, FlushDB and rebuilding the Bloom filter: runs stay within one Redis lifetime.
- Goroutines, tickers, contexts and shutdown: any interleaving of script steps is allowed, which covers them; a lost reply is an error reply. `stopFn` after a fatal admission error only ends the run.
- Metrics, logging, configuration loading, the Bloom monitor, deployment files and `Video.Match`.
- Members and verdicts as text: the store holds pairs; `Encoding` proves the two forms equivalent for the texts the frontier writes.
- `2 ^ barren` as an IEEE double: integers are used; the cap makes the difference irrelevant once the power is large.
- Job ids and Unix times are unbounded integers; 64-bit overflow is not modelled.
- A missing classifier (`f.classify == nil`): the crawler always injects one; classes are computed from the URL where they are used.
- Keyspace.RangeByScore: Redis orders equal scores by name; the contract leaves their order open, and nothing proved depends on it.
- Scheduler.Tick: the loop is followed for a given number of calls, since under a limit below 1 it has no end.
- Worker.Crawler.HandleOutcome: one worker's uninterrupted call; Crew has the worker as a program whose steps others may come between, and Crew.AloneIsHandling ties the two.
- Crew: the site is fixed for the whole crawl, a page has the same links whenever it is fetched.
