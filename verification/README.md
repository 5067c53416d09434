# A verified model of the account gateway's schedulers, caches and billing

The gateway spreads requests over many upstream accounts. This project models the parts of it that decide which
account serves a request, when an account's token is refreshed, and what a request costs, and proves what each of
them keeps in every state and over every run. Methods work in place as the program does and are proved against
specification functions; the laws of those functions, and the laws about whole runs, are lemmas.

## What is modelled

- **Account scoring** (`Plans`, `SuccessWindow`, `Scoring`, `ScoringLaws`, `Accounts`). An account is a class: a record
  of signals the event recorders write, a record the scheduler derives, and atomic counters. `Scoring` states outright
  what a recomputation gives (`TierByRule`, `Recomputed`) where the program reaches it through a chain of overrides.
- **The fast scheduler** (`Buckets`, `Scans`, `FastScheduler`, `Rotation`). Tier buckets, the position index, the
  round-robin cursors, and the scan that repairs stale entries and starts again. `Scans` holds the facts about values;
  the class methods do the work in place.
- **The slow path and the retries** (`SlowPath`, `Dispatch`, `Agreement`). The linear scan with its random tie-break,
  both loops of `NextExcludingWithFilter` with release-and-retry on a cooldown found in the shared cache, taking an
  account by its id, and the theorem that the fast path refines the slow one.
- **Concurrency slots** (`Slots`). The compare-and-swap loop and the two kinds of release, split at every atomic
  operation, for any number of callers, counters and limits.
- **The refresh scheduler** (`HeapLaws`, `RefreshScheduler`, `RefreshRuns`). Go's `container/heap` sifts on a queue whose
  tasks carry their own index, the task table, the bounded channel, and the dispatch, retry and execute loops, split where
  they let go of a lock: what they have in hand there, up to the goroutines past the semaphore, is part of the state.
- **Session affinity** (`Affinity`), **model cooldowns** in int64 (`Backoff`), **the in-process cache** with its
  two-phase reads (`MemoryCache`), **import deduplication** (`ImportDedupe`) and **billing** (`Billing`).

Times are nanoseconds since Go's zero time, with 0 the zero time; the clock is a parameter. Floats are reals. Ints are
unbounded except in `Backoff`, where int64 wrap-around is the point. Log lines, metrics and persistence are dropped.

## Where the code does less than its comments promise

- `auth/refresh_scheduler.go:700` says a cancelled task is skipped, and `:223` that one superseded by an immediate refresh
  does not run again. `executeTask` never looks at the state of the task it takes from the channel, nor `processRetries` at
  the state of one it has collected. Such a task is gone for good exactly when it was not coming: popped to be sent, in the
  channel, held by the channel's reader while every slot is taken, in a goroutine that has not set it running yet, or
  collected for a retry (`CancelTask`, `ScheduleImmediate`; every step keeps it gone). Each of the others gets to run
  (`RefreshRuns.PoppedTaskRuns`, `RefreshRuns.CancelledTaskRuns`, `RefreshRuns.HeldTaskRuns`,
  `RefreshRuns.CancelledRetryRuns`, `RefreshRuns.SupersededTaskRuns`; `RefreshRuns.RunThrough`).
- `auth/refresh_scheduler.go:177` takes a task scheduled again to be in the heap. One that is on its way is put into the heap
  besides, exactly then (`Schedule`), and is refreshed twice, perhaps at the same time
  (`RefreshRuns.ScheduledAgainRunsTwice`).
- A pending task of the table is in the queue or coming, but in two cases, each stated exactly: an immediate refresh found
  the channel full (`ScheduleImmediate`, `RefreshRuns.StrandedByFullChannel`), or the dispatch loop, having looked at one
  task, popped and dropped another (`Take`, `RefreshRuns.DroppedByMistake`). All other steps strand none.
- In the same gap (`auth/refresh_scheduler.go:425-439`) it can send a task that is not due
  (`RefreshRuns.SentBeforeItsTime`). Undisturbed it sends due tasks only (`ProcessScheduledTasks`).
- The end of a refresh deletes the account's entry of the table (`auth/refresh_scheduler.go:560-564`), also when that is
  another task by now (`CleanUp`): the successor can no longer be cancelled (`RefreshRuns.SuccessorForgotten`).
- `auth/store.go:3400-3406` promises that bounded affinity lets an account go after five minutes. The promise is kept in
  every run exactly when the store has no token cache (`Affinity.PromiseKeptIffNoCache`). With one, even the in-process
  cache, which holds no more than the store's own bindings, the account let go is adopted again in the same call
  (`Affinity.CacheOutlivesBound`).
- The doubling backoff is capped in its result but not in its level: it is right exactly up to level 22
  (`Backoff.ExactUpToLevel22`), and a burst of 24 marks leaves an account with no cooldown (`Backoff.BurstSpoilsBackoff`).
- A cache read that straddles a write can miss although a live entry was there all along
  (`MemoryCache.StraddlingReadMisses`); what it does answer is `MemoryCache.ReadAnswersSimple`, and with no write to its key
  between its two looks the answer is the current one (`MemoryCache.UndisturbedReadIsCurrent`).
- Deduplication of an import can lose a credential that is only remembered from a dropped token
  (`ImportDedupe.SecondHandCredentialIsLost`); `ImportDedupe.SurvivesIffSaved` says exactly which credentials survive.
- A snapshot's zero-score fallback replaces a recomputed dispatch score of 0 (`ScoringLaws.FallbackReplacesZero`);
  `ScoringLaws.SnapshotAgreesWithRecompute` says exactly when.
- The step down to a warm or risky tier on a rate limit (`auth/store.go:1898-1902`, `auth/store.go:4428-4432`) is overwritten
  by the recomputation that follows it (`Dispatch.CoolDown`, `Backoff.RecordRateLimit`).

## Model

| member | source | states |
|---|---|---|
| Plans.PremiumPlansArePaid | auth/premium_rate_limit.go:33-61 | A plan with a 5-hour limit is a paid plan and never the free one. |
| SuccessWindow.ResultRing.Record | auth/store.go:608-619 | A ring that held the last outcomes of a history holds those of the longer history. |
| SuccessWindow.FullRingInOrder | auth/store.go:608-619 | Read from the next cell on, a full ring is the last 20 outcomes in order. |
| SuccessWindow.RecordedCells | auth/store.go:608-630 | After any history the recorded cells hold exactly its last min(n, 20) outcomes. |
| SuccessWindow.ResultRing.RecentSuccessRate | auth/store.go:621-630 | The loop computes the rate of the recorded cells, 1.0 when there are none. |
| SuccessWindow.RateIsRecentFraction | auth/store.go:621-630 | The rate is the fraction of successes among the last min(n, 20) requests. |
| SuccessWindow.RateBounds | auth/store.go:621-630 | The rate lies between 0 and 1. |
| ScoringLaws.DecayBounds | auth/store.go:633-638 | A decayed penalty lies between 0 and its base for times not in the future. |
| ScoringLaws.DecayMonotone | auth/store.go:633-638 | A decayed penalty never grows with the time elapsed. |
| ScoringLaws.ScoreBounds | auth/store.go:640-706 | With no event in the future the score lies in [-96, 132]. |
| ScoringLaws.ScoreBoundsAreTight | auth/store.go:640-706 | Both ends of that range are reached, each by an account given outright. |
| ScoringLaws.RefusalsCost | auth/store.go:640-706 | A 401 costs 50 points as it happens and a 429 costs 22, and nothing once a day or an hour has passed. |
| ScoringLaws.FailuresCost | auth/store.go:640-706 | A timeout costs 18 points as it happens and a server error 12, and nothing after 15 minutes. |
| ScoringLaws.PenaltySteps | auth/store.go:640-706 | The penalties for latency and for a free account's usage on either side of each of their thresholds; no other account pays for usage. |
| ScoringLaws.BonusesHalfway | auth/store.go:708-794 | Points on the two urgency curves. |
| ScoringLaws.Bonus5hMonotone | auth/store.go:708-751 | The 5-hour bonus grows as the reset nears and as more quota is left, and stays below 25. |
| ScoringLaws.Bonus7dMonotone | auth/store.go:753-794 | The 7-day bonus grows as the reset nears and as more quota is left, and stays below 80. |
| ScoringLaws.UrgencyBounds | auth/store.go:708-863 | The three urgency bonuses together lie in [0, 165). |
| ScoringLaws.Urgency5hGrowsTowardsReset | auth/store.go:708-751 | With time passing up to the reset, the 5-hour urgency never falls. |
| ScoringLaws.Urgency7dGrowsTowardsReset | auth/store.go:753-794 | With time passing up to the reset, the 7-day urgency never falls. |
| ScoringLaws.ExpiryUrgencyGrowsTowardsExpiry | auth/store.go:843-863 | With time passing up to the expiry, the subscription urgency never falls. |
| ScoringLaws.Urgency5hFallsWithUsage | auth/store.go:708-751 | More 5-hour usage never raises the bonus. |
| ScoringLaws.Urgency7dFallsWithUsage | auth/store.go:753-794 | More 7-day usage never raises the bonus. |
| Accounts.Account.RecomputeScheduler | auth/store.go:865-930 | The chain of tier overrides and the bonuses give exactly the tier, scores and limit of the outright rule. |
| ScoringLaws.RecomputeIdempotent | auth/store.go:865-930 | Recomputing again at the same instant changes nothing. |
| ScoringLaws.RecomputeKeepsBan | auth/store.go:865-930 | An account is banned after a recomputation exactly when it was before, and always has a tier. |
| ScoringLaws.BonusIffAvailable | auth/store.go:806-919 | The bias and the urgency bonuses go exactly to healthy and warm accounts that are available but for the Disabled and DispatchPaused flags; the bias is the override, or 50 on the premium plans. |
| ScoringLaws.NewAccountScores | auth/store.go:865-930 | What a new account is recomputed to: 100, 150 on a plus plan, 210 or 175 in the last 3 or 7 days of its subscription, healthy and with the whole limit. |
| ScoringLaws.SpentFiveHours | auth/premium_rate_limit.go:33-81 | A premium account that has used up its five hours is unavailable until the reset, and risky unless banned. |
| ScoringLaws.RecomputedLimit | auth/store.go:921-929 | The limit is 0, 1, max(1, base/2) or base by tier, with the account's own base before the store's; the premium clamp after it never fires. |
| Accounts.Account.FastSchedulerSnapshot | auth/fast_scheduler.go:456-505 | The snapshot reads the account as recomputed when a usage window may have moved, as stored otherwise. |
| ScoringLaws.SnapshotStable | auth/fast_scheduler.go:456-505 | A snapshot does not change what the next one at the same instant says. |
| ScoringLaws.AvailabilityAgrees | auth/store.go:940-977 | IsAvailable and the snapshot's availability differ in the Disabled flag alone. |
| ScoringLaws.AvailableMeans | auth/store.go:940-977 | An account is available exactly when it has a credential and none of the nine things that speak against it is true of its record. |
| ScoringLaws.WindowedSnapshotIsFresh | auth/fast_scheduler.go:456-470 | On a plan with a known usage window the snapshot has the tier and limit of a recomputation now. |
| ScoringLaws.AvailableTier | auth/fast_scheduler.go:385-390 | An available account has one of the three bucket tiers, so the later tier test never rejects it. |
| ScoringLaws.SnapshotAgreesWithRecompute | auth/fast_scheduler.go:456-505 | On a recomputed account both snapshots give the same tier and limit, and the same score exactly when no fallback changes it. |
| ScoringLaws.FallbackReplacesZero | auth/fast_scheduler.go:456-505 | A new account with a score bias of -100 is recomputed to 0 and filed at 100. |
| ScoringLaws.BaseLimitClamp | auth/store.go:796-804 | A base limit that is not positive counts as 1 in every recomputation and snapshot. |
| Accounts.Account.TryAcquire | auth/fast_scheduler.go:507-527 | Undisturbed, a slot is taken exactly when the limit is positive and above the load. |
| Accounts.Account.Release | auth/fast_scheduler.go:343-348 | One slot less. |
| Buckets.StableSortIsSorted | auth/fast_scheduler.go:383-422 | Sorting keeps the entries and orders them strictly. |
| Buckets.SortedArrangementIsUnique | auth/fast_scheduler.go:383-422 | The order leaves no choice: the sorted bucket does not depend on the sorting algorithm. |
| Buckets.ScoreOrderMeans | auth/fast_scheduler.go:396-422 | In score order nothing stands behind a lower score; ties go to proven accounts, and then to the lower id. |
| Buckets.UsageOrderMeans | auth/fast_scheduler.go:383-422 | In usage order nothing stands behind a higher usage; ties go by score or by proof. |
| Buckets.OneSlotPerAccount | auth/fast_scheduler.go:428-454 | With the index right, an account has at most one entry over all tiers. |
| Buckets.RebuildRestoresIndex | auth/fast_scheduler.go:447-454 | Rebuilding one bucket's positions makes the index the inverse of the buckets again. |
| Buckets.RemoveKeepsIndex | auth/fast_scheduler.go:428-445 | Removing by position removes that account and nothing else, and the index stays right. |
| Buckets.RefillKeepsIndex | auth/fast_scheduler.go:392-426 | Adding and re-sorting a bucket keeps the index right and files exactly the newcomer. |
| FastScheduler.Scheduler.constructor | auth/fast_scheduler.go:45-62 | A new scheduler is empty, with its index right and its defaults filled in. |
| FastScheduler.Scheduler.RebuildPositions | auth/fast_scheduler.go:447-454 | Every entry of the bucket gets its place; other accounts' positions stay. |
| FastScheduler.Scheduler.RemoveLocked | auth/fast_scheduler.go:428-445 | The account's entry goes, every other stays in order; the out-of-range branch cannot be taken. |
| FastScheduler.Scheduler.InsertLocked | auth/fast_scheduler.go:364-426 | The account is filed exactly as a fresh snapshot says, or not at all, in the mode's order. |
| FastScheduler.Scheduler.Update | auth/fast_scheduler.go:214-224 | Whatever was filed for the account is replaced by what a fresh snapshot says. |
| FastScheduler.Scheduler.Remove | auth/fast_scheduler.go:226-234 | The account leaves the index and nothing else changes. |
| FastScheduler.Scheduler.SetBaseLimit | auth/fast_scheduler.go:236-246 | The index stays valid with what is filed; the limit kept is positive and gives every account the snapshot that the limit asked for would. |
| FastScheduler.Scheduler.SetSchedulerMode | auth/fast_scheduler.go:73-116 | Every bucket is re-sorted in the new mode's order, by usage in remaining_quota; nothing is filed anew. |
| FastScheduler.Scheduler.Rebuild | auth/fast_scheduler.go:144-212 | The buckets hold exactly what fresh snapshots of the accounts file, each in full order. |
| Scans.RepairShrinksStale | auth/fast_scheduler.go:325-331 | A repair leaves strictly fewer stale entries: the measure that ends the restarts. |
| Scans.RepairOnlyRepairs | auth/fast_scheduler.go:325-331 | Over all restarts the index changes only where an entry was stale, and there to the exact entry or none. |
| Scans.RemoveKeepsUsageOrder | auth/fast_scheduler.go:428-445 | In remaining_quota a removal leaves the buckets sorted by usage. |
| Scans.InsertKeepsUsageOrder | auth/fast_scheduler.go:383-394 | In remaining_quota an insertion leaves the buckets sorted by usage. |
| Scans.NoneGrantable | auth/fast_scheduler.go:258-296 | If a pass leaves nothing to offer, no account filed at the start was grantable. |
| Scans.EligibleMeans | auth/fast_scheduler.go:308-323 | The tests before a grant, told by the fields of account and request. |
| Scans.NotGrantableMeans | auth/fast_scheduler.go:308-341 | What is not grantable fails one of the four tests, is unavailable or is full. |
| Scans.FactsTold | auth/fast_scheduler.go:456-505 | The facts a scan goes by are the account's own: availability but for the Disabled flag, more than 10 requests, its load, and its 7-day usage where known. |
| Scans.StaleMeans | auth/fast_scheduler.go:324-325 | An entry is up to date exactly when filed under the snapshot's tier, with its proof, and less than a point from its score. |
| Scans.InsertOrderMeans | auth/fast_scheduler.go:383-422 | After an insertion no entry stands behind one that has used more (remaining_quota, and healthy in round_robin, there with ties by score) or scores less (otherwise). |
| Scans.LostNotGrantable | auth/fast_scheduler.go:325-331 | An account that an acquire takes out of the index was not grantable. |
| Scans.OthersStayFiled | auth/fast_scheduler.go:428-445 | Taking one account out leaves all others filed. |
| FastScheduler.Scheduler.Repair | auth/fast_scheduler.go:325-331 | A stale entry is dropped and filed again as a fresh snapshot says. |
| FastScheduler.Scheduler.ScanTier | auth/fast_scheduler.go:300-341 | One scan ends with a slot granted in turn, one stale entry repaired, or every entry passed over. |
| FastScheduler.Scheduler.ScanTiers | auth/fast_scheduler.go:270-291 | One pass takes the tiers from the best down, and skips one only when it has nothing to offer. |
| FastScheduler.Scheduler.Search | auth/fast_scheduler.go:270-296 | The restart loop terminates, with a grant in turn or with nothing left to offer. |
| FastScheduler.Scheduler.SearchFiled | auth/fast_scheduler.go:258-296 | The search from what the filed accounts show on entry: an account in its turn gets a slot, and the others show what they showed. |
| FastScheduler.Scheduler.AcquireExcludingWithFilter | auth/fast_scheduler.go:258-296 | The account returned is not excluded, serves the API key, and passes the group check and the filter where present; nil exactly when no filed account is grantable, and then each fails one of these tests, is unavailable or is full. One slot on the account, none elsewhere; no bucket of a higher tier has one to offer; the others show what they showed. In remaining_quota sorted buckets stay sorted. |
| Rotation.LeastUsageIsServed | auth/fast_scheduler.go:278-286 | A scan from the front of a bucket sorted by usage stops at its grantable account of least usage. |
| Rotation.ServedIsBest | auth/fast_scheduler.go:270-341 | The account an acquire returns is filed, no higher tier and no entry between the ticket and it has one to grant, and in remaining_quota from sorted buckets none grantable of its bucket has used less. |
| Rotation.ServeLeastUsed | auth/fast_scheduler.go:258-296 | In remaining_quota, from sorted buckets, an acquire with all its repairs serves the account that has used least of the grantable ones in its bucket, and leaves the buckets sorted. |
| Rotation.ServeNext | auth/fast_scheduler.go:300-341 | With nothing to do in the tiers above, an acquire that finds the entry at the cursor ready serves it, moves the cursor one on, repairs nothing and leaves what all others show as it was. |
| Rotation.ServeRound | auth/fast_scheduler.go:269-341 | n acquires in a row on n ready entries serve n different accounts, in the bucket's order. |
| Rotation.ServeTurn | auth/fast_scheduler.go:300-341 | What was ready before an acquire is ready after it, but for the entry served. |
| Rotation.TurnsDiffer | auth/fast_scheduler.go:306 | Any n tickets in a row stand at different places of a bucket of n, and the next n at the same again. |
| Rotation.ServeTurns | auth/fast_scheduler.go:258-348 | Any number of acquires, for any requests at any times and with any slots given back in between, serve the bucket in turn as long as each finds its entry ready and passes over all above: no account comes twice among n in a row, and each comes again after n. |
| SlowPath.OfferStable | auth/store.go:3114-3115 | The recomputation inside the scan changes no account's offer. |
| SlowPath.PickBest | auth/store.go:3097-3138 | For every outcome of the coin the winner passes the four tests, is available and has a slot free, and no other that does has a better tier, or the same and a higher score, or the same and a lighter load; there is none only if every account fails a test, is unavailable or is full. |
| SlowPath.NoneDispatchableMeans | auth/store.go:3097-3121 | What is not dispatchable fails one of the four tests, is unavailable or is full. |
| Agreement.SameOffer | auth/fast_scheduler.go:456-505 | On a recomputed account the fast path can grant exactly what the slow path can dispatch, but for the Disabled flag. |
| Agreement.RecomputeAll | auth/store.go:2201-2216 | Every listed account is recomputed, also one listed twice. |
| Agreement.FiledIsOffered | auth/fast_scheduler.go:144-212 | What a rebuilt index has to grant is what the list has to dispatch. |
| Agreement.BuildFast | auth/fast_scheduler.go:129-142 | A scheduler built from the list is right about every account of it. |
| Agreement.ServedFromTopTier | auth/fast_scheduler.go:270-297 | An account filed as it is now is never passed over for one of a lower tier. |
| Agreement.BuildAndAcquire | auth/store.go:3080-3095 | The fast path finds an account exactly when the linear scan would, one it could dispatch, of the best tier. |
| Dispatch.CoolDown | auth/store.go:1879-1905 | The whole new state: the signals the record writes, and the account recomputed, banned exactly when it was or the record says unauthorized. |
| Dispatch.ReasonsTold | auth/store.go:1797-1905 | Which of the signals each reason of a cooldown record writes, told by the reason itself. |
| Dispatch.CoolDownFiled | auth/store.go:1879-1905 | The same of a filed account: the usage order of the buckets is untouched. |
| Dispatch.Store.ApplyCachedCooldown | auth/store.go:1879-1907 | Afterwards the account is not available and not in the index; nothing else moves. |
| Dispatch.Store.HasCachedCooldown | auth/store.go:1909-1919 | Exactly a live record cools the account down; otherwise nothing changes. |
| Dispatch.GrantShows | auth/fast_scheduler.go:332-338 | What the fast scheduler grants is available and within the limit of its snapshot, also after the refresh that came with it. |
| Dispatch.Store.Acquire | auth/store.go:3082-3085 | One acquire: a slot on an account that was grantable, is the best filed and has been refreshed at most, or none and then nothing filed was grantable. |
| Dispatch.Store.AcquireOpen | auth/store.go:3082-3085 | The same on the way through the attempts, told by what the filed accounts showed at first. |
| Dispatch.Store.AcquireFast | auth/store.go:3082-3085 | An acquire seen from the store: one slot on an open, eligible account within its limit, or none and then nothing filed since the first attempt is open but what was found cooling. |
| Dispatch.Store.CheckFiled | auth/store.go:1909-1919 | Found cooling, the account alone is taken out of the index; otherwise nothing changes. |
| Dispatch.Store.FastAttempt | auth/store.go:3081-3091 | An attempt takes a slot of the best account filed, or gives it back to an account found cooling, or finds nothing left to grant. |
| Dispatch.Store.FastNext | auth/store.go:3080-3095 | Through all 16 retries the slots taken and given back leave one on the account returned, the best filed then; nil only when 16 different accounts were found cooling or nothing else filed at the start was grantable. |
| Dispatch.Store.ScanList | auth/store.go:3097-3138 | The scan names an account whose offer nobody of the list beats, or nothing is dispatchable. |
| Dispatch.Store.SlowAttempt | auth/store.go:3097-3146 | An attempt takes a slot of the unbeaten account, or cools that account down, or finds nothing. |
| Dispatch.Store.SlowNext | auth/store.go:3097-3148 | Nil only when nothing is dispatchable or 16 different accounts were found cooling. |
| Dispatch.Store.Next | auth/store.go:3076-3149 | The fast scheduler has the first word, the list the second, each with its reason. |
| Dispatch.Store.NextExcludingWithFilter | auth/store.go:3076-3149 | The account returned passes the four tests, is open and has one slot more, no other any; from the fast scheduler it is the best filed, and the list is scanned only when nothing filed was grantable or 16 were found cooling; from the list it is unbeaten. Nil only when every listed account fails a test, is unavailable or is full, or 16 were found cooling in the scan. |
| Dispatch.Store.FindByID | auth/store.go:3991-4001 | The account with that id, if the list has one. |
| Dispatch.Store.TakeByID | auth/store.go:3524-3572 | A slot of the account asked for, exactly when it is available, not cooling elsewhere and grantable. |
| Slots.CounterIsOutstanding | auth/fast_scheduler.go:507-527 | Over every interleaving a counter is the number of slots out, less repeated releases; the limiter has none. |
| Slots.TruthfulIffReleasedOnce | auth/fast_scheduler.go:343-348 | An account's counter is right exactly when no grant on it was released twice. |
| Slots.ClampNeverRuns | proxy/apikey_concurrency.go:63-70 | The limiter never sees a negative counter. |
| Slots.GrantWithinOwnLimit | proxy/apikey_concurrency.go:30-50 | No grant takes the slots out above its own limit, whatever limits others use. |
| Slots.RefusedIffFull | proxy/apikey_concurrency.go:36-40 | A caller is refused exactly when the slots out had reached its limit at its load. |
| Slots.NeverMoreThanAsked | proxy/apikey_concurrency.go:30-50 | With one bound on all limits of a key, the slots out never pass it. |
| Slots.LosesOnlyToProgress | proxy/apikey_concurrency.go:36-49 | A failed swap means another caller changed the same counter since the load. |
| HeapLaws.LessIsStrictWeak | auth/refresh_scheduler.go:81-88 | The queue's order is irreflexive and transitive, and so is its incomparability. |
| HeapLaws.UpStep | auth/refresh_scheduler.go:96-100 | One step up moves the only bad edge to the parent. |
| HeapLaws.DownStep | auth/refresh_scheduler.go:102-110 | One step down moves the only bad edges to the smaller child. |
| HeapLaws.RekeyLeavesHole | auth/refresh_scheduler.go:321-339 | A changed key spoils the heap only around itself. |
| HeapLaws.RootComesFirst | auth/refresh_scheduler.go:355-363 | In a heap nothing comes before the root. |
| RefreshScheduler.Scheduler.Swap | auth/refresh_scheduler.go:90-94 | Two tasks change places and know it. |
| RefreshScheduler.Scheduler.Up | auth/refresh_scheduler.go:321-339 | Sifting up restores the heap; every task keeps knowing its place. |
| RefreshScheduler.Scheduler.Down | auth/refresh_scheduler.go:355-363 | Sifting down restores the heap, or moves nothing and leaves at most the edge above. |
| RefreshScheduler.Scheduler.Sift | auth/refresh_scheduler.go:321-353 | Down and, if nothing moved, up restores the heap after any change of one key. |
| RefreshScheduler.Scheduler.HeapFix | auth/refresh_scheduler.go:321-339 | After any change of one key the queue is a heap again, with the same tasks. |
| RefreshScheduler.Scheduler.HeapRemove | auth/refresh_scheduler.go:341-353 | Removal by index takes out the task at that index and keeps the heap. |
| RefreshScheduler.Scheduler.PushToQueue | auth/refresh_scheduler.go:321-339 | A task in the queue is moved, one outside is added; the stored index always means this task. |
| RefreshScheduler.Scheduler.RemoveFromQueue | auth/refresh_scheduler.go:341-353 | Exactly this task leaves the queue, if it is there. |
| RefreshScheduler.Scheduler.PopFromQueue | auth/refresh_scheduler.go:355-363 | The task returned is one no task left comes before. |
| RefreshScheduler.Scheduler.Requeue | auth/refresh_scheduler.go:167-180 | The task is pending with its new key, and the queue is the same but for it. |
| RefreshScheduler.Scheduler.ScheduleNew | auth/refresh_scheduler.go:185-198 | An account without a task gets one, pending and queued, and nothing else moves. |
| RefreshScheduler.Scheduler.Schedule | auth/refresh_scheduler.go:158-199 | A running task keeps its state, attempts, retry time and place; any other is reset and queued; a new account gets one task. A task comes to be queued and on its way at once exactly when it was on its way. None is stranded, and none that is gone comes back. |
| RefreshScheduler.Scheduler.Close | auth/refresh_scheduler.go:219-227 | The old task is marked finished and leaves the queue. |
| RefreshScheduler.Scheduler.ScheduleImmediate | auth/refresh_scheduler.go:203-243 | The new task goes to the channel or, that being full, is stranded in the table, exactly then; the one it supersedes is gone for good exactly when it was not coming. |
| RefreshScheduler.Scheduler.CancelTask | auth/refresh_scheduler.go:693-710 | Exactly pending and retrying tasks can be cancelled; they leave table and queue, and are gone for good exactly when they are not coming. |
| RefreshScheduler.OnlyOutranked | auth/refresh_scheduler.go:425-427 | Behind a front that is not due, a due task has strictly lower priority. |
| RefreshScheduler.OneMore | auth/refresh_scheduler.go:413-462 | One round of the loop conserves the tasks and keeps their turns. |
| RefreshScheduler.Scheduler.Look | auth/refresh_scheduler.go:413-435 | The verdict on the front: not yet, to be dropped, or to be sent. |
| RefreshScheduler.Scheduler.Take | auth/refresh_scheduler.go:430-442 | The front by then is popped and sent or dropped by that verdict; it is stranded exactly when it is dropped though it is a pending task of the table that is not coming. |
| RefreshScheduler.Scheduler.Send | auth/refresh_scheduler.go:452-461 | What was popped goes to the channel, or back into the queue when that is full. |
| RefreshScheduler.Scheduler.DispatchFront | auth/refresh_scheduler.go:413-462 | One undisturbed round sends, drops or keeps the front, and tells when the loop ends. |
| RefreshScheduler.Scheduler.DropFront | auth/refresh_scheduler.go:429-437 | Undisturbed, a due front that is not pending leaves the queue, and the run goes on. |
| RefreshScheduler.Scheduler.SendFront | auth/refresh_scheduler.go:439-461 | Undisturbed, a due and pending front goes to the channel or stays in the queue, and the run goes on. |
| RefreshScheduler.Scheduler.ProcessScheduledTasks | auth/refresh_scheduler.go:410-463 | Undisturbed, the loop ends; old queue = new queue + sent + dropped; what is sent was pending and due and goes in order; due tasks stay only behind a full channel or a higher-priority front not yet due; none is stranded, and none that is gone comes back. |
| RefreshScheduler.Scheduler.Collect | auth/refresh_scheduler.go:612-621 | Exactly the due retries of the table are collected, each once. |
| RefreshScheduler.Scheduler.RetryNext | auth/refresh_scheduler.go:623-633 | A collected task is pending and queued, whatever has become of it since; no other moves. |
| RefreshScheduler.Scheduler.ProcessRetries | auth/refresh_scheduler.go:609-634 | Undisturbed, every due retry is pending, queued and rescheduled with its attempts; no other task is touched; none is stranded, and none that is gone comes back. |
| RefreshScheduler.Scheduler.Receive | auth/refresh_scheduler.go:489-500 | The reader takes the front of the channel into its hand; the task stays on its way. |
| RefreshScheduler.Scheduler.Admit | auth/refresh_scheduler.go:506-515 | The task in hand gets a slot exactly when one is free, and there are never more refreshes under way than slots. |
| RefreshScheduler.Scheduler.StartTask | auth/refresh_scheduler.go:522-524 | An admitted task runs, whatever its state was; a task that is gone never does. |
| RefreshScheduler.RefreshTask.Record | auth/refresh_scheduler.go:536-557 | Success, a retry at the time given while attempts remain and the error allows it, or failure. |
| RefreshScheduler.Scheduler.Conclude | auth/refresh_scheduler.go:536-557 | The running task has its outcome recorded; none is stranded, and none that is gone comes back. |
| RefreshScheduler.Scheduler.CleanUp | auth/refresh_scheduler.go:517-565 | The slot is free again; a finished task takes its account out of the table, whichever task that has by now. |
| RefreshRuns.SendAlone | auth/refresh_scheduler.go:410-463 | A due task alone in the queue goes to the channel. |
| RefreshRuns.RunThrough | auth/refresh_scheduler.go:489-524 | Every task from the channel on is reached and started, given that the refreshes before it end. |
| RefreshRuns.CancelledTaskRuns | auth/refresh_scheduler.go:693-710 | A scheduler in which a task cancelled with success while in the channel runs all the same. |
| RefreshRuns.PoppedTaskRuns | auth/refresh_scheduler.go:439-461 | One in which it is cancelled outside queue and channel, popped by the dispatch loop, and runs all the same. |
| RefreshRuns.CancelledRetryRuns | auth/refresh_scheduler.go:612-633 | One in which it is cancelled while the retry loop holds it, is queued again, and runs all the same. |
| RefreshRuns.HeldTaskRuns | auth/refresh_scheduler.go:496-524 | One in which it is cancelled outside queue and channel, while its reader waits for a slot, and runs all the same. |
| RefreshRuns.SupersededTaskRuns | auth/refresh_scheduler.go:219-227 | The same of the task an immediate refresh supersedes. |
| RefreshRuns.ScheduledAgainRunsTwice | auth/refresh_scheduler.go:167-182 | A pending task scheduled again while in the channel is refreshed twice at the same time. |
| RefreshRuns.SuccessorForgotten | auth/refresh_scheduler.go:559-564 | The end of a superseded refresh takes its successor out of the table, which can then not be cancelled, and runs. |
| RefreshRuns.StrandedByFullChannel | auth/refresh_scheduler.go:236-242 | An immediate refresh asked for with the channel full is in the table and nowhere else. |
| RefreshRuns.DroppedByMistake | auth/refresh_scheduler.go:429-437 | A pending task popped in place of the one looked at is dropped, and stays in the table only. |
| RefreshRuns.SentBeforeItsTime | auth/refresh_scheduler.go:425-439 | A task that is not due is popped in place of the one looked at, and sent. |
| Affinity.Sessions.Bind | auth/store.go:3326-3355 | Binding the same account again keeps the start and the count and extends the expiry; another account starts afresh. |
| Affinity.Sessions.Unbind | auth/store.go:3370-3383 | Only a binding to this account is removed. |
| Affinity.NewBindingServes | auth/store.go:3326-3477 | A new binding serves the account and proxy it was made with, in strict mode until it expires, in bounded mode for five minutes while the account is healthy. |
| Affinity.BoundAgainAndUnbound | auth/store.go:3326-3383 | Bound again to its account a key keeps start and count, with a new expiry and proxy; unbound from it, it alone is gone. |
| Affinity.Sessions.NextForSession | auth/store.go:3411-3477 | Which binding serves, is let go, or is adopted from the cache. |
| Affinity.LiveBindingServes | auth/store.go:3425-3459 | A live binding serves and counts: in strict mode until it expires, in bounded mode within 50 requests, 5 minutes and health. |
| Affinity.StickyIsLiveOrCached | auth/store.go:3411-3477 | Any sticky return is such a binding's, or adopts what the cache has, healthy in bounded mode; without a key or with affinity off there is none. |
| Affinity.StrictKeepsAccount | auth/store.go:3411-3477 | Over a run in strict mode without a Bind or Unbind of its key, and with its slots to be had, a binding serves its account until it expires. |
| Affinity.BoundedAffinity | auth/store.go:3430-3459 | Over every run a binding epoch serves at most 50 bounded returns, all for one account, and if it began with a Bind each within 5 minutes of it. |
| Affinity.NoCacheNoAdoption | auth/store.go:3461-3474 | Without a token cache every epoch begins with a Bind. |
| Affinity.CacheOutlivesBound | auth/store.go:3355-3474 | With one, even the store's own, whatever the expiry, an account bound again and let go after 5 minutes is adopted at once and served until the adoption expires. |
| Affinity.PromiseKeptIffNoCache | auth/store.go:3398-3410 | Every bounded return of every run comes less than 5 minutes after an earlier Bind of its key to its account exactly when there is no token cache, be it the store's own or a shared one. |
| Backoff.Double | auth/store.go:4404-4407 | The doubling loop computes the duration times a power of two, wrapped to int64. |
| Backoff.RecordRateLimit | auth/store.go:4424-4434 | The whole new state: the signals of a rate limit, and the account recomputed; a ban is neither made nor lifted. |
| Backoff.ModelCooldowns.MarkModelCooldown | auth/store.go:4380-4435 | The table after a mark, with the backoff as int64 has it. |
| Backoff.ModelCooldowns.ClearModelCooldown | auth/store.go:1499-1514 | The entry goes, if there is one. |
| Backoff.ModelCooldowns.RestoreModelCooldown | auth/store.go:1429-1449 | A cooldown not over yet is taken from the database at level 0. |
| Backoff.ModelCooldowns.ApplyCachedModelCooldown | auth/store.go:1999-2026 | A cooldown not over yet is taken from the cache at its level. |
| Backoff.SafeLevels | auth/store.go:4403-4412 | Up to level 22 the duration is min(30 min, d * 2^level), in (0, 30 min]. |
| Backoff.ExactUpToLevel22 | auth/store.go:4403-4412 | That holds for every accepted duration exactly when the level is at most 22. |
| Backoff.Vanishes | auth/store.go:4403-4412 | From level 64 on every cooldown is empty. |
| Backoff.LevelCountsHits | auth/store.go:4400-4404 | Over any run of marks, clears and entries read back, the level is the number of marks that hit an active cooldown since the last of the others, on top of the level read back. |
| Backoff.RunBacksOff | auth/store.go:4380-4422 | Over any such run, with a level of at most 22 a mark lasts as long as it is meant to. |
| Backoff.BurstSpoilsBackoff | auth/store.go:4403-4412 | The 24th half-hour mark of a burst sets a cooldown that is already over. |
| MemoryCache.Table.Evict | cache/memory.go:144-153 | The second look of a read that saw an expired entry changes nothing a client can be answered. |
| MemoryCache.Table.Get | cache/memory.go:137-155 | An undisturbed read answers what the map with expiry times and no housekeeping holds. |
| MemoryCache.Table.TryLock | cache/memory.go:182-195 | A refresh lock is granted unless the map without housekeeping has it held, even if the cleanup pass has dropped it. |
| MemoryCache.Table.DeleteIf | cache/memory.go:175-202 | A key goes exactly when its value is accepted, and every other stays. |
| MemoryCache.Table.Cleanup | cache/memory.go:63-96 | The cleanup pass keeps exactly the entries not expired at the instant it read, and changes nothing a client can be answered. |
| MemoryCache.HousekeepingRemovesExpired | cache/memory.go:137-155 | Eviction, cleanup and waiting callers only ever remove expired entries. |
| MemoryCache.CacheRefinesSimple | cache/memory.go:137-400 | Over every interleaving all results are those of a map with expiry times and no housekeeping, of which SetIsRead, DeletedIsGone and ReleasedIsGranted say what it answers. |
| MemoryCache.SetIsRead | cache/memory.go:137-173 | Over every run, what was written last to a key is what a read of it answers until it expires, and nothing after. |
| MemoryCache.DeletedIsGone | cache/memory.go:137-180 | Over every run, once a key is deleted every read of it begun later answers nothing until it is written again. |
| MemoryCache.ReleasedIsGranted | cache/memory.go:182-202 | Over every run, once a refresh lock is released the next try for it is granted. |
| MemoryCache.HousekeepingIsInvisible | cache/memory.go:63-96 | Where and whether the housekeeping runs changes no result. |
| MemoryCache.ReadAnswersSimple | cache/memory.go:137-155 | A read answers what the map had at its first look by the clock at its second. |
| MemoryCache.UndisturbedReadIsCurrent | cache/memory.go:137-155 | With no write to its key between its two looks, a read answers what the map holds as it answers. |
| MemoryCache.StraddlingReadMisses | cache/memory.go:260-280 | A read across a write can miss although the key had a live entry all along. |
| MemoryCache.LockExcludes | cache/memory.go:182-202 | A granted lock excludes all others until it is released or its time is up. |
| ImportDedupe.ConflictingIDs | admin/handler.go:2371-2397 | An id conflicts exactly when two tokens carry it with different credentials. |
| ImportDedupe.ConflictingMeans | admin/handler.go:2358-2397 | Which ids conflict, told by the trimmed ids and the first credentials of the tokens. |
| ImportDedupe.Dedupe | admin/handler.go:2665-2707 | The loop keeps exactly the tokens the outright rule keeps, in order. |
| ImportDedupe.KeptAreDistinct | admin/handler.go:2665-2707 | Kept tokens differ in their reliable id, or without one in their credential; no two share an id that does not conflict. |
| ImportDedupe.FirstOfIDIsKept | admin/handler.go:2665-2680 | The first token with an id that does not conflict is kept, whatever credentials it shares. |
| ImportDedupe.SameIDSameCredential | admin/handler.go:2399-2405 | Tokens that share a reliable id share their credential. |
| ImportDedupe.DroppedIsRepeated | admin/handler.go:2665-2707 | A token is dropped only when an earlier one has its primary credential, the first it has of refresh, session and access token. |
| ImportDedupe.DroppedLeadsToKept | admin/handler.go:2665-2707 | Shared credentials lead from every dropped token to a kept one. |
| ImportDedupe.SurvivesIffSaved | admin/handler.go:2665-2707 | A credential is in a kept token exactly when a remembered carrier has a reliable id or a primary credential that no remembered token before it has brought. |
| ImportDedupe.SingleCredentialsSurvive | admin/handler.go:2665-2707 | When every token carries one credential, none is lost. |
| ImportDedupe.SecondHandCredentialIsLost | admin/handler.go:2682-2691 | A batch of three tokens that loses a session token. |
| ImportDedupe.SplitNew | admin/handler.go:2758-2796 | New tokens and duplicates are told apart as the stored sets say. |
| ImportDedupe.KnownMeans | admin/handler.go:2758-2796 | What is stored of a token, told by the batch and the stored sets. |
| ImportDedupe.NewIsNotKnown | admin/handler.go:2758-2796 | New are exactly the kept tokens with a credential that are not stored. |
| ImportDedupe.KnownIsCounted | admin/handler.go:2758-2796 | The duplicates are counted one by one. |
| ImportDedupe.CountsAddUp | admin/handler.go:2758-2798 | Duplicates and new tokens add up exactly when no kept token lacks both a credential and a stored id. |
| ImportDedupe.Import | admin/handler.go:2657-2798 | A kept token with a credential is new exactly when its reliable id is not stored and, without such an id or a refresh token, neither is any of its credentials; duplicates is the number of kept tokens of which that is false; for a batch of tokens with credentials, duplicates + new = unique. |
| Billing.MatchesIsBoundaryPrefix | database/billing.go:286-302 | A rule matches exactly when it is the name up to its end or a separator. |
| Billing.ModelRule | database/billing.go:270-284 | The loop finds the first of the longest matching rules. |
| Billing.SelectedIsLongest | database/billing.go:270-284 | That rule is a longest match, and there is none only if nothing matches. |
| Billing.LongestIsUnique | database/billing.go:270-284 | With distinct names there is only one longest match. |
| Billing.SelectedIgnoresOrder | database/billing.go:270-284 | With distinct names the choice does not depend on the order of the table. |
| Billing.RulesAreDistinct | database/billing.go:44-124 | The table's names are distinct. |
| Billing.PriceList | database/billing.go:44-124 | The whole table in dollars: what 200,000 and 1,000,000 tokens cost by each entry, fresh, cached and as output, on both sides of the long-context threshold, and with priority. |
| Billing.EntryPriced | database/billing.go:270-284 | The plain name of an entry is priced by that entry. |
| Billing.GetModelPricing | database/billing.go:127-142 | Every model name, cut down to its last part, gets its family's prices, its longest rule's or the default. |
| Billing.AfterLastIsLast | database/billing.go:216-230 | What a path is cut down to comes right after the last occurrence of its separator. |
| Billing.PathlessName | database/billing.go:216-230 | A name without a path is only trimmed and lowered. |
| Billing.ShortNames | database/billing.go:232-268 | A name too short for a version is billed by the family's name alone. |
| Billing.Unversioned | database/billing.go:232-268 | gpt-5 is billed as gpt-5.4 and codex as gpt-5.3-codex. |
| Billing.OpusPrices | database/billing.go:304-325 | Opus, and its versions from 4.5 on. |
| Billing.HaikuPrices | database/billing.go:304-325 | Haiku, and version 3.5. |
| Billing.OtherFamilyPrices | database/billing.go:304-332 | Sonnet, other claude models and gemini-3.1-pro. |
| Billing.GPT4oCosts | database/billing.go:127-214 | One model from its name to the bill: gpt-4o, also written with a blank and a capital. |
| Billing.EveryModelWellPriced | database/billing.go:44-124 | No model has prices that fall in a long context, or a cache read dearer than a token, for any tier. |
| Billing.SelectPrices | database/billing.go:150-184 | The prices reassigned step by step are those for the context length and service tier. |
| Billing.CalculateCostBreakdown | database/billing.go:148-214 | Each part is its tokens, cached ones clamped to the input, at its own price; the three prices are the model's for the context length and tier times the multiplier; the parts add up to the total. |
| Billing.ChargeTokens | database/billing.go:186-200 | Input, cache reads and output, each charged at its own price. |
| Billing.TiersCompared | database/billing.go:334-358 | For every model flex costs half of standard, and priority twice as much where the model has no priority prices. |
| Billing.TiersByName | database/billing.go:344-358 | priority and fast double, flex halves, whatever the case and the blanks; any other tier does neither. |
| Billing.EachTokenOnce | database/billing.go:186-200 | The charge is the sum over the input tokens, each at exactly one price, and the output. |
| Billing.CostGrowsWithInput | database/billing.go:148-214 | For every model and tier, more input never costs less, also across the long-context threshold. |
| Billing.CostGrowsWithOutput | database/billing.go:148-214 | For every model and tier, more output never costs less. |
| Billing.CostFallsWithCached | database/billing.go:148-214 | For every model and tier, more of the input from the cache never costs more. |

## Left out

- FastScheduler.Scheduler.AcquireExcludingWithFilter: the clock is fixed and no other caller runs during the call; the interleavings of the slot loop are in Slots, and a group check or filter is a pure predicate of the account.
- FastScheduler.Scheduler.ScanTier: the range arguments are always the whole bucket, and the cursor is unbounded where the program's wraps at 64 bits.
- FastScheduler.Scheduler.Rebuild: the accounts of the list have different ids, or the id 0 that is skipped; nil accounts are not in it.
- Buckets.StableSortIsSorted: a stable insertion sort stands for sort.SliceStable; as the sorted arrangement is unique, no other stable sort could differ.
- Rotation.ServeRound: the round is a loop of a client of the scheduler, not a method of the program, and so is Rotation.ServeTurns.
- Dispatch.Store.NextExcludingWithFilter: one caller at a time, so a swap never fails; the shared cache may answer anything at each attempt. Cooldown reasons are only looked at, not stored.
- Dispatch.Store.FindByID: a search of the list stands for the id index the store keeps beside it.
- RefreshScheduler.Scheduler.Schedule: the time and priority are inputs; their calculation and jitter are not part of this model.
- RefreshScheduler.Scheduler.ProcessScheduledTasks: the undisturbed loop; its steps Look, Take and Send keep what KeepsTrack says in any order with the other steps. The same goes for RefreshScheduler.Scheduler.ProcessRetries.
- RefreshScheduler.Scheduler.CancelTask: one step, as are Schedule and ScheduleImmediate; the loops, which take the queue's lock only, do not come between the change of a task's fields and its move in the queue.
- RefreshScheduler.Scheduler.Conclude: the refresh itself, the retry time and whether the error allows a retry are inputs.
- RefreshScheduler.Scheduler.Receive: Stop, and the tasks that its closed context leaves where they are.
- Affinity.Sessions.NextForSession: calls run one after another; whether a slot can be taken and an account is healthy are inputs of each call (Dispatch.Store.TakeByID has the first).
- Backoff.ModelCooldowns.MarkModelCooldown: the update of the fast scheduler that follows, and the write to the token cache.
- Backoff.ModelCooldowns.ApplyCachedModelCooldown: a negative level in a cached record; Account.SetModelCooldownUntil, which nothing calls.
- MemoryCache.Table.TryLock: WaitForRefreshComplete's polling; the entries and locks it drops are steps of the interleavings.
- ImportDedupe.Import: the fields of a token that no test looks at, parsing, and the insertion itself.
- Billing.CalculateCostBreakdown: prices and costs are reals, without the rounding of floats.
- Lazy mode and its background refresh, and the Disabled flag beyond what the availability lemmas say.
- Metrics, logs, HTTP, SQL, Redis, OAuth, proxies, and the persistence done inside the Mark methods.
- MarkPremium5hRateLimited, markCooldown and the other recorders of account events: each writes a few signals; the laws here hold for every value of the signals.
- Letter case and blanks: only ASCII letters are folded to lower case.
