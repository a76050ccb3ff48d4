# Verification of the billing, indexing, limiting and credit logic

This project is a Dafny 4.11 model of the parts of the API gateway where money, indexes
and limits must stay right: asynchronous task billing under concurrent pollers, the user
and token quota ledgers, deferred batch updates, the channel ability index and its cache,
the sliding-window limiters, the quota-warning cooldown, the credit state machines
(orders, redemption codes, check-ins), the E-Pay signature and money text, the retry loop
of a text relay, task pricing and the image token price.

`dafny verify dfyconfig.toml` checks everything.

## How the files fit together

| file | content |
|---|---|
| `Wrappers.dfy`, `Sums.dfy`, `Ledger.dfy`, `TaskTable.dfy` | optional values; sums over sequences; user and token rows with one function per SQL statement; task rows |
| `TaskProtocol.dfy` | task billing as a state machine: every SQL statement of a submitting handler, a poller or a timeout scan is one atomic step, each process has a program counter and its own stale snapshot; the invariant |
| `TaskSafety.dfy` | what every run keeps: conservation, one winner, final debits, bounded overdrafts, and runs in which money is lost, gained or overdrawn |
| `TaskStore.dfy` | the same code as imperative methods over a `Server` object, run by one process |
| `TaskRuns.dfy` | each sequential method, undisturbed, is a run of the protocol |
| `TaskDrain.dfy`, `TaskPricing.dfy` | bounded drain of timed-out tasks while pollers work; the price product |
| `BatchUpdate.dfy` | deferred updates refine direct updates under every interleaving, also of one operation's records |
| `ChannelIndex.dfy`, `ChannelCache.dfy` | the ability table, the cache, and channel choice |
| `RateLimit.dfy`, `QuotaWarning.dfy` | two limiters and a cooldown against the full-history rule |
| `Credits.dfy` | orders, codes and check-ins over mixed runs |
| `Epay.dfy` | canonical text, callback, money round trip |
| `Relay.dfy` | attempts, retries and what a whole call costs |
| `ImageTokens.dfy` | the two-stage image scaling and its price |

Code that updates rows, maps or queues in place is a class whose methods are proved
against a specification function; the theorems are lemmas about that function.

## What the proofs found

The code is modelled as it is. In these places it does not do what its comments or its
callers expect; the exact condition is proved, or where the text says so a sufficient one.

- A failed video submit whose token row is gone when the return looks it up keeps the whole
  charge: the refund closure of `RelayVideoSubmit` logs the lookup error and stops, unlike
  `RefundTask`, which falls back to the user row. `ReturnSucceedsIff` says over whole runs
  that a finished failed submit has cost nothing exactly when the row was found or nothing
  was charged; `StrandedRun` loses 40.
- A FAILURE task whose recorded quota is negative (an adaptor may adjust below zero) keeps
  that credit, because `RefundTask` returns at once for a quota of zero or less.
  `FailureIsFreeIff`; `NegativeChargeRun`.
- Price corrections (`PostConsumeTokenQuota` with a positive amount) are not guarded, so
  they, and only they, can overdraw a balance or a token: `OverdraftOnlyBySurcharge`,
  `TokenOverdraftOnlyBySurcharge`. A debt never exceeds the increases executed
  (`DebtIsBounded`), and when adaptors only lower prices nothing ever goes below zero
  (`DiscountsNeverOverdraw`). `OverdraftRun` settles a user who had 100 at -50.
- The ability index breaks when a status change enables a channel whose row is gone while
  its ability rows are still there (`DeleteDisabledChannel` leaves them), when an update
  with status "enabled" names a missing channel, and when a channel's group list names a
  group twice, because the multi-row insert is then refused. `OperationKeepsIff` gives the
  condition for every operation; `GhostChannelRun`, `GhostUpdate` and `RepeatedGroup` are
  one state for each.
- The cache treats a top priority of zero or less as "no tiers", the SQL query does not:
  `FirstChoiceAgreesIff`, with `NonPositiveTop` as the case of priorities 0 and -1. On a
  retry the cache offers only the lower tiers, the query everything: `RetryChoice`,
  `RetryParts`.
- Idle keys of the in-memory limiter may be dropped without effect exactly when the
  expiration plus one second is at least the window (`EvictionInvisibleIff`); every
  configured window meets this (`ConfiguredLimitsFollow`).
- The in-memory limiter keeps whole Unix seconds, the Redis one milliseconds. On one clock
  they answer every request of a trace alike exactly when no request comes a window after
  the N-th last acceptance by the second hand but less than that by the millisecond
  (`LimitersAgreeIff`). At the first such request the in-memory form is the one that lets
  it in; from there the histories differ, and later either may be the stricter one, as
  `GapTrace` shows.
- A quota-warning cooldown that is lengthened at run time can repeat a warning. The map
  decides as the history exactly when no later reminder has pruned a latest reminder that
  still counts (`MapDecidesIff`); `LongerCooldownForgets` is such a history. With fixed
  settings and a clock that does not go back the pruning is invisible over every run
  (`PruningIsInvisible`).
- An attempt of a text relay that leaves before the upstream's response is judged (no
  adaptor, conversion failure, request failure) keeps its pre-charge, and a retry charges
  again. A call without a successful attempt is free exactly when no attempt left a charge
  this way (`FailedCallIsFreeIff`); in `RetryChargesTwice` one answer worth 100 costs 200.
- A stored check-in streak stays equal to its run of days exactly when the following day
  is not claimed yet (`ClaimKeepsStreaksIff`); a calendar that never goes back always
  meets this (`StreaksAreRuns`), and `BackwardsCalendar` is one that went back. A reward
  of zero or less is recorded but never debited, so a run of days pays its recorded rewards
  exactly when none is negative (`PaidInFullIff`).
- A redemption code created without a quota is worth 100, the column's default:
  `AddCodeEffect`.
- The administrator's "pay any amount" sentinel completes orders up to 2^62 - 1 cents and
  no others: `AdminCompletesIff`.
- The text that E-Pay signs need not determine the fields: `SeparatorCollision`. It does
  when no separator occurs inside them, which is a sufficient condition only
  (`TextDeterminesFields`).
- A strip more than 2048 times as long as it is wide is priced like no picture at all,
  because a side is truncated to zero pixels: `TileBounds`. With a rounded ratio a short
  side of exactly one pixel can be lost as well, and nothing else changes: `RoundedTiles`.

## Model

| member | source | states |
|---|---|---|
| TaskProtocol.SubmitStepKeeps | controller/video.go:84-161 | every statement of a submitting handler keeps its own account exact on both ledgers, whatever the other processes did before it, and hands a new row exactly what it had taken |
| TaskProtocol.WorkerStepKeeps | relay/task/poller.go:76-95 | every statement of a poller, failTask, RefundTask or SettleSuccess keeps the account of the task it works on |
| TaskProtocol.NonWinnerCannotTouch | model/task.go:129-153 | a process that did not win the compare-and-set cannot change a terminal task or any ledger |
| TaskSafety.NextKeepsInv | relay/task/poller.go:181-216 | every event of every process keeps the protocol invariant, and no event changes an issued token's owner, cap flag or remaining plus used quota |
| TaskSafety.RunKeepsInv | relay/task/poller.go:181-216 | so does every finite run, with any number of submitters, pollers and scans |
| TaskSafety.WorkKeepsSingleWinner | model/task.go:129-144 | a step never produces a second winner for a task |
| TaskSafety.Conservation | relay/task/billing.go:29-124 | balance, charges held by in-flight submits, charges on task rows and amounts winners still owe add up to the same total in every run, up to deposits, also when the token is deleted and the user is credited directly |
| TaskSafety.TokenConservation | model/token.go:183-214 | while a token exists, its remaining quota plus what orders hold of it is constant, and so is remaining plus used |
| TaskSafety.TerminalIsForever | model/task.go:146-153 | terminal statuses are absorbing, and a running task's quota, user and token never change, so a stale snapshot's quota is what the row still says |
| TaskSafety.ExactlyOneWinner | model/task.go:129-144 | in every reachable state a terminal task has exactly one process that refunds or settles it, and a running task has none |
| TaskSafety.WinnerStaysWinner | relay/task/poller.go:86-94 | a winner is a winner forever, of the same task and the same kind |
| TaskSafety.FinalNetDebit | relay/task/billing.go:76-124 | once its winner has finished, a SUCCESS task has cost its stored quota and a FAILURE task min(quota, 0), on the user ledger and on the ledger of an existing capped token, also when the settlement adjustment could not be made |
| TaskSafety.FailureIsFreeIff | relay/task/billing.go:32-35 | a failed task costs nothing if and only if its recorded quota is not negative |
| TaskSafety.SubmitOutcome | model/token.go:233-290 | rejected or returned submits have taken nothing from either ledger, accepted ones exactly their quota from each ledger that applies, under every interleaving |
| TaskSafety.ReturnSucceedsIff | controller/video.go:94-100 | a failed submit that has finished has cost nothing if and only if its token row existed when the return looked it up or nothing was charged; otherwise the user has lost, or gained, the whole charge, whatever ran in between |
| TaskSafety.OverdraftOnlyBySurcharge | model/token.go:249-282 | a step takes a balance below zero if and only if it is a price correction larger than the balance |
| TaskSafety.TokenOverdraftOnlyBySurcharge | model/token.go:249-264 | the same for the remaining quota of a token |
| TaskSafety.DebtIsBounded | model/token.go:216-227 | in every run a balance and a token owe at most what they owed before plus the price increases executed: guarded charges never add to a debt |
| TaskSafety.NeverBelowZero | model/token.go:216-290 | a run that executes no price increase never takes a solvent balance or token below zero |
| TaskSafety.DiscountsNeverOverdraw | model/token.go:216-227 | when adaptors never raise a price, no balance and no token goes below zero in any run |
| TaskSafety.StrandedRun | controller/video.go:94-100 | a run in which a deleted token makes the server keep the charge of a failed submit |
| TaskSafety.NegativeChargeRun | relay/task/billing.go:32-35 | a run in which a failed task leaves its user with a credit |
| TaskSafety.OverdraftRun | relay/task/billing.go:89-97 | a run in which a settlement takes a user from 90 to -50 |
| TaskStore.Server.IncreaseUserQuota | model/user.go:390-404 | adds to an existing user row, refuses a negative amount, touches nothing else |
| TaskStore.Server.DecreaseTokenQuota | model/token.go:194-214 | moves an amount from remaining to used quota of an existing token row, refuses a negative amount |
| TaskStore.Server.PreConsumeTokenQuota | model/token.go:233-290 | succeeds exactly when both ledgers can afford it; then takes the quota from each ledger that applies, otherwise leaves both exactly as they were |
| TaskStore.Server.PostConsumeTokenQuota | model/token.go:316-337 | posts a signed amount on the owner and, for a capped token, on the token; does nothing when the token is gone |
| TaskStore.Server.UpdateTaskStatus | model/task.go:138-144 | compare-and-set on status: wins exactly when the row still has the expected status |
| TaskStore.Server.UpdateTaskNonTerminal | model/task.go:149-153 | changes only a row that is not terminal |
| TaskStore.Server.ListTimeoutTasks | model/task.go:168-175 | every listed row is running and was submitted before the cutoff; the ids ascend, and such a row is missing only behind `limit` listed ones |
| TaskStore.Server.RefundTask | relay/task/billing.go:32-58 | nothing for a quota of zero or less; otherwise the whole quota to token and user, or to the user directly when the token is gone |
| TaskStore.RefundedRows | relay/task/billing.go:32-58 | what a refund leaves on each row, also when the token is gone |
| TaskStore.Server.SettleSuccess | relay/task/billing.go:76-124 | posts the difference to the final quota and stores it, or leaves books and row alone when the token is gone |
| TaskStore.Server.FailTask | relay/task/poller.go:77-95 | only the winner of the compare-and-set refunds |
| TaskStore.Server.ScanTimeouts | relay/task/poller.go:64-74 | only running rows submitted more than 7200 seconds ago fail, at most a hundred of them, first ids first, and one is left out only when a hundred failed; every user's balance plus recorded charges is unchanged |
| TaskStore.Server.ApplyTaskInfo | relay/task/poller.go:181-216 | the whole effect of one poll result on ledgers and row, for each verdict and for a lost race |
| TaskStore.Server.RelayVideoSubmit | controller/video.go:84-161 | either one new row records exactly what is charged, or ledgers and table are as before |
| TaskStore.PostedAddsUp | model/token.go:316-337 | corrections add up, and a charge and its return cancel |
| TaskStore.PostedRows | model/token.go:316-337 | what a posting leaves on the owner's row and on the token's row, for capped and unlimited tokens |
| TaskStore.FailKeepsWealth | relay/task/poller.go:77-95 | failing and refunding one running task moves no user's wealth |
| TaskRuns.FailTaskIsARun | relay/task/poller.go:77-95 | the sequential failTask is one of the protocol's runs |
| TaskRuns.SuccessIsARun | relay/task/poller.go:183-198 | so is a success verdict with its settlement |
| TaskRuns.SubmitIsARun | controller/video.go:84-161 | so is a whole submit |
| TaskRuns.VerdictIsARun | relay/task/poller.go:181-216 | what each verdict does to its row, however stale the snapshot: success and failure need the status the snapshot had, a poll of a running task writes the reported status unless the row is terminal; ledgers, paid amounts and other rows stay |
| TaskRuns.RefreshBeatsStale | model/task.go:138-153 | a run in which a refreshed status makes an earlier snapshot lose its compare-and-set |
| TaskRuns.OutsideEvents | model/token.go:159-170 | deposits, new tokens and token deletions move what they name and nothing else |
| TaskDrain.ScanClosesEarlier | relay/task/poller.go:64-74 | a scan closes min(limit, due) tasks in front of any row |
| TaskDrain.RoundsClose | relay/task/poller.go:59-74 | after j scans a timed-out task is terminal or 100 * j unfinished tasks in front of it are gone, whatever moves on between the scans |
| TaskDrain.BoundedDrain | relay/task/poller.go:59-74 | a timed-out task with r unfinished tasks of smaller id is terminal after floor(r/100) + 1 scans, each free of concurrent writers, while between the scans rows arrive and are polled |
| TaskDrain.RunMovesOn | relay/task/poller.go:97-142 | any run of submits, pollers and other scans is such a move between scans |
| TaskPricing.FactorLast | relay/task/billing.go:21-27 | any factor of the price product may be taken last |
| TaskPricing.ProductSteps | relay/task/billing.go:21-27 | the product starts at its first argument and every walked name multiplies it by its ratio |
| TaskPricing.OrderIsIrrelevant | relay/task/billing.go:21-27 | the price product is the same for every order in which the ratio map is walked |
| TaskPricing.ComputeQuota | relay/task/billing.go:14-27 | the product times 1000, truncated, whichever order the runtime picks |
| BatchUpdate.RecordsMeanDirect | model/user.go:390-446 | the records an operation queues amount to its direct statement |
| BatchUpdate.DirectMeans | model/user.go:390-446 | what the direct statement of each operation leaves in its own row, and that a negative balance change is refused and no other row moves |
| BatchUpdate.DropMeans | model/channel.go:168-170 | a deletion takes exactly its row away |
| BatchUpdate.NextRefines | model/utils.go:38-78 | queueing, swapping, applying one entry and deleting a row all keep: database value + live store + swapped-out store = direct value, for all five types |
| BatchUpdate.BatchRefinesDirect | model/utils.go:38-78 | that equality holds after every interleaving, whatever the map iteration order |
| BatchUpdate.QuiescentIsDirect | model/utils.go:48-78 | with nothing pending the database is the direct-mode database |
| BatchUpdate.OperationsRefineDirect | model/user.go:427-446 | when every handler has queued all its records and all are applied, the database is what the operations' direct statements leave, however the records of one operation were interleaved with other records, swaps and row deletions |
| BatchUpdate.Updater.AddNewRecord | model/utils.go:38-46 | adds to the entry of its type and id, leaves the database alone |
| BatchUpdate.Updater.BatchUpdate | model/utils.go:48-78 | a completed flush leaves five empty stores and the direct-mode database |
| ChannelIndex.IndexMeaning | model/ability.go:14-20 | under the invariant an enabled row (group, model, channel) exists exactly when that channel exists, is enabled and lists both, and carries its priority |
| ChannelIndex.SplitMeans | model/ability.go:54-56 | splitting takes exactly the commas away: no name holds one, and joining gives the list back |
| ChannelIndex.InsertEffect | model/channel.go:85-98 | new channels are stored under the next ids with status 1 for none and group "default" for none, each with its rows up to the first group list that repeats a group; nothing old moves |
| ChannelIndex.UpdateEffect | model/channel.go:137-146 | every field of the body that is set replaces the stored one, the others stay; the rows are those of the resulting channel, or none when its groups repeat; no other channel or row moves |
| ChannelIndex.SetStatusEffect | model/channel.go:190-199 | an existing channel takes the status and keeps its other fields; its rows are enabled exactly for status 1 and keep their priority; nothing else moves |
| ChannelIndex.DeleteEffect | model/channel.go:168-176 | neither the channel nor any of its rows is left, nothing else moves; id 0 is refused |
| ChannelIndex.DeleteDisabledEffect | model/channel.go:221-224 | exactly the channels of status 2 and 3 go, and no row does |
| ChannelIndex.OperationKeepsIff | model/channel.go:85-98 | each of insert, update, delete, status change and delete-disabled keeps the index right if and only if a condition readable beforehand holds |
| ChannelIndex.InsertKeepsIff | model/channel.go:85-98 | inserts keep it if and only if no new channel repeats a group |
| ChannelIndex.UpdateExisting | model/channel.go:137-146 | an update of an existing channel keeps it if and only if the resulting group list has no repetition |
| ChannelIndex.UpdateMissing | model/channel.go:137-146 | an update of a missing channel: the exact condition |
| ChannelIndex.SetStatusKeepsIff | model/channel.go:190-199 | a status change: the exact condition |
| ChannelIndex.RunKeepsIndex | model/ability.go:53-96 | every run of such operations keeps the index right |
| ChannelIndex.GhostChannelRun | model/channel.go:221-224 | purging disabled channels and then enabling one by id leaves an enabled row without a channel |
| ChannelIndex.GhostUpdate | model/channel.go:137-146 | so does an update, with status enabled, of a channel that is gone |
| ChannelIndex.RepeatedGroup | model/ability.go:53-71 | a group list "g,g" stores an enabled channel without a single ability row |
| ChannelIndex.Tables.AbilityKeys | model/ability.go:53-69 | the rows to insert are all pairs of listed group and model, and a key repeats exactly when a group does |
| ChannelIndex.Tables.AddAbilities | model/ability.go:53-71 | all rows or none |
| ChannelIndex.Tables.BatchInsertChannels | model/channel.go:85-98 | channels get consecutive ids, rows are added channel by channel up to the first refusal, and it succeeds exactly when no group list repeats |
| ChannelIndex.Tables.Update | model/channel.go:137-146 | patches every set field and replaces the rows; it succeeds exactly when the id is not 0 and no group repeats |
| ChannelIndex.Tables.UpdateChannelStatusById | model/channel.go:190-199 | an existing channel has the new status, its rows are enabled exactly for status 1, and nothing else moves |
| ChannelIndex.Tables.DeleteDisabledChannel | model/channel.go:221-224 | removes exactly the channels of status 2 and 3, reports how many, leaves the ability rows |
| ChannelCache.InitChannelCache | model/cache.go:173-217 | panics exactly when an enabled channel lists a group without ability rows; otherwise each list holds exactly the enabled matching channels, best priority first |
| ChannelCache.IndexedNeverPanics | model/cache.go:181-200 | a right index rules the panic out |
| ChannelCache.SortByPriority | model/cache.go:204-211 | a descending permutation |
| ChannelCache.DrawRange | model/cache.go:237-253 | the index range is never empty or out of bounds, and its channels are exactly the tier the caller asked for |
| ChannelCache.CacheGetRandomSatisfiedChannel | model/cache.go:227-255 | fails exactly when nobody serves the pair, and otherwise returns the allowed channel that the dice pick |
| ChannelCache.PicksAreChoices | model/cache.go:237-253 | every allowed channel, and no other, comes up for some throw of the dice |
| ChannelCache.TopIsMax | model/ability.go:35-38 | the query's choices are the channels that share the first cache entry's priority |
| ChannelCache.FirstChoiceAgreesIff | model/cache.go:237-247 | cache and query offer the same channels if and only if the top priority is positive or there is only one tier |
| ChannelCache.RetryChoice | model/cache.go:248-253 | on a retry the cache offers exactly the strictly lower tiers, or everything when it does not tier |
| ChannelCache.NonPositiveTop | model/cache.go:240-247 | priorities 0 and -1: the query offers one channel, the cache both |
| ChannelCache.RetryParts | model/cache.go:249-253 | priorities 2 and 1 on a retry: the query offers both, the cache the lower one |
| RateLimit.MemoryRequestTracks | common/rate-limit.go:45-70 | the queue answers as the full history and stays its tail |
| RateLimit.MemoryEvictTracks | common/rate-limit.go:32-39 | a sweep forgets nothing that still counts |
| RateLimit.RedisRequestTracks | middleware/rate-limit.go:19-63 | the Redis list answers as the full history |
| RateLimit.MemoryFollowsHistory | common/rate-limit.go:28-70 | over every trace with a non-decreasing clock the in-memory limiter accepts what the full-history rule accepts, sweeps anywhere |
| RateLimit.RedisFollowsHistory | middleware/rate-limit.go:19-63 | so does the Redis limiter with its key expiry |
| RateLimit.DecisionsDifferIff | middleware/rate-limit.go:50-56 | with one history behind them the second and the millisecond clock disagree on a request exactly in the gap, and then the second clock allows it |
| RateLimit.LimitersAgreeIff | middleware/rate-limit.go:19-72 | on one millisecond clock, memory in whole seconds and Redis in milliseconds answer every request of a trace alike if and only if no request falls into the gap, sweeps anywhere |
| RateLimit.LimitersAgree | middleware/rate-limit.go:19-72 | they agree on every trace whose times share their sub-second part, whole seconds in particular |
| RateLimit.GapTrace | middleware/rate-limit.go:34-61 | a trace on which first only the in-memory form, then only the Redis form lets a request in |
| RateLimit.WholeSeconds | middleware/rate-limit.go:52-52 | truncating an age to seconds before comparing is comparing milliseconds |
| RateLimit.AcceptancesAreSpaced | common/rate-limit.go:45-70 | accepted times satisfy a[i+N] - a[i] >= duration |
| RateLimit.AllowedMeans | common/rate-limit.go:53-66 | the full-history rule without counting: fewer than N acceptances so far, or the N-th latest is at least the duration ago |
| RateLimit.EarlyEvictionShows | common/config/config.go:131-150 | a shorter expiration lets an extra request in: a trace |
| RateLimit.EvictionInvisibleIff | common/config/config.go:131-150 | eviction is invisible on every trace if and only if expiration + 1 >= duration |
| RateLimit.ConfiguredLimitsFollow | common/config/config.go:131-150 | for every configured window (180, 60 and 1200 seconds) keys that live 1200 seconds live long enough for both forms to follow the history |
| RateLimit.InMemoryRateLimiter.Request | common/rate-limit.go:45-70 | accepts exactly when this key has fewer than N acceptances or the N-th latest is at least the duration ago, records exactly the acceptances, other keys untouched |
| RateLimit.InMemoryRateLimiter.ClearExpiredItems | common/rate-limit.go:28-42 | drops exactly the idle keys and keeps every later decision right |
| QuotaWarning.MapDecidesIff | model/quota_warning.go:46-54 | with a clock that does not go back the map decides as the full-history rule if and only if no later reminder pruned a latest reminder that still counts; a refusal is always right |
| QuotaWarning.MapRemembers | model/quota_warning.go:55-61 | the map holds a user's latest reminder exactly until a later reminder prunes it |
| QuotaWarning.WindowEnds | model/quota_warning.go:53-55 | one reminder silences its user, and nobody else, until exactly a cooldown later |
| QuotaWarning.WantsMeans | model/quota_warning.go:74-82 | a reminder is wanted exactly when the feature is on and the balance crosses the threshold or is used up |
| QuotaWarning.PruningIsInvisible | model/quota_warning.go:42-61 | over every run with fixed settings and a clock that does not go back, the reminders are those of the full-history rule, and a user's are at least a cooldown apart |
| QuotaWarning.LongerCooldownForgets | model/quota_warning.go:46-61 | a lengthened cooldown repeats a warning: a concrete history |
| QuotaWarning.Reminders.CooldownAllows | model/quota_warning.go:46-62 | grants exactly when the history rule does or the latest reminder was forgotten, records exactly the grants, and keeps only entries inside the window |
| QuotaWarning.Reminders.ShouldSend | model/quota_warning.go:64-83 | a reminder goes out exactly when enabled, when the balance drops from at least the threshold to below it or is zero or less, and outside the cooldown or forgotten; only then is the window consumed |
| Credits.WalletEquation | model/topup.go:95-158 | over every mixed run a balance grows by exactly the quotas of successful orders, redeemed codes and positive check-in rewards |
| Credits.IndexesStayUnique | model/checkin.go:95-102 | trade numbers, code keys and (user, day) stay unique |
| Credits.ApplyKeepsRows | model/topup.go:82-92 | success and failed are absorbing, nothing else of an order changes, a used code stays with its redeemer, check-in rows are never rewritten |
| Credits.FinalIsFinal | model/topup.go:82-92 | the same over whole runs |
| Credits.CompletionCreditsOnce | model/topup.go:105-143 | an order is credited only by a call that names it while pending and pays enough; short payment or another status changes nothing |
| Credits.CreateOrderEffect | model/topup.go:44-68 | a complete order with a new trade number is appended as pending; any other creates none |
| Credits.FailEffect | model/topup.go:162-180 | a pending order named by the call becomes failed, and nothing else changes |
| Credits.RedeemEffect | model/redemption.go:55-103 | a code of status 1 redeemed by somebody else than its creator gets status 3 and its redeemer, and its quota is credited in that step; any other call changes nothing |
| Credits.AddCodeEffect | model/redemption.go:20-31 | a new code has status 1 and no redeemer, and is worth 100 when it was given no quota; a known key creates none |
| Credits.ClaimEffect | model/checkin.go:103-173 | a claim appends one row and credits a positive reward; it is refused when the day is taken, or when there is a reward and no user row |
| Credits.AdminCompletesIff | model/topup.go:223-239 | the sentinel completes a pending order if and only if it asks at most 2^62 - 1 cents |
| Credits.ClaimKeepsStreaksIff | model/checkin.go:121-136 | a claim keeps stored streaks equal to runs if and only if the next day is unclaimed |
| Credits.StreaksAreRuns | model/checkin.go:103-164 | with a calendar that never goes back every stored streak is the length of its run |
| Credits.BackwardsCalendar | model/checkin.go:121-136 | day 5 claimed before day 4: a stored streak of 1 in a run of two days |
| Credits.CurrentStreakIsRun | model/checkin.go:71-93 | the status page shows today's run, or yesterday's while it can be continued |
| Credits.RunRewardClosedForm | model/checkin.go:38-51 | an n-day run pays n * daily + bonus * (the sum of min(k, cap) - 1) for a positive cap |
| Credits.UncappedRunReward | model/checkin.go:38-51 | without a positive cap it pays n * daily + bonus * n * (n - 1) / 2 |
| Credits.RunPays | model/checkin.go:103-164 | n claims in a row after a gap, under any settings, add the positive rewards of those days to the balance |
| Credits.PaidInFullIff | model/checkin.go:149-161 | that is the sum of the recorded rewards if and only if none of them is negative |
| Credits.Wallets.CreatePendingTopup | model/topup.go:44-68 | appends one pending order or changes nothing |
| Credits.Wallets.CompleteTopup | model/topup.go:95-158 | the completion step, and "already done" exactly for a successful order |
| Credits.Wallets.AdminMarkTopupSuccess | model/topup.go:226-232 | completion with the sentinel payment |
| Credits.Wallets.FailTopup | model/topup.go:162-180 | only a pending order becomes failed |
| Credits.Wallets.Redeem | model/redemption.go:55-103 | an enabled code of somebody else is credited once and marked used; otherwise nothing changes |
| Credits.Wallets.ClaimToday | model/checkin.go:103-173 | one row and one credit per user and day; a second claim or a failed credit changes nothing |
| Epay.ListingIsUnique | service/payment/epay.go:131-141 | a set of keys has one increasing listing, so map order leaves no trace |
| Epay.CanonicalIsUnique | service/payment/epay.go:125-150 | the text that is hashed is a function of the field map |
| Epay.LessMeans | service/payment/epay.go:141-141 | the order of the keys is the lexicographic one |
| Epay.SignedAgree | service/payment/epay.go:130-140 | two field maps have the same signed part if and only if every field but the two signature ones reads the same, an empty one as good as none |
| Epay.SignatureIsFixed | service/payment/epay.go:125-154 | it depends only on the non-empty fields other than the signature ones |
| Epay.TextDeterminesFields | service/payment/epay.go:141-150 | the hashed text determines the field map when keys hold no separator and values no '&' |
| Epay.SeparatorCollision | service/payment/epay.go:141-150 | without that two field maps can share a text |
| Epay.EpaySign | service/payment/epay.go:130-154 | the hash of that text followed by the key |
| Epay.SignedVerifies | service/payment/epay.go:68-69 | any field set signed this way verifies in the callback and reads back unchanged |
| Epay.CreateOrder | service/payment/epay.go:45-71 | refuses exactly an empty trade number or a non-positive amount; otherwise the redirect, correctly signed: merchant, method (alipay by default), trade number, both URLs, the name with the quota, and money that reads back as the order's cents |
| Epay.HandleCallback | service/payment/epay.go:76-121 | the answer for every field map, error cases in the code's order |
| Epay.AuthenticIff | service/payment/epay.go:89-92 | comparing with the computed signature decides authenticity |
| Epay.FoldMeans | service/payment/epay.go:90-90 | the comparison ignores the case of letters and nothing else |
| Epay.MoneyRoundTrip | service/payment/epay.go:66-112 | cents printed as yuan, parsed and rounded are the same cents |
| Epay.OnlyDecimals | service/payment/epay.go:108-111 | an amount that is read consists of digits with at most one point |
| Epay.HonestCallback | service/payment/epay.go:101-120 | an authentic success notification reports exactly the ordered amount, so paid >= expected holds with equality |
| Epay.RedirectIsPaid | service/payment/epay.go:59-120 | an authentic success notification that repeats trade number and money of a created redirect is answered as paid, for that trade number and exactly the order's cents |
| Epay.MoneyBuys | service/payment/util.go:25-38 | the quota is the nearest whole number to the exact price, refused exactly below one half, and monotone |
| Relay.Session.PreConsumeQuota | relay/controller/helper.go:68-95 | refusal, trusted user, or both ledgers charged: what it answers, the ledgers it was checked against and the ledgers it leaves, by the quota cache's balance and what others did before |
| Relay.PreChargeOutcome | relay/controller/helper.go:68-95 | refused when the cached balance is below the reserve or a due pre-charge is not covered; nothing for more than a hundred reserves; otherwise exactly the reserve, on the ledgers others have left |
| Relay.ReserveMeans | relay/controller/helper.go:60-66 | the exact price of the configured reserve, the prompt and the longest answer, truncated |
| Relay.UsageMeans | relay/controller/helper.go:97-115 | nothing without tokens; otherwise the exact price rounded up, and at least one unless the ratio is zero |
| Relay.Session.Judge | relay/controller/text.go:73-87 | success exactly when upstream reports no error and the response can be read; otherwise it costs nothing and the whole pre-charge is on its way back |
| Relay.Session.RelayTextHelper | relay/controller/text.go:25-88 | the exit, the ledgers and the waiting calls after one attempt, for every environment, as `AttemptOutcome` spells them out |
| Relay.AttemptOutcome | relay/controller/text.go:25-88 | from the call's own fields: an attempt succeeds if and only if it is valid, covered, has an adaptor, converts, is sent and meets no error; which status each other exit carries, what it costs, and which correction is left waiting |
| Relay.AttemptCharges | relay/controller/text.go:25-88 | whatever path an attempt takes and whatever others do meanwhile, it charges exactly its cost, on the user row and on a capped token |
| Relay.Session.Retry | controller/relay.go:70-91 | the countdown loop computes the recursive run: its attempts, and the ledgers after each |
| Relay.RetriesFollowPlan | controller/relay.go:70-91 | the retries are the planned channels in order, up to the first success |
| Relay.Session.Relay | controller/relay.go:45-103 | the whole request computes the run: its attempts, ledgers and waiting calls |
| Relay.RelayFollowsPlan | controller/relay.go:54-91 | the attempts of every run follow the plan |
| Relay.RelayCharges | controller/relay.go:45-103 | in every environment the request charges exactly the sum of its attempts' costs, no other user's row moves, and the token row is there until somebody deletes it |
| Relay.Session.LetMove | relay/billing/billing.go:11-21 | the environment's next move: a waiting spawned call runs, or somebody else's statement on this user or token, even its deletion |
| Relay.InterleavedCharges | model/token.go:316-337 | what happens between two statements of the request leaves its charge exact |
| Relay.OthersMoveFirst | relay/billing/billing.go:11-21 | between two statements exactly the moves up to the request's next turn happen, and the user row moves by their sum |
| Relay.PlanBounds | controller/relay.go:70-91 | a plan has at most one entry per retry and never the same channel twice in a row |
| Relay.PlanUsesEveryTurn | controller/relay.go:70-91 | with a fresh channel at every turn the plan is all selections, in the order of the countdown |
| Relay.RetryMeans | controller/relay.go:105-122 | retried exactly when the client did not ask for the channel, the status is not 400 and not a success; in particular 429 and 5xx |
| Relay.PlannedAttempts | controller/relay.go:54-91 | at most 1 + max(0, RetryTimes) attempts, no two in a row on one channel, one attempt when the error is not retryable |
| Relay.EventualDebit | relay/controller/helper.go:116-120 | once everything spawned has run, the user row is the opening balance plus what others moved, less the sum of the costs, plus what a deleted token lost; with a token nobody deleted nothing is lost and a capped one has paid the same |
| Relay.QuietCallPaysItsCost | relay/controller/helper.go:116-120 | with nobody else on the account the user pays exactly the sum of the costs |
| Relay.FailedCallIsFreeIff | relay/controller/text.go:55-84 | a request none of whose attempts succeeded is free if and only if no attempt left a pre-charge behind, as its call and the ledgers it met decide |
| Relay.FailedAttemptCost | relay/controller/text.go:49-84 | a failed attempt costs its reserve exactly when it left it behind, and the ledgers it met are the real ones |
| Relay.RetryChargesTwice | relay/controller/text.go:67-72 | a first attempt that cannot be sent and a retry served at 100 cost 200 |
| ImageTokens.ScaleExact | relay/adaptor/openai/token.go:193-202 | the side that sets the ratio scales exactly, and when a side vanishes |
| ImageTokens.FitLongMeans | relay/adaptor/openai/token.go:193-197 | a picture of at most 2048 on both sides stays; of any other the longer side becomes exactly 2048 and both sides are truncated in that ratio |
| ImageTokens.FitShortMeans | relay/adaptor/openai/token.go:198-202 | the same with the shorter side and 768, when both are longer |
| ImageTokens.TilesCover | relay/adaptor/openai/token.go:203-203 | the least number of 512-tiles that cover a side |
| ImageTokens.TileBounds | relay/adaptor/openai/token.go:193-203 | at most eight tiles for every picture, and none exactly when a side vanishes |
| ImageTokens.BoundsAreReached | relay/adaptor/openai/token.go:193-203 | both ends are reached |
| ImageTokens.RoundedTiles | relay/adaptor/openai/token.go:193-203 | with ratios rounded in either stage there are still at most eight tiles, a strip still has none, and another picture has none only if its short side scales to exactly one pixel |
| ImageTokens.OnePixelPicture | relay/adaptor/openai/token.go:193-197 | 49 by 100352 is such a picture |
| ImageTokens.CountImageTokens | relay/adaptor/openai/token.go:148-208 | 85 or 2833 for low detail, 170 or 5667 a tile plus that for high, by whether the model is a gpt-4o-mini; 85 to 1445 tokens, or 2833 to 48169 |

## Left out

- Database errors other than the ones the code branches on (missing token, failed guard, failed insert); the ambiguous refund error, a failed `UpdateTaskQuota` and unreadable private data, which the code only logs.
- TaskPricing.ComputeQuota: exact real products stand for floating point; the same holds for every ratio, ceiling, rounding and scaling here, and integers are unbounded where the code has 64-bit ones.
- TaskProtocol.WorkerStepKeeps: user rows never disappear (deletion is soft) and a token keeps its owner and cap flag; administrators' edits of balances, tokens, codes and settings during a run are not events.
- The Redis copy of user balances and the legacy pre-consume path of batch mode, which the code documents as racy.
- Used-quota counters and logs in the task and relay code (the counters themselves are in BatchUpdate).
- Grouping of polled tasks by platform and channel, fetch intervals, and everything that leaves a task untouched until the timeout scan.
- ChannelIndex.OperationKeepsIff: each channel operation is one step; two administrators racing between its statements are not modelled, nor is the unused delete-by-status.
- ChannelCache.InitChannelCache: how often a channel occurs in a list when its model list repeats a name (it changes the odds, not the set), and the fairness of the random draw.
- RateLimit.RedisRequestTracks: the commands of one request are served at one instant; races between concurrent Redis requests and unreadable timestamps are not modelled.
- QuotaWarning.MapDecidesIff: when times reach the map out of order only the map's own decision is stated. `maybeSendQuotaWarning` reads the clock before the mutex is taken, so concurrent calls can arrive slightly out of order.
- Credits.Wallets.ClaimToday: the transaction is one step, so the unique-violation path appears as "already claimed"; days are counted from an arbitrary origin.
- Epay.HandleCallback: texts with a sign, an exponent, a hexadecimal or an infinite amount count as unreadable; case folding is ASCII; URL encoding and the stored payload text are left out; the hash is any function.
- Relay.Session.Relay: `PreConsumeTokenQuota` and `PostConsumeTokenQuota` are one step each here (their statement-level interleavings are those of TaskProtocol), and others' moves are those on this user and this token; a token id is not issued again.
- ImageTokens.ScaleExact: exact rationals; a floating-point ratio can bring a whole product out one pixel lower, which RoundedTiles covers.
- ImageTokens.TileBounds: the vanishing condition is exact for rationals; RoundedTiles says what changes with rounded ratios. That floating point rounds no further than this is not proved.
- Prompt token counting other than images, request conversion, adaptors, streaming, HTTP, sessions, e-mail text, OAuth, option editing and the web front end.
