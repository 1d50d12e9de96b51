# Admission and reservation, verified

A Dafny model of the part of the gateway that decides which model may serve a call, reserves capacity for it
and returns that capacity exactly once, with the separate algorithms that stand beside it. The main results are
statements about every input, every reachable state or every run.

| module | what it models |
|---|---|
| `Basics` | options, units of time, saturating and wrapping counters, usage buckets, sums over sequences |
| `Reservations` | the concurrent protocol: selections, completions, clients, drop guards and spawned reports, as interleavings of single loads, compare-exchanges and fetch-adds, with cancellation at every await |
| `Attempts` | what a completion does after each outcome, how often it waits, and in which order a selection goes through its candidates |
| `Windows` | lazily drained sliding windows against the full event log |
| `UsageTracking` | one quota bucket and the tracker of all buckets, as objects updated in place |
| `QuotaLaws` | what headroom means; what a learned limit guarantees over runs of admissions and reports |
| `LedgerTotals` | what the windows count, and so the headroom, in terms of everything reported |
| `Cooldowns` | expiring marks and their least remaining time |
| `Ranking` | stable sorting and stacked stable sorts |
| `Scoring` | weights, min-max scores, traffic balance, sticky bonus |
| `Selection`, `SelectionLaws` | the declarative selection and its laws |
| `Selector` | the selector object: filter loop, hint, ceiling, scores, order, reserve, reports, each proved against `Selection` |
| `Winners` | the winner of a selection in the fields of the request, the catalogue and the live state |
| `Refusals` | concrete refusals at states that the ledger's operations reach: by a cap, by a learned limit, and of a brand with a key |
| `Regression`, `Latency` | nonnegative ridge regression by coordinate descent; bounded history, prediction, percentiles |
| `RscText` | extraction of an embedded JSON object from an escaped page |
| `SystemOne` | a flat finite schema as questions, and answers as an object |
| `Batch` | queue, flush, batch job and results as a state machine and as an object |
| `Enrichment` | repeated catalogue syncs with a per-run scraping budget |

## Conventions

- Time is an integer number of nanoseconds (seconds in `Latency`); floating-point numbers are `real`, with
  `NegInf` for the headroom ratio of a zero limit. Identifiers are natural numbers; concurrent maps are maps.
- Concurrency is a sequentially consistent interleaving of the atomic operations; a weak compare-exchange may
  fail spuriously. Each operation of a cooldown store is one atomic step.
- `Reservations` assumes that the live requests fit a 32-bit counter and their tokens a 64-bit one (`Roomy`),
  that caps do not change during a run, and that clients report what they selected at most once.
- One selection happens at one instant and undisturbed; `Selector` measures it against the snapshot taken at its
  start. `Agrees` says that the state is still that snapshot but for drained windows and removed expired marks,
  and which buckets without a key have been drained by being asked for their learned limit.
- The size-aware predictions of a request are a parameter of the selection; `Latency` computes them.
- Sample weights of the regression are any positive function of age times the sample-order decay.

- Page text is a sequence of Unicode scalar values; lengths and offsets in it are counted in UTF-8 bytes.

## Where the code and its comments differ

The model follows the code; the lemmas named say exactly when the two part.

- `unescape_rsc` is described as undoing every `\uXXXX`. The two halves of a surrogate pair are dropped, so a
  character outside the basic plane written as a pair is lost. `EscapingRoundTrips` says exactly when
  text survives, `PairIsLost` shows the smallest loss, and `PairInPage` a page from which another object is returned.
- The extraction is described as finding the object behind the anchor. It cuts 98304 bytes, and a cut inside a
  character gives nothing, however small the object. `ExtractionRoundTrips` says for every page with an object
  behind the anchor, in any escaping, that the object is returned if and only if none of its characters is written
  as a surrogate pair, it fits in the window, and the page ends there or is cut between two characters;
  `CutInsideCharacter` is a page with the object `{}` that is lost.
- A learned limit is described as growing by at most one a minute. The growth step also clamps to 10000, so it
  lowers a larger value, exactly when it is due and the limit is above 10000 (`GrowthStep`). `LargeLimitIsLowered` reaches one from an empty bucket: 20002 served
  calls and one rejection learn 10001, and the success a minute later lowers it to 10000.
- `earliest_drain_ms_for` is described as returning nothing only for no keys. It also returns nothing when every
  bucket has only stale windows. The retry hint is then zero, on which a waiting caller does not wait:
  `RefusalHintIsZeroIff` has the exact condition, and `CapRefusesWithZeroHint` such a refusal.
- `earliest_drain_ms_for` is described as asking the blocked buckets. A brand whose keys are all out of room is
  recorded without a key (`BlockedBucketsAreKeyless`), so that the windows of its keys are not looked at:
  in `KeyedWaitIsNotHinted` the key's window offers 50001 ms and the hint is 2000 ms.
- The selector promises never to be exhausted while any window has capacity. Caps and learned limits do exclude
  (`CapRefusesWithZeroHint`, `LearnedLimitRefusesWithZeroHint`, `LearnedLimitRefusesWithFlatHint`); headroom does
  not (`HeadroomNeverExcludes`). `OfferedIffAvailable` and `ExhaustedIffNoneAvailable` are the exact conditions.
- The enrichment promises that models already in the file are never scraped again. A model in the file whose page
  never loaded is fetched again by every run that reaches it with budget left. `FetchedIff` says exactly when a
  page is fetched, and `UnloadedWaitsForBudget` shows a page that waits one run and is then fetched in vain twice.
- Re-syncs are meant not to wipe scraped fields. A scraped output size of zero is kept by the run that scraped it
  and dropped by the next (`ZeroSizeIsDropped`); everything else stays (`EnrichedStays`).
- A scraped cached price is taken only when it is below the input price, as it is always a discount. The input price
  may fall afterwards: a row's cached price is a discount exactly unless it was carried past such a fall
  (`DiscountedIff`, `FallenPriceKeepsCached`); with fixed prices it is one in every file (`CachedIsDiscount`).

## Model

| member | source | states |
|---|---|---|
| `Reservations.ReleasedAtMostOnce` | server/src/complete.rs:299-587 | in every interleaving of completions, clients and cancellations at any await, a counted reservation is either still owned by one task or was given back once, on its own bucket with its own tokens; nothing is given back that was not taken |
| `Reservations.QuiescentRunRestoresCounters` | server/src/lib.rs:66-93 | when every task and spawned report has ended, each reservation was added and subtracted exactly once on both counters and every counter has its starting value again |
| `Reservations.CapNeverExceeded` | crates/core/src/usage_tracker.rs:151-177 | with a fixed cap, requests in flight never exceed it in any interleaving of loads and compare-exchanges, for any number of tasks and any spurious failures |
| `Reservations.AttemptsAreBounded` | server/src/complete.rs:313-350 | a task calls at most four models, never one twice unless pinned with waiting, and owns at most one reservation at a time |
| `Reservations.HoldsAtMostOne` | server/src/complete.rs:342-375 | pending selection, guard, client and spawned report never own two reservations of one task together |
| `Reservations.CapacityIsRecoverable` | server/src/lib.rs:66-93 | from every reachable state a continuation ends every task and restores every counter; when no client holds a selection, drops alone do it, and otherwise those clients report |
| `Reservations.WindProgresses` | server/src/complete.rs:299-311 | a dropped task always has an enabled step that brings it closer to its end, whatever compare-exchange it was in |
| `Reservations.WindTask` | server/src/complete.rs:299-311 | a task that is dropped and then runs undisturbed ends, touching no other task; without a client in hand, by drops alone |
| `Reservations.WindTasks` | server/src/complete.rs:299-311 | any number of tasks end one after the other, by drops alone when no client holds a selection |
| `Reservations.WindIsUnattended` | server/src/lib.rs:66-93 | a task that no client holds winds down without anybody's report: by its drop guard and the reports it has spawned |
| `Reservations.Linearises` | crates/core/src/usage_tracker.rs:151-177 | a step of a compare-exchange loop either leaves both counters alone or performs one whole atomic operation, the one it logs |
| `Reservations.NeverClips` | crates/core/src/usage_tracker.rs:59-79 | in matched runs a saturating subtraction never saturates, a saturating addition never sticks and the token addition never wraps |
| `Reservations.UnclippedIsExact` | crates/core/src/usage_tracker.rs:59-79 | an operation that does not clip moves its counter by exactly one request or its tokens |
| `Reservations.DoKeepsBalance` | crates/core/src/usage_tracker.rs:151-177 | after every step each request counter is its start value plus the reservations owned, and each token counter its start value plus their tokens, up to tasks between their two updates |
| `Reservations.DoKeepsAccount` | crates/core/src/usage_tracker.rs:239-257 | after every step additions equal subtractions plus what is owned, per reservation and per counter |
| `Reservations.DoKeepsCaps` | crates/core/src/usage_tracker.rs:160-176 | a step keeps every capped bucket within its cap |
| `Reservations.LocalMovesOwnership` | server/src/lib.rs:77-93 | a step's change of ownership is exactly the operation it logs: claiming a pending selection, guarding it, spawning a report and orphaning it only move it |
| `Reservations.LocalKeepsTaskOk` | server/src/complete.rs:313-587 | a step keeps the shape of its task: where the reservation is for each stage of the driver, its tokens, and that called models stay excluded |
| `Reservations.StepKeepsInv` | server/src/complete.rs:299-587 | every step of every task, arrival and end keeps shape, balance, account and caps together |
| `Reservations.RunKeepsInv` | server/src/complete.rs:299-587 | so does every run |
| `Attempts.OutcomeDecides` | server/src/complete.rs:439-587 | from any point of any run: a call that has ended waits for the reports it owes; then a final answer ends the request, and any other outcome ends it after four calls and asks the selector again before that, with the model just called ruled out exactly unless it was a 429 that a pinned request may try again |
| `Attempts.AnswerIsFinal` | server/src/complete.rs:448-510 | after a final answer the request never calls a provider again, whatever happens, and is over when its report has returned |
| `Attempts.WaitsOnce` | server/src/lib.rs:98-133 | a refused selection waits at most once: after the wait the next answer is a candidate or the end |
| `Attempts.FirstWithRoomIsTaken` | crates/core/src/selector.rs:1138-1152 | a selection takes the first offered candidate that it has not seen at its cap, and comes back empty only when it has seen every one at its cap, each at some moment of the interleaving |
| `Attempts.RunKeepsCalls` | server/src/complete.rs:313-587 | every attempt has made one call, of a model that is not excluded yet when it is called |
| `Attempts.StoryIsTaken` | server/src/complete.rs:313-587 | what a task does in an interleaving is a run of its own, however its place in the system shifts |
| `Windows.DrainBefore` | crates/core/src/usage_tracker.rs:605-610 | the loop that pops the stale front of a window leaves what `DropBefore` leaves |
| `Windows.WindowSum` | crates/core/src/usage_tracker.rs:612-616 | the sum of a window's values |
| `Windows.ReplayIsSuffix` | crates/core/src/usage_tracker.rs:248-273 | after any history of pushes and lazy drains the window is a suffix of the full event log |
| `Windows.NeverUndercounts` | crates/core/src/usage_tracker.rs:605-616 | the drained sum counts at least every logged event of the window's length, whatever the order of pushes |
| `Windows.DrainIsExactIff` | crates/core/src/usage_tracker.rs:605-610 | a drained window holds exactly the recent events if and only if no stale event hides behind a recent one |
| `Windows.ExactWhenOrdered` | crates/core/src/usage_tracker.rs:605-616 | with pushes in time order the drained sum equals the sum of the recent events of the whole log |
| `Windows.SkewBoundsOvercount` | crates/core/src/usage_tracker.rs:260-272 | with pushes at most d out of order nothing older than the window plus d is counted |
| `Windows.LaterDrainsLess` | crates/core/src/usage_tracker.rs:605-616 | a drain with a later cutoff never counts more |
| `UsageTracking.ModelUsage.TryReserve` | crates/core/src/usage_tracker.rs:151-177 | one undisturbed reserve: refused exactly at the cap, else one request more and the tokens added |
| `UsageTracking.ModelUsage.CancelReservation` | crates/core/src/usage_tracker.rs:239-243 | both counters go down, nothing else changes |
| `UsageTracking.ModelUsage.Release` | crates/core/src/usage_tracker.rs:248-273 | both counters go down and all five windows gain the call, with actual tokens where they are known |
| `UsageTracking.ModelUsage.RecordOutcome` | crates/core/src/usage_tracker.rs:185-211 | the outcome log keeps 300 s; a rejection with unknown limits halves the learned limit down to one, a success grows it once a minute |
| `UsageTracking.ModelUsage.LearnedExhausted` | crates/core/src/usage_tracker.rs:226-237 | exhausted exactly when no provider limit is known and the last minute plus flight reaches the floor of the learned limit; only the minute window is drained |
| `UsageTracking.ModelUsage.AnchorRemaining` | crates/core/src/usage_tracker.rs:305-323 | provider counts overwrite only the fields that were reported |
| `UsageTracking.ModelUsage.AnchorLimits` | crates/core/src/usage_tracker.rs:329-347 | provider limits overwrite only the fields that were reported |
| `UsageTracking.ModelUsage.RecordLatency` | crates/core/src/usage_tracker.rs:281-290 | the weighted mean of response times, a fifth of it the newest |
| `UsageTracking.ModelUsage.HeadroomFast` | crates/core/src/usage_tracker.rs:413-481 | fast headroom equals the least of the constraints that recover within a minute, each on its drained window |
| `UsageTracking.ModelUsage.HeadroomSlow` | crates/core/src/usage_tracker.rs:483-522 | slow headroom equals the least of the daily constraints |
| `UsageTracking.ModelUsage.Headroom` | crates/core/src/usage_tracker.rs:524-602 | the single-pass headroom is the minimum of the two partial ones although each drains separately |
| `UsageTracking.ModelUsage.EarliestHint` | crates/core/src/usage_tracker.rs:376-395 | the hint narrowed by one bucket's three minute-scale windows |
| `UsageTracking.EarliestByIndex` | crates/core/src/usage_tracker.rs:356-405 | what the hint of several buckets depends on: the least of all their positive waits, 2000 ms when there is none and one of them has no history, nothing otherwise |
| `UsageTracking.HintsAreDepartures` | crates/core/src/usage_tracker.rs:376-395 | the hints of a bucket are exactly the milliseconds in which the oldest entry of one of its three windows leaves it |
| `UsageTracking.LatencyMovesAFifth` | crates/core/src/usage_tracker.rs:281-290 | the first response time is taken as it is, every other moves the mean a fifth of the way |
| `UsageTracking.RetainedAreRecent` | crates/core/src/usage_tracker.rs:193-195 | the outcome log keeps exactly the outcomes of the last five minutes |
| `UsageTracking.UsageTracker.GetOrDefault` | crates/core/src/usage_tracker.rs:129-140 | a bucket is created once and creating it changes no bucket's value |
| `UsageTracking.UsageTracker.TryReserve` | crates/core/src/usage_tracker.rs:151-177 | a reserve changes its own bucket and no other |
| `UsageTracking.UsageTracker.CancelReservation` | crates/core/src/usage_tracker.rs:239-243 | a cancellation changes its own bucket and no other |
| `UsageTracking.UsageTracker.Release` | crates/core/src/usage_tracker.rs:248-273 | a release changes its own bucket and no other |
| `UsageTracking.UsageTracker.RecordOutcome` | crates/core/src/usage_tracker.rs:185-211 | an outcome changes its own bucket and no other |
| `UsageTracking.UsageTracker.AnchorRemaining` | crates/core/src/usage_tracker.rs:305-323 | anchors are per key |
| `UsageTracking.UsageTracker.AnchorLimits` | crates/core/src/usage_tracker.rs:329-347 | provider limits are per key |
| `UsageTracking.UsageTracker.LearnedExhausted` | crates/core/src/usage_tracker.rs:226-237 | the learned limit is asked per key, and asking changes no other bucket |
| `UsageTracking.UsageTracker.HeadroomFast` | crates/core/src/usage_tracker.rs:413-481 | fast headroom is per key |
| `UsageTracking.UsageTracker.HeadroomSlow` | crates/core/src/usage_tracker.rs:483-522 | slow headroom is per key |
| `UsageTracking.UsageTracker.EarliestDrainMs` | crates/core/src/usage_tracker.rs:356-405 | the least time until an entry leaves a minute-scale window of the buckets; 2000 ms when there is none and some bucket has no history; nothing otherwise |
| `UsageTracking.DrainIsIdempotent` | crates/core/src/usage_tracker.rs:605-610 | draining a bucket again at the same instant changes nothing, in any order of the partial drains |
| `UsageTracking.DrainsAreIndependent` | crates/core/src/usage_tracker.rs:413-522 | draining the slow windows does not move the fast headroom, nor the other way round |
| `UsageTracking.DrainedAlikeCapacity` | crates/core/src/usage_tracker.rs:226-237 | buckets that agree once drained agree on flight, latency and exhaustion |
| `UsageTracking.DrainedAlikeRoom` | crates/core/src/usage_tracker.rs:413-522 | and on both headrooms |
| `QuotaLaws.HeadroomIsLeastConstraint` | crates/core/src/usage_tracker.rs:524-602 | headroom is the greatest lower bound of 1.0 and all constraints that apply, and is one of them |
| `QuotaLaws.ReserveNeverRaises` | crates/core/src/usage_tracker.rs:524-602 | one more reservation never raises headroom |
| `QuotaLaws.ProviderIsAFloor` | crates/core/src/usage_tracker.rs:300-323 | once anchored, headroom is at most (remaining - in flight - 1) / limit |
| `QuotaLaws.ReportedCountsBind` | crates/core/src/usage_tracker.rs:305-347 | with a provider's limits and remaining counts anchored, headroom is at most what it says is left of requests and of tokens; reporting nothing changes nothing |
| `QuotaLaws.ReportKeepsLoad` | crates/core/src/selector.rs:1303-1485 | a report moves a request from flight to the minute window or drops it: their sum never rises |
| `QuotaLaws.ReportsNeverRaiseLoad` | crates/core/src/selector.rs:1303-1485 | no sequence of matched reports in time order raises the last minute plus flight |
| `QuotaLaws.LearnedLimitHolds` | crates/core/src/usage_tracker.rs:226-237 | on a bucket governed by its learned limit, an admitted selection and any matched reports and time after it keep the last minute plus flight within the floor of that limit |
| `QuotaLaws.LoadStaysWithinPeak` | crates/core/src/usage_tracker.rs:185-237 | over any run of admitted selections, matched reports and time, the last minute plus flight stays within the greater of where it started and the largest limit learned so far |
| `QuotaLaws.LearnedAtLeastOne` | crates/core/src/usage_tracker.rs:185-211 | no run of reports takes the learned limit below one |
| `QuotaLaws.IdleIsAdmitted` | crates/core/src/usage_tracker.rs:226-237 | a drained idle bucket is always admitted again |
| `QuotaLaws.GrowthIsBounded` | crates/core/src/usage_tracker.rs:202-210 | since its last halving the limit has gained at most one per whole minute passed |
| `QuotaLaws.GrowthStep` | crates/core/src/usage_tracker.rs:202-210 | a success raises a learned limit if and only if a growth is due and the limit is below 10000, and lowers it if and only if one is due and the limit is above |
| `QuotaLaws.LargeLimitIsLowered` | crates/core/src/usage_tracker.rs:202-210 | a history from an empty bucket that learns 10001 and a due success that lowers it to 10000 |
| `QuotaLaws.RejectionsHalve` | crates/core/src/usage_tracker.rs:198-201 | n rejections in a row leave the limit between a 2^n-th of it and that raised to one |
| `QuotaLaws.ProtocolIsLedger` | crates/core/src/usage_tracker.rs:151-177 | the atomic operations of the interleaving model are the reserve and the cancellation of the ledger, on one bucket only |
| `LedgerTotals.WindowsCountReports` | crates/core/src/usage_tracker.rs:248-273 | after any history in time order of admissions, reports of every kind and questions that drain, the drained windows count the consuming reports of the last second, minute and day, each once, with its actual tokens where they were reported and its estimate otherwise |
| `LedgerTotals.HeadroomOfHistory` | crates/core/src/usage_tracker.rs:524-602 | headroom from the history alone, where the provider reported no limits: one, or the least share that a limit leaves of the calls and tokens reported and in flight and this call |
| `LedgerTotals.HistoryTallies` | crates/core/src/usage_tracker.rs:605-616 | the same for any later cutoffs, and no window holds an entry of the future |
| `Cooldowns.RateLimitState.Mark` | crates/core/src/rate_state.rs:26-33 | an error marks its identifier until now plus its own cooldown; an error without one marks nothing |
| `Cooldowns.RateLimitState.MarkForMs` | crates/core/src/rate_state.rs:35-39 | a provider delay, at most a day, replaces the mark |
| `Cooldowns.RateLimitState.IsLimited` | crates/core/src/rate_state.rs:41-54 | true exactly while the mark is ahead of now; an expired mark is removed |
| `Cooldowns.RateLimitState.Clear` | crates/core/src/rate_state.rs:56-58 | the mark is removed and no other |
| `Cooldowns.RateLimitState.MinRemainingMs` | crates/core/src/rate_state.rs:62-74 | the least of the remaining milliseconds of the identifiers' marks, each rounded past its expiry; nothing without marks |
| `Cooldowns.PurgedLive` | crates/core/src/rate_state.rs:41-54 | removing expired marks changes no later answer |
| `Cooldowns.PurgedRemaining` | crates/core/src/rate_state.rs:62-74 | removing expired marks loses no live mark's remaining time |
| `Cooldowns.MarkLasts` | crates/core/src/models.rs:212-227 | how long each kind of error blocks, whom it is blamed on, and that it blocks nobody else |
| `Cooldowns.DelayLasts` | crates/core/src/rate_state.rs:35-39 | a provider delay blocks for exactly that long, for a day at most |
| `Cooldowns.HintIsSound` | crates/core/src/rate_state.rs:62-74 | a live mark is still live a millisecond before the hint runs out |
| `Cooldowns.HintIsTight` | crates/core/src/rate_state.rs:62-74 | when the hint has run out one of the marks has expired |
| `Ranking.SortSorts` | crates/core/src/selector.rs:1115-1137 | the stable sort sorts and is a permutation |
| `Ranking.StackedSorts` | crates/core/src/selector.rs:1115-1137 | a stable sort by one key after a stable sort by another is one stable sort by the lexicographic order, for any two total preorders |
| `Ranking.HeadIsFirstLeast` | crates/core/src/selector.rs:1115-1152 | the head of a sorted sequence is the first element that beats or ties all others |
| `Ranking.LexIsPreorder` | crates/core/src/selector.rs:1115-1137 | the lexicographic order of two total preorders is one |
| `Scoring.ResolvedWeightsAreNormalised` | crates/core/src/selector.rs:97-122 | for every combination of overrides the resolved weights are nonnegative and sum to one |
| `Scoring.UntouchedKeepProportions` | crates/core/src/selector.rs:97-122 | weights without an override keep their proportions to each other |
| `Scoring.OverridesKeepProportions` | crates/core/src/selector.rs:97-122 | an overridden weight has its value, clamped between zero and one, in proportion to the untouched ones; the request's before the group's |
| `Scoring.NoWorseNeverScoresLower` | crates/core/src/selector.rs:1049-1091 | a candidate no worse on every component than another of the same pool never scores lower |
| `Scoring.ComponentsAreLinear` | crates/core/src/selector.rs:1049-1076 | every component is a line from its worst to its best within the pool, one half where unknown or alike |
| `Scoring.BalanceIsUnit` | crates/core/src/selector.rs:961-1036 | the traffic component lies in the unit interval |
| `Scoring.UnderServedScoresHigher` | crates/core/src/selector.rs:1003-1036 | of two brands of equal weight the one that served less never scores lower on traffic |
| `Scoring.BalanceIsLinear` | crates/core/src/selector.rs:1022-1036 | the traffic component is a line over the ratios of the pool |
| `Scoring.RatioIsDueOverHad` | crates/core/src/selector.rs:1003-1021 | the ratio is the share of weight a brand is due over the share of selections it had |
| `Scoring.TotalsAddUp` | crates/core/src/selector.rs:984-1001 | the totals add up the shares, and a negative weight counts for nothing |
| `Scoring.BonusIsBounded` | crates/core/src/selector.rs:1093-1113 | the sticky bonus touches one candidate and lets it overtake only candidates ahead by at most 0.12 |
| `SelectionLaws.OfferedIffAvailable` | crates/core/src/selector.rs:557-829 | a rule yields a candidate if and only if it is structurally eligible, not excluded, not cooling down and has an account with room |
| `SelectionLaws.CandidatesAreTheAvailableRules` | crates/core/src/selector.rs:557-829 | the candidate list is exactly the available rules in rule order, each served by the first able account, each with room |
| `SelectionLaws.FirstServingIsFirst` | crates/core/src/selector.rs:769-787 | the serving key is the first active key that is neither blocked nor full; none only when there is none |
| `SelectionLaws.ExhaustedIffNoneAvailable` | crates/core/src/selector.rs:833-876 | selection fails early if and only if no rule is available |
| `SelectionLaws.HeadroomNeverExcludes` | crates/core/src/selector.rs:529-534 | usage that differs only in what headroom is computed from, the minute window and provider limits included where nothing was learned, changes no rule's availability |
| `SelectionLaws.HintSound` | crates/core/src/selector.rs:833-876 | without new reports nothing becomes available before a millisecond ahead of any number not above the live hints, when only cooldowns block |
| `SelectionLaws.HintTight` | crates/core/src/selector.rs:833-876 | a hint taken from a store means that one of its marks has expired when it runs out |
| `SelectionLaws.CoolingGivesHint` | crates/core/src/selector.rs:730-762 | a rule blocked by a cooldown always contributes a hint |
| `SelectionLaws.CeilingIgnoresTransients` | crates/core/src/selector.rs:701-717 | requests that differ only in exclusions, cooldowns or load share one latency ceiling |
| `SelectionLaws.BaselineIsLeast` | crates/core/src/selector.rs:701-717 | the speed baseline is at most the fastest key of every eligible model |
| `SelectionLaws.PassingIsFilter` | crates/core/src/selector.rs:878-897 | exactly the candidates within the ceiling are retained |
| `SelectionLaws.OrderIsLexicographic` | crates/core/src/selector.rs:1115-1137 | the two stacked sorts are one lexicographic sort: prepaid first, then score, then priority; in fallback predicted latency, score, priority |
| `SelectionLaws.HeadOfOrder` | crates/core/src/selector.rs:1115-1152 | the head of the order is the first candidate that beats or ties every other |
| `SelectionLaws.WinnerAndCeiling` | crates/core/src/selector.rs:878-897 | the winner meets the ceiling whenever any candidate does, and is a fastest candidate otherwise |
| `SelectionLaws.RecordedSelectionCounts` | crates/core/src/selector.rs:1154-1169 | popping the stale front before a push loses no recent selection of the brand |
| `SelectionLaws.BaseScoreIsUnit` | crates/core/src/selector.rs:1049-1091 | with quality in the unit interval every base score the selection computes lies in it |
| `SelectionLaws.BlockedBucketsAreKeyless` | crates/core/src/selector.rs:789-796 | a rule blocked on capacity is recorded under the bucket without a key, also where the brand has keys |
| `SelectionLaws.ZeroHintIff` | crates/core/src/selector.rs:833-876 | the hint is zero if and only if no rule cools down and every rule blocked on capacity has a bucket with some history and only stale windows |
| `SelectionLaws.NothingIsHinted` | crates/core/src/selector.rs:730-796 | a cooling rule hints a cooldown, and a rule blocked on capacity hints a window or a flat wait unless its bucket is quiet |
| `SelectionLaws.BlocksComeFromRules` | crates/core/src/selector.rs:730-796 | what blocks a selection is recorded for a rule that it blocked, and for no other |
| `Selection.BrandsOf` | crates/core/src/selector.rs:977-983 | the brands of the pool: every candidate's, each once, and no other |
| `Selection.StickyAt` | crates/core/src/selector.rs:1093-1113 | the first position of the sticky model with comfortable fast headroom; none only when there is none |
| `Selector.Selector.KeysBlocked` | crates/core/src/selector.rs:735-747 | whether there are active keys and all of them are blocked, against the state at the start of the selection |
| `Selector.Selector.PickKey` | crates/core/src/selector.rs:769-787 | the first key able to serve, although every question drains windows and removes marks |
| `Selector.Selector.RoomFor` | crates/core/src/selector.rs:789-796 | whether an account is under its cap and its learned limit |
| `Selector.Selector.BaselineFor` | crates/core/src/selector.rs:701-717 | a model's speed baseline: the fastest active key, or the keyless prediction |
| `Selector.Selector.Consider` | crates/core/src/selector.rs:718-829 | the verdict on one eligible rule, with what it records for the hint |
| `Selector.Selector.Serve` | crates/core/src/selector.rs:769-829 | the account that serves a rule that is not cooling down, or the bucket that has no room |
| `Selector.Selector.Filter` | crates/core/src/selector.rs:557-829 | the filter loop yields the declarative candidate list, blocks, tried count and baseline; the state is as it was but for expired marks and drained windows, and when nothing is available exactly the accounts asked for their learned limit are drained |
| `Selector.Selector.RetryHint` | crates/core/src/selector.rs:833-876 | exactly the least of the cooldowns of what is blocked and of the waits of the blocked buckets, 2000 ms standing in for buckets without history, and zero when there is nothing at all |
| `Selector.Selector.CapacityHint` | crates/core/src/selector.rs:833-876 | the capacity part of the hint, against the state at the start although the filter drained some of these buckets |
| `Selector.Selector.CooldownHint` | crates/core/src/selector.rs:833-876 | the least answer of the four cooldown stores, from every live mark and no unblocked identifier |
| `Selector.Selector.ApplyCeiling` | crates/core/src/selector.rs:878-897 | the candidates within the ceiling, or all of them and the fallback flag |
| `Selector.Selector.ScorePool` | crates/core/src/selector.rs:898-1113 | the scores of the pool, balance, min-max ranges and sticky bonus included |
| `Selector.Selector.ReserveFirst` | crates/core/src/selector.rs:1138-1152 | the winner is the first of the order with room, every earlier one being at its cap when tried; only the winner's bucket changes |
| `Selector.Selector.Choose` | crates/core/src/selector.rs:878-1152 | a non-empty candidate list always yields the head of the order: the late exhausted answer is unreachable in a sequential run |
| `Selector.Selector.Attempt` | crates/core/src/selector.rs:557-1152 | a selection up to its reservation: refused exactly when nothing is available, else the declared winner |
| `Selector.Selector.RecordTraffic` | crates/core/src/selector.rs:1154-1169 | the brand's stale selections are popped and this one is pushed |
| `Selector.Selector.Remember` | crates/core/src/selector.rs:1154-1176 | the winner joins its brand's traffic and becomes its group's sticky model |
| `Selector.Selector.Select` | crates/core/src/selector.rs:364-1180 | refinement: exhausted exactly when the declarative candidate list is empty, with the tried count, the exact hint and the state unchanged; otherwise the declared winner, one reservation on its bucket, its traffic and sticky entry |
| `Selector.Selector.MarkFailure` | crates/core/src/selector.rs:1314-1325 | an account-scoped failure of a keyed call blocks the key, any other the model |
| `Selector.Selector.ReportRateLimit` | crates/core/src/selector.rs:1303-1356 | marks, learned limit, reservation and anchors after a 429, on one bucket only; a rejected call of unknown limits consumes no quota |
| `Selector.Selector.Settle` | crates/core/src/selector.rs:1469-1481 | release, anchors and response time of a call that reached the provider |
| `Selector.Selector.ReportSuccess` | crates/core/src/selector.rs:1359-1405 | clears the model and the key, settles the reservation with split token counts preferred, and records the success |
| `Selector.Selector.ReportError` | crates/core/src/selector.rs:1453-1485 | marks the failure and settles the reservation |
| `Selector.Selector.ReportQuotaDetails` | crates/core/src/selector.rs:1236-1266 | a provider delay goes to the key, the brand or the model, as its scope says, and to nothing else |
| `Selector.HeadReserves` | crates/core/src/selector.rs:1138-1152 | the head of a non-empty pool's order is an available candidate under its cap |
| `Selector.RefusalHintIsSoundAndTight` | crates/core/src/selector.rs:833-876 | a refusal for cooldowns only has a positive hint; nothing becomes available before a millisecond ahead of it, and a mark has expired by its end |
| `Selector.RefusalHintIsZeroIff` | crates/core/src/selector.rs:833-876 | a refusal hints zero if and only if no rule cools down and every rule blocked on capacity has a bucket with some history and only stale windows |
| `Selector.RefusalHintIsFlat` | crates/core/src/usage_tracker.rs:356-405 | without cooldowns and waiting windows, and with a bucket that has no history, a refusal hints 2000 ms |
| `Selector.ReportGivesBack` | server/src/lib.rs:229-300 | reserving and then reporting, with any outcome, leaves both in-flight counters as they were |
| `Selector.FailedKeyIsOut` | crates/core/src/selector.rs:1314-1325 | after an account-scoped failure the key serves no model for the whole cooldown, and every other key serves as before |
| `Selector.FailedModelIsOut` | crates/core/src/selector.rs:1314-1325 | after a model-scoped failure the model's rules are unavailable for the cooldown, and every other model's rules are as before |
| `Selector.OutcomeCommutes` | crates/core/src/selector.rs:1380-1397 | recording the outcome last gives what recording it first gives |
| `Selector.SplitTokensCount` | crates/core/src/selector.rs:1359-1379 | a success counts prompt plus completion where both are reported, else the total, else the estimate |
| `Selector.MeasuredTimeCounts` | crates/core/src/selector.rs:1385-1397 | a measured response time moves the account's mean and nothing else |
| `Selector.QuotaConcerns` | crates/core/src/selector.rs:1236-1266 | whom a provider's delay concerns, and when nobody |
| `Selector.DeclaredLimitsAreNotLearned` | crates/core/src/selector.rs:1303-1356 | a rejection teaches a limit exactly to a catalogued model that declares none of a minute or a second |
| `Selector.TakenReserves` | crates/core/src/selector.rs:1138-1152 | a selection puts one call of the request's tokens on the account it chose and on no other |
| `Selector.SelectionIsCounted` | crates/core/src/selector.rs:1154-1169 | it counts once among its brand's selections of the last five minutes, and in no other brand's |
| `Selector.WinnerIsSticky` | crates/core/src/selector.rs:1171-1176 | its model is the sticky one of a sticky group for five minutes, and other groups keep theirs |
| `Winners.WinnerIsBest` | crates/core/src/selector.rs:1115-1152 | the winner of any selection: prepaid if anyone in the pool is, else of the best score, else of the lowest priority number, else first; with the ceiling given up the fastest first, then score and priority |
| `Winners.WinnerMeetsRequest` | crates/core/src/selector.rs:557-829 | the winner is listed by an enabled rule and meets every requirement of the request; it is not excluded, no mark blocks it, its brand or its account, that account has room, and its headroom and prediction are that account's |
| `Winners.EligibleMeets` | crates/core/src/selector.rs:557-700 | which models, brands and rules meet a request, in both directions |
| `Winners.CeilingInForce` | crates/core/src/selector.rs:878-886 | a candidate passes if and only if it is known to be within both limits in force, the request's before the group's |
| `Winners.PredictionInForce` | crates/core/src/selector.rs:495-507 | which prediction counts: the history's under a latency limit, else the response times seen, else the catalogue's |
| `Winners.BaselineIsFastestKey` | crates/core/src/selector.rs:701-717 | a model's baseline is the least prediction of its active keys, or the keyless one where they have none |
| `Winners.BaseScoreWeighs` | crates/core/src/selector.rs:1049-1091 | a base score is the weighted sum of the candidate's own components, its effective price and step quality among them |
| `Winners.PriceCosts` | crates/core/src/selector.rs:929-943 | for a sticky group three quarters of the price is the cached rate, in dollars |
| `Winners.BuiltInWeights` | crates/core/src/selector.rs:1038-1047 | the seven built-in weights, with and without priorities |
| `Winners.WeightsInForce` | crates/core/src/selector.rs:97-122 | the weights of a selection take the request's overrides before the group's |
| `Winners.SharesAreOfBrands` | crates/core/src/selector.rs:977-1001 | a brand's share has its traffic weight and its selections after the cutoff |
| `Winners.BonusGoesToSticky` | crates/core/src/selector.rs:1093-1113 | the bonus of 0.12 goes exactly to the first candidate of the model the group selected less than five minutes ago, with more than a fifth of its fast headroom; everybody else keeps the base score |
| `Winners.TriedAreUnavailable` | crates/core/src/selector.rs:718-812 | a refusal counts as tried exactly the rules that meet the request and are not available |
| `Refusals.CapRefusesWithZeroHint` | crates/core/src/selector.rs:789-796 | one call answered and one in flight, on a model of cap one: a minute later it is refused although its request window has room, and every hint such a selection may give is zero |
| `Refusals.LearnedLimitRefusesWithZeroHint` | crates/core/src/usage_tracker.rs:226-237 | of three calls one answered, one turned away, which teaches a limit of one, and one in flight: a minute later the model is refused although its daily window has room, and the hint is zero, as being asked drains one window of three |
| `Refusals.LearnedLimitRefusesWithFlatHint` | crates/core/src/usage_tracker.rs:226-237 | when the call in flight was selected at that instant, which drained every minute-scale window, the next selection is refused with 2000 ms |
| `Refusals.KeyedWaitIsNotHinted` | crates/core/src/selector.rs:789-796 | a brand whose only key is at its cap and whose window offers 50001 ms is refused with 2000 ms, as the bucket without the key is asked |
| `Regression.QuadraticIsWeightedSquares` | crates/core/src/latency.rs:47-63 | v·A·v of the accumulated matrix is a weighted sum of squares, hence never negative |
| `Regression.DiagonalNonNegative` | crates/core/src/latency.rs:47-63 | the diagonal the updates divide by is nonnegative |
| `Regression.ErrorAlong` | crates/core/src/latency.rs:66-75 | along a coordinate the squared error is a parabola with the matrix entry and the residual as coefficients |
| `Regression.ObjectiveAlong` | crates/core/src/latency.rs:66-75 | so is the ridge objective |
| `Regression.StepIsExact` | crates/core/src/latency.rs:66-75 | a coordinate update is the exact minimiser over nonnegative values of its coordinate; any other value costs at least the ridge times the squared distance |
| `Regression.SweepDescends` | crates/core/src/latency.rs:66-75 | a sweep lowers the objective by at least the ridge times the squared move |
| `Regression.ObjectiveNeverRises` | crates/core/src/latency.rs:66-75 | more sweeps never have a higher objective |
| `Regression.DescentConverges` | crates/core/src/latency.rs:66-75 | the ridge bounds the summed squared moves of any number of sweeps by the objective of the zero fit |
| `Regression.DescentKeepsSign` | crates/core/src/latency.rs:66-75 | the coefficients stay nonnegative |
| `Regression.FitBeatsZero` | crates/core/src/latency.rs:64-76 | the fit is nonnegative, and with the ridge on it its weighted squared error is at most that of the all-zero fit |
| `Regression.ErrorAboveTangent` | crates/core/src/latency.rs:47-63 | the squared error lies above its tangents |
| `Regression.FixedPointIsOptimal` | crates/core/src/latency.rs:66-75 | nonnegative coefficients that a sweep leaves alone minimise the objective over all nonnegative coefficients |
| `Latency.Accumulate` | crates/core/src/latency.rs:47-63 | the nested loops compute the Gram matrix and moments of the weighted rows |
| `Latency.Descend` | crates/core/src/latency.rs:66-75 | the 300 sweeps over the arrays compute the fit |
| `Latency.Predict` | crates/core/src/latency.rs:32-77 | the prediction of the recent samples' fit, with the mean output where none is given; nothing without recent samples |
| `Latency.PredictionIsMonotone` | crates/core/src/latency.rs:76 | with an explicit output a prediction is at least 1 and never falls when input or output grows |
| `Latency.PredictionIsFitted` | crates/core/src/latency.rs:32-77 | every prediction is overhead plus prefill per thousand input tokens plus decode per hundred output tokens, at least one, for one nonnegative triple; an omitted output stands for the recent mean; and on the recent samples that triple, ridge included, explains the weighted times no worse than zero does |
| `Latency.PredictionsExplainSamples` | crates/core/src/latency.rs:32-77 | the predictions at the recent samples have a weighted squared error at most that of predicting zero, if every call took a millisecond |
| `Latency.OlderWeighsLess` | crates/core/src/latency.rs:54-57 | a sample loses a fifth of its weight with every later one, beside its age |
| `Latency.OutputsAddUp` | crates/core/src/latency.rs:43-46 | the mean stands on the sum of the recent outputs |
| `Latency.PercentileOf` | crates/core/src/latency.rs:78-96 | the percentile as sorted and indexed |
| `Latency.PercentileIsNearestRank` | crates/core/src/latency.rs:78-96 | the percentile is an observed time that covers the fraction of the recent samples, and every smaller time covers less |
| `Latency.PercentileIsMonotone` | crates/core/src/latency.rs:78-96 | a larger fraction never gives a smaller percentile |
| `Latency.LatencyTracker.Record` | crates/core/src/latency.rs:127-151 | retain, push and trim on one bucket only; a call without a measured time is not recorded |
| `Latency.LatencyTracker.PredictFor` | crates/core/src/latency.rs:116-126 | the prediction of the bucket's own history |
| `Latency.HistoryIsRecentLog` | crates/core/src/latency.rs:139-150 | after any run of records in time order the history is the last 128 of the seven-day-filtered full log |
| `Latency.HistoryIsLongestTail` | crates/core/src/latency.rs:139-150 | that is the longest tail of the measured calls with at most 128 of them and at most a week between them |
| `Latency.RecordStep` | crates/core/src/latency.rs:139-150 | one trimmed record step agrees with trimming the whole log |
| `RscText.UnescapeRsc` | crates/core/src/tokenhub_sync.rs:190-222 | the loop computes one level of unescaping, truncated and malformed escapes included |
| `RscText.UnitsDecode` | crates/core/src/tokenhub_sync.rs:190-222 | any escaping of a text in front of any tail decodes to the text without its surrogate pairs, then to the decoded tail |
| `RscText.EscapingRoundTrips` | crates/core/src/tokenhub_sync.rs:190-222 | an escaped text decodes to itself if and only if no character was written as a surrogate pair |
| `RscText.SurrogatesVanish` | crates/core/src/tokenhub_sync.rs:206-211 | both halves of a surrogate pair decode to nothing |
| `RscText.ShortEscapesStandFor` | crates/core/src/tokenhub_sync.rs:196-220 | what each short escape stands for; an unknown one keeps its backslash |
| `RscText.DigitsHaveValues` | crates/core/src/tokenhub_sync.rs:203-211 | hexadecimal digits in either case |
| `RscText.PlusIsSkipped` | crates/core/src/tokenhub_sync.rs:203-211 | a leading plus sign among the four characters of an escape is skipped |
| `RscText.PairIsLost` | crates/core/src/tokenhub_sync.rs:206-211 | a concrete text whose only escaped character vanishes |
| `RscText.BalancedObject` | crates/core/src/tokenhub_sync.rs:225-254 | the scan returns the slice up to the brace that closes; the depth never underflows from an opening brace |
| `RscText.ObjectIsFound` | crates/core/src/tokenhub_sync.rs:225-254 | a balanced object at the front is returned, whatever follows it |
| `RscText.BalancedIffObject` | crates/core/src/tokenhub_sync.rs:225-254 | a text is returned if and only if it is a prefix of the input and a balanced object; so it is the only and the shortest one |
| `RscText.PrintedObjectIsObject` | crates/core/src/tokenhub_sync.rs:223-224 | every printed JSON object is a balanced object, braces inside its strings included |
| `RscText.Find` | crates/core/src/tokenhub_sync.rs:276-282 | the first occurrence of the anchor; nothing only when there is none |
| `RscText.Extract` | crates/core/src/tokenhub_sync.rs:274-287 | nothing without an anchor; otherwise behind the first one, the window of 98304 bytes or the rest of the page, unescaped and balanced, and nothing when the window ends inside a character |
| `RscText.ExtractionRoundTrips` | crates/core/src/tokenhub_sync.rs:274-287 | for every page with an object behind the anchor, in any escaping and of any size: the object is returned if and only if no character of it is written as a surrogate pair, it fits in 98304 bytes and the window ends between two characters; a window that ends inside a character gives nothing |
| `RscText.SurvivingObject` | crates/core/src/tokenhub_sync.rs:274-287 | when the characters not written as pairs make up an object, and the wire form is in the window whole, that object is returned |
| `RscText.LostIsNotFound` | crates/core/src/tokenhub_sync.rs:190-222 | a text that lost a character to a surrogate pair does not begin what is left of it, whatever follows |
| `RscText.PairInPage` | crates/core/src/tokenhub_sync.rs:206-211 | a page whose object holds one emoji written as a pair, from which an object with an empty string is returned |
| `RscText.CutInsideCharacter` | crates/core/src/tokenhub_sync.rs:284-285 | a page whose object `{}` is lost because the window ends inside a character far behind it |
| `RscText.BoundaryIff` | crates/core/src/tokenhub_sync.rs:285 | a byte offset is a character boundary exactly when some prefix has that many bytes, and then of one prefix only |
| `RscText.WidthIsUtf8` | crates/core/src/tokenhub_sync.rs:285 | how many bytes a character takes |
| `RscText.WindowOfFitting` | crates/core/src/tokenhub_sync.rs:284-285 | the window over a fitting object is the object and the part of the page that a clean cut leaves, or nothing |
| `RscText.WindowOfLarge` | crates/core/src/tokenhub_sync.rs:284-285 | the window over a larger object is a proper prefix of it, or nothing |
| `RscText.TruncatedIsNotWhole` | crates/core/src/tokenhub_sync.rs:190-222 | no proper prefix of an escaped object decodes to a text that holds the whole object, wherever it is cut, inside an escape or a pair too |
| `SystemOne.Translate` | server/src/systemone.rs:72-137 | accepted exactly for flat objects of 1..64 boolean or 1..255-option scalar properties, all required; then the payload |
| `SystemOne.Ask` | server/src/systemone.rs:108-133 | one question, or refusal of free text and of too many or structured options |
| `SystemOne.AskAll` | server/src/systemone.rs:106-135 | all properties asked, in any order, or none |
| `SystemOne.SchemaIsAccepted` | server/src/systemone.rs:72-135 | a request for a schema is accepted if and only if it uses no tools and the schema is an object of 1 to 64 properties, all required, each a boolean or a choice of 1 to 255 scalars |
| `SystemOne.PayloadReads` | server/src/systemone.rs:98-137 | the payload read by key: each message that does not instruct, in order, with its role and content; each property as a question with its name, description and options, under the instructions joined by newlines |
| `SystemOne.OptionsAreNumbered` | server/src/systemone.rs:122-126 | option names count from zero in decimal digits |
| `SystemOne.RequiredIsPermutation` | server/src/systemone.rs:92-97 | an accepted required list names every property once and nothing else, although only length and membership are checked |
| `SystemOne.OptionNameInjective` | server/src/systemone.rs:122-126 | option names are distinct |
| `SystemOne.Parse` | server/src/systemone.rs:139-185 | every question answered validly, and input usage present, or nothing |
| `SystemOne.SentDecodes` | server/src/systemone.rs:148-168 | option_i decodes to the i-th option, a probability to whether it reaches one half |
| `SystemOne.DecodedIsOffered` | server/src/systemone.rs:148-168 | what decodes is a boolean for a boolean property and the option named for any other |
| `SystemOne.DecodedObjectFitsSchema` | server/src/systemone.rs:139-185 | a decoded object has exactly the schema's properties, each within its domain |
| `SystemOne.AnswersRoundTrip` | server/src/systemone.rs:139-185 | every choice of valid answers decodes to exactly what was chosen |
| `SystemOne.WrappingIsNeutral` | server/src/systemone.rs:27-61 | the Cloudflare wrapping of the request and each of the answer's forms give what the native exchange gives |
| `SystemOne.WrappingMovesAll` | server/src/systemone.rs:27-33 | the wrapping keeps the model outside, moves everything else under `input`, and happens for one family only |
| `SystemOne.UnfinishedIsRefused` | server/src/systemone.rs:35-61 | a wrapped answer that failed or has not completed is refused |
| `SystemOne.FamilyOfVariant` | server/src/systemone.rs:28 | a brand name with a suffix belongs to the family before the first dash |
| `Batch.BatchQueue.Enqueue` | server/src/batch.rs:138-140 | the entry joins the end of its model's queue |
| `Batch.BatchQueue.TakeAll` | server/src/batch.rs:166-169 | a flush takes everything and leaves the queue empty |
| `Batch.BatchQueue.RejectAll` | server/src/batch.rs:494-503 | every entry is answered with the message |
| `Batch.BatchQueue.FlushModelGroup` | server/src/batch.rs:191-363 | however the job ends every entry is answered, and the totals are the sums over the answers |
| `Batch.IndexLines` | server/src/batch.rs:297-305 | of two output lines with one id the later counts; unusable lines count for nothing |
| `Batch.EveryEntryIsAnswered` | server/src/batch.rs:191-363 | on every path each entry gets exactly one result, its own, and nobody else gets any |
| `Batch.LastLineDecides` | server/src/batch.rs:297-353 | an entry's answer is its last line's: body and token counts, or its error, with a default message |
| `Batch.NoLineIsMissing` | server/src/batch.rs:354-363 | an entry without a line gets an error, and a refused job gives everybody its message |
| `Batch.StepKeepsInv` | server/src/batch.rs:138-187 | every submission, drain, conclusion and post keeps each request in one place with its own result, and changes no result |
| `Batch.RunKeepsResults` | server/src/batch.rs:138-363 | over any run a result once given never changes |
| `Batch.Conservation` | server/src/batch.rs:138-363 | after any run each submitted id is in exactly one of queued, flushing and done, and no other id is in any |
| `Batch.QuiescentMeansAnswered` | server/src/batch.rs:191-363 | when nothing is queued or flushing every submitted request has the result its own entry gets from its own job |
| `Batch.PollsAreFinal` | server/src/batch.rs:624-645 | what a poll tells a client of a submitted request, after any run: nothing means queued or flushing; an answer is its own entry's from its own job, and every later poll gives it again |
| `Enrichment.BuildRow` | crates/core/src/orcarouter_sync.rs:475-496 | one row: carried forward, scraped within the budget, or plain, then the fallback context and the decision flags |
| `Enrichment.FetchedIff` | crates/core/src/orcarouter_sync.rs:475-485 | a page is fetched if and only if its model is not enriched in the file and fewer models than the budget were scraped ahead of it |
| `Enrichment.UnloadedWaitsForBudget` | crates/core/src/orcarouter_sync.rs:475-485 | a file and two runs of budget one: a page that does not load is not fetched while another model takes the budget, and is fetched in each later run |
| `Enrichment.BuildEntries` | crates/core/src/orcarouter_sync.rs:447-499 | the loop computes all rows, how many were scraped, and which pages were fetched in which order |
| `Enrichment.RunEnriches` | crates/core/src/orcarouter_sync.rs:447-499 | a run scrapes at most its budget, adds exactly that to what was enriched, and has enriched every page that loads when it stays below the budget |
| `Enrichment.SyncStep` | crates/core/src/orcarouter_sync.rs:447-499 | from one file to the next at most the budget more, at least the budget or all that can be had |
| `Enrichment.RunsConverge` | crates/core/src/orcarouter_sync.rs:447-499 | from any file, k runs of a fixed catalogue enrich at most k * budget more models and leave at least min(k * budget, n) enriched, n counting those whose page loads every time |
| `Enrichment.RowStays` | crates/core/src/orcarouter_sync.rs:407-424 | carrying forward a row of the same model reproduces it but for the sync time and an output size of zero, which becomes missing |
| `Enrichment.EnrichedStays` | crates/core/src/orcarouter_sync.rs:407-424 | over any further runs a model once enriched keeps its row but for the sync time; its output size is kept if and only if it was not zero |
| `Enrichment.ZeroSizeIsDropped` | crates/core/src/orcarouter_sync.rs:407-424 | two runs over one page whose output size is zero: the first keeps it, the second drops it |
| `Enrichment.FreshRow` | crates/core/src/orcarouter_sync.rs:330-393 | a fresh row field by field: the API's sizes before the page's, a fallback context, the page's flags before the defaults, a cached price only below the input price |
| `Enrichment.CarriedRow` | crates/core/src/orcarouter_sync.rs:407-424 | a carried row field by field, whatever the API says by now |
| `Enrichment.DiscountedIff` | crates/core/src/orcarouter_sync.rs:369-383 | a row's cached price is below its input price if and only if it was not carried past a fall of the input price |
| `Enrichment.CachedIsDiscount` | crates/core/src/orcarouter_sync.rs:447-499 | with fixed prices every cached price in the file is a discount, after any number of runs |
| `Enrichment.FallenPriceKeepsCached` | crates/core/src/orcarouter_sync.rs:407-424 | two runs in which the input price falls below the cached price that was scraped, and the file keeps it |

## Left out

- HTTP handlers, routing, header parsing and the provider call: a call ends as success, skip, rate limit or cancellation.
- Storage, schema, catalogue loading and the other catalogue syncs: the catalogue is a parameter.
- Currency conversion beyond a positive rate, cost computation and finish reasons: settled by one branch each.
- Building the rule list from pins, groups and steps, and the case folding of pins and languages: rules arrive built and names folded.
- IEEE rounding, NaN and memory orderings weaker than sequential consistency.
- The 16-bit overflow of a priority difference and the 64-bit overflow of a window or token sum.
- Several clock reads within one selection: it happens at one instant.
- Batch submissions in the reservation protocol: the batch path frees its slot on submission and reports again after the job, so it is outside the matched runs of `Reservations`; likewise clients that report what they never selected.
- The in-flight effects of a selection that races with others while it filters: `Reservations` lets a selection offer any buckets it likes, `Selector` treats one selection alone.
- The early-flush signal of the batch queue: a flush may happen at any time.
- The waiting hint of a batch submission and the cost of its results.
- Error texts of the System One adapter: a request or answer is refused without saying why.
- The URL of a System One call and the serialisation of its decoded object.
- Parsing of the extracted object and the fields read from it.
- HTML parsing of a detail page, the classification of catalogue rows and the sanity check on their number: pages and categories are given.
- UsageTracking.UsageTracker.EarliestDrainMs: its capacity hint is stated for the buckets asked about, not tied to when a blocked rule becomes available, because a keyed brand blocked on capacity is recorded under the keyless bucket.
- Selector.RefusalHintIsSoundAndTight: stated for refusals where only cooldowns block; a bucket at its cap gets room when a call ends, which no window foretells.
- Enrichment.EnrichedStays: stated for a catalogue that does not change between runs.
- Latency.PredictionIsMonotone: stated for an explicit output size, as the mean of the history stands in otherwise.
- Reservations.QuiescentRunRestoresCounters: assumes that live requests fit the 32-bit counter and their tokens the 64-bit one; past that the saturating additions lose count.
- Reservations.CapNeverExceeded: stated for caps that do not change while the requests are in flight.
