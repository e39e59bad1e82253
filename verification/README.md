# Verified model of the optimizer's state machines

This project models, in Dafny, the parts of the optimizer repository that carry state across calls, processes or
threads, or that compute something with an exact promise, and proves what they keep. `dafny verify dfyconfig.toml` checks all of it.

| area | modules |
|---|---|
| Bounded read-model pages, cursors, snapshot walks | `Division`, `Digits`, `Base64Url`, `Cursor`, `Bisect`, `Paging`, `PageText`, `Lex`, `Snapshot`, `Walk`, `Journal` |
| The CISPO executor over its durable provider | `Replay`, `Batches`, `Executor`, `Transparency`, `Promotion`, `Account`, `Reports`, `Announcements`, `Worker`, `Completion`, `Recovery`, `Resumption`, `Sessions`, `LostUpdate`, `Signal` |
| The board hub and its streams | `Hub`, `HubWitness` |
| The bounded-staleness training pipeline | `Pipeline` |
| Screening scheduler and charge ledger | `Screening`, `Ledger` |
| Objective, advantages, McNemar test, concurrency statistic | `Reals`, `Objective`, `Advantages`, `McNemar`, `Concurrency` |
| LLM policy budget and its journal | `Policy` |
| Frozen evaluation panel | `Panel` |
| TOML printer | `Toml`, `TomlValue`, `TomlText` |

## How the pieces are modelled

- **Pages.** A page's `bytes` field counts the text that contains it. `Paging` computes the fixed point with the source's loop, searches for the
  row count with the source's bisection, and leaves the JSON text to `PageText`, which fixes only what matters for lengths. The cursor codec is concrete base64url
  (RFC 4648, sections 3.2 and 5) around a JSON codec that is any lawful one. A store is an append-only projection; a walk reads each page from a later store.
- **Executor.** `Replay` is a machine for any deterministic program over a durable provider: confirmed request ids return their recorded result,
  events are appended once, and a resumed run starts again from the first step with a restored training state. `Executor` is the closed loop as such a program;
  the trained state is the list of training inputs applied, so "once, in order" can be read off it. The step numbers that the provider reports
  for training calls are kept beside the journal (`Recovery`), since nothing but the recovery guard, which runs before every worker, reads them.
- **Hub.** The lock-protected methods are a class; every interleaving of poller, streams, subscription and disconnection is a step machine whose lock-protected steps are the same function.
- **Pipeline.** A rollout's calls reach the gateway at arbitrary moments after its group was submitted, and see the route table of that moment.
- **Screening.** What the gateway, container and disk answer is an arbitrary function of how many actions came before.
- **Ledger.** The database serialises reservations and settlements; calls of any number of processes are interleaved freely.
- **Arithmetic** is exact; exponential, logarithm and square root are any functions with their laws.

## What was found

- A cursor is issued for keys of any length, but one whose payload has more than 6141 octets is refused when it is presented (`Cursor.CursorRoundTrip`), so such a walk cannot go on.
- Page size need not grow with the number of rows, because the cursor depends on the last key; then a request can be refused although a longer page fits.
  The page is the longest under every limit if and only if no page is hidden from the search, a comparison of page sizes along
  its probes (`Paging.PageIsLongest`); growth is enough, and for three rows the condition is on two keys (`PageText.LongKeyHidesPage`).
- The "gap" error of the event reader cannot occur in an append-only journal that holds the bound (`Journal.ReadBatches`).
- The recovery guard compares the provider's step numbers with update numbers. Every update skipped since the checkpoint that the session was restored from
  lets one unsaved training step pass (`Resumption.GuardMissesSkips`). `LostUpdate.CrashLosesUpdate` is a job where that loses a
  training step; had it been paused after the skip, the guard would have caught the same crash (`LostUpdate.CrashAfterPauseIsCaught`).
  After interruptions at which nothing was unsaved, pauses at checkpoint boundaries among them, the guard never refuses (`Resumption.GuardAdmitsPauses`).
- A screening attempt whose submission returns a rollout id still in use displaces another attempt, whose binding is then never closed; that is the only way a binding stays open (`Screening.Screen`, with an input in `Screening.SameIdLeavesBindingOpen`).
- A training id listed twice is screened twice, and the recorded rows are then not in task order (`Screening.RecordedInTaskOrder`).
- The ledger's cap holds for all amounts if and only if no key is settled again after another key was reserved since it was first settled (`Ledger.CapHoldsIff`);
  settling twice with nothing reserved in between is harmless. Guarded calls settle once, and for them the rounding allowance is never used (`Ledger.GuardedCap`).
- The policy's dollars are the price of its token totals if and only if input tokens are free or the cached counts of all paid calls are on the same side of
  their prompt counts (`Policy.DollarsPriceTokens`).
- What is frozen depends on the order of the source if and only if a candidate shares its selection hash with a chosen row of its label (`Panel.OrderDoesNotMatterIff`).
- The TOML printer quotes no key. Its text reads back to the payload if and only if the keys on the way to values are bare (`TomlText.Dump`); a dotted key
  puts its values into a nested table (`TomlText.DottedKeyReadsNested`).
- `cached` ends a rollout for its span but not for the concurrency statistic, which then counts it as running for ever (`Concurrency.CachedInflatesPeak`);
  `Concurrency.PeakIsOverlapPeakIff` says exactly when that shows.
- The test for groups without signal can miss a difference between rewards. It is right if and only if the rewards are equal or one of them is further from the mean than the
  tolerance in units of the divisor (`Advantages.TestIsRightIff`); it always misses a spread of at most the tolerance in units of the guard term, and
  never one of more than three times that (`Advantages.SpreadDecides`).

## Model

| member | source | states |
|---|---|---|
| `Base64Url.PaddingRecovered` | src/synth_optimizers/read_models.py:90-111 | stripping the padding forgets nothing: the pad count is recovered from the stripped length |
| `Base64Url.StrippedRoundTrip` | src/synth_optimizers/read_models.py:90-111 | encode, strip, pad again, decode is the identity on all octet strings |
| `Base64Url.OthersAreSkipped` | src/synth_optimizers/read_models.py:104-104 | in any text, a character outside the alphabet is passed over, or the text refused if it is not ASCII |
| `Base64Url.PadsNeeded` | src/synth_optimizers/read_models.py:104-104 | symbols and pads are read if and only if the last group is whole, or has two symbols at least and enough pads |
| `Cursor.CursorLength` | src/synth_optimizers/read_models.py:90-92 | the exact length of a cursor as a function of its payload |
| `Cursor.IssuedPayload` | src/synth_optimizers/read_models.py:90-111 | only the length test stands between an issued cursor and its payload |
| `Cursor.CursorRoundTrip` | src/synth_optimizers/read_models.py:90-111 | an issued cursor gives back its key and sequence if and only if its payload has at most 6141 octets and job, collection, journal and requested sequence agree; otherwise it is refused |
| `Cursor.AcceptedCursorNamesReader` | src/synth_optimizers/read_models.py:95-111 | any text is accepted, for a key and a sequence, if and only if it is not too long and holds them behind the prefix, with this job, this collection, version 1 and a known and requested sequence |
| `Paging.SettleIsLeast` | src/synth_optimizers/read_models.py:51-61 | the fixed-point loop ends, in a count that agrees with itself, and in the first such |
| `Paging.SettleStrictlyMonotone` | src/synth_optimizers/read_models.py:51-61 | a larger page without its count is a larger page with it |
| `Paging.BytesAreExact` | src/synth_optimizers/read_models.py:51-61 | `bytes` is the length of the serialization that contains it, and no smaller count would be |
| `Paging.MakePage` | src/synth_optimizers/read_models.py:51-61 | the loop that replaces the page ends in the assembled page |
| `Bisect.ChosenIsLongest` | src/synth_optimizers/read_models.py:69-87 | bisection finds the longest prefix for every downward closed test |
| `Bisect.LongestIffNothingHidden` | src/synth_optimizers/read_models.py:69-87 | bisection finds the longest prefix under every limit if and only if no size along its probes hides one |
| `Paging.SearchPage` | src/synth_optimizers/read_models.py:72-84 | the low/high/best loop is that bisection |
| `Paging.CutPage` | src/synth_optimizers/read_models.py:66-87 | the page for the chosen row count, or the refusal |
| `Paging.BuildPage` | src/synth_optimizers/read_models.py:34-87 | every outcome of a page request, including unknown keys and an envelope that is too large |
| `Paging.PageIsTight` | src/synth_optimizers/read_models.py:66-87 | a page is within the limit by its exact count, has at most a hundred rows, cannot take one more; a refusal means the one-row page is too large |
| `Paging.PageIsLongest` | src/synth_optimizers/read_models.py:66-87 | the page is the longest that fits, under every limit, if and only if no page is hidden from the search |
| `Paging.GrowingPageIsLongest` | src/synth_optimizers/read_models.py:66-87 | when page size grows with row count the page is the longest that fits and a refusal means none fits |
| `Paging.ShrinkingPageIsRefused` | src/synth_optimizers/read_models.py:69-87 | of three rows, some limit admits two and is refused if and only if the two-row page is smaller than the other two |
| `PageText.GrowingFromKeys` | src/synth_optimizers/read_models.py:51-61 | growth holds whenever each row outweighs what the cursor loses by moving to its key |
| `PageText.LongKeyHidesPage` | src/synth_optimizers/read_models.py:69-92 | of three rows, a page that fits is hidden behind a refusal if and only if the first key is long enough and the second is not |
| `Snapshot.ViewIsStable` | src/synth_optimizers/runtime/projections.py:157-180 | rows appended later do not change the view at a bound |
| `Snapshot.LatestRowsShowLast` | src/synth_optimizers/runtime/projections.py:157-180 | a keyed collection shows for each key exactly the row written last |
| `Snapshot.ViewIsPrefix` | src/synth_optimizers/runtime/projections.py:174-178 | a collection that is not keyed shows the rows written up to the sequence, that one included, in table order |
| `Snapshot.KeyedViewShowsLast` | src/synth_optimizers/runtime/projections.py:168-173 | a keyed collection shows a row if and only if it is the last one written for its key by the sequence; in key order |
| `Snapshot.RowsAfterKey` | src/synth_optimizers/runtime/projections.py:157-180 | the query after a key is the rest of the view after that key |
| `Snapshot.CutAtOffset` | src/synth_optimizers/read_models.py:142-150 | the outcomes of cutting a page anywhere in a view |
| `Walk.ReadFirst` | src/synth_optimizers/read_models.py:142-150 | a first read that succeeds starts the view of its own store |
| `Walk.FirstRead` | src/synth_optimizers/read_models.py:34-150 | every outcome of a first read: an unknown sequence, rows that share a key, too small a limit, or a page of the view |
| `Walk.ReadNext` | src/synth_optimizers/read_models.py:95-150 | a later read goes on from the cursor's row in the same view |
| `Walk.WalkReturnsSnapshot` | src/synth_optimizers/read_models.py:44-150 | following cursors to the end returns every row once, in order, as of the pinned sequence, whatever was appended between reads |
| `Walk.WalkReturnsRows` | src/synth_optimizers/read_models.py:44-150 | by the table alone: every row written up to the pinned sequence, the whole table if none was asked for, and of a keyed collection the last row of each key by then |
| `Walk.WalkStopsOnlyFor` | src/synth_optimizers/read_models.py:66-111 | a walk stops early only for an overlong cursor or a row that does not fit; else the next page is not empty |
| `Journal.ReadBatches` | src/synth_optimizers/read_models.py:198-208 | the batch loop ends and collects the journal through the bound; no gap is reported |
| `Journal.EventsThrough` | src/synth_optimizers/read_models.py:193-208 | exactly the events of the first journal through the bound, which are its first ones, or the range error |
| `Batches.BatchReadsPositions` | src/synth_optimizers/cispo_executor.py:792-794 | a batch holds the examples at consecutive positions modulo the set size |
| `Batches.WalkIsCyclic` | src/synth_optimizers/cispo_executor.py:307-311 | the batches of all updates are one cyclic walk |
| `Batches.FairUse` | src/synth_optimizers/cispo_executor.py:307-311 | every example is used floor or ceiling of the mean number of times, and which |
| `Replay.ReplayWithin` | src/synth_optimizers/runtime/operations.py:77-147 | replaying confirmed steps changes nothing, whatever training state the session was given |
| `Replay.DispatchedOnce` | src/synth_optimizers/runtime/operations.py:77-147 | no request id is dispatched twice |
| `Replay.InterruptionsAreTransparent` | src/synth_optimizers/cispo_executor.py:207-225 | after any interruptions at resumable steps the world is that of one uninterrupted run |
| `Transparency.PausesAreTransparent` | src/synth_optimizers/cispo_executor.py:227-409 | the executor's body, interrupted at any points where nothing is unsaved and started again from the first update, ends in the state of the uninterrupted run: events, results, promotion, training |
| `Transparency.BoundaryIsClean` | src/synth_optimizers/cispo_executor.py:333-341 | at every checkpoint boundary, where pauses are taken, nothing is unsaved |
| `Transparency.EachCallOnce` | src/synth_optimizers/cispo_executor.py:454-471 | over all those runs no request reaches the provider twice |
| `Promotion.FirstBestIsFirst` | src/synth_optimizers/cispo_executor.py:342-345 | the promoted checkpoint is the first among the best |
| `Promotion.FinishedRun` | src/synth_optimizers/cispo_executor.py:307-409 | a finished run has one checkpoint for each update that is last or a multiple of the interval, in order, promotes the first best, and trained each update at most once, in order |
| `Promotion.DueIff` | src/synth_optimizers/cispo_executor.py:333-338 | the updates due a checkpoint are the last one and the multiples of the interval, each once, in order |
| `Account.EventsAreTruthful` | src/synth_optimizers/cispo_executor.py:278-409 | at every point of every run that has not failed, an update, checkpoint, promotion or completion event is there if and only if it is true |
| `Account.FinishedEvents` | src/synth_optimizers/cispo_executor.py:227-409 | after a finished run with any interruptions without loss no event is there twice, each update is reported once, as trained or skipped, and there is one promotion and one completion |
| `Reports.CheckpointsAreScored` | src/synth_optimizers/training_eval.py:127-159 | at every point of every run each checkpoint has the references it was saved under, and as its accuracy the part of the calibration examples that the journal has it answering right |
| `Reports.HeldoutFigures` | src/synth_optimizers/cispo_executor.py:342-387 | both held-out figures are accuracies on the held-out examples by the journal: the baseline's first, the promoted checkpoint's second, and the job completes with the latter |
| `Reports.EventsTellJournal` | src/synth_optimizers/cispo_executor.py:278-693 | every event of every run is true of the journal: example results, accuracies, rewards, signal, ratios, checkpoints, promotion, completion |
| `Reports.TrainedOnJournal` | src/synth_optimizers/cispo_executor.py:314-327 | every training step was on the journalled groups of its update that have signal, all of them, with all samples, in prompt order |
| `Reports.CheckpointsHold` | src/synth_optimizers/cispo_executor.py:660-665 | the checkpoint saved at an update holds the training through that update, and no other |
| `Announcements.NothingIsKeptQuiet` | src/synth_optimizers/cispo_executor.py:433-734 | in every run that has not failed each confirmed call has been told of by its events |
| `Account.TrainableIsFilter` | src/synth_optimizers/cispo_executor.py:314-324 | the groups without signal, and only those, are left out of a training step |
| `Account.TrainsOnSignal` | src/synth_optimizers/cispo_executor.py:433-648 | every training step is on groups with signal, sampled for the prompts of its own update |
| `Worker.ExecuteBody` | src/synth_optimizers/cispo_executor.py:227-409 | the loop ends; it stops at the first stop request before a call or at the head of an update, not between the last one and the promotion, at the first pause request at a boundary, on uncertainty, or at its end |
| `Completion.EveryJobEnds` | src/synth_optimizers/cispo_executor.py:227-409 | a job that is left alone comes to its end without uncertainty; it finishes if and only if there is an update and groups are large enough, and else fails for that reason; example ids are distinct, as the dataset requires (src/synth_optimizers/sft_dataset.py:95-123) |
| `Recovery.MeterBelow` | src/synth_optimizers/providers/tinker/sdk.py:247-316 | a session numbers its training calls on from the step it was restored at, so all its numbers are within a bound just when the last one is |
| `Recovery.SkippedSince` | src/synth_optimizers/runtime/operations.py:149-182 | since a clean point, the updates the checkpoints passed are those trained and saved, and those skipped |
| `Resumption.GuardAdmitsPauses` | src/synth_optimizers/runtime/operations.py:149-182 | after any interruptions at which nothing was unsaved the recovery guard admits the next worker, over the journal of the uninterrupted run |
| `Resumption.GuardedPausesAreTransparent` | src/synth_optimizers/cispo_executor.py:207-409 | with the guard before every run, a job interrupted only where nothing is unsaved is never refused and ends in the state of the uninterrupted run |
| `Resumption.GuardMissesSkips` | src/synth_optimizers/runtime/operations.py:149-182 | for a crash anywhere after any interruptions without loss, the guard admits the resume if and only if no more training steps are unsaved than updates were skipped since the restored checkpoint |
| `Resumption.CrashResumeAgreesIff` | src/synth_optimizers/runtime/operations.py:184-204 | a resume after any interruptions without loss and a crash anywhere agrees with the uninterrupted run if and only if nothing was unsaved |
| `LostUpdate.CrashLosesUpdate` | src/synth_optimizers/runtime/operations.py:149-204 | a concrete job in which an admitted resume loses a training step |
| `LostUpdate.CrashAfterPauseIsCaught` | src/synth_optimizers/runtime/operations.py:149-204 | the same crash in a session restored after the skip is refused by the guard |
| `Sessions.PausedSessionsAreTransparent` | src/synth_optimizers/cispo_executor.py:199-409 | workers under any signals, each paused but the last, end the job in the state of the run that was never interrupted |
| `Signal.SkippedIffNoSignal` | src/synth_optimizers/cispo_executor.py:475-488 | for the executor's 0/1 rewards the advantage test is equality of rewards, normalised or not |
| `Hub.BoardHub.Subscribe` | src/synth_optimizers/board_server.py:951-956 | a new event that is set, added to the subscribers and nothing else |
| `Hub.BoardHub.Unsubscribe` | src/synth_optimizers/board_server.py:958-960 | the event is no subscriber, nothing else changes |
| `Hub.BoardHub.Poll` | src/synth_optimizers/board_server.py:962-976 | a snapshot is installed only if its fingerprint differs, and then exactly the subscribed events are set |
| `Hub.StepKeeps` | src/synth_optimizers/board_server.py:931-1055 | every step of every thread keeps the invariant |
| `Hub.LatestIsCurrent` | src/synth_optimizers/board_server.py:962-976 | after a round of the poller the latest snapshot has the fingerprint of the one just fetched |
| `Hub.ClientsGo` | src/synth_optimizers/board_server.py:1040-1055 | a client can go whenever something is written to it, and is subscribed no more |
| `Hub.NoLostWakeUp` | src/synth_optimizers/board_server.py:951-1055 | in every interleaving a waiting stream with a clear event has sent the latest snapshot or is about to be woken; versions never go backwards; what is sent was once the latest; fingerprints differ |
| `Hub.EveryoneCatchesUp` | src/synth_optimizers/board_server.py:962-1055 | without further changes only a bounded number of steps remain, and then every subscriber has the latest snapshot |
| `Hub.SentAtMostThrice` | src/synth_optimizers/board_server.py:962-1055 | no stream is sent one snapshot more than three times |
| `HubWitness.ThreeIsReached` | src/synth_optimizers/board_server.py:962-1055 | a run in which a stream is sent one snapshot three times |
| `Pipeline.Gateway.Register` | scripts/run_tinker_harbor_tblite_cispo.py:114-124 | a route is never changed; a conflicting registration is refused and changes nothing |
| `Pipeline.PhasesDiffer` | scripts/run_tinker_harbor_tblite_cispo.py:353-354 | different updates have different routes |
| `Pipeline.RowAgrees` | scripts/run_tinker_harbor_tblite_cispo.py:148-171 | whenever its calls are made, a rollout samples the checkpoint its group was submitted with, at its version; it is refused just when it failed, made no call or is misaligned |
| `Pipeline.SubmitKeeps` | scripts/run_tinker_harbor_tblite_cispo.py:348-368 | submitting the next group finds its route free and extends the queue by it |
| `Pipeline.Prefill` | scripts/run_tinker_harbor_tblite_cispo.py:374-378 | the first groups, in order, all routed to the initial checkpoint |
| `Pipeline.TrainLoop` | scripts/run_tinker_harbor_tblite_cispo.py:373-432 | records, counts, stopping rule and faults of the loop, also for queues deeper than the staleness bound; every group's route holds, at every moment, just the checkpoint saved min(u, D) updates before; the run returns the checkpoint of its last update |
| `Pipeline.RunPipeline` | scripts/run_tinker_harbor_tblite_cispo.py:322-432 | refused just for a configuration outside the listed bounds; staleness is min(u, D) - 1 and the queue holds the consecutive groups; order, empty-queue, route and staleness errors are unreachable for accepted configurations |
| `Pipeline.StaleOnlyIfDeeper` | scripts/run_tinker_harbor_tblite_cispo.py:330-393 | without the command-line check the staleness error comes just when the queue is deeper than the bound, at a known update |
| `Screening.Admit` | docs/e2e/screen_banking77.py:134-163 | attempts are started in order while there is room; an exception leaves only what the cleanup closes |
| `Screening.PollOne` | docs/e2e/screen_banking77.py:165-216 | one poll: counted; or recorded and closed, just when the attempt ended without failing and its evidence is in order; or a refusal at this poll, which leaves only what the cleanup closes |
| `Screening.Cleanup` | docs/e2e/screen_banking77.py:226-237 | after an exception every active attempt is closed |
| `Screening.RecordedInTaskOrder` | docs/e2e/screen_banking77.py:239-248 | rows come out in task and sample order whatever the completion order, if and only if no task is listed twice |
| `Screening.Screen` | docs/e2e/screen_banking77.py:93-239 | the run ends; bindings left open are exactly the displaced attempts; open bindings, polls and recorded pairs are bounded or complete as promised; every recorded attempt had ended without failing; the progress file holds all that ended whenever an attempt starts and at the end; a run is aborted only where something was refused, and then goes no further |
| `Screening.SameIdLeavesBindingOpen` | docs/e2e/screen_banking77.py:163-216 | two submissions that answer with one id end with the first attempt's binding open |
| `Ledger.Book.Reserve` | docs/e2e/dual_benchmark_budget.py:24-38 | a row is added just when the amount is not negative, 2 GiB are free, the cap is not exceeded and the key is new |
| `Ledger.Book.Settle` | docs/e2e/dual_benchmark_budget.py:41-46 | the row of the key is counted just when it exists and the amount is within the allowance |
| `Ledger.RoomDecides` | docs/e2e/dual_benchmark_budget.py:26-30 | a reservation that fits is made with 2 GiB free or more, and never with less |
| `Ledger.ReservationCounts` | docs/e2e/dual_benchmark_budget.py:31-38 | a reservation counts in full from the moment it is made, and not at all if refused |
| `Ledger.SettlementReplaces` | docs/e2e/dual_benchmark_budget.py:41-46 | a settlement puts the counted amount in the place of what the row counted for before |
| `Ledger.CapHolds` | docs/e2e/dual_benchmark_budget.py:24-46 | over every interleaving in which no key is settled again after another reservation made since it was first settled, the total stays within the cap and one allowance per settled row |
| `Ledger.CapHoldsIff` | docs/e2e/dual_benchmark_budget.py:24-46 | a schedule of reservations and settlements keeps the cap for all amounts if and only if it settles no key again after such a reservation |
| `Ledger.SettledTwiceBreaksCap` | docs/e2e/dual_benchmark_budget.py:41-46 | a schedule with amounts in which settling a key again doubles the cap |
| `Ledger.RefusedIfOverlong` | docs/e2e/dual_benchmark_budget.py:80-94 | a guarded settlement is refused exactly when more tokens came back than were asked for |
| `Ledger.GuardedCap` | docs/e2e/dual_benchmark_budget.py:64-97 | guarded calls of any number of processes never exceed the cap, and the total is what the calls come to: each at its bound until settled, at its cost from then on |
| `Ledger.FailedCallKeepsReservation` | docs/e2e/dual_benchmark_budget.py:64-97 | a call that failed before settling keeps its full reservation for ever |
| `Ledger.CallMayFail` | docs/e2e/dual_benchmark_budget.py:64-97 | a run in which a call fails after its reservation |
| `Ledger.Prices` | docs/e2e/dual_benchmark_budget.py:80-94 | the price of a million tokens of each kind; prices add up, and sampled tokens cost what came back |
| `Concurrency.MaxConcurrent` | src/synth_optimizers/eval_stats.py:332-346 | the sweep computes the largest value, over all instants, of starts so far less earlier ends |
| `Concurrency.LevelIsOverlap` | src/synth_optimizers/eval_stats.py:254-346 | at every instant that value is the number of run intervals holding it and the cached rollouts ended before it |
| `Concurrency.PeakIsOverlapPeak` | src/synth_optimizers/eval_stats.py:332-346 | without cached rollouts the statistic is the largest number of run intervals that share an instant |
| `Concurrency.PeakIsOverlapPeakIff` | src/synth_optimizers/eval_stats.py:332-346 | the statistic is the largest number of intervals sharing an instant if and only if at no instant the intervals and the cached rollouts ended before are more than that |
| `Concurrency.CachedInflatesPeak` | src/synth_optimizers/eval_stats.py:117-119 | a log where a cached rollout inflates the statistic |
| `Concurrency.GroupedSpansAreSpans` | src/synth_optimizers/eval_stats.py:254-273 | grouping by rollout and scanning gives the spans of a single pass, for every log |
| `Concurrency.RolloutSpans` | src/synth_optimizers/eval_stats.py:254-273 | the loops compute the sum of those spans |
| `Concurrency.SpansWithinWall` | src/synth_optimizers/eval_stats.py:115-119 | the sum of spans is at most wall time times the statistic |
| `Concurrency.RunTimes` | src/synth_optimizers/eval_stats.py:109-119 | wall time, span sum and statistic of a log together |
| `McNemar.ComputedIsTwoSided` | docs/e2e/validate_banking77_eval.py:58-65 | the computed p is the two-sided binomial probability, for all wins and losses |
| `McNemar.ChooseIsQuotient` | docs/e2e/validate_banking77_eval.py:61-65 | the coefficients are the quotients of factorials |
| `McNemar.OneIffBalanced` | docs/e2e/validate_banking77_eval.py:58-65 | p is 1 if and only if the arms differ by at most one |
| `McNemar.FallsWithImbalance` | docs/e2e/validate_banking77_eval.py:58-65 | at a fixed number of discordant pairs p falls strictly with the imbalance |
| `McNemar.ArmsExchange` | docs/e2e/validate_banking77_eval.py:58-65 | exchanging the arms leaves p as it is |
| `McNemar.PairedP` | docs/e2e/validate_banking77_eval.py:61-65 | the loop over the tail computes that probability |
| `McNemar.PairedStatistics` | docs/e2e/validate_banking77_eval.py:55-75 | wins, losses and ties partition the pairs and p is that of the two-sided definition |
| `Objective.Objective` | src/synth_optimizers/cispo.py:61-100 | the loop computes the objective; configurations outside the listed bounds, bad shapes and empty masks are refused in that order |
| `Objective.MaskingIsSelection` | src/synth_optimizers/cispo.py:61-100 | the masked objective agrees with the objective of the selected tokens |
| `Objective.LossIsLinear` | src/synth_optimizers/cispo.py:83-97 | the loss is linear in the log-probabilities, with exactly the reported gradients |
| `Objective.LowerClipNeverBinds` | src/synth_optimizers/cispo.py:39-85 | the lower clip never binds |
| `Objective.TokensMean` | src/synth_optimizers/cispo.py:83-88 | each selected token's loss and gradient are its importance, cut off above, times advantage; other tokens have none |
| `Objective.ValueMeans` | src/synth_optimizers/cispo.py:72-100 | the counts are those of the selected tokens and of those whose ratio is above the upper clip; loss, clip fraction and mean ratio are per selected token |
| `Objective.GradientsAreBounded` | src/synth_optimizers/cispo.py:83-88 | each gradient is at most (1 + eps_clip_high) times the advantage over the selected count, and zero when masked |
| `Objective.GradientPushes` | src/synth_optimizers/cispo.py:83-88 | the gradient of a selected token has the sign opposite to its advantage, however far it is clipped |
| `Objective.RowMeanRatio` | src/synth_optimizers/cispo_executor.py:583-596 | ratios survive the way through divergences: the objective's mean ratio of a row is the mean of the measured ratios, over all its tokens |
| `Advantages.AdvantagesSumZero` | src/synth_optimizers/cispo.py:118-135 | the advantages of every group sum to zero |
| `Advantages.AdvantagesAreFixed` | src/synth_optimizers/cispo.py:118-135 | the advantages are the one list that sums to zero and is spaced as the rewards are, in units of the divisor |
| `Advantages.BetterIsHigher` | src/synth_optimizers/cispo.py:118-135 | an advantage is the larger one if and only if its reward is |
| `Advantages.DivisorIsDeviation` | src/synth_optimizers/cispo.py:118-126 | the divisor is the guard and the unbiased deviation, which is fixed by the squared differences between pairs of rewards |
| `Advantages.SquaresBelow` | src/synth_optimizers/cispo.py:118-126 | their squares sum to less than n - 1 |
| `Advantages.ZeroIffEqual` | src/synth_optimizers/cispo.py:129-139 | a 0/1 group of any size is zero-advantage if and only if all rewards are equal |
| `Advantages.ZeroIffClose` | src/synth_optimizers/cispo.py:118-139 | a group of any rewards, normalised or not, is zero-advantage if and only if every reward is within the tolerance, in units of the divisor, of the mean |
| `Advantages.TestIsRightIff` | src/synth_optimizers/cispo.py:118-139 | the test agrees with equality of rewards if and only if they are equal or one is further than that from the mean |
| `Advantages.SpreadDecides` | src/synth_optimizers/cispo.py:118-139 | by the spread alone: at most the tolerance in units of the guard term is skipped, more than three times that is not |
| `Advantages.TinySpreadIsSkipped` | src/synth_optimizers/cispo.py:118-139 | every group of positive spread below that bound is skipped although its rewards differ |
| `Advantages.TinyTriple` | src/synth_optimizers/cispo.py:118-139 | a group of three different rewards that is skipped |
| `Advantages.WeightsAreShares` | scripts/run_tinker_harbor_tblite_cispo.py:396-404 | in a trained batch each segment of a trajectory has the same part of its advantage as weight, in the order of the trajectories |
| `Advantages.BatchWeightsSumZero` | scripts/run_tinker_harbor_tblite_cispo.py:396-404 | split into segments, the weights of a trained batch still sum to zero |
| `Policy.PlanIsLegal` | docker/shared/llm_policy.py:159-179 | a plan holds only valid actions that the reply named, and at most the allowed number |
| `Policy.PlanFollowsReply` | docker/shared/llm_policy.py:159-179 | a plan is the beginning, up to the bound, of the actions that the reply names: every word that names one, in order, and the last action that folds to the word |
| `Policy.Player.ChooseActions` | docker/shared/llm_policy.py:182-272 | the whole new state; choices are legal, the plan just journalled is played, or the fallback if it is empty; an empty choice ends the episode exactly when the budget is exhausted |
| `Policy.SummarizeUsage` | docker/shared/policy_setup.py:101-149 | the loop folds the entries of the file, passing over unreadable lines |
| `Policy.JournalTellsAll` | docker/shared/llm_policy.py:182-272 | in every run the folded journal is the live state, an exhaustion row is single and last, calls and errors stay within their caps, every paid call was made below them |
| `Policy.SecondsTell` | docker/shared/policy_setup.py:101-149 | the summary's seconds are the time that the turns spent on calls before the model was stopped |
| `Policy.DollarsPriceTokens` | docker/shared/llm_policy.py:82-88 | in every run the dollars are the price of the token totals if and only if input tokens are free or the paid calls all report cached counts up to their prompts, or all from there on; and by how much they exceed it |
| `Policy.ExcessCachedBreaksTotals` | docker/shared/llm_policy.py:82-88 | a run of two calls, one on each side, costs more than its totals tell |
| `Policy.ExhaustedForever` | docker/shared/llm_policy.py:199-217 | once exhausted, only the filler count moves |
| `Policy.ExhaustedForAReason` | docker/shared/llm_policy.py:199-254 | the reason recorded is true: the cap it names was reached, or the route had failed three times |
| `Policy.TurnsAccounted` | docker/shared/llm_policy.py:182-272 | every turn that asks for a decision is a paid call, a route error or a filler step, and only the third error is two of them |
| `Panel.SelectionIsPanel` | docs/e2e/freeze_banking77_panel.py:112-155 | sorting, grouping and cutting gives exactly N lowest-hash unexcluded rows for each label, none twice |
| `Panel.PanelIsUnique` | docs/e2e/freeze_banking77_panel.py:133-155 | a panel is the only one of its source when no candidate shares its hash with another row of its label that is on it |
| `Panel.Group` | docs/e2e/freeze_banking77_panel.py:114-124 | grouping by label, refused just for a row that is not held out or a repeated id |
| `Panel.HeldoutIff` | docs/e2e/freeze_banking77_panel.py:114-124 | a held-out id is one with the prefix of the held-out split |
| `Panel.FreezePanel` | docs/e2e/freeze_banking77_panel.py:103-180 | succeeds if and only if the source is suitable, with a panel of it; the final invariant check never fails |
| `Panel.OrderDoesNotMatter` | docs/e2e/freeze_banking77_panel.py:103-180 | then the same rows in another order have the same panel |
| `Panel.OrderDoesNotMatterIff` | docs/e2e/freeze_banking77_panel.py:103-180 | every order of a suitable source freezes to the same panel if and only if no candidate shares its hash with another, chosen row of its label |
| `Panel.TieFollowsSource` | docs/e2e/freeze_banking77_panel.py:133-139 | of two rows with one hash the earlier one is chosen |
| `Panel.FrozenPasses` | docs/e2e/validate_banking77_eval.py:95-131 | every frozen panel passes the panel, digest and overlap checks |
| `Toml.PrintedReadsBack` | src/synth_optimizers/gepa.py:1707-1740 | read by lines, the printed document gives at every path what the payload holds, with no header or key twice and nothing for nulls and empty tables |
| `TomlValue.ParseUndoesText` | src/synth_optimizers/gepa.py:1743-1754 | a printed value reads back to itself and leaves what follows |
| `TomlText.LineReadsBack` | src/synth_optimizers/gepa.py:1716-1738 | a printed header or key line reads back to itself |
| `TomlText.WriteTable` | src/synth_optimizers/gepa.py:1723-1740 | the recursive writer appends the table's lines, with blank lines between |
| `TomlText.Dump` | src/synth_optimizers/gepa.py:1707-1720 | for simple values the whole text reads back to the payload, at every path, if and only if the keys on the way to values are bare |
| `TomlText.DottedKeyLooksNested` | src/synth_optimizers/gepa.py:1740-1740 | a key with a dot prints the header of a nested table |
| `TomlText.DottedKeyReadsNested` | src/synth_optimizers/gepa.py:1740-1740 | a value in a table under a dotted key is read back in a nested table, and not where the payload has it |
| `TomlText.OtherKeysAreLost` | src/synth_optimizers/gepa.py:1707-1740 | what is read is at bare paths only, so a payload with a value elsewhere is not read back |

## Left out

- HTTP servers, clients, command lines, Docker targets, credentials, log text and rendered tables: input and output only.
- Floating-point rounding: all arithmetic is exact, so the summary's rounding of cost and seconds and the rounding slack of the ledger's sums are not modelled.
- The bootstrap interval and percentiles of the paired statistics: random sampling; and the mean and deviation beside them.
- JSON text, SHA-256 and tokenizers are uninterpreted; request ids and digests are compared by what they are made from.
- Executor: session creation, clip-identity and canary events come before the modelled program; sampling of a group is one call after another instead of a thread pool; the usage receipt and lifecycle rows, which are written again on replay, are not among the compared events.
- Executor: an exception other than an uncertain operation (a provider error, a misaligned row) ends the modelled run only where the source turns it into a failed job.
- Executor: a crash falls between confirmed calls. One inside a provider call leaves an unresolved row, which the recovery guard refuses by another test (src/synth_optimizers/runtime/operations.py:163-166).
- Hub: spurious wake-ups and a stopped poller; the poller's interval is any delay.
- Pipeline: paired evaluation after training, wall-clock fields, cancellation of queued futures.
- Screening: the per-task summary after sorting, and an interrupt between a bind and the submission that follows it.
- Ledger: rows written by anything but `reserve` and `settle`.
- `TomlText.Dump`: says nothing for strings that need escapes; floats, enumerations and paths are not among the modelled values. The reader takes bare keys only, since the printer quotes none.
- Policy: the prompt text, the HTTP retry, and an exception while a plan is parsed.
- The job store's lifecycle transitions, the summary projection, GELO and most of GEPA's configuration: one-branch validation and field copying.
