# Verified model of the tile and weather back end

This project models the stateful core of the service in Dafny and proves what it promises, for every
input and every run. `dafny verify dfyconfig.toml` checks everything.

The largest part is the **resumable basemap sweep**. `SweepModel` is a state machine of one provider's
scrape: persistent tables, the volatile session of a running call, and one action per store write, per
consumed tile outcome and per volatile move between two awaits. Completions arrive in any order, and a
crash or a cancellation may fall between any two actions. `SweepSafety` proves an invariant of every run
and the guarantees that follow from it, `SweepHistory` reads a sweep's history off the log of its run,
`SweepCalls` accounts for what one call does, `SweepCounterexamples` shows two natural readings that are false,
`ProviderBreaker` treats the rate breaker and its persisted escalation, and `BasemapScraper` is the call
chain in imperative form: each of its store writes names the machine action it performs, so no state it can
leave behind is outside the machine. `TileGrid`, `RollingWindow` and `Watermark` are its parts.

The other modules:

- `Scheduler`: how long the scrape loop sleeps, against the gates a scrape call applies.
- `StorageCircuit`: the exponential-backoff circuit, over every interleaving of reports.
- `Reservoir`, `RedisMetrics`: Algorithm R, proved uniform by counting choice sequences, and the
  metrics that rest on it.
- `SingleFlight`: concurrent tile reads that share one download.
- `SnapshotKeys`, `WeatherTilesets`, `StationSeries`: station snapshots, where a listing and a lookup, and a
  pivot and an extraction, must agree.
- `GfsOverlays`: the overlay listing against the key a fetch uses.
- `LogThrottle`: conservation and pacing of throttled log lines.

Randomness, clocks, network results and cancellations are parameters or arbitrary choices. Rates,
thresholds and seconds measured by a monotonic clock are `real`; epoch seconds are `int`.

Readings of the code worth knowing:

- The cursor can pass a tile that is neither stored nor queued although it was tried: the process dies after
  the outcome and before the retry row, and the resumed sweep skips the tile because storage is down
  (`TornRowLosesTile`). `WriteAheadExactlyUnlessTorn` says that nothing else does this.
- A call cancelled inside a checkpoint writes the cursor back to an older position, since the `finally` block
  knows only the watermark of the last completed step (`TornFlushMovesCursorBack`).
  `CursorMovesBackOnlyOnTornFlush` says that nothing else does this within a sweep.
- A clean completion drops the whole retry table, so a tile that failed in a completed sweep is not retried as
  a row; `DroppedRowsAreTheShortfall` says what is dropped.
- The `failed` counter includes missing tiles and storage outcomes, although the documentation of the stored
  statistics describes it more narrowly. The model follows the code.
- A provider threshold of 1, which the settings accept, disables the rate breaker (`ThresholdOneNeverTrips`).
- A sync interval of zero or less would make a completed provider due at once (`ScrapeProvider`).
- An opening circuit uses the base cooldown even when it is above the maximum; the cap applies from the first
  failed probe on (`CooldownIsCappedPower`, and `OpensAboveMaximum` for a state that shows it).
- A tileset id with minutes other than `00` is never listed, and resolves to the latest snapshot in the hour
  from the time it names, cut at the end of that day. That snapshot may be of the next hour
  (`HalfHourIdIsNotListed`). `ListingAgreesWithResolution` says exactly when listing and resolution agree.
- A waiter of a shared tile read that is cancelled cancels the future for the other waiters, and for callers
  that still join it (`CancellationSpreads`). `WaiterGetsLeadersResult` says that nothing else does this.
- A call retries failed tiles only at the zooms from its start cursor on; rows of earlier zooms wait until a
  clean completion drops them (`UnvisitedRowsWait`).

## Model

| member | source | states |
|---|---|---|
| TileGrid.TileAtInRange | src/services/basemap_config.py:365-394 | index i below the count denotes a tile of the range, and IndexOf recovers i |
| TileGrid.IndexOfInCount | src/services/basemap_config.py:381-394 | every tile of the range has an index below the count, and that index denotes it |
| TileGrid.TileAtInjective | src/services/basemap_config.py:381-394 | two positions, at any two zooms with one range each, denote the same tile only if zoom and index agree |
| TileGrid.ClampKeepsWorldTiles | src/services/basemap_config.py:365-378 | clamping a raw range keeps exactly its in-world tiles |
| TileGrid.IndexFollowsOrder | src/services/basemap_config.py:381-386 | a smaller index denotes a tile of an earlier column, or an earlier row of the same column |
| TileGrid.IterTiles | src/services/basemap_config.py:381-386 | the enumeration has count_tiles entries, entry i is the tile index i denotes, entries go column by column and within a column by row, and are exactly the in-world tiles of the raw range, empty ranges included |
| RollingWindow.PushKeepsLast | src/services/basemap_scraper_service.py:758-770 | pushing onto a bounded window of the last outcomes gives the window of the extended history |
| RollingWindow.FailingSuffixExceeds | src/services/basemap_scraper_service.py:758-778 | a history ending in k failures exceeds any threshold below 1 once k reaches min_samples and passes threshold times window |
| RollingWindow.ThresholdOneNeverExceeded | src/services/basemap_scraper_service.py:758-778 | no window's failure rate exceeds a threshold of 1 or more |
| RollingWindow.ExceedsMeans | src/services/basemap_scraper_service.py:763-767 | a window trips exactly when it holds at least min_samples entries and the share of failures among them is above the threshold |
| RollingWindow.FailuresAreTheTrues | src/services/storage_circuit.py:161-165 | the failure count is the multiplicity of failures in the window |
| RollingWindow.CountFailures | src/services/storage_circuit.py:161-165 | the counting loop returns the number of failures in the window |
| RollingWindow.RateForms | src/services/storage_circuit.py:161-165 | comparing the quotient with the threshold and comparing the count with threshold times length give the same verdict |
| Watermark.AbsorbFindsFrontier | src/services/basemap_scraper_service.py:990-1014 | the absorbing loop ends at the least index not completed and leaves exactly the completed indices above it |
| Watermark.AdvanceKeepsFrontier | src/services/basemap_scraper_service.py:990-1014 | one completion turns the frontier of the done set into the frontier of the done set with that index |
| Watermark.FoldIsFrontier | src/services/basemap_scraper_service.py:815-846 | for every sequence of distinct completions the watermark is the least index at or above the resume index not completed, and the set above holds exactly the completed indices beyond it |
| Watermark.FullChunkDrains | src/services/basemap_scraper_service.py:815-846 | any permutation of a full chunk ends at the chunk's end with nothing above |
| SweepModel.GridPlanIsValid | src/settings.py:1158-1198 | settings that pass validation, with any bounding box, satisfy every assumption the sweep theorems make |
| SweepModel.PrefixIsValid | src/services/basemap_scraper_service.py:423-576 | every prefix of a run is a run |
| SweepModel.StorageErrors | src/services/basemap_scraper_service.py:740-751 | the counter is zero exactly when no storage outcome was consumed |
| SweepSafety.StepKeepsInv | src/services/basemap_scraper_service.py:423-1026 | every action, from a begin to a crash, keeps the sweep invariant: coverage of the cursor and of the watermark, accounting of attempted tiles, and the completion count of each phase |
| SweepSafety.RunKeepsInv | src/services/basemap_scraper_service.py:423-1026 | the invariant holds after every run of trips, abandonments, cancellations, crashes and resumes |
| SweepSafety.CursorNeverPassesUnanswered | src/services/basemap_scraper_service.py:923-1026 | after every run a tile below the persisted cursor has an outcome this sweep and is stored, queued for retry, or was skipped when last visited |
| SweepHistory.WriteAheadExactlyUnlessTorn | src/services/basemap_scraper_service.py:923-962 | a tile below the cursor is stored, queued or only ever skipped, if and only if it is not one whose retry row an interruption of this sweep lost and that is still neither stored nor queued |
| SweepHistory.HistoryIsReadOffTheLog | src/services/basemap_scraper_service.py:923-962 | a tile counts as answered, stored, tried or torn if and only if some position of this sweep's log answered it, answered it OK, answered it other than skipped, or interrupted it between its outcome and the row it needed |
| SweepSafety.RowsLeaveOnlyWhenSafe | src/clients/basemap_state_store.py:229-285 | a retry row disappears only by a successful retry of that stored tile, or by a clean completion that already cleared the cursor and answered every tile |
| SweepSafety.RowsEnterOnlyForFailures | src/services/basemap_scraper_service.py:941-957 | a retry row appears only for a tile whose outcome was missing, unavailable or a failed store, never for a skipped one |
| SweepSafety.CursorMovesBackOnlyOnTornFlush | src/services/basemap_scraper_service.py:837-845 | within a sweep a step moves the cursor lexicographically back if and only if it is the final write of a call cancelled after a checkpoint landed and before its watermark was taken over |
| SweepHistory.LastIsLatestAnswer | src/services/basemap_scraper_service.py:882-962 | the recorded outcome of a tile is that of the latest action of this sweep that answered it |
| SweepHistory.StampMeansEveryTileAnswered | src/services/basemap_scraper_service.py:560-576 | when last_completed is stamped, every tile of every zoom was given an outcome since the sweep began without a cursor |
| SweepSafety.DroppedRowsAreTheShortfall | src/services/basemap_scraper_service.py:562-565 | when a clean completion drops the retry table, each tile of the plan is stored, or is one of the dropped rows, or was skipped when last visited |
| SweepCalls.StampingCallAccounting | src/services/basemap_scraper_service.py:489-576 | a stamping call never tripped nor gave up, consumed only OK, MISSING or UNAVAILABLE, and consumed exactly one outcome per retry row that its zooms held when it began plus the tiles of those zooms minus the resume index |
| SweepCalls.StampingCallSweptEveryZoom | src/services/basemap_scraper_service.py:489-500 | for each zoom from the start cursor to the last, a stamping call has a step that ended it with the watermark at its total, or entered it at or past its total |
| SweepCalls.CallStart | src/services/basemap_scraper_service.py:456-470 | the start cursor and retry rows a running call remembers are those of the tables when it began |
| SweepCalls.RunKeepsRows | src/services/basemap_scraper_service.py:626-717 | over every run, retries done plus rows still due are the rows the entered zooms held when the call began, and other rows are untouched |
| SweepCalls.UnvisitedRowsWait | src/services/basemap_scraper_service.py:489-498 | until a clean completion drops the table, a call leaves the rows of zooms it has not entered as they were when it began |
| SweepCalls.CursorClearedOnlyWhenDone | src/services/basemap_scraper_service.py:529-576 | over every run the cursor is given up only with every zoom visited and no verdict |
| SweepCalls.StoppedCallResumesThere | src/services/basemap_scraper_service.py:500-605 | after a trip or an abandonment the next call starts exactly at the zoom being retried, or at the watermark of the zoom being swept, or at the next zoom when it was complete |
| SweepCalls.ProgressIsNeverLost | src/services/basemap_scraper_service.py:837-845 | however a call is cut short, crashes included, the next one starts no earlier than it did |
| SweepCalls.RunKeepsPlace | src/services/basemap_scraper_service.py:456-500 | over every run, where the next call would start is known phase by phase |
| SweepCalls.CallMatchesLog | src/services/basemap_scraper_service.py:719-751 | the outcomes a call has consumed are those of its log, and it has given up exactly when a storage outcome, failed or skipped, found the storage circuit exhausted |
| SweepCalls.SweptZoom | src/services/basemap_scraper_service.py:780-859 | an unstopped zoom consumes exactly the tiles from its resume index on |
| SweepSafety.AbsorbCounts | src/services/basemap_scraper_service.py:990-1014 | the watermark moves by exactly the number of indices taken out of the set above |
| SweepSafety.AdvanceBounds | src/services/basemap_scraper_service.py:990-1014 | one completion keeps the watermark within the total, passes only completed indices and keeps count and contents of the rest |
| SweepCounterexamples.TornRowLosesTile | src/services/basemap_scraper_service.py:941-957 | a concrete run whose cursor has passed a tile that failed, was then skipped, and is neither stored nor queued |
| SweepCounterexamples.TornFlushMovesCursorBack | src/services/basemap_scraper_service.py:837-845 | a concrete reachable state in which a cancellation takes the cursor from index 1 back to index 0 |
| SweepCounterexamples.DiesBeforeRow | src/services/basemap_scraper_service.py:941-957 | a concrete crash that leaves a tried tile neither stored nor queued at the cursor |
| ProviderBreaker.VerdictDependsOnSignalsOnly | src/services/basemap_scraper_service.py:719-778 | the call has tripped if and only if some prefix of its OK and UNAVAILABLE outcomes had a last window over the threshold: other outcomes never matter, and a trip is final |
| ProviderBreaker.OnlyFetchesCount | src/services/basemap_scraper_service.py:733-758 | a missing tile, a failed store and a skipped store leave signals and verdict alone; a stored tile adds a success and an unavailable one a failure |
| ProviderBreaker.TripsWithinBound | src/services/basemap_scraper_service.py:758-778 | from any history, k consecutive UNAVAILABLE signals trip the breaker for every sufficient k, given a threshold below 1 |
| ProviderBreaker.BoundIsEnough | src/settings.py:1158-1177 | max(min_samples, floor(threshold * window) + 1) is sufficient and fits the window |
| ProviderBreaker.ThresholdOneNeverTrips | src/settings.py:1158-1162 | with a threshold of 1 no outcomes trip the breaker |
| ProviderBreaker.DownloadsMatchLog | src/services/basemap_scraper_service.py:489-500 | the tiles a running call stored are those the log shows since its begin |
| ProviderBreaker.StoredTripsMatchLog | src/services/basemap_scraper_service.py:500-527 | over every run with restarts the stored trip count is the one the log defines: progress restarts it at 1, a clean sweep clears it, nothing else changes it |
| ProviderBreaker.CooldownMonotone | src/services/basemap_scraper_service.py:607-612 | cooldowns never shrink with more trips, lie between the first and last schedule entry, and trip n uses entry n while there is one |
| ProviderBreaker.CooldownSurvives | src/clients/basemap_state_store.py:323-390 | the cooldown of a trip stands, crashes and restarts included, until the next write of the health row |
| ProviderBreaker.NoSweepDuringCooldown | src/services/basemap_scraper_service.py:438-450 | no call begins before the cooldown of the latest trip has run out |
| ProviderBreaker.StampSurvives | src/clients/basemap_state_store.py:287-321 | a completion stamp stands, crashes and restarts included, until the next one |
| ProviderBreaker.NoEarlyRescan | src/services/basemap_scraper_service.py:456-467 | a new sweep begins no earlier than the interval after the latest completion |
| BasemapScraper.StateStore.SetCursor | src/clients/basemap_state_store.py:184-202 | the write performs the machine action it names, so the tables stay reachable |
| BasemapScraper.StateStore.ClearCursorRow | src/clients/basemap_state_store.py:204-213 | the write performs the machine action it names, so the tables stay reachable |
| BasemapScraper.StateStore.AddFailed | src/clients/basemap_state_store.py:215-227 | the row is added and nothing else changes, as the named action says |
| BasemapScraper.StateStore.RemoveFailed | src/clients/basemap_state_store.py:229-241 | the row is removed and nothing else changes, as the named action says |
| BasemapScraper.StateStore.ListFailed | src/clients/basemap_state_store.py:243-260 | exactly the rows of the zoom, each once, so as many as the table holds there |
| BasemapScraper.StateStore.ClearFailed | src/services/basemap_scraper_service.py:664-667 | the end-of-zoom cleanup, called on an empty listing, deletes nothing |
| BasemapScraper.StateStore.ClearFailedForProvider | src/clients/basemap_state_store.py:276-285 | the retry table becomes empty, as the named action says |
| BasemapScraper.StateStore.SetLastCompleted | src/clients/basemap_state_store.py:305-321 | the stamp is written, as the named action says |
| BasemapScraper.StateStore.OpenCircuit | src/clients/basemap_state_store.py:350-390 | the health row is written, as the named action says |
| BasemapScraper.StateStore.CloseCircuit | src/clients/basemap_state_store.py:392-401 | the health row is deleted, as the named action says |
| BasemapScraper.SweepState.Update | src/services/basemap_scraper_service.py:719-758 | the incrementally kept verdict, counters and window stay functions of everything consumed |
| BasemapScraper.SweepState.Observe | src/services/basemap_scraper_service.py:758-778 | the window slides by one and the verdict is sticky or the window exceeds the threshold |
| BasemapScraper.OneMoreOutcome | src/services/basemap_scraper_service.py:719-778 | how verdict, storage count, signals, failures and window change with one more outcome |
| BasemapScraper.TileOutcome | src/services/basemap_scraper_service.py:1061-1101 | OK exactly when the circuit admits, bytes arrive and the bucket keeps them; storage error exactly when it does not keep them; skipped exactly when the circuit refuses; missing exactly for an admitted absent tile |
| BasemapScraper.Scraper.Absorb | src/services/basemap_scraper_service.py:1007-1011 | the in-place loop computes the absorbing function |
| BasemapScraper.Scraper.AdvanceWatermark | src/services/basemap_scraper_service.py:990-1026 | the in-place move equals the watermark function; a checkpoint is written at the moved position exactly when the watermark has moved since the last one and far enough or long enough ago, unless a cancellation lands there |
| BasemapScraper.Scraper.RecordOutcome | src/services/basemap_scraper_service.py:923-957 | one outcome is consumed and counted once, and its row is written before the index counts as done |
| BasemapScraper.Scraper.HandleCompletion | src/services/basemap_scraper_service.py:923-962 | one completion moves watermark and set as the watermark function says and checkpoints exactly when due, so the watermark stays less than a checkpoint interval ahead of the persisted cursor; or it is cut with the watermark unmoved |
| BasemapScraper.Scraper.SweepChunk | src/services/basemap_scraper_service.py:882-921 | for every order and cut, an unstopped chunk ends at its end with nothing above; counters match what was consumed, and the persisted cursor is the last checkpoint, less than a checkpoint interval behind |
| BasemapScraper.Scraper.SweepChunks | src/services/basemap_scraper_service.py:815-846 | the chunk loop ends at the total, by a verdict or by a cancellation, with matching counters |
| BasemapScraper.Scraper.FinishSweep | src/services/basemap_scraper_service.py:837-845 | cancelled or not, the final write puts the cursor at the next zoom when the watermark reached the total, else at the watermark |
| BasemapScraper.Scraper.RunIndexedSweep | src/services/basemap_scraper_service.py:780-859 | however the zoom ends, its final cursor write is a machine step, and the counters match what was consumed |
| BasemapScraper.Scraper.RetryTile | src/services/basemap_scraper_service.py:696-717 | a row still due is tried once, and leaves exactly when the retry stored the tile |
| BasemapScraper.Scraper.RetryFailedTiles | src/services/basemap_scraper_service.py:684-717 | an unstopped loop consumes exactly one outcome for each row the table held at the zoom, and exactly the stored tiles leave the table |
| BasemapScraper.Scraper.ScrapeZoom | src/services/basemap_scraper_service.py:626-682 | an unstopped zoom counts exactly its queued rows plus its tiles from the resume index on; otherwise it was stopped by a verdict or cancelled, with the rows of zooms not entered untouched |
| BasemapScraper.Scraper.ScrapeZooms | src/services/basemap_scraper_service.py:489-500 | the zoom loop from the start cursor ends cancelled, stopped, or with every zoom visited, and leaves the rows of every other zoom in the table |
| BasemapScraper.Scraper.CloseClean | src/services/basemap_scraper_service.py:560-576 | the four closing writes leave only the stamp, and the call consumed one outcome per row of its zooms plus the tiles it owed |
| BasemapScraper.Scraper.Conclude | src/services/basemap_scraper_service.py:500-605 | which way a call ends is decided by its outcomes, the breaker first, then storage given up, then storage errors, else completion; tables, flags and counts for each, and a tripped or abandoned call keeps its cursor |
| BasemapScraper.Scraper.PassesGates | src/services/basemap_scraper_service.py:427-467 | the gates let a call through exactly when the tables are due |
| BasemapScraper.Scraper.ScrapeProvider | src/services/basemap_scraper_service.py:423-576 | from any reachable tables: skipped iff storage is down or the provider is not due; otherwise the outcomes decide the end; on completion ok + failed equals the rows its zooms held plus the tiles from the start cursor on; without completion the rows of other zooms are untouched; a tripped, abandoned or cancelled call that found a cursor leaves one that is not behind it; the health row after a trip; and on a normal return the provider is due again only if the storage-retry flag is set or a completion had an interval of zero or less |
| Scheduler.WaitIsExact | src/services/basemap_scraper_service.py:280-320 | the gates open d seconds from now if and only if d reaches the computed wait |
| Scheduler.ComputeNextSleep | src/services/basemap_scraper_service.py:280-320 | 60 while a storage retry is due; zero exactly when some provider's gates are open; otherwise the larger of 60 and the least of the default and the time each provider asks for, hence never longer than max(60, wait) |
| Scheduler.NextCycleDelay | src/services/base_sync_service.py:153-181 | the delay is the larger of the loop's floor and that sleep, for the interval left after the cycle; zero only when a provider is due and no storage retry is pending |
| StorageCircuit.CooldownDoubles | src/services/storage_circuit.py:167-194 | successive cooldowns are base * 2^k capped at the maximum, and positive |
| StorageCircuit.CooldownIsCappedPower | src/services/storage_circuit.py:167-194 | the k-th cooldown is min(base * 2^k, max) if and only if k > 0 or the base is within the maximum |
| StorageCircuit.OpensAboveMaximum | src/services/storage_circuit.py:167-182 | a concrete circuit whose first failure opens it with a cooldown above its maximum |
| StorageCircuit.AlwaysOnSchedule | src/services/storage_circuit.py:131-194 | after every interleaving of reports an open circuit has the cooldown of its trip count and stays open at least until the opening time plus all its cooldowns |
| StorageCircuit.ExhaustedOnlyAfterBackoff | src/services/storage_circuit.py:100-102 | the report that exhausts the probes comes no earlier than the sum of the first max_consecutive_trips cooldowns after the report that opened the circuit |
| StorageCircuit.DefaultBackoffIs61 | src/services/storage_circuit.py:62-90 | at base 1, maximum 30 and 6 trips that sum is 61 |
| StorageCircuit.TransitionTellsPosition | src/services/storage_circuit.py:131-210 | a transition is an opening iff the circuit was closed and a recovery iff it is closed afterwards; no transition, no change of position |
| StorageCircuit.TraceFollows | src/services/storage_circuit.py:131-210 | every trace of transitions is a prefix of (opened probe_failed* recovered)*, and its end tells whether the circuit is open |
| StorageCircuit.WindowIsRecentReports | src/services/storage_circuit.py:155-165 | the rolling window is the tail of the outcomes reported since the circuit was last closed |
| StorageCircuit.FailuresMatchReports | src/services/storage_circuit.py:138-182 | the counter of an open circuit equals the failures of the opening window plus every failure reported since |
| StorageCircuit.OpenedAtMatchesReports | src/services/storage_circuit.py:167-182 | the opening time is that of the report that opened the current outage, through every failed probe |
| StorageCircuit.RecoveryReportsEveryFailure | src/services/storage_circuit.py:196-210 | the recovery transition reports exactly the outage's failures and its duration |
| StorageCircuit.StragglersOnlyCount | src/services/storage_circuit.py:131-153 | a report outside the probe window of an open circuit changes nothing but the failure counter |
| StorageCircuit.OpensExactly | src/services/storage_circuit.py:138-182 | a closed circuit opens on a report if and only if it failed and the last window of outcomes since the circuit was closed, it included, is long enough with a failing share above the threshold; it then admits a probe one base cooldown later |
| StorageCircuit.ProbeDecides | src/services/storage_circuit.py:131-210 | in the probe window of an open circuit a success closes it with a recovery, and a failure keeps it open for the next cooldown of the schedule |
| StorageCircuit.OpenUntilIsExact | src/services/storage_circuit.py:167-194 | an open circuit's trips are the failed probes since it opened, and it admits a probe exactly one cooldown after it was last armed |
| StorageCircuit.TransitionReports | src/services/storage_circuit.py:167-194 | an opening and a failed probe report the cooldown of the schedule and the failures of the outage so far |
| StorageCircuit.Circuit.CooldownRemaining | src/services/storage_circuit.py:104-116 | never negative, zero exactly when a write is admitted, and otherwise exactly the time after which one is |
| StorageCircuit.Circuit.ShouldOpen | src/services/storage_circuit.py:161-165 | true exactly when the window is long enough and its failure rate exceeds the threshold |
| StorageCircuit.Circuit.RecordSuccess | src/services/storage_circuit.py:131-136 | the in-place update and returned transition are those of the step function |
| StorageCircuit.Circuit.RecordFailure | src/services/storage_circuit.py:138-153 | the in-place update and returned transition are those of the step function |
| Reservoir.KeptShape | src/services/redis_metrics_service.py:66-78 | after m choices the sample holds exactly cap distinct positions of the stream |
| Reservoir.InclusionIsUniform | src/services/redis_metrics_service.py:66-78 | for every position, the choice sequences that keep it times the stream length equal cap times all choice sequences |
| Reservoir.SampleIsUniform | src/services/redis_metrics_service.py:66-78 | every cap-element set of positions is the sample of exactly m! choice sequences: the sample itself is uniform |
| Reservoir.ChoicesCount | src/services/redis_metrics_service.py:66-78 | one more stream element multiplies the choice sequences by its position number |
| Reservoir.OldPositionCount | src/services/redis_metrics_service.py:66-78 | one more stream element at position n multiplies the choice sequences keeping an older position by n - 1 |
| Reservoir.NewPositionCount | src/services/redis_metrics_service.py:66-78 | the newest position is kept by cap times the earlier choice sequences |
| RedisMetrics.SmallStreamIsKept | src/services/redis_metrics_service.py:66-78 | a stream no longer than cap, or any stream with cap at most 0, is kept whole and in order |
| RedisMetrics.SampleIsKeptPositions | src/services/redis_metrics_service.py:66-78 | the sampled keys are the stream's keys at the kept positions |
| RedisMetrics.DomainReservoir.Observe | src/services/redis_metrics_service.py:66-78 | the in-place step is the sampling function for some slot below the number of keys seen |
| RedisMetrics.CountAndSample | src/services/redis_metrics_service.py:109-120 | each domain's count is its number of keys and its sample is a reservoir sample of exactly its keys |
| RedisMetrics.MeasureDomain | src/services/redis_metrics_service.py:131-140 | the batched sum is independent of the batch size and is the extrapolation of the sample's bytes |
| RedisMetrics.CensusIsExact | src/services/redis_metrics_service.py:80-86 | a fully sampled domain is measured exactly |
| RedisMetrics.EqualSizesAreExact | src/services/redis_metrics_service.py:80-86 | when all sampled keys have one size the estimate is that size times the count |
| RedisMetrics.ExtrapolateIsNearest | src/services/redis_metrics_service.py:80-86 | a partial sample is scaled to the nearest integer of measured * total / sampled |
| RedisMetrics.RoundIsNearest | src/services/redis_metrics_service.py:80-86 | rounding is to the nearest integer, ties to even |
| SingleFlight.RunKeepsInv | src/services/basemap_tile_reader.py:118-155 | every interleaving of arrivals, settlements, wake-ups and cancellations keeps the ownership and result invariants |
| SingleFlight.OneLeaderPerKey | src/services/basemap_tile_reader.py:118-155 | at most one chain runs per key, and a key is registered exactly while its leader runs |
| SingleFlight.NoLostWaiter | src/services/basemap_tile_reader.py:118-155 | a waiter can resume or the leader that will settle its future still runs |
| SingleFlight.WithdrawnFutures | src/services/basemap_tile_reader.py:118-155 | a future is withdrawn exactly when one of its waiters was cancelled while it was pending |
| SingleFlight.WaiterGetsLeadersResult | src/services/basemap_tile_reader.py:118-155 | a resuming waiter receives the leader's result exactly, unless its future was withdrawn, and then it sees the withdrawal |
| SingleFlight.AnswerIsForTheKeyAsked | src/services/basemap_tile_reader.py:118-155 | a caller that returns without a withdrawal returns what a leader that had asked for the same key settled with, after that caller arrived |
| SingleFlight.RunKeepsKeys | src/services/basemap_tile_reader.py:122-131 | every caller shares its key with the leader of its future |
| SingleFlight.CancellationSpreads | src/services/basemap_tile_reader.py:118-155 | a concrete run in which one waiter is cancelled, another waiter and a later caller end withdrawn, and the leader returns a tile |
| SingleFlight.SettledNeverChanges | src/services/basemap_tile_reader.py:118-155 | what a leader returned is never replaced |
| SingleFlight.TileReader.Enter | src/services/basemap_tile_reader.py:118-136 | joins the future of the same key or registers one and leads |
| SingleFlight.TileReader.Finish | src/services/basemap_tile_reader.py:137-155 | publishes unless the future is already done, and unregisters the key |
| SingleFlight.TileReader.Resume | src/services/basemap_tile_reader.py:118-136 | a waiter returns what its future holds |
| SingleFlight.TileReader.CancelWaiter | src/services/basemap_tile_reader.py:118-136 | cancelling a waiter cancels a pending future |
| SnapshotKeys.BucketIsOneHour | src/services/weather_stations_service.py:190-211 | a time lies in [hour, hour + 1) exactly when it shares the hour, across days, months, years and leap years |
| SnapshotKeys.SnapshotKeyRoundTrip | src/services/weather_stations_scraper_service.py:49-52 | parsing a printed snapshot key gives its time back |
| SnapshotKeys.MetaSiblings | src/services/weather_stations_scraper_service.py:55-56 | a meta key ends in the suffix both loops skip, and a snapshot key never does |
| SnapshotKeys.TilesetIdRoundTrip | src/services/weather_stations_cache.py:101-118 | parsing a printed tileset id gives the floored hour |
| SnapshotKeys.SameIdIffSameHour | src/services/weather_stations_cache.py:116-118 | two times print the same tileset id if and only if they share the hour |
| SnapshotKeys.SamePrefixIffSameDay | src/services/weather_stations_cache.py:121-131 | two times have the same day prefix if and only if they are of the same day |
| SnapshotKeys.ParsedKeyIsPrinted | src/services/weather_stations_cache.py:89-98 | a key parses to a time only if, but for a final line break, it ends in the name printed from that time |
| SnapshotKeys.ParsedIdIsPrinted | src/services/weather_stations_cache.py:101-113 | an id parses to a time only if, but for a final line break, it is that time printed to the minute |
| WeatherTilesets.LatestSnapshotPerBucket | src/services/weather_stations_cache.py:163-184 | for every listing and every platform printing of ids, each id maps to the key of a latest snapshot that prints it, with no entry where there is none |
| WeatherTilesets.ResolveBucket | src/services/weather_stations_service.py:190-211 | resolution returns a latest snapshot of the bucket, none when there is none, and overflows only in the last hour of the calendar |
| WeatherTilesets.ObjectTimes | src/services/weather_stations_cache.py:163-184 | an object that carries a time is the snapshot body printed from exactly that time, never a meta sibling |
| WeatherTilesets.KeysUnderPrefixes | src/services/weather_stations_cache.py:121-131 | every snapshot key lies under the snapshots prefix, and under a day prefix exactly when it is of that day |
| WeatherTilesets.LatestIsUnique | src/services/weather_stations_cache.py:163-184 | for a canonical id the whole-bucket listing and the day listing choose the same snapshot, or none |
| WeatherTilesets.OnlyCanonicalIdsAreListed | src/services/weather_stations_cache.py:101-118 | an id that some snapshot prints is the print of its own parsed time, in the same hour, with no minutes |
| WeatherTilesets.FiltersAgree | src/services/weather_stations_service.py:190-211 | for a canonical id the two filters, by printed id and by time range, accept the same snapshots |
| WeatherTilesets.ResolvesUnlessEmpty | src/services/weather_stations_service.py:190-211 | resolution finds nothing if and only if no snapshot of the target's day lies in the hour from the target on |
| WeatherTilesets.ListingAgreesWithResolution | src/services/weather_stations_service.py:190-211 | for every set of printed snapshot and meta keys, listing and resolution choose the same snapshot for an id if and only if the id is canonical or no snapshot of its day lies in the hour from the time it names |
| WeatherTilesets.HalfHourIdIsNotListed | src/services/weather_stations_cache.py:101-113 | a concrete id with minutes 30 that the listing has nothing for, and that resolves to a snapshot of its own hour, or of the next hour when its own is empty |
| GfsOverlays.PrintThenParse | src/services/gfs_config.py:138-152 | parsing a printed overlay name gives step and layer back if and only if the step is non-empty without underscore and the layer non-empty |
| GfsOverlays.ParseThenPrint | src/services/gfs_config.py:138-152 | whatever parses is the print of what it parses to |
| GfsOverlays.ListObjectBasenames | src/clients/s3_client.py:603-629 | for every listing, prefix and suffix the names are the basenames of the listed keys, in order and each as often as it is listed |
| GfsOverlays.BasenameMeans | src/clients/s3_client.py:603-629 | a key under a directory prefix has a basename if and only if it is the prefix, perhaps further slashes, that slash-free name and the suffix |
| GfsOverlays.ListedBasename | src/clients/s3_client.py:603-629 | a basename of a delimited listing is exactly an object directly under the prefix |
| GfsOverlays.CycleLayerMap | src/services/gfs_sync_strategy.py:252-292 | the layers under a step are those the names parse to for it, in order and each as often as it is named |
| GfsOverlays.FetchedKeyIsListed | src/clients/s3_client.py:582-593 | a name is in the cycle's listing exactly when it has no slash and the object at its key exists |
| GfsOverlays.ListedIffFetchable | src/services/gfs_sync_strategy.py:228-292 | for every object set, barb subtrees included, a layer is listed for a step if and only if the object at the fetch key exists and the pair is one the names can carry |
| GfsOverlays.LayersListedOnce | src/services/gfs_sync_strategy.py:252-292 | a listing that names every object once advertises every layer of a step once |
| StationSeries.SeriesAscends | src/services/weather_stations_cache.py:353-361 | a series comes out oldest first |
| StationSeries.SeriesKeepsAll | src/services/weather_stations_cache.py:353-361 | the sorted series holds exactly the readings whose timestamp parses, each as often as before |
| StationSeries.SeriesIsStable | src/services/weather_stations_cache.py:353-361 | readings of one time keep the order in which they were read |
| StationSeries.SeriesIsSorted | src/services/weather_stations_cache.py:353-361 | the points are those of a stable ascending arrangement of exactly the parseable readings |
| StationSeries.ExtractStationSeries | src/services/weather_stations_cache.py:364-385 | the series shows exactly the parseable readings extraction keeps, oldest first and those of one time in reading order |
| StationSeries.PivotStationSeries | src/services/weather_stations_cache.py:388-412 | the pivot has a station exactly when it accepted an entry of it, and its series shows exactly its parseable readings, oldest first and those of one time in reading order |
| StationSeries.PivotBody | src/services/weather_stations_cache.py:397-411 | one body's loop extends every station's dictionary as the per-station definition says |
| StationSeries.KeepFirstMeans | src/services/weather_stations_cache.py:381-384 | a dictionary holds for each offered timestamp the point of its first offer, and nothing else |
| StationSeries.ExtractedKeepsFirst | src/services/weather_stations_cache.py:364-385 | extraction keeps the first offer of each timestamp among the first matches of the bodies |
| StationSeries.PivotedKeepsFirst | src/services/weather_stations_cache.py:388-412 | the pivot keeps the first offer of each timestamp among all accepted entries of all bodies |
| StationSeries.BodyAgrees | src/services/weather_stations_cache.py:364-412 | on a body with one reading of the station both ways extend any dictionary alike |
| StationSeries.AgreementNeedsOneReading | src/services/weather_stations_cache.py:364-412 | a body on which both ways agree has one reading of the station |
| StationSeries.WindowsAgreeExactly | src/services/weather_stations_cache.py:364-412 | both ways agree on every window of the snapshots if and only if each snapshot has one reading of the station |
| StationSeries.OneEntryIsOneReading | src/services/weather_stations_cache.py:380-385 | a body with at most one entry of the station, under an integer id, has one reading of it |
| StationSeries.PivotEqualsExtraction | src/services/weather_stations_cache.py:388-412 | the pivoted series of a station is the extracted one, and a station absent from the pivot extracts to nothing |
| StationSeries.TwoReadingsDisagree | src/services/weather_stations_cache.py:380-385 | a concrete body with two readings of a station on which the two ways differ |
| LogThrottle.OccurrencesConserved | src/log_throttle.py:54-68 | occurrences equal lines emitted plus suppressed counts reported plus those pending |
| LogThrottle.LinesArePaced | src/log_throttle.py:54-68 | for base at most max and factor at least 1, lines k and k + 1 of a key are at least min(base * factor^k, max) apart |
| LogThrottle.LoggedExactlyWhenDue | src/log_throttle.py:54-68 | an occurrence is logged exactly when it is the first or the gap after the last line has passed; a line reports all that was suppressed since, and a silent occurrence adds one |
| LogThrottle.GapGrows | src/log_throttle.py:54-68 | the interval update of the code takes min(base * factor^k, max) to the same with k + 1 |
| LogThrottle.Throttle.CheckKey | src/log_throttle.py:54-68 | the in-place check of a key is the step function and leaves other keys alone |
| LogThrottle.Throttle.Reset | src/log_throttle.py:70-72 | a reset forgets that key and no other |

## Left out

- BasemapScraper.StateStore: holds the rows of one provider; the provider column and concurrent providers of one cycle are not modelled.
- BasemapScraper.Scraper.ScrapeProvider: whether the storage circuit is exhausted is an arbitrary value per outcome, and the service flags are those one call sees.
- BasemapScraper.Scraper.SweepChunk: the semaphores and task handles of the fan-out, and the pause before a chunk while the storage circuit cools down, are not modelled.
- RollingWindow.RateForms: rates are exact reals, so the rounding of floating-point division is not modelled.
- RedisMetrics.MeasureDomain: the estimate is computed over reals, so the rounding of floating-point multiplication is not modelled.
- RedisMetrics.CountAndSample: the key classification by prefix is a parameter, and the persisting of the sample is not modelled.
- Reservoir.SampleIsUniform: counts equally likely choice sequences; that the random source draws uniformly is taken for granted.
- SnapshotKeys.SnapshotKeyRoundTrip: for years from 1000 on, since the printing of shorter years depends on the platform; digits are the ASCII ones.
- WeatherTilesets.ListingAgreesWithResolution: for snapshots and ids of years from 1000 on, for the same reason.
- StationSeries.PivotEqualsExtraction: the flattening of an observation into a point is an opaque value, so the dew point formula is not modelled.
- The statistics rows, progress lines and metrics of a scrape, and the grouping of providers into parallel groups.
- The order of sources a tile read tries, its relay circuits and its cache writes; only the sharing of one read is modelled.
- The caching of listings and series, the sorting of listed layers, and the listing of recent snapshots over several days.
- Satellite, radar and precipitation synchronisation, HTTP routes, keys and settings loading.
- Conversion of longitude and latitude to tile ranges: raw ranges are arbitrary integers.
