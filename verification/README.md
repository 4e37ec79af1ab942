# Tracking pipeline model

A Dafny model of how a phone's position fixes become rows of the trips table, with proofs about
whole runs of the parts together. Times are integers (nanoseconds), distances and coordinates are
reals, and the great-circle formula is a parameter; where a theorem needs geometry, it requires a
metric.

The modules follow the path of a point.

- `PhoneQueue`, `Gateway`, `Ingestion`: the phone's queue and sender, the gateway's check, publish
  and mark, the event envelope, and the worker's consumer. `QueueHistory` and `GatewayAnswers` say
  what becomes of a queued row and what each answer means. `Delivery` runs them together as one
  state machine whose steps may be taken in any order: sends are suspended half-way and overtake one
  another, connections are lost, the app is killed, acknowledgements and answers get lost, calls die
  half-way, messages are delivered again and again.
- `Noise` and `Smoothing`: the noise pipeline, with its sliding window, one-sample lookahead, moving
  anchor and marking in place. `NoiseOutput`, `NoiseVerdicts`, `NoiseDistance`, `NoiseMovement` and
  `SmoothingPauses` prove what it returns; `Jitter` and `RestingDevice` when a move is taken for
  noise; `NoiseBoundary`, `NoiseCut`, `CutAtPause` and `CutWitnesses` what cutting a batch changes.
- `TripDetection`: the four-state trip machine with the buffers of one batch. `TripRefinement`
  proves that the buffers cannot be observed, `TripGrammar` what commands it can emit.
- `Storage`, `TripRows`: regrouping commands into a batch, and applying it to the tables in phases.
  `Ledger` says what the tables should hold after every single point, and `LedgerRefinement` and
  `SavedCycle` prove that a saved batch leaves exactly that.
- `TrackingJob`: one cycle of the worker. `JobRuns`, `TripRecords`, `TripSpeed`, `TripCreation` and
  `LateArrivals` prove what holds after any number of cycles over points that arrive in any order;
  `ArrivalOrder` shows that this order does not matter between two cycles, and `MissingFields`
  follows an event without a speed from the phone through all of them.
- `TripTotals`, `TripEnds`, `TripProgress` and `TripCompleteness`: what every point keeps true of the
  trips so far, in terms of the accepted points alone. `TripLife` concludes what a trip is, over any
  run: when one is opened, how long it is, what belongs to it, and where it ends; `MovingDevices`
  says what moving is.
- `FastSegments` and `Thresholds`, `TrackSimplification`, `RouteMatching`, `Base64Url`: the
  algorithms around it.

Loops and mutable objects of the sources are methods and classes here, each proved to compute a
function of its input or old state; the theorems are about those functions.

Six results are worth knowing before relying on the system:

- The ingestion ledger is documented as scoped to a user and device, so that two devices may use
  the same event id. The stream's duplicate window knows only the event id. `StoredUnderOwnKey`
  gives the exact condition under which a published message is really stored, and
  `SameIdFromTwoDevices` a run in which both devices are told their event was accepted and one of
  the two messages exists nowhere.
- An event's speed, bearing, activity confidence and battery level are optional, and the raw point's
  fields are documented as unset when the source gave none
  (`services/tracking-worker/internal/domain/raw_location_point.go:30-35`). Each is stored as reported
  if and only if it was reported, and as zero otherwise (`MissingSpeedIsStoredAsZero`). So the implied
  speed never counts as movement, and a device that reports no speed and vouches for no
  activity on foot never gets a trip, however it moves (`NoSpeedNoTrip`).
- Where a stream of accepted points is cut into batches does not matter to trip detection
  (`BatchIndependence`, `CyclesMayBeCut`). It does matter to the noise pipeline. Over the complete
  outputs, `CutIsHarmless` says exactly when it does not: no spike that only the next sample gives
  away stands at the cut, no standstill of the second batch reaches back over it, and the reloaded
  history smooths and credits each later point as the sliding window would. Each of the four can
  fail (`CutWitnesses`). `CutAtPauseIsHarmless` gives a place where the spike alone decides.
- Distance is credited from the last anchor in a sliding window. A device whose fixes can none of
  them be told apart from one another never moves (`RestingDeviceStaysPut`), and nothing less will
  do (`UncertaintyIsExact`). It is not enough that none can be told apart from the first: that one
  drops out of the window, and two later ones may lie twice as far apart
  (`NearTheFirstIsNotEnough`). When a fix is credited, and from where, is exact for any batch
  (`CreditsAreExact`).
- The late-arrival window holds what it promises for every point that the tick after it can still
  look back to (`TimelyPointIsJudged`). A pair not processed before is looked back on for a day only,
  so when its first tick is later than that, a point that arrived at once is found late
  (`OverlookedIsLate`).
- Trips run forward in time when movement is faster than standstill; the two thresholds are
  independent settings, so this is a condition (`Apart`) on the configuration, which the
  defaults meet (`DefaultsFit`).

## Model

| member | source | states |
|---|---|---|
| TripDetection.BatchRun.FlushActive | services/tracking-worker/internal/usecase/trip_detection.go:73-93 | a non-empty buffer becomes one update of the open trip with its count, summed distance and last fix, and is then empty; an empty one changes nothing |
| TripDetection.BatchRun.HandleCandidate | services/tracking-worker/internal/usecase/trip_detection.go:122-179 | a candidate is dropped on standstill or a gap (and may restart at the same point), or counted and confirmed exactly when duration, distance and the count or window suffice |
| TripDetection.BatchRun.HandleActive | services/tracking-worker/internal/usecase/trip_detection.go:181-225 | a gap closes the trip at the last known fix, a stationary point flushes and dates the stop, any other point is buffered |
| TripDetection.BatchRun.HandleStop | services/tracking-worker/internal/usecase/trip_detection.go:227-255 | leaving the stop radius resumes the trip, waiting long enough completes it at the stop |
| TripDetection.BatchRun.OpenTrip | services/tracking-worker/internal/usecase/trip_detection.go:155-178 | the new trip starts where and when the candidate did, all candidate points are assigned to it, and the candidate is cleared |
| TripDetection.BatchRun.ConsumePoint | services/tracking-worker/internal/usecase/trip_detection.go:95-261 | one turn of the loop, from a run whose state and buffers are well formed, so nothing unset is dereferenced |
| TripDetection.ProcessBatch | services/tracking-worker/internal/usecase/trip_detection.go:61-270 | the loop, the final flush and the watermark stamp leave the state and commands of the batch run the theorems are about |
| TripDetection.AnalyzeWindow | services/tracking-worker/internal/usecase/noise/pipeline.go:315-324 | the counting loop accepts a window exactly when enough of its points move and are accurate |
| TripDetection.ConsumeStaysValid | services/tracking-worker/internal/usecase/trip_detection.go:114-255 | every reachable state sets the trip, candidate and stop fields exactly in the states that use them, and the buffers always belong to the open trip |
| TripRefinement.WindowNeverDecides | services/tracking-worker/internal/usecase/trip_detection.go:149-154 | the batch-local window never accepts a candidate that the saved count of good points would not accept |
| TripRefinement.StepRefines | services/tracking-worker/internal/usecase/trip_detection.go:95-261 | one turn of the loop with its buffers is one step of a machine that has none and writes every point to the trips table at once |
| TripRefinement.RunRefines | services/tracking-worker/internal/usecase/trip_detection.go:95-261 | so is any number of turns |
| TripRefinement.BatchRefines | services/tracking-worker/internal/usecase/trip_detection.go:61-270 | the commands of a batch, applied in order, leave the rows, trip boundaries and state of that machine |
| TripRefinement.StampIsNeverRead | services/tracking-worker/internal/usecase/trip_detection.go:263-269 | the watermark and clock stamp never influence a later decision |
| TripRefinement.BatchIndependence | services/tracking-worker/internal/usecase/trip_detection.go:61-270 | from any well-formed state, for any points, two batches leave the same state, trip rows and trip boundaries as one batch over both |
| TripGrammar.BatchFollows | services/tracking-worker/internal/usecase/trip_detection.go:61-270 | every batch continues the grammar where the last one stopped: create only with no open trip and a new id, update and complete only the open trip |
| TripGrammar.HistoryFollows | services/tracking-worker/internal/usecase/trip_detection.go:61-270 | the commands of any number of batches together obey the grammar |
| TripGrammar.StoryOf | services/tracking-worker/internal/usecase/trip_detection.go:155-254 | per trip: one create, then updates, then at most one completion with nothing after it; unfinished exactly for the open trip |
| TripGrammar.BoundariesAlternate | services/tracking-worker/internal/usecase/trip_detection.go:155-254 | creations and completions alternate, each completion closing the trip created just before it |
| TripGrammar.TripsAreOrderly | services/tracking-worker/internal/usecase/trip_detection.go:61-270 | both of these after any number of batches from a new pair: trips never overlap |
| TripGrammar.CreditsAreConserved | services/tracking-worker/internal/usecase/trip_detection.go:73-93 | each point credited to a trip is carried by exactly one update, in order; each update's count is its number of points and its distance their sum; none is left over |
| Storage.BuildBatch | services/tracking-worker/internal/usecase/trip_detection_job.go:149-182 | the loop sorts the commands by kind without losing or reordering any |
| Storage.TripStore.InsertProcessedPoints | services/tracking-worker/internal/storage/postgres/trip_repo.go:466-503 | points whose event is already stored are skipped, all others appended |
| Storage.TripStore.BackfillTripPoints | services/tracking-worker/internal/storage/postgres/trip_repo.go:327-344 | accepted stored points recorded from the trip's start to its first point of the batch are linked, already linked ones skipped |
| Storage.TripStore.InsertTripPoints | services/tracking-worker/internal/storage/postgres/trip_repo.go:346-361 | a point is linked to the first trip that claims it |
| Storage.TripStore.ApplyBatch | services/tracking-worker/internal/storage/postgres/trip_repo.go:228-296 | processed points, inserts, backfill, links, updates, completions and state in that order, each phase over its whole list |
| Storage.EarliestPoint | services/tracking-worker/internal/storage/postgres/trip_repo.go:253-261 | the time of the trip's earliest point in the batch |
| Storage.PhasesKeepMeaning | services/tracking-worker/internal/storage/postgres/trip_repo.go:239-285 | for commands that obey the grammar, the phases leave the trips table that applying the commands in order would leave |
| Ledger.EnterKeepsLinksOpening | services/tracking-worker/internal/storage/postgres/trip_repo.go:250-271 | opening a trip links exactly the accepted points since its start and disturbs no earlier link |
| Ledger.EnterKeepsLinksOtherwise | services/tracking-worker/internal/storage/postgres/trip_repo.go:346-361 | any other point keeps every link and the exactness of every earlier trip |
| LedgerRefinement.RunTracks | services/tracking-worker/internal/usecase/trip_detection.go:95-261 | after every point of a batch, stored links plus those held by commands and buffers are those of saving each point at once |
| LedgerRefinement.RunKeepsCreations | services/tracking-worker/internal/usecase/trip_detection.go:155-178 | every create of a batch carries the candidate points of the batch and the start to backfill from |
| SavedCycle.SavedAsEntered | services/tracking-worker/internal/storage/postgres/trip_repo.go:228-296 | a cycle's batch, saved in phases, leaves the trips, links and state of saving every accepted point the moment it is seen |
| SavedCycle.CyclesMayBeCut | services/tracking-worker/internal/usecase/trip_detection_job.go:110-123 | two cycles over two halves leave all tables as one cycle over the whole, candidate phases across the cut included |
| TripRecords.EnterKeepsRecords | services/tracking-worker/internal/usecase/trip_detection.go:185-254 | no step lets a trip end before it starts or start before an earlier one ended, or makes a total or duration negative |
| TripRecords.EnterKeepsOpenings | services/tracking-worker/internal/usecase/trip_detection.go:149-178 | each row was opened once, by a point at least the minimum duration after its start |
| Noise.TrimWindow | services/tracking-worker/internal/usecase/noise/pipeline.go:351-358 | the index loop drops exactly the leading points before the cutoff |
| Noise.FindLastAnchor | services/tracking-worker/internal/usecase/noise/pipeline.go:330-339 | the backward loop finds the last point that is neither jitter nor stationary |
| Noise.KeepAccepted | services/tracking-worker/internal/usecase/noise/pipeline.go:341-349 | the loop keeps the accepted points in order |
| Noise.IsStationaryWindow | services/tracking-worker/internal/usecase/noise/pipeline.go:282-311 | the loop accepts a window exactly when it is long enough and all its points are still around the first |
| Noise.Batch.MarkStationaryWindow | services/tracking-worker/internal/usecase/noise/pipeline.go:87-106 | both lists are marked in place from the window's start on, rejected points excepted |
| Noise.Batch.Advance | services/tracking-worker/internal/usecase/noise/pipeline.go:67-83 | one turn of the loop: window, processed and accepted lists with the marking back |
| Noise.ProcessPoint | services/tracking-worker/internal/usecase/noise/pipeline.go:108-185 | late, invalid and teleport rejections, distance or jitter against the anchor, break after a gap, and the stationary decision |
| Noise.ProcessBatch | services/tracking-worker/internal/usecase/noise/pipeline.go:56-85 | sorting and loop give the two lists the theorems are about |
| NoiseVerdicts.VerdictsAreExact | services/tracking-worker/internal/usecase/noise/pipeline.go:108-136 | of any batch, the i-th point in time order is accepted if and only if it is newer than what was processed, valid and accurate enough, and no faster after the last point accepted before it than its activity allows, or than the vehicle ceiling if the next one does not turn back |
| NoiseVerdicts.StandstillIs | services/tracking-worker/internal/usecase/noise/pipeline.go:280-311 | a window is stationary if and only if it has enough points over enough time, none on foot or too fast, all within the radius of the first |
| Jitter.CreditsAreExact | services/tracking-worker/internal/usecase/noise/pipeline.go:146-173 | for any batch: an accepted point that is not stationary and continues its segment is credited with its whole distance from the last point before it that is neither jitter nor stationary, or with nothing if that distance is below the least radius or below both the mean accuracy and the greatest radius; all others with nothing |
| RestingDevice.UncertainBatchIsUnmoved | services/tracking-worker/internal/usecase/noise/pipeline.go:159-171 | a batch of fixes no two of which can be told apart, after a history of such, is credited with nothing |
| RestingDevice.TwoFixesAreCredited | services/tracking-worker/internal/usecase/noise/pipeline.go:159-171 | the second of two fixes is credited with the whole distance if and only if the two can be told apart |
| RestingDevice.UncertaintyIsExact | services/tracking-worker/internal/usecase/noise/pipeline.go:159-171 | of fixes that follow one another in some order, every batch of a new device is credited with nothing if and only if no two of them can be told apart |
| RestingDevice.RestingDeviceStaysPut | services/tracking-worker/internal/usecase/noise/pipeline.go:159-171 | over every run: if no two fixes of a device can be told apart, no distance is ever credited and no trip created |
| RestingDevice.NearTheFirstIsNotEnough | services/tracking-worker/internal/usecase/noise/pipeline.go:330-358 | being indistinguishable from the first fix is not enough: with the defaults, three such fixes of which the third is credited with 50 metres, as the first has left the sliding window |
| NoiseOutput.OutputInOrder | services/tracking-worker/internal/usecase/noise/pipeline.go:56-85 | processed is the raw input, each point once, sorted by time and event id; accepted is exactly its accepted entries in spite of the marking; accepted times strictly increase, past the history and past what was processed before |
| ArrivalOrder.IdsAreOrdered | services/tracking-worker/internal/usecase/noise/pipeline.go:56-66 | of two event ids one precedes the other if and only if it is a proper beginning of it or smaller where they first differ; of two different ids one always does |
| NoiseOutput.MarksAreDeclarative | services/tracking-worker/internal/usecase/noise/pipeline.go:67-106 | an accepted point is stationary with no distance exactly when it lies in the stationary window of itself or a later accepted point of the batch, and is dated within one window before it |
| NoiseBoundary.CutEndsAlike | services/tracking-worker/internal/usecase/noise/pipeline.go:203-240 | a batch cut short ends where the longer batch stood after as many samples if and only if its last sample is no spike shown by the next one; if it is, the short batch accepts it and the longer one rejects it |
| NoiseCut.SamePointsAreAccepted | services/tracking-worker/internal/usecase/noise/pipeline.go:217-240 | over complete outputs, one batch and two accept the same points if and only if the last one before the cut is no spike that only the next gives away |
| NoiseCut.CutIsHarmless | services/tracking-worker/internal/usecase/noise/pipeline.go:56-106 | one batch and two, the second over the reloaded history and past the first one's watermark, return equal accepted points, marks, distances and positions included, if and only if no spike stands at the cut, no standstill of the second reaches back over it, and each later point is smoothed and credited alike |
| CutAtPause.CutAtPauseIsHarmless | services/tracking-worker/internal/usecase/noise/pipeline.go:138-171 | cut in a pause longer than the stationary window and the longest gap within a segment, both return the same if and only if no spike stands at the cut |
| CutWitnesses.SpikeEndsTheBatch | services/tracking-worker/internal/usecase/noise/pipeline.go:217-240 | three points of which one batch accepts two and two batches accept three |
| CutWitnesses.StandstillReachesBack | services/tracking-worker/internal/usecase/noise/pipeline.go:87-106 | without a spike: two points of a standstill, both stationary in one batch, the first of them not when it was saved before |
| CutWitnesses.StoredMarksHideTheAnchor | services/tracking-worker/internal/usecase/noise/pipeline.go:159-171 | all else alike: the marks in the stored history hide the anchor that one batch measures from |
| CutWitnesses.SmootherSeesMore | services/tracking-worker/internal/usecase/noise/pipeline.go:138-144 | all else alike: the reloaded history is not trimmed, so the smoother averages over a point that one batch has dropped |
| NoiseDistance.StraightLine | services/tracking-worker/internal/usecase/noise/pipeline.go:217-240 | between any two accepted points the device moved no faster than the vehicle ceiling |
| NoiseDistance.SpeedBound | services/tracking-worker/internal/usecase/noise/pipeline.go:146-185 | for any metric and activity ceilings within the vehicle's, credits are measured over intervals of the track that never overlap, and their sum is at most the ceiling times the time from the earliest history or accepted point to the last |
| NoiseMovement.WindowIsStill | services/tracking-worker/internal/usecase/noise/pipeline.go:282-311 | no point of a stationary window counts as movement, when movement is faster than standstill |
| NoiseMovement.OutputIsCalm | services/tracking-worker/internal/usecase/noise/pipeline.go:87-106 | so a standstill is never dated before or at a point that moved, whatever was stored before |
| Smoothing.Smooth | services/tracking-worker/internal/usecase/noise/pipeline.go:257-278 | the loop computes the accuracy-weighted average of the point and the latest history |
| Smoothing.AverageStaysInBox | services/tracking-worker/internal/usecase/noise/pipeline.go:257-278 | the average never leaves a box that holds all its inputs |
| Smoothing.FilteredPositionsAreValid | services/tracking-worker/internal/usecase/noise/pipeline.go:138-144 | every filtered position of a batch is a valid latitude and longitude if the history's are |
| Smoothing.AccurateCountsMore | services/tracking-worker/internal/usecase/noise/pipeline.go:265-277 | of two positions the more accurate one counts for more, in inverse proportion to the accuracies |
| Smoothing.OnlyTheLatestCount | services/tracking-worker/internal/usecase/noise/pipeline.go:258-264 | with as many points of history as the average covers, whatever came before them makes no difference |
| SmoothingPauses.PausesAreNotSmoothed | services/tracking-worker/internal/usecase/noise/pipeline.go:138-144 | for any batch: a point that begins a segment is filtered to the very position it reported, however many were accepted before the pause |
| TrackingJob.Worker.Insert | services/tracking-worker/internal/storage/postgres/raw_location_repo.go:30-60 | a raw point is stored unless its event already is |
| TrackingJob.Worker.FetchUnprocessedPoints | services/tracking-worker/internal/storage/postgres/trip_repo.go:127-171 | exactly the raw points of the period whose event was not processed yet, in order |
| TrackingJob.Worker.ProcessPair | services/tracking-worker/internal/usecase/trip_detection_job.go:83-130 | one cycle: period, fetches, noise pipeline, detector and save, as one step of a run |
| JobRuns.CycleHands | services/tracking-worker/internal/usecase/trip_detection_job.go:101-111 | what a cycle hands to the detector is new, later than everything stored, and dates standstills after movement, although only the last hundred points are reloaded |
| JobRuns.RunsKeep | services/tracking-worker/internal/usecase/trip_detection_job.go:63-79 | after any run the tables are those of saving every accepted point at once |
| JobRuns.TripsRunForward | services/tracking-worker/internal/usecase/trip_detection.go:185-254 | over every run, with movement faster than standstill: start <= end <= last processed time for every trip, at most one trip open, later trips start after earlier ones end |
| JobRuns.TripsEndBeforeCompletion | services/tracking-worker/internal/usecase/trip_detection.go:185-254 | over every run, with movement faster than standstill: each completed trip ended between its start and the time of the very point that completed it |
| JobRuns.BackfillIsExact | services/tracking-worker/internal/storage/postgres/trip_repo.go:250-271 | over every run: up to its confirming point a trip is linked to exactly the accepted points recorded from its start on, however many cycles its candidate phase spanned |
| TripSpeed.JoinTracks | services/tracking-worker/internal/usecase/noise/pipeline.go:159-171 | the intervals distances are measured over do not overlap across batches either |
| TripSpeed.CoveredIsBounded | services/tracking-worker/internal/usecase/noise/pipeline.go:159-171 | from any credited point on, credited distance stays within the ceiling times the time since |
| TripSpeed.DefaultsFit | services/tracking-worker/internal/domain/processed_location_point.go:122-134 | the default configuration meets the conditions of the run theorems |
| TripSpeed.TripsObeyTheCeiling | services/tracking-worker/internal/usecase/trip_detection.go:157-166 | over every run, a trip's stored distance is at most what the vehicle ceiling covers between its start and one of its linked points |
| TripLife.TripsAddUp | services/tracking-worker/internal/usecase/trip_detection.go:122-179 | over every run: a trip began at a movement point and went on without a standstill or a long silence; it was confirmed by the first point at which the movement since its start was long, far and dense enough; its stored distance and number of points are those of that movement and of every later point linked to it |
| TripLife.WalksBecomeTrips | services/tracking-worker/internal/usecase/trip_detection.go:142-179 | over every run: whoever starts to move with no trip open, or after a silence that ends the open one, goes on without a break and has moved long, far and densely enough by some point has got a trip by then, starting no later |
| MovingDevices.MovingDevicesGetTrips | services/tracking-worker/internal/domain/processed_location_point.go:79-93 | over every run: a device whose every point from some point on is on the move, on foot by its own account whatever its speed or about as fast as on foot, without a long silence and until it has moved long, far and densely enough, has got a trip by then |
| MovingDevices.TripsStartOnTheMove | services/tracking-worker/internal/domain/processed_location_point.go:79-93 | over every run: each trip starts at the time and place of a point that was on the move in this sense |
| TripLife.TripsEndWhereTheyStopped | services/tracking-worker/internal/storage/postgres/trip_repo.go:388-397 | over every run: a completed row ends at the last point before a silence longer than the stop duration, or where and when a standstill began that lasted that long, every point in between standing or within the stop radius |
| TripLife.SilencePartsTrips | services/tracking-worker/internal/usecase/trip_detection.go:181-209 | over every run: no two neighbouring points of one trip are further apart in time than the stop duration |
| TripLife.StandstillsEndTrips | services/tracking-worker/internal/usecase/trip_detection.go:227-254 | over every run, with movement faster than standstill: once a device has stood for the stop duration, every trip opened by then is closed |
| TripLife.OpenTripFollowsItsPoints | services/tracking-worker/internal/storage/postgres/trip_repo.go:363-386 | over every run: the row of the open trip ends at the latest point linked since its confirmation and lasts until then; with none, it is as it was confirmed |
| TripLife.TripsResumeBeyondTheRadius | services/tracking-worker/internal/usecase/trip_detection.go:227-240 | over every run: a point linked to a trip again after one that is not comes after a standstill and lies beyond the stop radius of where that began |
| TripCreation.OneMoreEventGrows | services/tracking-worker/internal/storage/postgres/trip_repo.go:250-285 | over every run: one more event removes no trip and redates none; only a tick adds any, created at that tick |
| TripCreation.TripsAreStampedOnce | services/tracking-worker/internal/usecase/trip_detection.go:157-166 | over every run: the tick with which a trip first appears is the creation time its row has ever after |
| TripRecords.SecondsAreWhole | services/tracking-worker/internal/storage/postgres/trip_repo.go:363-397 | durations are the nearest whole second in the tables, the last whole second that has passed at confirmation |
| LateArrivals.CyclesReadTheWindow | services/tracking-worker/internal/usecase/trip_detection_job.go:89-111 | over every run: a cycle stores exactly the unstored raw points recorded from the last processed point less the window up to the tick less the window, and calls late exactly those not after the last processed point |
| LateArrivals.TimelyPointIsJudged | services/tracking-worker/internal/usecase/trip_detection_job.go:81-111 | over every run: a point that arrives before any tick could have read past it is never stored as a late arrival, and is stored from the first tick on that reads past it, as long as the lookback of a new pair reaches it |
| LateArrivals.OverlookedIsLate | services/tracking-worker/internal/usecase/trip_detection_job.go:81-97 | for any pair whose first tick comes more than a day after its first point: that point is stored as late although it arrived at once |
| LateArrivals.WatermarkIsTrue | services/tracking-worker/internal/usecase/trip_detection.go:263-269 | over every run: a cycle that reads leaves its boundary as the watermark, and no raw point it could look back to and recorded before the watermark is left unstored |
| ArrivalOrder.ArrivalOrderDoesNotMatter | services/tracking-worker/internal/usecase/noise/pipeline.go:56-66 | over every run: the order in which points with ids of their own arrive between two ticks changes nothing that is ever stored |
| PhoneQueue.LocationQueue.Insert | apps/android-tracker/android/app/src/main/java/com/androidtracker/tracking/LocationQueue.kt:29-30 | a point whose id is queued already is ignored |
| PhoneQueue.LocationQueue.SetAcked | apps/android-tracker/android/app/src/main/java/com/androidtracker/tracking/LocationQueue.kt:35-36 | exactly the named rows become acked |
| PhoneQueue.LocationQueue.SetPending | apps/android-tracker/android/app/src/main/java/com/androidtracker/tracking/LocationQueue.kt:38-39 | exactly the named rows become pending with one more attempt |
| PhoneQueue.LocationQueue.SetFailed | apps/android-tracker/android/app/src/main/java/com/androidtracker/tracking/LocationQueue.kt:41-42 | exactly the named row becomes failed |
| PhoneQueue.LocationQueue.Retry | apps/android-tracker/android/app/src/main/java/com/androidtracker/tracking/LocationQueue.kt:59-78 | exactly the failed rows become pending again, activity names repaired |
| PhoneQueue.LocationQueue.Cleanup | apps/android-tracker/android/app/src/main/java/com/androidtracker/tracking/LocationQueue.kt:53-54 | exactly the acked rows older than the cutoff are deleted |
| PhoneQueue.LocationQueue.DropFailed | apps/android-tracker/android/app/src/main/java/com/androidtracker/tracking/LocationQueue.kt:56-57 | exactly the failed rows are deleted |
| PhoneQueue.OldestArePicked | apps/android-tracker/android/app/src/main/java/com/androidtracker/tracking/LocationQueue.kt:32-33 | what is loaded are pending rows in order of age, and a pending row is left out only when the batch is full of older ones |
| PhoneQueue.BatchSender.CheckSend | apps/android-tracker/android/app/src/main/java/com/androidtracker/tracking/BatchSender.kt:262-264 | a send goes on exactly with an open session and nothing in flight |
| PhoneQueue.BatchSender.LoadPoints | apps/android-tracker/android/app/src/main/java/com/androidtracker/tracking/BatchSender.kt:265 | the oldest pending points, as of the moment they are read |
| PhoneQueue.BatchSender.ClaimPoints | apps/android-tracker/android/app/src/main/java/com/androidtracker/tracking/BatchSender.kt:267 | the loaded points are in flight, whatever another send put there before |
| PhoneQueue.BatchSender.SendBatch | apps/android-tracker/android/app/src/main/java/com/androidtracker/tracking/BatchSender.kt:271-302 | the loaded points are sent as they were read; when the socket refuses, whatever is in flight by then is returned |
| PhoneQueue.BatchSender.TrySendBatch | apps/android-tracker/android/app/src/main/java/com/androidtracker/tracking/BatchSender.kt:262-302 | a send that nothing overtakes: the twenty oldest pending points go out when a session is open and nothing is in flight; a refused send returns them |
| PhoneQueue.BatchSender.HandleAck | apps/android-tracker/android/app/src/main/java/com/androidtracker/tracking/BatchSender.kt:304-329 | rejected points become failed, accepted and duplicated ones otherwise acked, every other row stays as it was, and nothing is in flight |
| PhoneQueue.AckSettles | apps/android-tracker/android/app/src/main/java/com/androidtracker/tracking/BatchSender.kt:304-329 | the queued updates of one answer together do exactly that to each row, rejection winning over acceptance |
| PhoneQueue.BatchSender.ReturnInflightToPending | apps/android-tracker/android/app/src/main/java/com/androidtracker/tracking/BatchSender.kt:331-336 | what was in flight becomes pending, and nothing is in flight |
| PhoneQueue.BatchSender.LoseConnection | apps/android-tracker/android/app/src/main/java/com/androidtracker/tracking/BatchSender.kt:146-176 | the session ends and what was in flight becomes pending |
| QueueHistory.LastUpdateDecides | apps/android-tracker/android/app/src/main/java/com/androidtracker/tracking/LocationQueue.kt:35-42 | over any list of queued updates the last one that names a row decides its status, time and reason |
| QueueHistory.AttemptsAreCounted | apps/android-tracker/android/app/src/main/java/com/androidtracker/tracking/LocationQueue.kt:38-39 | a row counts exactly the updates that returned it to the queue |
| QueueHistory.SettledPointsExpire | apps/android-tracker/android/app/src/main/java/com/androidtracker/tracking/LocationQueue.kt:53-54 | a point settled by an answer is removed by a cleanup if and only if its cutoff is past the answer; a pending or failed one never |
| QueueHistory.RetryRepairsLegacyNames | apps/android-tracker/android/app/src/main/java/com/androidtracker/tracking/LocationQueue.kt:59-78 | a failed point is retried from the start, and the gateway then takes it if and only if all but its activity name is in order and that name is unset, valid or one of the legacy ones, which the retry replaces |
| Gateway.Gateway.IngestOne | services/tracking-gateway/internal/usecase/tracker_ingestion.go:116-189 | validate, check, publish, mark, in that order, with each failure's own effect |
| Gateway.Gateway.IngestBatch | services/tracking-gateway/internal/usecase/tracker_ingestion.go:103-201 | the loop over events leaves the ledger, stream and three-way result, or aborts on a failed lookup or an unexpected error |
| Gateway.EveryEventIsAnswered | services/tracking-gateway/internal/usecase/tracker_ingestion.go:108-189 | an answered batch answers every event exactly once: accepted, duplicated or rejected |
| GatewayAnswers.GoodEventsAreValid | services/tracking-gateway/internal/usecase/tracker_ingestion.go:205-239 | an event passes the checks if and only if id and time are set and each reported number and name lies in its range |
| GatewayAnswers.AnswersAreTrue | services/tracking-gateway/internal/usecase/tracker_ingestion.go:103-189 | for any batch: it is answered exactly when it is not too large and no event abandons the call; each id is then answered as its event should be, and the ledger has gained exactly the accepted events that were marked |
| GatewayAnswers.DuplicatesAreKnown | services/tracking-gateway/internal/usecase/tracker_ingestion.go:123-188 | an id is answered duplicated if and only if its event is valid and its key is in the ledger when it is reached; accepted if and only if it is valid, new, publishable and acknowledged |
| GatewayAnswers.KnownIsNotPublishedAgain | services/tracking-gateway/internal/usecase/tracker_ingestion.go:123-131 | no call, answered or not, adds a message to the stream whose key was in the ledger before |
| Gateway.JobStepKeeps | services/tracking-gateway/internal/usecase/tracker_ingestion.go:123-188 | however many calls interleave and wherever they stop, the ledger and all accepted or duplicated answers name published events only |
| Gateway.StoredUnderOwnKey | libs/eventbus/nats/jetstream.go:85-106 | a published message is in the stream under its own user, device and event if and only if its id was not in the duplicate window, or that very key was stored before |
| Gateway.SameIdFromTwoDevices | services/tracking-gateway/internal/storage/postgres/ingestion_dedup_repo.go:11-50 | the documented scope fails: both devices are told accepted, both enter the ledger, and one message is nowhere |
| Ingestion.ValidEventsArePublishable | services/tracking-gateway/internal/usecase/tracker_ingestion.go:133-168 | an event that passes the gateway's checks also passes the payload's and the envelope's, and the envelope carries its id, position and time |
| Ingestion.Processor.Handle | services/tracking-worker/internal/usecase/location_event_processor.go:87-166 | invalid messages are dead-lettered and acked, valid ones inserted and acked, and either is nacked when its write fails |
| Ingestion.PublishedIsStored | services/tracking-worker/internal/usecase/location_event_processor.go:116-130 | what the gateway publishes is never dead-lettered; acked exactly when the database answers, then stored with the event's position and time, once |
| Ingestion.AcknowledgedIsKept | services/tracking-worker/internal/usecase/location_event_processor.go:87-166 | an acknowledged message is stored under its key or counted as dead-lettered, never neither; a nacked one changes nothing; no stored row is ever changed |
| Ingestion.MissingSpeedIsStoredAsZero | services/tracking-worker/internal/usecase/location_event_processor.go:180-200 | speed, bearing, activity confidence and battery level are each stored as reported if and only if they were reported; otherwise the stored row is that of an event reporting zeroes, against the comments of internal/domain/raw_location_point.go:30-35 |
| MissingFields.ImpliedSpeedIsOverruled | services/tracking-worker/internal/domain/processed_location_point.go:79-93 | the stored zero keeps a point from counting as movement whose implied speed would count were the speed unset |
| MissingFields.NoSpeedNoTrip | services/tracking-worker/internal/domain/processed_location_point.go:79-93 | over every run whose raw points all come from events without a speed and without a confidence in walking or running, with positive thresholds for speed and confidence, no trip is created and no point linked |
| Delivery.ReachKeeps | apps/android-tracker/android/app/src/main/java/com/androidtracker/tracking/BatchSender.kt:262-336 | the protocol's invariant holds after any steps in any order: sends suspended between check, load, claim and send and overtaking one another, lost and repeated answers, crashes of app and gateway, redelivery |
| Delivery.AcknowledgedWasPublished | services/tracking-gateway/internal/usecase/tracker_ingestion.go:181-188 | in every reachable state each point the phone holds or dropped as acked was published, each ledger entry was published, and a queued point is in the queue, dropped as acked or dropped as failed |
| Delivery.UnsettledIsNeverDeleted | apps/android-tracker/android/app/src/main/java/com/androidtracker/tracking/LocationQueue.kt:53-57 | from any reachable state, no step deletes a pending row, and what a step drops as acked or as failed had that status in the state it was dropped from |
| Delivery.MissingWasSettled | apps/android-tracker/android/app/src/main/java/com/androidtracker/tracking/LocationQueue.kt:53-57 | over every run, a queued point missing from the queue left it at one step, as an acked or failed row |
| Delivery.RawHoldsWhatWasQueued | services/tracking-worker/internal/storage/postgres/raw_location_repo.go:30-60 | in every reachable state each raw row has the position and time the phone queued for that event, confirmed messages are stored, and nothing was dead-lettered |
| Delivery.StoredOnce | services/tracking-worker/internal/storage/postgres/raw_location_repo.go:30-60 | nothing that happens later changes or removes a stored row: at-least-once delivery, exactly-once effect |
| Delivery.LedgerIsStored | services/tracking-gateway/internal/storage/postgres/ingestion_dedup_repo.go:38-50 | with one user and device, every ledger entry names a message stored under that very key |
| Delivery.LedgerGapIsForeign | libs/eventbus/nats/jetstream.go:85-106 | over every run of any owners, a ledger entry whose message is not in the stream under its key names an event id stored under another user or device |
| FastSegments.BuildSpeedEdges | services/tracking-gateway/internal/usecase/tracking_query.go:263-281 | an edge for each pair of neighbours in one segment of one device with time between them |
| FastSegments.CollectFastSegments | services/tracking-gateway/internal/usecase/tracking_query.go:283-341 | the loop with its growing run gives the segments of the runs characterised below, those that last long enough |
| FastSegments.RunsAreMaximal | services/tracking-gateway/internal/usecase/tracking_query.go:327-339 | the runs are exactly the maximal chained runs of edges at or above the threshold, from left to right |
| FastSegments.PercentileGrows | services/tracking-gateway/internal/usecase/tracking_query.go:349-364 | interpolated percentiles are monotone in p across floor and ceiling |
| FastSegments.EdgesOfPointsFit | services/tracking-gateway/internal/usecase/tracking_query.go:263-281 | edges of time-sorted points with unique ids follow one another and meet where they chain |
| FastSegments.RunIsFast | services/tracking-gateway/internal/usecase/tracking_query.go:296-308 | durations telescope along a run, so its distance is at least the threshold held over its span |
| FastSegments.MaximalRunFits | services/tracking-gateway/internal/usecase/tracking_query.go:301-323 | a segment has one point more than edges, lies in one segment of one device, averages at least the threshold, and has no negative uplift |
| FastSegments.RunsDoNotOverlap | services/tracking-gateway/internal/usecase/tracking_query.go:327-339 | of two runs in order the first ends no later than the second starts |
| FastSegments.SegmentsDoNotOverlap | services/tracking-gateway/internal/usecase/tracking_query.go:226-247 | no two of the returned segments of one device overlap in time |
| FastSegments.GetFastSegments | services/tracking-gateway/internal/usecase/tracking_query.go:178-248 | range, preset and limit errors in that order; otherwise the ranked segments of all devices |
| FastSegments.FastSegmentsAreFast | services/tracking-gateway/internal/usecase/tracking_query.go:211-247 | each returned segment is a maximal long-enough run at or above its device's threshold, which is at least the baseline; ranks follow uplift, speed and start |
| FastSegments.NoFastSegmentIsMissed | services/tracking-gateway/internal/usecase/tracking_query.go:226-243 | each such run of any device is returned, unless the list is full of segments it does not outrank |
| Thresholds.ValueAtRank | services/tracking-gateway/internal/usecase/tracking_query.go:349-364 | at p = k/(n-1) the percentile is the k-th smallest speed, counting from zero |
| Thresholds.ValueBetweenRanks | services/tracking-gateway/internal/usecase/tracking_query.go:349-364 | between two neighbouring ranks it moves evenly from one speed to the next |
| Thresholds.ValueSplitsSpeeds | services/tracking-gateway/internal/usecase/tracking_query.go:349-364 | at least floor(p(n-1))+1 edges are no faster than it, and at least n-ceiling(p(n-1)) no slower |
| Thresholds.BaselineIsMedian | services/tracking-gateway/internal/usecase/tracking_query.go:213-218 | half the edges and more are no faster than the baseline, and half and more no slower |
| Thresholds.FastEdgesAreCounted | services/tracking-gateway/internal/usecase/tracking_query.go:213-219 | with distinct speeds exactly n-ceiling(p(n-1)) edges count as fast |
| Thresholds.UpliftIsExact | services/tracking-gateway/internal/usecase/tracking_query.go:301-323 | the uplift is what the average is above the baseline, in percent |
| Thresholds.RanksDescend | services/tracking-gateway/internal/usecase/tracking_query.go:226-247 | of two returned segments the earlier one has the higher uplift, then the higher average, then the earlier start |
| Thresholds.LongRunIsListed | services/tracking-gateway/internal/usecase/tracking_query.go:206-247 | a run of one device that lasts the minimum from its first point to its last is returned with its times and average, unless the list is full of better ones |
| Thresholds.ReturnedSegmentsAreLong | services/tracking-gateway/internal/usecase/tracking_query.go:296-300 | and whatever is returned lasted that long |
| Thresholds.NeighboursMakeEdges | services/tracking-gateway/internal/usecase/tracking_query.go:263-281 | each pair of neighbours of one device and segment with time between them has its edge, with its distance and speed |
| TrackSimplification.GroupIsInterval | services/tracking-gateway/internal/storage/postgres/tracking_query_repo.go:172-188 | the running sums of borders number groups that are intervals of the track |
| TrackSimplification.DurationIsSpan | services/tracking-gateway/internal/storage/postgres/tracking_query_repo.go:189-194 | the aggregated duration of a group is the time from its first to its last point |
| TrackSimplification.MovingGroupsAreLong | services/tracking-gateway/internal/storage/postgres/tracking_query_repo.go:195-203 | after reclassifying, every moving group lasts at least min_move_sec |
| TrackSimplification.ReclassifyingIsIdempotent | services/tracking-gateway/internal/storage/postgres/tracking_query_repo.go:195-220 | regrouping and reclassifying again changes nothing |
| TrackSimplification.PointsAreConserved | services/tracking-gateway/internal/storage/postgres/tracking_query_repo.go:227-255 | merged_count over all rows adds up to the number of accepted points |
| TrackSimplification.RowsAreReal | services/tracking-gateway/internal/storage/postgres/tracking_query_repo.go:227-253 | a stay lasts at least min_stay_sec within one segment of one device; a point listed alone moves in a long group or stands in a short one |
| TrackSimplification.SlowSegmentIsOneStay | services/tracking-gateway/internal/storage/postgres/tracking_query_repo.go:146-255 | a segment slow throughout that lasts long enough comes out as one stay with all its points merged |
| TrackSimplification.FastSegmentIsItsPoints | services/tracking-gateway/internal/storage/postgres/tracking_query_repo.go:146-255 | a segment fast throughout that lasts long enough comes out as one move for each of its points |
| TrackSimplification.StaysKeepTogether | services/tracking-gateway/internal/storage/postgres/tracking_query_repo.go:158-188 | from the first to the last point of a stay there is one device and no break |
| TrackSimplification.CenterIsInside | services/tracking-gateway/internal/storage/postgres/tracking_query_repo.go:231 | the centre of a stay lies between its points, in latitude and in longitude |
| TrackSimplification.TrackRunsForward | services/tracking-gateway/internal/storage/postgres/tracking_query_repo.go:255 | the rows come in time order, those of one instant in the order of their event ids, stays first |
| RouteMatching.NormalizePolyline | services/tracking-worker/internal/usecase/route_matching.go:85-135 | cumulative array, forward pointer and interpolation compute, for every output, what a search from the start would |
| RouteMatching.SearchResumes | services/tracking-worker/internal/usecase/route_matching.go:113-117 | a search for a greater length may resume where the last one stopped |
| RouteMatching.OutputsAreEvenlySpaced | services/tracking-worker/internal/usecase/route_matching.go:104-132 | each output is the point at arc length i*total/(n-1), between the two vertices that enclose it, at a fraction within [0,1]; the pointer never runs off the end |
| RouteMatching.FirstOutputIsStart | services/tracking-worker/internal/usecase/route_matching.go:104-132 | the first output is the start of the polyline |
| RouteMatching.LastOutputIsEnd | services/tracking-worker/internal/usecase/route_matching.go:104-132 | the last output is its end |
| RouteMatching.FindBestMatch | services/tracking-worker/internal/usecase/route_matching.go:28-82 | the loop over candidates keeps the first of the best scores among those that pass every filter |
| RouteMatching.BestMatchIsTrue | services/tracking-worker/internal/usecase/route_matching.go:36-82 | a route is named if and only if some candidate passes every filter, and it is the first of least average distance, with a score in [0,1] |
| RouteMatching.IdenticalTripScoresOne | services/tracking-worker/internal/usecase/route_matching.go:36-82 | a trip along a candidate's own template, end and length always yields score 1 |
| RouteMatching.AverageIsBetween | services/tracking-worker/internal/usecase/route_matching.go:137-146 | the average distance lies between the least and the greatest distance of the samples |
| RouteMatching.NearbyTripIsMatched | services/tracking-worker/internal/usecase/route_matching.go:36-82 | a trip beside a fitting candidate, no sample further than some distance within the threshold, is matched with at least the score that distance earns |
| RouteMatching.FarTripIsNotMatched | services/tracking-worker/internal/usecase/route_matching.go:64-73 | a trip further than the threshold from every candidate is matched with none |
| RouteMatching.NamedRouteFits | services/tracking-worker/internal/usecase/route_matching.go:49-67 | a named route ends within the radius of the trip's end and is about as long |
| Base64Url.Base64UrlDecode | apps/android-tracker/src/api/jwt.ts:8-25 | the loop with its shifting buffer computes the decoder of the theorems |
| Base64Url.WrappingIsHarmless | apps/android-tracker/src/api/jwt.ts:15-22 | for any text, letting the never-masked buffer wrap at 32 bits gives the bytes that masking it would |
| Base64Url.RoundTrip | apps/android-tracker/src/api/jwt.ts:8-25 | any bytes come back from their base64url text (section 5 of RFC 4648), padded or not, whatever follows the padding |
| Base64Url.JunkIsSkipped | apps/android-tracker/src/api/jwt.ts:12-18 | characters outside the alphabet are skipped wherever they stand |

## Left out

- The great-circle formula and floating-point rounding: distances are reals under an abstract metric, so the NaN of a similarity threshold of zero becomes a score no comparison prefers.
- Overflow of 64-bit durations and counters; integers are unbounded.
- One user and device per worker: its tables, state and cycle are those of one pair, and the job's loop over pairs only decides whether the pair is due. Rows therefore carry no user or device id, received or processed times, or algorithm version.
- Trip identifiers are drawn from a counter in place of random UUIDs, and the event ids a phone creates never repeat.
- The clock is a parameter of every cycle, call and step; no theorem about the worker needs it to move forward.
- JSON, UUID and timestamp texts: messages are values, times are instants, and the zero instant stands for Go's unset time. Event ids are compared character by character.
- SavedCycle.SavedAsEntered: states the trips, links and state of a saved batch, not the default 'unknown' the processed table fills in for an empty activity type, which the worker never tests for.
- TripLife.TripsAddUp: the confirming times are those of a log of openings and closings that the theorem keeps beside the tables; "long, far and dense enough" compares with the configured minima.
- TripLife.StandstillsEndTrips: requires movement to be faster than standstill, as a standstill may otherwise be dated before the trip.
- LateArrivals.TimelyPointIsJudged: in time means before any tick that could read past the point, as only ticks read; the lookback condition is needed, as LateArrivals.OverlookedIsLate shows; that the pair is read at all needs the job's window to be no longer than the 45 seconds of a new state, which no step ever changes.
- RestingDevice.RestingDeviceStaysPut: requires that no two fixes can be told apart; that none can be told apart from the first does not suffice, as RestingDevice.NearTheFirstIsNotEnough shows.
- GatewayAnswers.AnswersAreTrue: one call that no other call interleaves with, from any ledger and stream; interleaved calls are the subject of Gateway.JobStepKeeps.
- RestingDevice.UncertaintyIsExact: the fixes are good, in time order less than a segment's longest gap apart, and no faster than their activity allows; for any other batch CreditsAreExact says what each is credited with.
- QueueHistory.RetryRepairsLegacyNames: a failed point whose recording time is no valid text fails again and is left out.
- SmoothingPauses.PausesAreNotSmoothed: for points without a pause before them the smoother's average is stated by Smoothing.Smooth alone.
- JobRuns.TripsRunForward: requires a non-negative stationary window, since a negative one would accept points of equal times.
- Noise.IsStationaryWindow: with a configured minimum of no points the source would index an empty window; the model answers false there.
- NoiseDistance.SpeedBound: requires accepted history within the ceiling, which the run theorems provide; distance across a reloaded long gap is bounded, not excluded.
- Gateway.SameIdFromTwoDevices: the duplicate window is a set that forgets at any time, not a clock of two minutes.
- Delivery.ReachKeeps: one phone, whose owner may change between sessions; the redelivery limit, retention of the stream and every question of liveness are left out.
- NoiseCut.CutIsHarmless: the second batch reloads every accepted point, where the source reloads the latest hundred; compares the accepted points, not the reasons of rejected ones; requires a non-negative stationary window, and distinct event ids within a batch as the raw table has.
- CutWitnesses.SpikeEndsTheBatch: does not hold the other conditions fixed, as the point accepted too many also becomes an anchor.
- Delivery.RawHoldsWhatWasQueued: speaks of positions and times; an activity name may be rewritten by a retry.
- PhoneQueue.BatchSender.LoseConnection: reconnecting, backing off and token refresh fields are not part of the model. No exclusion between coroutines is assumed: checking, loading, claiming and sending are steps of their own, of any number of sends, and each queued database update is one more.
- FastSegments.GetFastSegments: devices are taken in the order of their first edges where the source iterates a map in any order, and ties are kept stable; no stated property depends on either. The SQL that numbers segments is not part of the model.
- TrackSimplification.RowsAreReal: requires points in the order the query sorts them; the averaged position, speed, accuracy and most frequent activity columns are left out.
- RouteMatching.OutputsAreEvenlySpaced: at least two outputs and a positive length, as for one output or none the source returns the first point only.
- RouteMatching.LastOutputIsEnd: equal coordinates need a metric that tells points apart; otherwise the last output is at distance zero from the end.
- Published trip events and dead-letter payloads: only whether publishing succeeded is modelled.
- The reprocessing path, which its authors mark as unfinished and which does not rebuild trips.
- Route creation, trip counters and trip deletion: their steps are not one transaction, so the simple invariants do not hold there.
- Deletion of single points: the gateway's DeletePoint in services/tracking-gateway/internal/storage/postgres/tracking_query_repo.go removes a raw row, and by cascade its processed row, which changes the history a later cycle reloads; the run theorems are about runs without it.
- Sessions, authentication, HTTP, metrics, the web and mobile user interface.
