# Verified model of the vehicle cache and its loops

redswitchboard keeps one served snapshot per vehicle. Two writers feed it: slow, authoritative polls
and fast, partial stream frames. This project models that merge, the loops that feed and drain it, and
the components around them, and proves what the program promises over whole runs: fields are never
clobbered, served time never goes back, a real drive is never rejected, no change is lost to a slow
consumer, a token is refreshed once, an id never changes.

How it is built:

- **Values and steps.** `Clock`, `Words`, `Units`, `Vehicle`, `Text` hold time, 64-bit wrap-around,
  conversions and the canonical model. `MergeModel`, `Integrity`, `Trigger` say what one lock-held step
  does; `Registers`, `Anchors`, `ServedTime`, `Liveness`, `SessionRuns`, `Restarts` prove properties of
  arbitrary runs of those steps.
- **Objects.** `Merger`, `Service`, `AsofStore`, `SnapshotHeap`, `Trigger`, `Integrity`, `Poller`,
  `Broadcaster`, `TokenManager`, `IdMap`, `PayloadReader` hold the program's classes with the fields it
  updates; each method is proved to take exactly its step. `CopyOnWrite` runs the heap merger on any
  calls: it ends where the functional run ends and every snapshot that existed before still reads the same.
- **Protocols.** `Broadcast`, `PollProtocol` and `TokenManager` are step machines in which any number of
  threads may be between any two lock-held regions; their theorems hold for every interleaving.
- **Codecs, files and reads.** `DataUpdate` and `RoundTrip`, `TeslaFi`, `Payload`, `PayloadReader`, `ReaderRuns`.

Conventions: time is integer nanoseconds with the zero time far in the past, and subtraction saturates;
floating-point numbers are reals; a presence bitmask is a set; ground distance, the GUID hash, numeral
formatting and the calendar are arbitrary functions passed in; the clock, random draws, network replies
and whether a write succeeds are parameters. One step reads the clock once.

## Where the code does less than it says

The code is kept as it is; each claim comes with the exact condition under which it holds, for all inputs, and
with inputs on which it does not.

- *Charge counters should balance* (internal/cache/session.go:9-14, 73-75). The merge keeps the last
  non-zero power, so every zero reading counts as another close. Exactly when they do: `ChargesBalanceExactly`,
  from `ChargeCountersAreExactly`; input: `RepeatedZeroClosesTwice`.
- *A trigger within the minimum interval of a success is refused, and concurrent triggers fold into one*
  (internal/poll/poll.go:424-426). Check and send are separate steps, so two triggers past their check can each
  cause a poll. Exactly when three successes cannot crowd one interval: `TwoApartExactly`; input: `ThreeSuccessesAtOnce`.
- *The shift in `stretch` is guarded against overflow* (internal/poll/poll.go:650). From a base of 2^44 ns
  (about 4 h 53 min) the doubled interval can wrap to a small positive one. Exactly: `StretchIsDoublingExactly`;
  input: `LongBaseSlips`.
- *The body cannot have changed while AsOf is unchanged* (internal/protocol/tesla/fleet/poll/v1/adapter.go:259-264).
  A late poll changes content under the same AsOf, and a trim without a car type is shown differently the second
  time. Exactly: `LateMergeIsUnseen` and `SettlesExactly`, `TwoReadsAgreeExactly`; input: `LatePollChangesContent`.
- *The lightweight surface agrees with vehicle_data* (internal/protocol/tesla/fleet/poll/v1/adapter.go:291-292).
  It looks at the snapshot, the payload at what was last translated and the gear held. Exactly:
  `SurfacesAgreeExactly`; inputs: `LateSleepIsUnseen`, `LateParkIsUnseen`.
- *A degenerate expires_in cannot collapse the refresh delay* (internal/protocol/tesla/auth/manager.go:144-150)
  holds for missing and negative lifetimes (`MissingLifetimeIsEightHours`), not for one second or one that overflows
  a 64-bit duration. Exactly: `CollapsesExactly`, `WaitsThreeQuartersExactly`, `OneSecondExactly`; inputs:
  `LifetimesThatCollapse`.
- *An id is stable across restarts even without the file* (internal/plugin/sink/idmap/idmap.go:3-6). A shared hash
  moves one GUID along, and that may displace a third. Exactly: `FirstIdsAreHashesExactly`, `OrderNeverMattersExactly`;
  input: `UnsavedIdDependsOnOrder`.

## Model

| member | source | states |
|---|---|---|
| `Registers.MergeRefinesRegisters` | internal/cache/merge.go:153-314 | after any history of polls, gated frames and stall resets, every streamed field of the state (value, ownership, last frame time, anchor) is what a register watching only that field would hold, so a sparse frame or a poll never touches a field it must not; the three charge-session fields have their ownership here and their values in `MergeRefinesSession` |
| `Registers.GateProjects` | internal/cache/merge.go:357-367 | whether the gate keeps one field's bit depends on that field's own served value, anchor and reading alone |
| `Registers.PollsOwnTheRest` | internal/cache/merge.go:158-172 | every field outside the streamed ones and liveness is the last poll's, over any run |
| `Registers.MergeRefinesSession` | internal/cache/merge.go:166-172 | after any history of polls, gated frames and stall resets, the served charge session is what a register watching only it would hold: the first frame's whole, a fresher stream's against a poll, else the poll's, with the fields each frame carries |
| `Registers.SessionUnderFrames` | internal/cache/merge.go:287-311 | over any frames a served charge session keeps the poll's remaining time and fast-charger flag and holds the last non-zero power, last current and last energy carried |
| `Registers.DisjointFramesCommute` | internal/cache/merge.go:262-286 | with gate and stall reset off, frames that share no field give the same state and ownership in either order |
| `Registers.StepProjects` | internal/cache/merge.go:153-314 | one merge seen through one field is one register step |
| `Registers.CommitAgesExactly` | internal/cache/merge.go:390-407 | a commit leaves ownership and liveness alone until the last frame is older than the allowance; then it drops all ownership, and takes an online car offline exactly when the poll is as old or there was none |
| `Registers.AcceptedFieldIsOwned` | internal/cache/merge.go:249-268 | a field a frame supplies is served and owned at once, unless the frame is already older than the allowance |
| `Registers.OwnedFieldIsHeld` | internal/cache/merge.go:158-172 | over any run a field a frame has supplied stays the stream's, and keeps the stream's last accepted reading against every older poll, as long as no clock is more than the allowance past the last frame |
| `Anchors.ServedValueIsAtItsAnchor` | internal/cache/merge.go:166-180 | the served position and odometer are always readings taken at their own anchors `gpsAt` and `odoAt` |
| `Anchors.RejectionHasAWitness` | internal/cache/integrity.go:112-126 | a cleared odometer or location bit is owed to an earlier reading of that same field from which the car could not have reached the new one |
| `Anchors.NoFalseRejection` | internal/cache/integrity.go:112-190 | on any drive in which each odometer a frame brings is at most 2 m behind and 150 m/s ahead of every earlier one, and each position within 100 m or 150 m/s, over at least a second, no odometer or location bit is ever cleared, however sparse the fields and however polls interleave |
| `Anchors.CompatibleDriveIsAdmitted` | internal/cache/integrity.go:112-190 | the same for any drive whose frames are compatible with every earlier reading |
| `Anchors.ServedIsInRange` | internal/cache/integrity.go:127-175 | if polls are in range, every reachable served charge level is in [0,100] and speed in [0,150] |
| `Anchors.OdometerNeverRollsBack` | internal/cache/integrity.go:150-163 | no frame moves a served positive odometer back by more than the slack, and an admitted one is within the pace |
| `Anchors.OdometerGrowthTelescopes` | internal/cache/integrity.go:150-190 | on a poll-free run of accepted readings a second apart, served growth is at most 150 m/s times the time between the first and last anchors |
| `Anchors.CountersMatchClearedBits` | internal/cache/merge.go:357-367 | total counter increments equal total bits cleared, over any run |
| `Integrity.GateStream` | internal/cache/integrity.go:127-178 | the step-by-step gate leaves exactly the bits and reasons, in order, of the four checks |
| `Integrity.GateIsExact` | internal/cache/integrity.go:112-178 | a bit survives if and only if it was carried and its field's reading is admitted, stated in products instead of the code's quotients |
| `Integrity.GateInNumbers` | internal/cache/integrity.go:25-55 | each of the four bits is lost exactly past its bound, the bounds and the window written out as numbers |
| `Integrity.OtherFieldsPass` | internal/cache/integrity.go:127-131 | no other field is judged, and a frame without a state is not judged at all |
| `Integrity.ReasonsCountClearedBits` | internal/cache/integrity.go:131-134 | exactly one reason per cleared bit |
| `Integrity.ReasonNamesClearedBit` | internal/cache/integrity.go:131-134 | a reason is recorded if and only if the bit it names was cleared |
| `Integrity.IntegrityCounters.IncAll` | internal/cache/merge.go:362-365 | counting a frame's rejections adds one to the right counter for each |
| `Integrity.CountersByReason` | internal/cache/integrity.go:85-96 | each counter rises by the number of times its own reason was given |
| `ServedTime.AsOfIsMaximum` | internal/cache/merge.go:380-389 | the served AsOf is the maximum of the restart floor and every poll and frame time merged so far, late ones included |
| `ServedTime.AsOfNeverRegresses` | internal/vehicle/vehicle.go:229-243 | served time never moves back between any two points of a run |
| `Clock.MaxTime` | internal/cache/merge.go:541-550 | the loop returns the latest of the given times, never before the zero time |
| `Liveness.EpisodeIsLatched` | internal/cache/merge.go:207-222 | `offlineCount` is the length of the trailing run of offline reports and the latch is whether the gear at the episode's start was a moving one, over any run |
| `Liveness.SettledOfflineIsAsleep` | internal/cache/merge.go:189-222 | an offline report is served asleep exactly when it is at least the second of an episode that did not start moving |
| `Liveness.LostDriveNeverSleeps` | internal/cache/merge.go:196-206 | a car lost while driving is not served asleep until a report other than offline ends the episode, whatever frames interleave (polls carry a state, or no first frame claims sleep itself) |
| `Liveness.OnlineReportIsServed` | internal/cache/merge.go:390-407 | an online poll is served online unless the stream has stalled and that poll is stale too |
| `Liveness.OtherReportsAreServed` | internal/cache/merge.go:207-212 | a report of sleep, or of nothing known, is served as it is and ends the offline episode |
| `Liveness.FrameMakesOnline` | internal/cache/merge.go:281-285 | a frame never wakes a sleeping car and makes any other served car online, unless both signals are stale |
| `Trigger.WakeDebouncer.Frame` | internal/cache/trigger.go:95-110 | one frame moves the wake run as the specification step says |
| `Trigger.WakeFiresExactly` | internal/cache/trigger.go:79-110 | a wake fires at a frame if and only if it is the first of its maximal asleep run that is at least the third and 3 s after the run's first |
| `Trigger.OneWakePerRun` | internal/cache/trigger.go:67 | between two wakes the car was seen awake |
| `Trigger.DriveDebouncer.Boundary` | internal/cache/trigger.go:127-148 | one frame moves the drive class as the specification step says |
| `Trigger.DriveSessionsBalance` | internal/cache/trigger.go:112-148 | fired boundaries strictly alternate, stay 5 s apart in frame time even out of order, and opens minus closes is the current class minus the seeded one |
| `Trigger.DriveSettles` | internal/cache/trigger.go:139-147 | a frame at least 5 s after the last boundary leaves the class equal to the actual gear class; an earlier one cannot move it |
| `Trigger.SessionCounters.DriveFired` | internal/cache/session.go:30-39 | a fired boundary counts as an open exactly when the merged gear is a moving one |
| `SessionRuns.DetectorSeesGearFrames` | internal/cache/merge.go:324-346 | over polls and frames in any order, drive detector and drive counters behave as on the frames' served gears alone |
| `SessionRuns.DriveCountersBalance` | internal/cache/session.go:9-14 | over any interleaving, drives opened minus closed is the current class minus the seeded one |
| `SessionRuns.ChargeCountersSkew` | internal/cache/trigger.go:170-182 | on frames with non-negative power at most one charge opens, it stays open, and every zero reading after it counts as a close |
| `SessionRuns.ChargeCountersAreExactly` | internal/cache/merge.go:287-311 | charge state and both counters of a run of frames, read off the frames alone: open from the first positive reading on, closed once per zero reading after it |
| `SessionRuns.ChargesBalanceExactly` | internal/cache/session.go:73-84 | the charge counters balance if and only if, on a charge already under way, no frame reads zero, and otherwise no frame reads a positive power or exactly one zero reading follows the first that does |
| `SessionRuns.RepeatedZeroClosesTwice` | internal/cache/merge.go:294 | a charge that then reads 0 kW twice is closed twice |
| `SessionRuns.WakeSeesSleepFrames` | internal/cache/merge.go:332-338 | the wake detector behaves as on the frames that crossed no session boundary |
| `SessionRuns.WakePollExactly` | internal/cache/merge.go:324-339 | a frame fires a wake poll if and only if it crosses no boundary and confirms its asleep run for the first time |
| `SessionRuns.SleepingCarWakesOnce` | internal/cache/merge.go:281-285 | a poll-free run starting asleep stays asleep and fires at most one wake poll |
| `SnapshotHeap.CopyStreamed` | internal/cache/merge.go:68-74 | the table-driven loop copies exactly the present fields, sharing the position object, and leaves the source alone |
| `SnapshotHeap.TableIsComplete` | internal/cache/merge.go:34-66 | every streamed field but the three of the charge session has a row of its own |
| `SnapshotHeap.CloneState` | internal/cache/merge.go:519-529 | the clone is a new state with a new position object and the same content |
| `Vehicle.CopyIsPerField` | internal/cache/merge.go:28-33 | no field's bit moves another field, liveness or a poll-owned field |
| `Vehicle.FieldsDetermineState` | internal/vehicle/vehicle.go:82-190 | a state is its streamed fields, its liveness and what polls own, so per-field results are about the whole state |
| `Vehicle.AsOfTimeInWords` | internal/vehicle/vehicle.go:246-258 | the stamped time, else the later of the two times the snapshot is made of |
| `Merger.Merger.constructor` | internal/cache/merge.go:134-142 | a new merger serves nothing under the persisted floor |
| `Merger.Merger.MergePoll` | internal/cache/merge.go:153-187 | one poll takes exactly the poll step, on a fresh state, raises the mark to the served time and notifies every subscriber exactly on a change |
| `Merger.Merger.ClassifyPollLiveness` | internal/cache/merge.go:207-222 | writes only the new clone's liveness and the episode, as classified |
| `Merger.Merger.MergeStream` | internal/cache/merge.go:227-314 | one frame takes exactly the frame step after the gate, with its rejections counted |
| `Merger.Merger.MergeLive` | internal/cache/merge.go:287-311 | the session fields the frame carries, merged onto a copy |
| `Merger.Merger.MergeStreamDetect` | internal/cache/merge.go:324-351 | merge, detectors and counters under one lock; a poll is asked for exactly on a drive boundary, a charge end or a wake |
| `Merger.Merger.Commit` | internal/cache/merge.go:380-425 | stamps, ages out and stores the snapshot; subscribers get one event exactly when it changed |
| `Merger.Merger.NotifyAll` | internal/cache/merge.go:413-422 | every channel gets one event unless it is full, in any order |
| `Merger.NotifiedInWords` | internal/cache/merge.go:413-422 | a change adds one event to every channel with room for a fourth, and without a change nothing moves |
| `Merger.FourSlots` | internal/cache/merge.go:24-26 | four events at most wait in a channel; one more is dropped |
| `Merger.Merger.Subscribe` | internal/cache/merge.go:477-482 | adds one new empty channel |
| `Merger.Merger.Unsubscribe` | internal/cache/merge.go:483-490 | a cancelled subscription's channel goes, and no other |
| `Merger.Merger.Receive` | internal/protocol/tesla/stream/v1/sink.go:296-299 | taking an event off a channel leaves one fewer there |
| `CopyOnWrite.RunCalls` | internal/cache/merge.go:80-84 | on any sequence of polls and frames the heap merger ends where the functional run ends, and no state, position or session object that existed before, served or a caller's own, is changed, although a frame's position object is shared into what is served |
| `Service.Service.constructor` | internal/cache/service.go:64-92 | one merger per identity, seeded with its own persisted mark, sharing store and counters |
| `Service.Service.MergePoll` | internal/cache/service.go:143-150 | a poll reaches its vehicle's merger alone; an unknown id changes nothing |
| `Service.Service.Put` | internal/cache/service.go:166-190 | keepalives, stateless frames and unknown ids change nothing; any other frame takes its vehicle's step and may trigger a poll |
| `AsofStore.MarkStore.Advance` | internal/cache/asofstore.go:71-81 | a mark moves only forward, and reaches the file as the throttle allows |
| `AsofStore.MarkStore.Persist` | internal/cache/asofstore.go:97-114 | a write replaces the whole file or leaves it, and moves the throttle either way |
| `AsofStore.StepRaisesFile` | internal/cache/asofstore.go:63-114 | no advance, flush, failed write or restart takes back any recorded mark, and the file never runs ahead of memory |
| `AsofStore.CompletedWriteRecordsAll` | internal/cache/asofstore.go:83-89 | a completed flush records every mark, and a reload brings them back |
| `AsofStore.RaisedMarkIsWritten` | internal/cache/asofstore.go:69-81 | in any life of the process on a clock that does not go back, whenever an advance raises a mark the file has it at once if and only if the last write was ten seconds ago or more, or there was none |
| `Restarts.StepKeepsConsistent` | internal/cache/service.go:86-89 | every delivery, flush and crash keeps each vehicle's mark equal to its served time and the file behind it |
| `Restarts.MarksEqualServedTime` | internal/cache/merge.go:386-389 | over any deliveries, failed writes and crashes, the store's mark of every vehicle is the time it is served under |
| `Restarts.ServedNeverBelowLastWrite` | internal/cache/merge.go:129-133 | however often the process crashes, no vehicle is served under a time earlier than the last completed write recorded for it |
| `Restarts.LateRaiseSurvivesCrashes` | internal/cache/asofstore.go:69-81 | a delivery that raises a vehicle's served time ten seconds or more after the last write is never lost, whatever follows, crashes included |
| `Restarts.StoreFollows` | internal/cache/merge.go:386-389 | over any run the store is what the served times it was told leave |
| `Broadcast.NoLostUpdate` | internal/protocol/tesla/stream/v1/sink.go:269-321 | in every reachable state after the first merge that moved a pushed value, the last pushed columns are the served ones, or an event is queued, or a push is pending or under way |
| `Broadcast.QuietMeansCaughtUpExactly` | internal/protocol/tesla/stream/v1/sink.go:269-280 | an idle consumer is always up to date if and only if the replay left it so when it subscribed |
| `Broadcast.PushesAreSpaced` | internal/protocol/tesla/stream/v1/sink.go:300-317 | live pushes are at least the coalescing window apart, in every interleaving |
| `Broadcast.Drains` | internal/protocol/tesla/stream/v1/sink.go:290-318 | once merges stop, the loop can always finish, and then the consumer has exactly what is served |
| `Broadcaster.Consumer.Broadcast` | internal/protocol/tesla/stream/v1/sink.go:290-318 | the select loop handles events, coalescing and keepalive ticks and the end of the subscription as specified, until it is over or the consumer is dropped |
| `Broadcaster.Consumer.Wake` | internal/protocol/tesla/stream/v1/sink.go:291-317 | one pass of the select has the specified effect |
| `Broadcaster.LoopIsItsPasses` | internal/protocol/tesla/stream/v1/sink.go:290-318 | the loop is its passes one after another until it is over, and handles nothing after |
| `Broadcaster.IterationIsRun` | internal/protocol/tesla/stream/v1/sink.go:296-317 | every iteration of the loop, with the merges that land during it, is a run of the step machine, and its counters count the pushes made and the consumer dropped |
| `DataUpdate.ColumnMovesAreChanges` | internal/cache/merge.go:497-515 | whatever moves a pushed column counts as a change to subscribers |
| `MergeModel.ChangedIsWatched` | internal/cache/merge.go:497-515 | subscribers hear of a change if and only if one of the pushed values moved, or a state came or went |
| `DataUpdate.DataColumnsFor` | internal/protocol/tesla/stream/v1/stream_encode.go:61-118 | filling the row cell by cell gives the twelve columns, none while there is no state, under the served time |
| `DataUpdate.FixedColumns` | internal/protocol/tesla/stream/v1/stream_encode.go:61-112 | elevation and estimated range stay blank and the heading is sent twice |
| `DataUpdate.Assemble` | internal/protocol/tesla/owner/stream/v1/source_mapping.go:94-164 | accumulating reading by reading marks exactly the fields read and converts each |
| `DataUpdate.AssembleMotion` | internal/protocol/tesla/owner/stream/v1/source_mapping.go:103-132 | speed, odometer, charge level and heading are each converted and marked exactly when read |
| `DataUpdate.BareLineIsEmpty` | internal/protocol/tesla/owner/stream/v1/source_mapping.go:78-92 | a line that is only a timestamp carries nothing, and a junk prefix gives way to the time of receipt |
| `DataUpdate.HeadingIsPreferred` | internal/protocol/tesla/owner/stream/v1/source_mapping.go:114-126 | the heading column counts, the estimated heading only where that is blank |
| `DataUpdate.PlaceAndShiftInWords` | internal/protocol/tesla/owner/stream/v1/source_mapping.go:127-154 | a position needs both cells, and a selector must be one of four letters |
| `DataUpdate.OtherFramesAreNone` | internal/protocol/tesla/owner/stream/v1/source_mapping.go:65-73 | only a data:update frame is decoded |
| `Text.SplitJoin` | internal/protocol/tesla/stream/v1/stream_encode.go:123-126 | splitting a joined line gives back exactly its cells, as long as none has a comma inside |
| `Text.TrimDropsSpaces` | internal/protocol/tesla/owner/stream/v1/source_mapping.go:166-173 | trimming drops all white space at both ends and nothing else |
| `RoundTrip.LineSurvives` | internal/protocol/tesla/stream/v1/stream_encode.go:123-126 | no cell of an encoded frame is lost, merged or split |
| `RoundTrip.DecodeOfEncode` | internal/protocol/tesla/owner/stream/v1/source_mapping.go:65-164 | decoding an encoded frame gives its tag and what the line says, at any receive time |
| `RoundTrip.CodecRoundTrip` | internal/protocol/tesla/stream/v1/stream_encode.go:50-126 | odometer, position and (beside a position) gear come back exactly, speed within half a mile per hour, range within 1 km, charge power to the kilowatt when positive, the time to the millisecond, and a field is marked present exactly when it was sent |
| `RoundTrip.ReencodingIsStable` | internal/protocol/tesla/stream/v1/stream_encode.go:61-118 | encoding again reproduces every column but power if and only if no non-zero reading rounds to zero |
| `Units.MileKmMile` | internal/units/units.go:25-29 | whole miles survive the trip through whole kilometres |
| `Units.OdometerRoundTrip` | internal/units/units.go:19-23 | a whole odometer reading survives the trip through miles |
| `Units.RangeWithinOneKm` | internal/units/units.go:25-29 | a whole range comes back from whole miles within 1 km, and only zero rounds to zero |
| `Units.ExactFactors` | internal/units/units.go:12-35 | the conversion factors, as numbers |
| `Units.HalvesGoAway` | internal/protocol/tesla/owner/stream/v1/source_mapping.go:99 | a half rounds away from zero, on both sides |
| `PollProtocol.RateBound` | internal/poll/poll.go:408-438 | in every interleaving, the successes within the minimum interval after a success are at most the triggers already past their check plus the one queued |
| `PollProtocol.TwoApartExactly` | internal/poll/poll.go:423-438 | success k+2 is always at least the minimum interval after success k if and only if at most one trigger is past its check or queued then, or the interval is over |
| `PollProtocol.SuccessTwoLaterIsApart` | internal/poll/poll.go:408-438 | when each check is followed at once by its send, that holds on every run from the start |
| `PollProtocol.ThreeSuccessesAtOnce` | internal/poll/poll.go:427-438 | two interrupted triggers during the first poll give three successes at one instant |
| `Poller.Poller.TriggerNow` | internal/poll/poll.go:427-438 | a request is queued unless a poll succeeded within the minimum interval, and requests fold into one |
| `Poller.Poller.PollOnce` | internal/poll/poll.go:443-523 | one poll's whole effect on the poller's record, and its delay |
| `Poller.Poller.HandleError` | internal/poll/poll.go:529-579 | an error keeps the snapshot, is recorded and counted by kind, moves the backoff one step, and waits the floored backoff or the server's delay |
| `Poller.Poller.HandleQuotaBlock` | internal/poll/poll.go:581-605 | a quota block is recorded, starts the backoff over, and waits the fixed floor or the server's longer delay |
| `Poller.HealthIsHistory` | internal/poll/poll.go:443-605 | over any attempts the record is what the history says: last polled snapshot, trailing idle run, trailing failures, backoff step since the last success or quota block, and the last error exactly while failing |
| `Poller.TotalsAreHistory` | internal/poll/poll.go:489-512 | every attempt is counted once, as a success or an error, and every success under exactly one state |
| `Poller.TalliesAreHistory` | internal/poll/poll.go:459-512 | changes, billed fetches, rate limits and quota blocks are each counted exactly when they happened |
| `Poller.StatesAreCounted` | internal/poll/poll.go:489-498 | each derived state's count is the number of successes in that state |
| `Poller.LatchesAreHistory` | internal/poll/poll.go:483-605 | the re-authentication flag and the quota block stand exactly from the error that set them to the next success or block |
| `Poller.StampsOfOnePoll` | internal/poll/poll.go:454-523 | the times of the last success, change and error are set by exactly those |
| `Poller.ChangedIsWatched` | internal/poll/poll.go:731-759 | content changed if and only if what a consumer acts on did, or a state came or went |
| `Poller.IdleInWords` | internal/poll/poll.go:467-478 | a poll is idle if and only if nothing watched moved and neither upstream time advanced |
| `Poller.DelaysAreFloored` | internal/poll/poll.go:529-607 | every success and every non-quota error waits at least the minimum interval, and every error at least the server's Retry-After |
| `Poller.ErrorDelayInWords` | internal/poll/poll.go:529-605 | exactly how long each error waits: the floor, the backoff's step or the minimum interval, and the server's delay when longer |
| `Poller.NextPollIsDue` | internal/poll/poll.go:489-523 | after a success the next poll is due at the interval the snapshot calls for, within the jitter fraction on both sides and never under the minimum |
| `Cadence.StretchIsDoublingExactly` | internal/poll/poll.go:641-657 | with 64-bit wrap-around the cadence is the doubling that was meant if and only if the shift does not slip |
| `Cadence.ShortBaseNeverSlips` | internal/poll/poll.go:638-657 | below 2^44 ns it never slips: the cadence doubles, never shrinks and never falls below its base or above its ceiling |
| `Cadence.LongBaseSlips` | internal/poll/poll.go:649-653 | just past that a long-idle car's interval is a millisecond, so its delay falls to the minimum interval |
| `Cadence.ShareIsWithin` | internal/poll/poll.go:761-773 | a draw's share of the interval is at most the jitter fraction of it, either way |
| `Cadence.JitterStaysClose` | internal/poll/poll.go:761-773 | a share within the spread leaves the delay within it too, and never under the floor |
| `Cadence.JitterIsTheShare` | internal/poll/poll.go:761-773 | the delay is the floored interval moved by the draw's share, to within a nanosecond |
| `Cadence.CadenceFollowsDerivedState` | internal/poll/poll.go:691-712 | polls counted under the same derived state get the same cadence: the two branch lists never part |
| `Cadence.OnlyParkedIsStretched` | internal/poll/poll.go:611-636 | a driving, charging or sleeping car is never stretched, and nobody within the grace |
| `Cadence.IntervalIsWhatIsCalledFor` | internal/poll/poll.go:611-636 | each case of the snapshot gets the interval configured for it, the parked ones the doubling |
| `Cadence.StreamFreshInNumbers` | internal/poll/poll.go:680-689 | a stream is fresh if and only if one is wired, its back-off is on and a frame came within the window |
| `Cadence.DerivedInWords` | internal/poll/poll.go:691-712 | the state a poll is counted under, case by case |
| `TokenManager.RunsAreSequential` | internal/protocol/tesla/auth/manager.go:124-170 | every interleaving of callers leaves the memory, and gives each caller the answer, of the completed calls run one after another |
| `TokenManager.CallCanComplete` | internal/protocol/tesla/auth/manager.go:130-170 | whoever asks while nobody is inside can go straight through and gets what the whole call returns |
| `TokenManager.OneExchangeAtATime` | internal/protocol/tesla/auth/manager.go:130-142 | two exchanges never overlap, and the one under way sends the newest refresh token (rotation as in section 6 of RFC 6749) |
| `TokenManager.HoldsTheNewest` | internal/protocol/tesla/auth/manager.go:155-159 | memory always holds the last refresh token and access token any successful exchange brought |
| `TokenManager.CallInWords` | internal/protocol/tesla/auth/manager.go:130-170 | exactly when a call is turned away, handed the current token, exchanges and fails, and what each leaves in memory and file |
| `TokenManager.OneSuccessPerStaleToken` | internal/protocol/tesla/auth/manager.go:112-118 | given fresh tokens, at most one exchange succeeds per stale token |
| `TokenManager.NoExchangeAfterSuccess` | internal/protocol/tesla/auth/manager.go:134-140 | once a caller with a stale token has succeeded, no exchange for that token is under way |
| `TokenManager.StaleComesBackExactly` | internal/protocol/tesla/auth/manager.go:112-140 | a caller gets its stale token back if and only if the endpoint itself issued it again; a token handed out without an exchange differs from it |
| `TokenManager.FileFollowsMemory` | internal/protocol/tesla/auth/manager.go:161-168 | while saves succeed the file is what memory holds |
| `TokenManager.DelayIsExactly` | internal/protocol/tesla/auth/manager.go:147-160 | the wait after an install for every lifetime the endpoint may name: three quarters of what a 64-bit duration keeps of it, less what rounding the expiry to a second takes |
| `TokenManager.CollapsesExactly` | internal/protocol/tesla/auth/manager.go:144-153 | the wait collapses to zero if and only if the lifetime wraps to nothing, or to so little that the rounding eats it |
| `TokenManager.WaitsThreeQuartersExactly` | internal/protocol/tesla/auth/manager.go:214-235 | from two seconds up, the loop waits three quarters of the lifetime named, less at most a second, if and only if the lifetime fits the word |
| `TokenManager.FirstDelayInNumbers` | internal/protocol/tesla/auth/manager.go:218-235 | with only the expiry known the loop waits three quarters of what remains, and not at all without an expiry or past it |
| `TokenManager.OneSecondExactly` | internal/protocol/tesla/auth/manager.go:218-235 | a lifetime of one second gives three quarters of a second less how far the clock is into its second |
| `TokenManager.MissingLifetimeIsEightHours` | internal/protocol/tesla/auth/manager.go:144-152 | a missing or negative lifetime counts as eight hours and never collapses the wait |
| `TokenManager.LifetimesThatCollapse` | internal/protocol/tesla/auth/manager.go:153 | two lifetimes past the word, one wrapping below zero and one to a positive fraction, give no wait |
| `TokenManager.StaysRefreshable` | internal/protocol/tesla/auth/manager.go:157-159 | no sequence of replies can empty the refresh token, so refresh never becomes disabled |
| `TokenManager.LoopNeverSpins` | internal/protocol/tesla/auth/manager.go:181-212 | after any calls the proactive loop stops exactly on a rejected refresh token and otherwise waits at least the retry floor, or nearly three quarters of the new lifetime less the time already spent |
| `TokenManager.Manager.LoopTurn` | internal/protocol/tesla/auth/manager.go:192-211 | one turn of the loop refreshes unconditionally and plans its next wait as specified |
| `TokenManager.Manager.Refresh` | internal/protocol/tesla/auth/manager.go:130-170 | one uninterrupted call has exactly the effect and answer of the specification's whole call |
| `IdMap.Map.New` | internal/plugin/sink/idmap/idmap.go:24-53 | loading takes the file's map as it is with every reverse entry right, whatever order it is listed in; a missing file starts empty and a broken one is an error |
| `IdMap.Map.ID` | internal/plugin/sink/idmap/idmap.go:57-83 | a known GUID keeps its id; a new one gets the first free id at or after its hash; a failed write is reported, may leave the file as it was or broken, and still leaves the id assigned |
| `IdMap.Map.Persist` | internal/plugin/sink/idmap/idmap.go:93-105 | a completed write leaves exactly the ids in the file; a refused one the old file; a torn one a broken file |
| `IdMap.AskThenRestart` | internal/plugin/sink/idmap/idmap.go:24-83 | once the last assigning write of a process has completed, the next one over its file starts with every id as it was, after any lookups |
| `IdMap.Map.Probe` | internal/plugin/sink/idmap/idmap.go:65-75 | the probe ends, across the 64-bit wrap, at the first free id; no nearer id is free |
| `IdMap.Map.GUID` | internal/plugin/sink/idmap/idmap.go:86-91 | finds a GUID exactly when some GUID has the id |
| `IdMap.InverseExactly` | internal/plugin/sink/idmap/idmap.go:17-22 | the two maps are mutually inverse with positive ids if and only if the loaded file had distinct positive ids |
| `IdMap.IdsAreForGood` | internal/plugin/sink/idmap/idmap.go:55-83 | over any lookups ids never change and distinct GUIDs keep distinct positive ids |
| `IdMap.ReloadKeepsIds` | internal/plugin/sink/idmap/idmap.go:24-53 | two processes over the same file agree on every id in it, whatever else each was asked |
| `IdMap.HashIsKeptExactly` | internal/plugin/sink/idmap/idmap.go:56-75 | a new GUID gets its own hash if and only if nobody has that id |
| `IdMap.FirstIdsAreHashesExactly` | internal/plugin/sink/idmap/idmap.go:1-6 | over any lookups from nothing, every GUID gets its own hash if and only if no two of them share one |
| `IdMap.OrderNeverMattersExactly` | internal/plugin/sink/idmap/idmap.go:1-6 | two processes without a file agree on the ids of the same GUIDs, whatever order each is asked in, if and only if no two of those GUIDs share a hash |
| `IdMap.LookupsAreDetermined` | internal/plugin/sink/idmap/idmap.go:55-83 | a run of lookups is determined by the map it starts from and the GUIDs asked for |
| `IdMap.UnsavedIdDependsOnOrder` | internal/plugin/sink/idmap/idmap.go:1-6 | of two GUIDs with one hash, whichever is asked for first gets it |
| `TeslaFi.GroupByMonth` | internal/protocol/teslafi/csv/v1/csv.go:100-107 | rows are grouped by file name in order, or the first bad date is named |
| `TeslaFi.WriteMonthly` | internal/protocol/teslafi/csv/v1/csv.go:94-114 | one file a month, in any order, replacing same-named files and no others; nothing at all when a date is bad |
| `TeslaFi.ReadDir` | internal/protocol/teslafi/csv/v1/csv.go:132-159 | all rows of all matching files, in a stable order by date |
| `TeslaFi.FilesAreReadInOrder` | internal/protocol/teslafi/csv/v1/csv.go:138-152 | files are read one after another in the order listed |
| `TeslaFi.StableOrderIsUnique` | internal/protocol/teslafi/csv/v1/csv.go:153-157 | there is only one stable order, so the sorting algorithm does not matter |
| `TeslaFi.StableSortSorts` | internal/protocol/teslafi/csv/v1/csv.go:153-157 | the specification sort is in date order and keeps the order of rows of one date |
| `TeslaFi.DateIsInOneFile` | internal/protocol/teslafi/csv/v1/csv.go:87-92 | rows of one date are all in one file, in order |
| `TeslaFi.OneFileAMonth` | internal/protocol/teslafi/csv/v1/csv.go:87-92 | with a year of four digits, dates share a file if and only if they share year and month |
| `TeslaFi.ShortYearsCollide` | internal/protocol/teslafi/csv/v1/csv.go:90-92 | with shorter years two months can share a file |
| `TeslaFi.WrittenIsReadBack` | internal/protocol/teslafi/csv/v1/csv.go:94-159 | written into an empty directory the rows come back as their stable sort by date, whatever order the files are listed in |
| `TeslaFi.RewritingSortsFiles` | internal/protocol/teslafi/csv/v1/csv.go:94-159 | writing what was read gives the same files, each in date order |
| `Payload.NeverNull` | internal/protocol/tesla/fleet/poll/v1/sink_mapping.go:134-186 | all five sub-objects and every required numeric are non-null, and the car type is one the consumer can show |
| `Payload.HoldsLastKnown` | internal/protocol/tesla/fleet/poll/v1/sink_mapping.go:194-310 | over any reads, battery level, charge limit, ranges, energy, shift state, position, odometer and car version are the last usable readings seen |
| `Payload.SettlesExactly` | internal/protocol/tesla/fleet/poll/v1/sink_mapping.go:134-180 | translating a snapshot on top of its own payload changes nothing, if and only if it is not the trim-without-car-type case |
| `Payload.ConfigSettlesExactly` | internal/protocol/tesla/fleet/poll/v1/sink_mapping.go:530-570 | the vehicle config alone settles exactly when a trim does not return over a renamed line |
| `Payload.NamesInWords` | internal/protocol/tesla/fleet/poll/v1/sink_mapping.go:66-97 | the top-level and charging states by name, case by case |
| `Payload.TimesInNumbers` | internal/protocol/tesla/fleet/poll/v1/sink_mapping.go:147-162 | every sub-object carries the served time in milliseconds, and the position its own fix's seconds |
| `Payload.UntimedSnapshot` | internal/protocol/tesla/fleet/poll/v1/sink_mapping.go:151-161 | a snapshot served under no time uses its fix's, else its last update's, else the clock |
| `Payload.ReadingsInNumbers` | internal/protocol/tesla/fleet/poll/v1/sink_mapping.go:194-230 | speed, heading, power, temperatures, pressures and locks are the snapshot's in the consumer's units, a zero missing where the source leaves it out |
| `Payload.FirstFallbackInWords` | internal/protocol/tesla/fleet/poll/v1/sink_mapping.go:610-662 | before anything was polled or sent: zeros where a number must be, locked, unplugged, the configured car |
| `Payload.NothingPolledIsAsleep` | internal/protocol/tesla/fleet/poll/v1/sink_mapping.go:613-623 | with no state the car is asleep, under its own identity |
| `Payload.ChargerInWords` | internal/protocol/tesla/fleet/poll/v1/sink_mapping.go:266-341 | direct current, alternating current and no session each show their own charger fields |
| `Payload.HoursInNumbers` | internal/protocol/tesla/fleet/poll/v1/sink_mapping.go:272-303 | hours to full from the session's seconds, else the state's minutes, else none |
| `Payload.ConfigInWords` | internal/protocol/tesla/fleet/poll/v1/sink_mapping.go:525-570 | the car type and badge shown, by where they come from, renamed lines included |
| `PayloadReader.SurfacesAgreeExactly` | internal/protocol/tesla/fleet/poll/v1/adapter.go:199-296 | over any reads, late and repeated ones included, the payload served and the summary of the last snapshot name the same state if and only if, stale, the last gear translated and the snapshot's own agree on driving, and, fresh, the snapshot last translated names the same state |
| `PayloadReader.SurfacesAgreeUnlessGearIsHeld` | internal/protocol/tesla/fleet/poll/v1/adapter.go:288-292 | while one time means one content they part exactly on a stale snapshot without a gear over a moving one held from before |
| `PayloadReader.LateSleepIsUnseen` | internal/protocol/tesla/fleet/poll/v1/adapter.go:271-274 | with nothing stale, a late poll that puts the car to sleep leaves the payload online beside an asleep summary |
| `PayloadReader.LateParkIsUnseen` | internal/protocol/tesla/fleet/poll/v1/adapter.go:271-274 | after a late poll that parks a driving car, the stale payload is offline beside an asleep summary, although the gear is known |
| `PayloadReader.ServesItsBasis` | internal/protocol/tesla/fleet/poll/v1/adapter.go:256-284 | on any reads at all the cached reader serves what translating its basis, the reads whose time was new, gives |
| `PayloadReader.DegradedInWords` | internal/protocol/tesla/fleet/poll/v1/adapter.go:190-232 | a payload is served as translated until older than the limit; then only its state changes, by the held gear |
| `PayloadReader.StaleInNumbers` | internal/protocol/tesla/fleet/poll/v1/adapter.go:188-196 | stale is more than the limit since a non-zero served time |
| `PayloadReader.HitsAreCounted` | internal/protocol/tesla/fleet/poll/v1/adapter.go:271-274 | the reads counted as unchanged are exactly those not translated |
| `PayloadReader.Entry.TranslateLatest` | internal/protocol/tesla/fleet/poll/v1/adapter.go:256-284 | one read updates prev, cache and hit counter as specified and serves the possibly degraded payload |
| `PayloadReader.CachedIsFresh` | internal/protocol/tesla/fleet/poll/v1/adapter.go:259-264 | while equal AsOf means equal content and trims settle, the cached reader serves at every read what translating again would |
| `PayloadReader.TwoReadsAgreeExactly` | internal/protocol/tesla/fleet/poll/v1/adapter.go:271-283 | on a fresh reader, reading one snapshot twice equals translating twice if and only if its trim settles |
| `ReaderRuns.ReadsHaveOneContent` | internal/cache/merge.go:380-389 | over a merger with no late merge, equal served times mean equal content |
| `ReaderRuns.CachedReaderIsExact` | internal/protocol/tesla/fleet/poll/v1/adapter.go:256-284 | end to end over a merger without late merges, every cached payload is complete and holds the last usable readings |
| `ReaderRuns.LateMergeIsUnseen` | internal/protocol/tesla/fleet/poll/v1/adapter.go:271-274 | a reader that has seen the served time keeps serving its cache after a merge if and only if that merge was late |
| `ReaderRuns.LatePollChangesContent` | internal/cache/merge.go:385 | a late poll can change the served state without moving its time |

## Left out

- Merger.Merger.NotifyAll: a subscriber's channel is a handle with a count, not an object of its own; the source's channels carry no payload.
- Merger.Merger.MergePoll: the snapshot it returns is not AsOf-stamped and goes only to the replay ring; the contract says which objects it shares, and everything else is about the stored snapshot.
- Service.Service.MergePoll: routing and steps only; that the shared store and counters keep in step over runs of several vehicles is proved on values in `Restarts`.
- Poller.Poller.PollOnce: the derived state and interval kept only for display, the log lines and the write-through to the cache are left out; what the exponential backoff waits at each step is an arbitrary function handed in.
- TeslaFi.WriteMonthly: a file that cannot be created or written is not modelled, and cells are taken to be written and read unchanged; CSV quoting is the library's.
- TeslaFi.ReadDir: the library's stable sort is taken by its documented result, which `StableOrderIsUnique` shows is enough.
- Payload.HoldsLastKnown: doors, windows, seats, climate status strings and update progress depend on one snapshot alone and are not modelled.
- PayloadReader.Entry.TranslateLatest: the snapshot is a parameter; the source reads it before taking the entry's lock, so two reads may translate in the opposite order; `ServesItsBasis` and `SurfacesAgreeExactly` hold then too, `CachedIsFresh` asks for times that do not move back.
- TokenManager.RunsAreSequential: an endpoint that rotates the refresh token and then fails to answer is an ordinary failed exchange; in the concurrent machine the proactive loop is a caller with an empty stale token, and stopping it by hand is not modelled.
- Anchors.NoFalseRejection: haversine is an arbitrary distance function; rounding and NaN are outside real arithmetic.
- Anchors.ServedIsInRange: a NaN reading, which both range comparisons let through and a decoded line can carry, has no real number; the bound is for readings that are numbers.
- The replay ring, `OnStreamDisconnect`, and the separate `SessionBoundary` and `WakeBoundary` calls, which the live path no longer uses.
- JSON decoding of the data:update envelope, HTTP, WebSocket, routing, metrics, configuration and logging.
- Corrupt mark and credential files: loading fails and nothing is served.
- VIN decoding, the other vendors' field mappings, signed commands and encryption.
