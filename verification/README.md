# SteamOS Time Guardian: a verified model of its core

A Dafny model of the daemon's time accounting, of the tables it writes, and of the parts around it
whose correctness is hard to see from the code: accounting days and allowed periods in a real time
zone, heatmap slices, warnings and their forecast, crash recovery, the restriction, enforcement
flows, detector arbitration, and configuration trees. `dafny verify dfyconfig.toml` checks all of
it.

## How it is built

| file | content |
|---|---|
| `Zones.dfy`, `Schedule.dfy` | zones as tables of transitions (what `zoneinfo` works from), accounting days, allowed periods |
| `Ledger.dfy`, `Heatmap.dfy` | amounts filed under day, block and application; cutting play at four-hour boundaries |
| `Records.dfy`, `Storage.dfy`, `StorageObject.dfy` | entities; the five tables as values, one function per statement; the storage object |
| `Engine.dfy`, `EngineObject.dfy` | the engine's transitions on one value, and the engine object proved to carry them out on its fields and the storage object |
| `Frames.dfy` | what each stage may touch |
| `SessionLaws`, `HistoryLaws`, `RetentionLaws`, `OnwardLaws`, `AccountingLaws`, `PlayLaws`, `HeatmapLaws`, `AppLaws`, `RecoveryLaws` | play time: table and caches, what retention keeps, exact crediting, independence of ticks, the heatmap as a whole and by application, crashes |
| `WarningLaws`, `WarningRuns`, `ForecastLaws`, `DailyRuns`, `LandingLaws` | warnings: over ticks, over all commands, against the forecast, and after time was added |
| `TransitionLaws`, `SilenceLaws`, `RestrictionLaws`, `TimerLaws`, `TickLaws`, `CommandLaws` | ticking twice, failed commands, the restriction and the timer in terms of settings and clocks, what a tick reports, credits and saves, and what single commands promise |
| `Witnesses.dfy` | concrete states in which a promise fails |
| `Enforcement.dfy`, `Composite.dfy`, `Service.dfy` | enforcement flows under every interleaving, the detector arbiter, the service's action and dispatch rules |
| `Settings.dfy`, `Validation.dfy`, `Decoding.dfy` | JSON trees, merging, migration, validation, update, and the step to the settings the engine reads |

The engine, the storage, the enforcement manager, the detector and the service are classes with the
source's fields; their methods are proved equal to functions on a value of the whole state
(`World`, `Tables`, `Manager`, `Arbiter`), and the laws are proved about those functions, which
lemmas can use. Some laws name one of these functions to say what a run or a command does with it;
for these functions there are others that spell conditions and constants out, above all in
`TimerLaws`, `RestrictionLaws`, `RetentionLaws`, `AppLaws` and `TickLaws`. An object of class
`GuardianEngine` keeps `Valid()`, which implies that the exceptions of `open_session` and
`checkpoint_session` cannot occur; the methods assert this instead of handling it.

Conventions. An instant is an integer number of microseconds, a duration a real number of seconds;
floating-point rounding is not modelled, Python's `round` and `int` are. Each command reads the
clock once. A day key is the day's ordinal. Fresh UUIDs are a counter. Case folding is an attribute
of a name; digits and blanks are the ASCII ones. A time zone is an initial offset and a finite list
of transitions.

## Where the code differs from what it says, and exact conditions

- `accounting_day_start` announces that a reset clock in a daylight-saving gap is moved to the first
  instant after the gap. Its two branches return the same instant, which lies later
  (`DayStartIgnoresRoundTrip`, `ResetInsideGap`). The day start is the first instant of its day for
  all days and instants exactly when no transition skips or repeats the reset clock
  (`DayStartExact`); otherwise the accounting day can also go back (`ResetInsideOverlap`).
- The accounting day never goes back exactly when no transition repeats the reset clock
  (`MonotoneExact`); a gap does no harm to that.
- A tick credits every accounting day with its part of the elapsed interval exactly when it skips no
  day (`CreditExactIff`, `LongTickSkipsDay`).
- `played_today` agrees with the table after a daily roll exactly when retention removed no play time
  of the day it opens (`RollCacheExact`, `ClockSetBackLosesToday`). On a wall clock that does not go
  back, with zone and reset clock kept and no transition that repeats the reset clock, no roll ever does
  (`OnwardReachableBooks`).
- After a crash right after a daily roll the heatmap shows more than was played, by the slice that the
  roll had filed before its row was saved (`RunHeat`, `CrashLeavesHeat`).
- `_engine_action` is said to publish elapsed-time effects even when the command is invalid, the second
  tick having nothing to add. Both ticks read the clock: what the second one finds is lost if the command
  is then refused (`EventsKeptExact`, `RefusedStartLosesRestriction`), which costs nothing exactly when
  that tick has nothing to report (`TickSilentExact`). And it does so for domain errors only: a grant out
  of range, which `simulation.emit` asks for once more than a day is left, raises a plain `ValueError` in
  the storage and takes the events of both ticks with it (`OversizedGrantLosesRestriction`).
- The daily forecast is made from rounded seconds and names the next warning exactly when rounding has
  not lifted the report onto an unmarked due threshold (`DailyForecastExact`,
  `RoundingPromisesTooMuch`). The timer forecast truncates and is right (`TimerForecastExact`).
- After time was added to the timer all its warnings lie strictly below the value landed on until time is
  added beyond that value or, while the timer still has all of it and it is a threshold, the mark that
  says so is lost: to `history.clear` (`PurgeWakesLanding`), to retention at a daily roll
  (`RetentionWakesLanding`), or because new settings have only just made it a threshold
  (`UpdateWakesLanding`). `CeilingExact` tells this exactly for what a command does after its tick, and
  `CeilingTickExact` for ticks.
- `start_timer` leaves the restriction stale exactly when it replaces an expired timer (`StepCurrent`,
  `StartLeavesStaleReason`). `resume` and `history.clear` do so as `ResumeCurrentExact` and
  `PurgeCurrentExact` tell.
- Whether two reports are about the same game is no equivalence: one without an id agrees by its name
  with games of different ids (`NamelessBridge`).
- A detector start without a game leaves no key behind, so that the next stop is forwarded whatever
  it is about (`GamelessStartLosesKey`).
- An allowed period without `days` is rejected by validation, although the schedule has a default for
  it: the default is a tuple and the check asks for a list (`FaultyPeriodRefused`, `DaylessPeriodRefused`).

## Model

| member | source | states |
|---|---|---|
| Zones.CrossingExact | daemon/src/stg/schedule.py:67-107 | the local clock has reached a reading exactly from the converted instant on, for every instant, if and only if no transition skips or repeats the reading |
| Zones.OffsetAtExact | daemon/src/stg/schedule.py:67-82 | the offset at an instant is that of the last transition before it or at it |
| Schedule.DayStartExact | daemon/src/stg/schedule.py:72-99 | the start of day d is the instant from which d or a later day is current, for all days and instants, if and only if no transition skips or repeats the reset clock |
| Schedule.DayStartIgnoresRoundTrip | daemon/src/stg/schedule.py:85-99 | both branches of the round trip return the same instant |
| Schedule.DaysPartitionTime | daemon/src/stg/schedule.py:72-99 | an instant has accounting day d exactly if it lies from the start of d up to the start of d+1 |
| Schedule.AccountingDayMonotone | daemon/src/stg/schedule.py:72-82 | without a repeated reset clock later instants never have an earlier accounting day, also across a gap that skips it |
| Schedule.MonotoneExact | daemon/src/stg/schedule.py:72-82 | the accounting day never goes back, for any two instants, if and only if no transition repeats the reset clock |
| Schedule.AccountingDayExact | daemon/src/stg/schedule.py:72-82 | accounting days are the days of a clock that is behind the local one by the time from midnight to the reset |
| Schedule.WeekdayExact | daemon/src/stg/schedule.py:102-107 | 1970-01-01 was a Thursday and weekdays go round |
| Schedule.FixedOffsetDays | daemon/src/stg/schedule.py:72-99 | at a fixed offset the partition needs no hypothesis, and every day lasts 24 hours |
| Schedule.ResetInsideGap | daemon/src/stg/schedule.py:85-99 | with the reset clock in a gap the reported start comes half an hour after the day has become current |
| Schedule.ResetInsideOverlap | daemon/src/stg/schedule.py:72-78 | with a repeated reset clock the accounting day goes back |
| Schedule.SecondsUntilResetExact | daemon/src/stg/schedule.py:110-114 | the current day lasts for the reported whole seconds and ends less than a second later |
| Schedule.SecondsUntilResetBound | daemon/src/stg/schedule.py:110-114 | at a fixed offset between 0 and 86400 seconds are left |
| Schedule.AllowedPeriodIsCircular | daemon/src/stg/schedule.py:117-140 | play is allowed exactly if there are no periods or the minute of the week lies in the arc of some period on the weekly circle that starts on a listed day |
| Heatmap.NextBoundaryExact | daemon/src/stg/engine.py:793-818 | in a zone with regular blocks the boundary is the first instant of the next four-hour block |
| Heatmap.QueueExact | daemon/src/stg/engine.py:751-791 | queueing adds exactly the seconds to the day, nothing to other days, and to each block the seconds times the fraction of the interval in it, counted instant by instant |
| Heatmap.QueueFor | daemon/src/stg/engine.py:751-791 | the cell's portion of the seconds goes to the game that was played, under `app:` and its id, or under `name:` and its folded name if the id is missing, empty or zero, and to no other key |
| Heatmap.QueueForDay | daemon/src/stg/engine.py:751-791 | under that key the accounting day gains all of the seconds, in any zone |
| Heatmap.PortionExact | daemon/src/stg/engine.py:781-786 | a portion is to the seconds as its wall time is to the whole interval |
| Heatmap.BlockIndexExact | daemon/src/stg/engine.py:786-788 | the block is the local hour divided by four |
| Heatmap.FixedOffsetQueue | daemon/src/stg/engine.py:751-791 | at a fixed offset every block gets its fraction without any hypothesis |
| Heatmap.QueueAcceptable | daemon/src/stg/engine.py:751-791 | every queued slice is positive and names one of six blocks, in any zone |
| Ledger.DayIsSumOfBlocks | daemon/src/stg/engine.py:751-791 | the seconds of a day are the sum of its six blocks |
| Ledger.PutExact | daemon/src/stg/engine.py:789-790 | an amount is added under its own day, block and key and under no other |
| EngineObject.GuardianEngine.NextUsageBucketBoundary | daemon/src/stg/engine.py:793-818 | the search returns the specified boundary, later than the given instant |
| EngineObject.GuardianEngine.QueueUsageBuckets | daemon/src/stg/engine.py:751-791 | the allocation loop ends and leaves exactly the specified pending slices |
| EngineObject.GuardianEngine.FlushUsageBuckets | daemon/src/stg/engine.py:820-841 | pending slices are stored and the queue is empty; nothing else changes |
| Storage.AddBucketsExact | daemon/src/stg/storage.py:543-563 | storing slices adds exactly their seconds to each day and block |
| AppLaws.AddBucketsFor | daemon/src/stg/storage.py:543-563 | storing slices gives the rows of each application key, day and block exactly the seconds pending under that key |
| Storage.RecoveryKeepsUsage | daemon/src/stg/storage.py:346-359 | startup recovery leaves no row open and changes no day's play time |
| Storage.RetentionShape | daemon/src/stg/storage.py:730-747 | exactly the rows not ended before the cutoff stay |
| Storage.RetentionUsage | daemon/src/stg/storage.py:730-747 | a day's play time falls by exactly what the removed rows held |
| Storage.RetainAdjustmentsExact | daemon/src/stg/storage.py:739-741 | exactly the adjustments granted since the cutoff stay; a day whose adjustments all stay keeps its sum |
| Storage.RetentionBuckets | daemon/src/stg/storage.py:745-747 | bucket days before the horizon go entirely, others keep all their seconds |
| RetentionLaws.RetentionExact | daemon/src/stg/storage.py:730-754 | a session stays if and only if it is open or ended at most the given number of days before the instant, an adjustment or mark if and only if it was made at most so long before, a bucket if and only if its day is not before the UTC date less that number |
| RetentionLaws.RollRetains | daemon/src/stg/engine.py:606-634 | a daily roll does this to the tables with the configured number of days, counted from the instant of the roll |
| RetentionLaws.TickRetains | daemon/src/stg/engine.py:111-218 | a tick that opens a new day does so counted from the start of that day, any other keeps all rows; marks are kept with their times, and new ones carry the time of the tick |
| RetentionLaws.ResumeRetains | daemon/src/stg/engine.py:276-288 | a resume that opens another day counts the days from now |
| RetentionLaws.UpdateRetains | daemon/src/stg/engine.py:92-109 | so do new settings that put the present in another day, with their own number of days |
| RetentionLaws.TickEndsRow | daemon/src/stg/engine.py:606-634 | at a tick that opens a new day the open row ends at the start of that day, with its live duration and what the tick credits to the old day |
| RetentionLaws.SwitchEndsRow | daemon/src/stg/engine.py:606-634 | at a resume and under new settings it ends now with its live duration |
| Storage.CloseOpen | daemon/src/stg/storage.py:305-333 | closing the open row ends it with the given duration, touches no other row and keeps each day's live play time |
| StorageObject.Storage.OpenSession | daemon/src/stg/storage.py:267-293 | a row is added under a fresh id unless some row is open, in which case nothing changes |
| StorageObject.Storage.CheckpointSession | daemon/src/stg/storage.py:295-303 | the open row with the id gets the duration; refused, without effect, exactly if there is none |
| StorageObject.Storage.CloseSession | daemon/src/stg/storage.py:305-333 | the open row with the id is closed; without one nothing changes |
| StorageObject.Storage.RecoverOpenSession | daemon/src/stg/storage.py:346-359 | the first open row is closed with its stored duration and returned |
| StorageObject.Storage.UsageForDay | daemon/src/stg/storage.py:361-366 | the sum of the durations of the day's rows |
| StorageObject.Storage.GrantAdjustment | daemon/src/stg/storage.py:375-389 | a row is added if the seconds are within a day either way, else nothing changes |
| StorageObject.Storage.MarkNotification | daemon/src/stg/storage.py:441-450 | the mark is inserted unless it exists, and the result says which |
| StorageObject.Storage.AddUsageBuckets | daemon/src/stg/storage.py:543-563 | the slices are accumulated one after the other |
| StorageObject.Storage.EnforceRetention | daemon/src/stg/storage.py:730-754 | the four tables lose exactly the rows that the specification drops |
| StorageObject.Storage.ClearHistory | daemon/src/stg/storage.py:720-728 | all tables but the timer are emptied unless a session is open |
| EngineObject.GuardianEngine.constructor | daemon/src/stg/engine.py:44-86 | a new engine is in the specified start state over the stored tables, with the specified initial events, and valid |
| EngineObject.GuardianEngine.TakeInitialEvents | daemon/src/stg/engine.py:88-90 | hands out the initial events once |
| EngineObject.GuardianEngine.Tick | daemon/src/stg/engine.py:111-218 | the object's tick is the specified transition with the specified events, and keeps validity |
| EngineObject.GuardianEngine.RollDay | daemon/src/stg/engine.py:606-634 | the object's roll is the specified transition; opening the new row never fails |
| EngineObject.GuardianEngine.ThresholdEvents | daemon/src/stg/engine.py:503-561 | the marking loop is the specified sweep and shows the least newly marked threshold |
| EngineObject.GuardianEngine.RefreshRestriction | daemon/src/stg/engine.py:563-604 | the restriction becomes the one called for, with one event if it changed |
| EngineObject.GuardianEngine.ApplyAdjustment | daemon/src/stg/engine.py:356-379 | the timer is adjusted and saved, its marks re-armed and the landing marked as specified |
| EngineObject.GuardianEngine.UpdateConfigTail | daemon/src/stg/engine.py:92-109 | after its tick an update is the specified transition |
| EngineObject.GuardianEngine.Resume | daemon/src/stg/engine.py:276-288 | resuming is the specified transition |
| EngineObject.GuardianEngine.Perform | daemon/src/stg/engine.py:220-417 | every command is the specified step, with its events, its refusal or its unexpected error, and keeps validity |
| SessionLaws.RotateBooks | daemon/src/stg/engine.py:606-620 | rotating the session at the reset changes no day's play time |
| HistoryLaws.StepKeepsHistory | daemon/src/stg/engine.py:220-417 | whatever the command, a closed row stays in the table as it is, unless the history is cleared or a daily roll finds that it ended more than the configured number of days before the instant of the roll |
| HistoryLaws.RunKeepsHistory | daemon/src/stg/engine.py:44-417 | the same over every run, with crashes and restarts |
| SessionLaws.RollCacheExact | daemon/src/stg/engine.py:606-634 | after a roll the cache agrees with the table if and only if retention removed no play time of the new day |
| Witnesses.ClockSetBackLosesToday | daemon/src/stg/engine.py:606-634 | two ticks, one with the clock five days slow and one with it right: fifty seconds of today's play are counted and then removed from the table |
| SessionLaws.TickBooks | daemon/src/stg/engine.py:111-218 | a tick changes each day's play time by exactly the credited seconds less what retention removes, and the cache follows |
| TickLaws.CreditExact | daemon/src/stg/engine.py:735-749 | without a game or while suspended a tick credits nothing, otherwise the monotonic time since the last tick, all to the day that goes on or divided between the old and the new one |
| TickLaws.CreditDivided | daemon/src/stg/engine.py:844-861 | whatever the clocks say, that division is in the proportion of wall time on either side of the reset, if the wall clock has gone through it, and all or nothing if not |
| TickLaws.TickSavesSession | daemon/src/stg/engine.py:201-206 | within a day the open row is saved and pending slices are stored exactly when the checkpoint interval has passed |
| TickLaws.TickSavesTimer | daemon/src/stg/engine.py:187-212 | the timer is saved when it runs out and, while it runs, exactly when the interval has passed; otherwise the stored copy stays |
| TickLaws.TickTells | daemon/src/stg/engine.py:111-218 | apart from warnings a tick's events say exactly what happened: a gap above thirty seconds is a suspend, above five a changed clock; offset, day, rotation, expiry and restriction are reported if and only if they change |
| SessionLaws.SetGameTailBooks | daemon/src/stg/engine.py:220-260 | in a linked state opening a session is never refused, and no day's play time changes |
| SessionLaws.StepBooks | daemon/src/stg/engine.py:220-417 | every command keeps engine and table linked, and keeps the cache exactly if retention spares today |
| SessionLaws.RunBooks | daemon/src/stg/engine.py:44-417 | the same over every run, with crashes and restarts |
| SessionLaws.ReachableBooks | daemon/src/stg/engine.py:44-417 | in every reachable state a game is held exactly with a session id, which is the only open row and has the current day; and played_today is what the table says if no roll removed play time of the day it opened |
| SessionLaws.TickSparesToday | daemon/src/stg/engine.py:606-634 | with rows that end after their day has begun, the roll of a tick removes no play time of the new day |
| OnwardLaws.StepUpToDate | daemon/src/stg/engine.py:606-634 | on a clock that does not go back every daily roll opens a day that no row belongs to yet, so that retention removes nothing of it |
| OnwardLaws.OnwardReachableBooks | daemon/src/stg/engine.py:44-417 | on such a clock, with zone and reset kept, played_today is what the table says in every reachable state |
| AccountingLaws.SplitExact | daemon/src/stg/engine.py:843-861 | with agreeing clocks the split at the reset is exact |
| AccountingLaws.CreditExactIff | daemon/src/stg/engine.py:147-187 | a tick credits each day exactly its part of the interval if and only if it skips no day |
| Witnesses.LongTickSkipsDay | daemon/src/stg/engine.py:147-187 | from a sound state one tick over two days of play gives both to the first day in the table, and none to the day in between |
| AccountingLaws.TicksCreditExactly | daemon/src/stg/engine.py:147-187 | over any schedule of ticks each day gains exactly its part of the whole stretch |
| PlayLaws.TicksPlay | daemon/src/stg/engine.py:147-187 | however a stretch of play is cut into ticks, the sessions table read live is the one that a day-by-day account without ticks gives |
| PlayLaws.PlayInTwo | daemon/src/stg/engine.py:606-634 | in that account cutting a stretch in two makes no difference |
| PlayLaws.ScheduleIndependence | daemon/src/stg/engine.py:147-187 | two schedules over the same stretch leave the same rows with the same ids, days, ends and live durations, the same open session and day, and the same play time of every day |
| PlayLaws.TicksOpenLength | daemon/src/stg/engine.py:606-634 | the open session is as long as the play since the last reset, however the ticks fell |
| AccountingLaws.StandstillCreditsNothing | daemon/src/stg/engine.py:113-125 | while the monotonic clock stands still nothing is credited and the timer does not run |
| HeatmapLaws.FlushHeat | daemon/src/stg/engine.py:820-841 | a flush preserves pending plus stored seconds of every cell |
| HeatmapLaws.TickHeat | daemon/src/stg/engine.py:735-749 | a tick with reliable clocks records exactly the credited seconds of each day, any other tick none |
| AppLaws.FlushFor | daemon/src/stg/engine.py:820-841 | a flush keeps pending plus stored seconds of every application key in every cell |
| AppLaws.TickFor | daemon/src/stg/engine.py:111-218 | a tick files the time it credits, in any day and block, under the key of the game that is on, split at the reset; every other key keeps what it has |
| AppLaws.StepOneEach | daemon/src/stg/engine.py:751-841 | whatever the command, no two pending slices share day, block and game, and no two rows day, block and key |
| AppLaws.ReachableOneEach | daemon/src/stg/storage.py:543-563 | so it is in every reachable state |
| HeatmapLaws.StepHeat | daemon/src/stg/engine.py:735-749 | a step of a living daemon that removes no play time of a day does not let its heatmap time get further ahead of its play time |
| HeatmapLaws.RunHeat | daemon/src/stg/engine.py:735-841 | over every run, crashes and restarts included, the heatmap time of a day exceeds its play time by no more than what crashes right after a roll have lost; on disk, by no more than the slice of the last roll in addition |
| HeatmapLaws.NoCrashNoDebt | daemon/src/stg/engine.py:408-417 | restarts after an orderly end of play lose nothing |
| HeatmapLaws.ReachableHeat | daemon/src/stg/engine.py:735-749 | in every state reachable without a crash in the middle of play, heatmap time does not exceed play time |
| HeatmapLaws.CrashAfterRoll | daemon/src/stg/engine.py:164-187 | the bound is reached: after a crash right after the first tick of a day the heatmap shows the slice and the play time does not |
| Witnesses.CrashLeavesHeat | daemon/src/stg/engine.py:164-187 | a concrete state: ten seconds stay in the heatmap, none in the play time |
| RecoveryLaws.StepTimer | daemon/src/stg/engine.py:290-385 | every command and restart keeps the timer in one of its four forms and the stored copy within the time since it was saved |
| RecoveryLaws.TickTimer | daemon/src/stg/engine.py:189-212 | after a tick a running timer's stored copy is less than the checkpoint interval ahead |
| TimerLaws.TickTimerExact | daemon/src/stg/engine.py:187-199 | a tick takes the monotonic time since the last one off the timer, down to zero, at which it expires, if and only if the timer runs, the engine is not suspended and, where only play counts, a game is on; else the timer stays as it is |
| TimerLaws.TimerRunExact | daemon/src/stg/engine.py:187-199 | over any run of commands that does not replace or adjust it, the timer falls by exactly the monotonic time of the ticks that meet this condition, down to zero |
| TimerLaws.AdjustExact | daemon/src/stg/engine.py:346-385 | an adjustment of at most a day either way moves the time within zero and a day; zero expires the timer, and leaving zero pauses it |
| TimerLaws.TimerCommandsExact | daemon/src/stg/engine.py:290-344 | which timer commands complete, and the timer that they leave in memory and in storage |
| RecoveryLaws.TickLag | daemon/src/stg/engine.py:201-205 | after a tick the open row lags by less than the checkpoint interval plus what the last roll carried over |
| RecoveryLaws.RunSound | daemon/src/stg/engine.py:44-417 | over every run the session link, the timer forms and both storage bounds hold |
| RecoveryLaws.ReachableSound | daemon/src/stg/engine.py:44-417 | so in every reachable state |
| RecoveryLaws.CrashLosesLittle | daemon/src/stg/engine.py:44-86 | after a crash at the end of a tick no day shows more than was in memory, today falls short by less than the bound, and the timer is not running and has less than the checkpoint interval given back |
| WarningLaws.SweepExact | daemon/src/stg/engine.py:514-526 | exactly the crossed thresholds become marked, and the newly marked ones are those without a mark before |
| RestrictionLaws.LeftExact | daemon/src/stg/engine.py:455-465 | what warnings are measured against: the day's allowance with its adjustments less what was played, never below zero, and the timer's remaining time |
| RestrictionLaws.DueExact | daemon/src/stg/engine.py:503-515 | the thresholds are the configured minutes in seconds, and zero if exhaustion is to be notified |
| WarningLaws.WarnScopeExact | daemon/src/stg/engine.py:503-561 | at most one warning per scope, for the least newly marked threshold; other scopes keep their marks |
| WarningLaws.TickScope | daemon/src/stg/engine.py:455-532 | a tick never raises a scope's remaining time, and warns exactly for what it crossed |
| WarningLaws.RunWarnings | daemon/src/stg/engine.py:455-532 | a run from R0 down to R1 adds exactly the thresholds in [R1, R0] to the marks however it is cut, and warns for strictly decreasing unmarked thresholds |
| WarningRuns.ProperLowers | daemon/src/stg/engine.py:220-417 | a command that leaves the timer's scope alone marks and warns for exactly what the timer's time crosses, if it falls at all |
| WarningRuns.TimerRunWarnings | daemon/src/stg/engine.py:455-532 | over every run of such commands the timer's marks grow by exactly the thresholds its time has passed, and the warnings are for strictly decreasing unmarked thresholds |
| ForecastLaws.CandidateExact | daemon/src/stg/engine.py:713-723 | the candidate is the largest unmarked threshold not above the remaining seconds |
| ForecastLaws.TimerForecastExact | daemon/src/stg/engine.py:697-728 | the timer forecast names the next threshold and the whole seconds until it; without one every threshold left has its mark |
| ForecastLaws.ForecastSilence | daemon/src/stg/engine.py:691-728 | until the forecast threshold is reached no run of commands warns about the timer, unless it replaces the timer, adds time, changes thresholds, clears history or restarts |
| ForecastLaws.ForecastFires | daemon/src/stg/engine.py:691-728 | after such a run the first tick that strictly decreases the time to the threshold or below shows one warning, for it or a lower threshold |
| ForecastLaws.TicksStaySilent | daemon/src/stg/engine.py:691-728 | for the day's scope as well as the timer's, until the next threshold is reached no run of ticks warns |
| DailyRuns.DailyRunWarnings | daemon/src/stg/engine.py:455-532 | over every run within a day of commands that take no new settings, grant nothing and keep the history, the day's marks grow by exactly the thresholds its time has passed, with strictly decreasing warnings |
| DailyRuns.DaySilence | daemon/src/stg/engine.py:691-728 | until the day's time falls to its next threshold no such run warns about the day |
| ForecastLaws.DailyForecastExact | daemon/src/stg/engine.py:419-423 | the daily forecast names the next threshold if and only if rounding has not lifted the report onto an unmarked due threshold |
| ForecastLaws.DailyForecastTells | daemon/src/stg/engine.py:691-728 | a day has a forecast only if it has a limit; it is the largest due, unmarked threshold not above what is left to the nearest second, and the seconds until it |
| ForecastLaws.TimerForecastNeedsTime | daemon/src/stg/engine.py:691-711 | there is a timer forecast only while the timer runs and, where only play counts, a game is on |
| ForecastLaws.DailyForecastRoundsUp | daemon/src/stg/engine.py:419-423 | with 299.6 seconds left the forecast promises a five-minute warning that no run of ticks brings |
| Witnesses.RoundingPromisesTooMuch | daemon/src/stg/engine.py:419-423 | a concrete state for this |
| LandingLaws.AddingTimeRearms | daemon/src/stg/engine.py:346-385 | adding time warns about nothing, revives an expired timer as paused, leaves as its only marks the configured thresholds landed on, and puts a ceiling where it has landed |
| LandingLaws.CeilingExact | daemon/src/stg/engine.py:220-417 | without its tick, every command warns strictly below the ceiling only, and the ceiling holds afterwards, or the timer has been replaced, if and only if the command is not one of those that break it |
| LandingLaws.CeilingTickExact | daemon/src/stg/engine.py:111-218 | a tick keeps the ceiling, and warns strictly below it only, if and only if it does not, by a daily roll, forget the mark of the value landed on while the timer or its stored copy keeps all of it, or leaves it with nothing lower to show |
| Witnesses.RetentionWakesLanding | daemon/src/stg/engine.py:606-634 | a tick whose roll finds the mark too old warns for the value landed on |
| LandingLaws.WarningsStayBelowLanding | daemon/src/stg/engine.py:366-379 | over every run, crashes and restarts included, every warning about the timer is strictly below the value landed on, until a tick or a command breaks the ceiling |
| Witnesses.PurgeWakesLanding | daemon/src/stg/service.py:223-231 | clearing the history breaks it: a second later there is the warning for the value landed on |
| Witnesses.UpdateWakesLanding | daemon/src/stg/engine.py:92-109 | so do new settings that make the value landed on a threshold |
| TransitionLaws.TickRests | daemon/src/stg/engine.py:111-218 | after a tick nothing is left to do at its reading and the restriction is the one called for |
| RestrictionLaws.TickRestriction | daemon/src/stg/engine.py:563-604 | after every tick: an expired timer restricts at the level of its action, zero to three, or at the configured one if it inherits; else a limited day whose minutes and adjustments are played restricts at the configured level; else a minute of the week that no allowed period's arc holds does; else there is no restriction |
| RestrictionLaws.StartupRestriction | daemon/src/stg/engine.py:44-86 | so it is when the daemon has started |
| RestrictionLaws.StepRestriction | daemon/src/stg/engine.py:220-417 | and after every command that ticks first, unless it starts a timer over an expired one |
| TransitionLaws.TickTwice | daemon/src/stg/engine.py:111-218 | a second tick at the same reading changes nothing and reports nothing |
| TransitionLaws.EngineActionExact | daemon/src/stg/service.py:307-322 | at any two readings: a completed command publishes what both ticks and itself record; one refused with a domain error publishes the events of the action's own tick, but not those of the command's tick, whose state stays; an unexpected error publishes nothing |
| TransitionLaws.EngineActionAtOnce | daemon/src/stg/service.py:307-322 | with both ticks at one reading a refused command leaves the state of the first and loses none of its events |
| TransitionLaws.EventsKeptExact | daemon/src/stg/service.py:307-322 | every recorded event is published if and only if the command completes, or it is refused and its own tick has nothing to report, or it is an oversized grant and neither tick has |
| SilenceLaws.TickSilentExact | daemon/src/stg/engine.py:111-218 | a tick has nothing to report if and only if, on what it starts from, the clocks kept together and kept their offset, the day is the same, the timer does not run out, every threshold passed has its mark, and the restriction stays the one called for |
| Witnesses.RefusedStartLosesRestriction | daemon/src/stg/service.py:307-322 | a timer asked for half a second before another one runs out: the command's own tick activates the restriction, the command is refused for it, and nobody hears of it |
| Witnesses.OversizedGrantLosesRestriction | daemon/src/stg/service.py:377-383 | simulating a reached limit with 26 hours left, as a timer runs out: the restriction at level two is activated and nobody hears of it |
| TransitionLaws.StepChained | daemon/src/stg/engine.py:563-604 | the restriction changes a step records lead unbroken from the restriction before to the one after |
| TransitionLaws.RunChained | daemon/src/stg/engine.py:563-604 | over any run of a living daemon they form one chain that ends at the current restriction |
| TransitionLaws.StepCurrent | daemon/src/stg/engine.py:563-604 | after every command that ticks first the restriction is current, except exactly after starting a timer, under no level and with a valid request, over an expired one |
| Witnesses.StartLeavesStaleReason | daemon/src/stg/engine.py:290-311 | a concrete state for this exception |
| TransitionLaws.ResumeCurrentExact | daemon/src/stg/engine.py:276-288 | a resume leaves the restriction stale exactly when the limit or the allowed periods say something else of the new reading |
| TransitionLaws.PurgeCurrentExact | daemon/src/stg/service.py:223-231 | clearing the history leaves it stale exactly when that lifts the daily limit or brings it about |
| CommandLaws.NewSessionExact | daemon/src/stg/engine.py:220-260 | a report opens a new row exactly if it is not about the game being played |
| CommandLaws.NamelessBridge | daemon/src/stg/engine.py:863-867 | three reports in a row, the middle one without an id, carry one session from one application over to another |
| CommandLaws.SameGameExact | daemon/src/stg/engine.py:863-867 | being the same game is reflexive and symmetric, and fails to carry over in exactly two ways: bridged by a name, or by an id |
| CommandLaws.GameChangeRows | daemon/src/stg/engine.py:228-237 | a game change closes the old row now with the live duration and opens a row for the new game on the same day |
| TickLaws.FirstReportExact | daemon/src/stg/engine.py:220-260 | a first report opens a row of the day; the game is said to be restricted at level two and blocked from level three on |
| TickLaws.FurtherReportExact | daemon/src/stg/engine.py:220-227 | a further report about the game that is on only brings its details up to date |
| TickLaws.ReportRefusedExact | daemon/src/stg/engine.py:869-876 | a report is turned down, before anything happens, exactly if its name is blank or too long, its id no number of at most 32 digits, or a process id not positive |
| TickLaws.StopExact | daemon/src/stg/engine.py:645-669 | a stopped game's row, and one at a shutdown, ends now with all that was played |
| TickLaws.StartupExact | daemon/src/stg/engine.py:44-86 | a new engine ends the row left open now, with the duration saved, pauses a timer left running, reports both and keeps everything else |
| TickLaws.StartupBaselines | daemon/src/stg/engine.py:44-86 | it measures from the present reading and offset, plays no game and has nothing pending |
| TickLaws.SuspendAndResumeExact | daemon/src/stg/engine.py:269-288 | suspending only sets its flag; resuming clears it and takes the present reading for the next tick to measure from |
| CommandLaws.ResetRows | daemon/src/stg/engine.py:606-620 | the daily reset closes the row at the boundary and opens one for the new day |
| CommandLaws.PurgeExact | daemon/src/stg/service.py:223-231 | history is cleared exactly when no session is open, and then no day, block or mark is left while the timer stays |
| CommandLaws.ReliableIffNothingToReport | daemon/src/stg/engine.py:115-145 | play is filed under hours exactly when no clock event but a new offset is reported, both clocks advanced and the engine is not suspended |
| CommandLaws.GrantExact | daemon/src/stg/engine.py:387-406 | a grant moves the day's adjustments by its seconds and nothing else of the books |
| TickLaws.GrantAnswers | daemon/src/stg/engine.py:387-393 | a grant is refused exactly for a blank reason or no seconds, and completes if it is not refused and within a day either way |
| CommandLaws.GrantRearms | daemon/src/stg/engine.py:394-404 | a positive grant warns about nothing and leaves the day without marks |
| CommandLaws.FreshTimerForecast | daemon/src/stg/engine.py:290-311 | the first warning of a new timer is forecast for the largest threshold not above its time, at once if it starts on one |
| CommandLaws.PauseThenResume | daemon/src/stg/engine.py:313-333 | pausing and resuming gives back the timer, in memory and in storage |
| CommandLaws.ConfigUpdateWarns | daemon/src/stg/engine.py:92-109 | a scope whose remaining time grew loses its marks and is not warned about; otherwise exactly the crossed thresholds of the new settings are handled |
| CommandLaws.CleanRestartLosesNothing | daemon/src/stg/engine.py:408-417 | after an orderly shutdown a restart finds every day's play time and the timer, paused if it ran |
| CommandLaws.NextWarningNearest | daemon/src/stg/engine.py:691-711 | one of the two forecasts is reported, and the other one is neither nearer nor as near and for a lower threshold; of two alike it is the daily one |
| Enforcement.FlowsFollowTheirScripts | daemon/src/stg/enforcement.py:186-270 | under every interleaving each flow's acts are the beginning of its script, done as the current generation at level two or above, each stage entered under a passing game-and-level check |
| Enforcement.FlowOrigin | daemon/src/stg/enforcement.py:192-200 | every flow goes back to an arming at level two or above, with its game and a plan from its settings |
| Enforcement.SignalsNeedConsent | daemon/src/stg/enforcement.py:157-166 | SIGKILL goes back to an arming whose settings have force kill and the process fallback on, SIGTERM to one with the fallback |
| Enforcement.SupersededFlowsAreSilent | daemon/src/stg/enforcement.py:186-200 | a cancelled or replaced flow does nothing more, whatever happens |
| Enforcement.UndisturbedFlowCompletes | daemon/src/stg/enforcement.py:202-256 | a flow left alone under an applicable status goes through its whole script |
| Enforcement.LeftAloneExact | daemon/src/stg/enforcement.py:157-256 | in terms of the settings: armed at level two or above it has that level and the settings' times; it asks the game to close, sends SIGTERM if and only if the fallback is on, and ends with SIGKILL if force kill is on as well, else with the report |
| Enforcement.ChecksExact | daemon/src/stg/enforcement.py:202-270 | at each check a flow goes on if and only if it is the current generation, the game has its id, or its folded name if it has none, and the level is its own or above |
| Enforcement.ArmingSupersedes | daemon/src/stg/enforcement.py:186-200 | arming cancels what was scheduled also at a level that schedules nothing |
| Enforcement.EnforcementManager.CancelFlow | daemon/src/stg/enforcement.py:186-190 | the object's cancel is the specified transition |
| Enforcement.EnforcementManager.ArmFlow | daemon/src/stg/enforcement.py:192-200 | the object's arm is the specified transition |
| Enforcement.EnforcementManager.ResumeFlow | daemon/src/stg/enforcement.py:202-256 | a flow's run to its next wait is the specified transition |
| Service.DispatchKeepsInv | daemon/src/stg/service.py:452-509 | dispatching any events, whatever game, level and settings each of them meets, keeps the flows' invariant |
| Service.StopGameEndsEnforcement | daemon/src/stg/service.py:508-509 | after the events of a stopped game no flow is scheduled, unless another game started while they were on their way |
| Service.RestrictedStartIsArmed | daemon/src/stg/service.py:492-507 | after a start under level two or three, the game being played when the last event is dispatched has a flow scheduled, with the launch grace at level three |
| Service.RestrictingTickArms | daemon/src/stg/service.py:472-491 | after a tick that changes the restriction to level two or above, the game being played when its last event is dispatched has a flow scheduled, at that level and with the ordinary grace |
| Service.LiftingTickCancels | daemon/src/stg/service.py:508-509 | after a tick that lifts the restriction no flow is scheduled and every earlier one is superseded |
| Service.OthersLeaveEnforcement | daemon/src/stg/service.py:456-509 | a restriction of level zero or one, and any event about something else, leaves enforcement alone |
| Service.ArmedPlansAreHigh | daemon/src/stg/service.py:472-507 | whatever is dispatched, a newly scheduled flow has level two or above |
| Service.GuardianService.EngineAction | daemon/src/stg/service.py:307-322 | the object's action is the specified one, an unexpected error included |
| Service.GuardianService.DispatchOne | daemon/src/stg/service.py:456-509 | the object arms or cancels for one event as specified, from the game and level it reads then |
| Service.GuardianService.DispatchMany | daemon/src/stg/service.py:452-454 | events dispatched without anything in between |
| Composite.ArbiterIsReference | daemon/src/stg/detectors/composite.py:22-46 | for every stream the two fields forward exactly the events admissible given the output so far, and describe the outstanding start |
| Composite.OutputIsOrderly | daemon/src/stg/detectors/composite.py:22-46 | an outstanding start is displaced only by an equal or higher priority, and a stop that ends a start with a game carries its key |
| Composite.SourcesInOrder | daemon/src/stg/detectors/composite.py:11-11 | Decky comes before the simulation, that before Steam's log, that before the process table, and that before anything else |
| Composite.GamelessStartLosesKey | daemon/src/stg/detectors/composite.py:32-44 | after any stream, a start without a game is dropped against a higher priority and otherwise makes the next stop be forwarded whatever it is about |
| Composite.CompositeDetector.Run | daemon/src/stg/detectors/composite.py:22-46 | the loop's output and fields are the specified ones |
| Settings.MergeIdempotent | daemon/src/stg/config.py:69-75 | merging is idempotent on one tree, over the same defaults and of the same patch |
| Settings.MergeAtPath | daemon/src/stg/config.py:69-75 | a merge leaves unmentioned paths alone and sets every leaf that the patch gives |
| Settings.MergeKnown | daemon/src/stg/config.py:78-90 | merging a tree of known keys over the defaults gives a tree of known keys |
| Settings.SortedDownExact | daemon/src/stg/config.py:149 | the sorted thresholds are the supplied ones, each once, strictly decreasing |
| Settings.DistinctExact | daemon/src/stg/config.py:202-210 | the lists keep each element once, and lists without repetition stay as they are |
| Validation.MigrateShape | daemon/src/stg/config.py:93-111 | a migrated tree is complete and has no unknown key |
| Validation.MigrateKeepsLeaf | daemon/src/stg/config.py:93-111 | migration keeps every setting that is there |
| Validation.ValidateIsProjection | daemon/src/stg/config.py:114-268 | validating a validated configuration returns it unchanged, with strictly decreasing thresholds |
| Validation.DefaultTemplateOk | daemon/src/stg/config.py:17-62 | the shipped defaults have the shape that the laws ask of them |
| Validation.UpdateExact | daemon/src/stg/config.py:325-327 | an accepted update sets every setting the patch gives and keeps every setting it does not mention |
| Validation.UpdateKeepsLists | daemon/src/stg/config.py:325-327 | it also keeps the normalised lists it does not mention |
| Decoding.ValidatedIsValid | daemon/src/stg/config.py:114-268 | a validated configuration meets every condition that the laws of the engine put on settings |
| Decoding.DecodeExact | daemon/src/stg/config.py:114-268 | the engine's switches, numbers, reset minute, period times and thresholds are those of the tree |
| Decoding.WeekExact | daemon/src/stg/schedule.py:102-107 | each weekday has the minutes and the switch of its own entry, Monday first |
| Decoding.DaysExact | daemon/src/stg/schedule.py:117-140 | a period applies to exactly the weekdays that it lists |
| Validation.ParseHhmmExact | daemon/src/stg/schedule.py:13-22 | the text HH:MM names that minute of the day, and nothing beyond 23:59 |
| Validation.MigrateExact | daemon/src/stg/config.py:93-111 | a tree is migrated if and only if its version is a number up to two, it has no unknown key, and an older one has objects where it is given settings |
| Validation.UpgradeExact | daemon/src/stg/config.py:106-110 | an older tree comes to version two with the launch grace and signal life of that version unless it has its own |
| Validation.FaultyPeriodRefused | daemon/src/stg/config.py:242-265 | a configuration is refused for any period with a wrong or missing key, such as the days, unreadable or equal times, or days that are no list of different weekdays |
| Validation.DaylessPeriodRefused | daemon/src/stg/config.py:242-265 | for example one from 08:00 to 20:00 |

## Left out

- CheckpointSession: the exception for a row that is not open is a refusal of the storage object; the engine's own calls are proved never to meet it.
- RunHeat: speaks of days whose play time no daily roll of the run removes.
- TicksCreditExactly: asks that retention removes no play time of the day in question during the run.
- RunWarnings: asks that no daily roll of the run forgets marks of the scope by their age; TimerRunWarnings asks the same.
- DaySilence: runs end with the day, and changes of settings are left out of them.
- OnwardReachableBooks: asks that zone and reset clock stay the same over the run.
- DispatchMany: has nothing happen between two events; the interleavings are in the functions on deliveries, each of which carries what was read when its turn came.
- UpdateExact: the three normalised lists and the schema version are excepted; ThresholdsNormal, AppIdsNormal and NamesNormal say what becomes of the lists.
- Validate: an exception of any kind is one result; which message is reported is not modelled. `int` of a text knows blanks, a sign and ASCII digits, but no underscores.
- ResumeFlow: an `await` that is skipped when a timeout is zero is kept as a step, which only adds interleavings; the signal calls themselves, process discovery and `/proc` are not part of this model.
- Time zones: the rule that continues a zone after its last listed transition, and re-resolving the zone called "system" while the daemon lives.
- The events table, warning texts, urgency, languages, and the time stamps of sessions, timers and events beyond those that retention compares.
- Bucket columns for application id and name, and the storage layer's re-check of key lengths, which depends on Unicode case folding.
- The summaries, lists and exports of the storage, which read the same tables.
- SQLite itself, migrations of its schema, backups and quarantine; configuration file writing and recovery.
- RPC framing, the Decky plugin, command line, text interface, notifications, logging, diagnostics, and the detectors behind the arbiter.
