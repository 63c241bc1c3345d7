# Verified models of the edge layer's stateful protocols

The edge layer of the feeder is a set of small processes around sensors, a local PostgreSQL database and a command
socket. This project models the parts that keep state and make promises over time, and proves those promises for
every run:

| file | what it models |
|---|---|
| `SummaryModel`, `SummaryProofs`, `SummaryTheorems` | the scheduled jobs that summarise a day, roll up a week and prune raw rows, and the lossless summary |
| `SummaryCompleteness` | exactly when a stored daily summary counts every row of its day, wherever its SELECTs were in the run |
| `SummaryWeekly` | the weekly rollup against the raw history, and its averages |
| `SummaryInterleaving` | the same jobs statement by statement, with anything in between |
| `SummaryPolicy` | what can be known of a summary when its job runs, for a bound on how late rows are dated, and a policy that loses nothing |
| `SummaryAggregates`, `SummaryDatabase` | what the aggregates mean, and the tables with the jobs that update them |
| `OrderStatistics`, `AmbientLight` | brightness of a camera frame from its histogram, its smoothing, the light bucket |
| `RecordingSessions` | continuous recording: start threads, 30 s watchers and stop threads over five guarded fields |
| `JobLocks` | leases in the job-lock table, many owners, crashes and lost replies, and the executor's bracket |
| `WaterIntake`, `MealSchedule` | the water-intake integrator and the meal scheduler of the wellbeing node |
| `CommandPipeline` | parsing, validation, the FIFO queue, the worker and its answers |
| `LidRecognizer` | manual lid moves recognised from lid readings and motor messages |
| `HealthMonitor` | heartbeat staleness, pump verdicts and the battery latch |
| `Launcher` | restart budget and capped exponential backoff of the process launcher |
| `Sequences`, `Statements` | filtering of sequences, and what can become of a statement sent to the database |

Every component has the same shape. A pure `Step` says what one atomic action (a callback, a critical section, a
statement) does to the state; `After`, or `Final` for the tables, is the state after any sequence of actions. A class
holds the program's fields, and each of its methods is proved to move them exactly as `Step` says. The guarantees are
lemmas over all sequences of actions. Histories that the program does not keep (rows ever inserted, grants, completed
pump runs, fired moves) are functions of the run or ghost fields.

## Assumptions

- Floating-point numbers are real numbers.
- Local time is a fixed offset from UTC; there is no daylight saving. Clock strings are well formed.
- Clocks do not run back. Each callback, SQL statement and mutex section is one atomic action. `MakeDaily`, `MakeWeekly`
  and `Cleanup` of the run model are jobs that nothing interrupts (a cleanup may be one DELETE or both);
  `SummaryInterleaving` lets rows, prunes and other jobs run between any two statements of a job.
- A statement that commits may lose its reply; a SELECT that fails yields no rows. Both are parameters of the jobs.
- Rows are dated late by design: temperature and humidity rows carry the time of the last sensor reading and are written
  again on later ticks (`environment_condition_monitor.cpp:319-346`), treat rows carry their command's event time
  (`signal_logger.cpp:142`, `233`), meal rows the start of their window. The lemmas of `SummaryPolicy` take a bound `lag`:
  in a `Clocked` run no row is dated more than `lag` before a job that came earlier. No bound holds for a sensor that stays
  silent (`StaleReadingBreaksAnyLag`); nothing outside `SummaryPolicy` assumes one.
- Water readings are not negative. Owner ids of the lock table are distinct per process,
  and each process runs one job and exits, so an owner is never twice inside the bracket of a job.
- `ROW_NUMBER` ties on equal `observed_at` are broken by row id, a fixed choice where SQL leaves it open.
- Command handlers return; only job handlers may throw, as the job executor allows.
- Two adjacent clock readings in one call (the launcher's elapsed time and its deadline) are one reading; a later
  second reading would only lengthen the wait.

## Where the code is not what its text suggests

- A daily summary without a date override covers the day that is still running (`summary_jobs.cpp:43-49`). Rows that
  arrive later are missing from it, and the next cleanup erases them although no payload has counted them:
  `RunningDayMissesMeal`, `MidnightSummaryMissesMeal`, `LateEventErased`.
- A daily summary whose signal or event query failed is stored all the same (`summary_jobs.cpp:218-222`, `243-270`). It has
  no counts, or counts 0 events, it is never redone, and the next cleanup erases the events: `FailedQueryLosesMeal`,
  `FailedSignalQueryStored`, `FailedEventQueryErases`.
- Rows that arrive between the SELECT and the INSERT of a daily job are missing too: `RowBetweenReadAndStoreMissed`.
- Rows dated before the job and written after it are missing; a job for the day before that runs at midnight, when cron
  runs daily jobs (`scheduler_engine.cpp:44`), misses even the day's last temperature: `LateTemperatureMissed`. For rows written again under an old time stamp no waiting time
  is enough: `StaleReadingBreaksAnyLag`.
- For the counts these are all the ways, for every interleaving of statements: `StoredCountsIff` gives the exact condition
  for every stored row at the time of its SELECTs, `CountsForeverIff` and `CompleteForeverIff` what can be known of it at
  any later point when rows are at most `lag` late, and `PolicyLossless` a policy under which nothing is ever lost then.
- The weekly averages divide by the days with data, not by the days that have the field (`summary_jobs.cpp:401-404`), and a
  week without any temperature is stored with 0 degrees: `NoTemperatureStoredAsZero`, `OneWarmDayDivided`.
  `WeeklyAverageIff` says when the stored averages are means.
- A summary whose INSERT commits but loses its reply is stored and reported as "Insert failed" (`DailyReportWrongIff`,
  `LostReplyStored`), and a DELETE that loses its reply is counted as 0 (`DataCleanup`).
- `COMMAND_REGISTRY` has 20 slots and 19 initialisers, so signal 0 is admitted, has no handler and always fails:
  `InboundIffHandledOrZero`, `SignalZeroAlwaysFails`, `UnhandledNeverSucceeds`.
- The motor guard on arming a manual lid move is commented out (`status_subscriber.cpp:97-101`):
  `MotorMoveReportedManual`; `FiresExactly` states what is recognised instead, and `FiresWhileRunningIff` when that
  happens with the motor running.
- `extend` logs success whenever the statement ran (`lock_manager.cpp:59-66`), also when it updated no row:
  `ExtendEffectiveIff`.
- The comment at `ambient_light_estimator.cpp:202` says pixels above 250 are saturated; the loop counts 250 too.
- A percentile of 100 or more is never found and leaves the value 0: `ScanHistogram`, `PercentileValueInRange`.
- A change between two pump statuses other than "running" emits "healthy" without any pump run (`StrayVerdictIff`).
- A recording that is replaced by a later start is never uploaded: `FirstOfTwoStartsLost`; `SessionFate` says of every
  start which event decides what becomes of it.

## Model

| member | source | states |
|---|---|---|
| SummaryProofs.DayWindow | scheduled_task_manager/src/jobs/summary_jobs.cpp:43-58 | an instant is inside a date's half-open UTC window exactly when the date is its local day, so windows tile time |
| SummaryProofs.SummariesWellFormed | scheduled_task_manager/src/jobs/summary_jobs.cpp:72-141 | in every run, whatever calls fail (a failed existence check included), (device, type, date) is a key and every daily row has its own day's window |
| SummaryProofs.SummariesPersist | scheduled_task_manager/src/jobs/summary_jobs.cpp:118-141 | stored summaries are never removed, reordered or rewritten by the rest of a run |
| SummaryProofs.CoveredIffSummarised | scheduled_task_manager/src/jobs/cleanup_jobs.cpp:91-101 | gate (a) of the prune holds for an instant exactly when its own local day has a daily summary |
| SummaryProofs.CleanupKeepsRank | scheduled_task_manager/src/jobs/cleanup_jobs.cpp:106-116 | one cleanup leaves every row's rank within its (device, signal) group unchanged as long as the rank is among the first five, and never lets a lower-ranked row move up into them |
| SummaryProofs.RankAgreesWithHistory | scheduled_task_manager/src/jobs/cleanup_jobs.cpp:106-116 | after any run, ranks up to five computed on the pruned table are the ranks in the never-pruned history |
| SummaryProofs.NewestFiveSurvive | scheduled_task_manager/src/jobs/cleanup_jobs.cpp:106-116 | the five newest rows ever inserted for a (device, signal) pair are stored after every run |
| SummaryProofs.LatestFiveSurvive | scheduled_task_manager/src/jobs/cleanup_jobs.cpp:106-116 | by time alone: a row is stored after every run if fewer than five other rows ever inserted for its pair are as late |
| SummaryProofs.OutrankedRowDeleted | scheduled_task_manager/src/jobs/cleanup_jobs.cpp:89-117 | a row with five later ones stored is deleted by a cleanup once it is older than the retention or its day is summarised |
| SummaryProofs.CleanupLeaves | scheduled_task_manager/src/jobs/cleanup_jobs.cpp:89-117 | a cleanup leaves exactly the first five rows of each group and the rows no older than the retention in days whose local day has no summary |
| SummaryProofs.CleanupLeavesEvents | scheduled_task_manager/src/jobs/cleanup_jobs.cpp:121-138 | and exactly the events no older than the retention in days whose local day has no summary |
| SummaryProofs.WeeklyWindows | scheduled_task_manager/src/jobs/summary_jobs.cpp:62-69 | in every run every weekly row carries the window of its seven local days |
| SummaryProofs.SelectionIntactIff | scheduled_task_manager/src/jobs/cleanup_jobs.cpp:89-117 | while a day has no summary, the stored signals of any selection from it are all those ever inserted unless some cleanup met one past its cutoff and outranked by five; then some are missing |
| SummaryProofs.EventSelectionIntactIff | scheduled_task_manager/src/jobs/cleanup_jobs.cpp:121-138 | the same for events, lost exactly when some cleanup met one past its cutoff |
| SummaryProofs.DayIntactIff | scheduled_task_manager/src/jobs/cleanup_jobs.cpp:89-138 | a day without a summary is stored completely if and only if no cleanup had lost one of its rows |
| SummaryProofs.WithinRetentionNotLost | scheduled_task_manager/src/jobs/cleanup_jobs.cpp:102-104 | a day whose start no cleanup's cutoff has passed has lost neither signals nor events |
| SummaryTheorems.Lossless | scheduled_task_manager/src/jobs/summary_jobs.cpp:160-295 | over any sequence of inserts, uninterrupted daily and weekly jobs, INSERTs of interrupted jobs and cleanups in which rows precede their day's summary, summaries precede loss and an interrupted job stores what is still the history's aggregate, every stored daily payload is the aggregate over the never-pruned history; the condition on interrupted jobs is discharged by SummaryInterleaving.InterleavedLossless |
| SummaryTheorems.WrittenRowPersists | scheduled_task_manager/src/jobs/summary_jobs.cpp:260-282 | a daily row that was written, with the payload it was written with, is in the table after every continuation |
| SummaryTheorems.SummarisedWithinRetention | scheduled_task_manager/src/jobs/cleanup_jobs.cpp:102-104 | summarising a day that starts within the shortest retention used so far meets the hypothesis of Lossless |
| SummaryCompleteness.SignalCountExactIff | scheduled_task_manager/src/jobs/summary_jobs.cpp:217-240 | a count of meals, treats or heartbeats read at some point of a run, the day not summarised yet, is that of every row the whole run inserts for the day if and only if the query was answered, no cleanup had lost such a row by then and none is inserted later, before or after the INSERT |
| SummaryCompleteness.EventCountExactIff | scheduled_task_manager/src/jobs/summary_jobs.cpp:242-264 | an event count read at some point of a run is right over the whole run if and only if none is inserted later and the query was answered with none lost by then, or it failed and there was none |
| SummaryCompleteness.CountsExactIff | scheduled_task_manager/src/jobs/summary_jobs.cpp:217-282 | both for all eight counts of a stored row at once, with the two SELECTs at any two points of the run |
| SummaryCompleteness.CompleteIff | scheduled_task_manager/src/jobs/summary_jobs.cpp:85-116 | a stored row was computed by answered queries from every row of its day over the whole run if and only if the day was read in full and none of its rows is inserted after the reads |
| SummaryCompleteness.CompleteIsExact | scheduled_task_manager/src/jobs/summary_jobs.cpp:217-282 | in that case the whole stored payload is the aggregate of the history |
| SummaryCompleteness.MidnightSummaryMissesMeal | scheduled_task_manager/src/jobs/summary_jobs.cpp:182-188 | a concrete run in which the default generator, called at midnight, stores a payload that lacks a meal of its day |
| SummaryCompleteness.FailedSignalQueryStored | scheduled_task_manager/src/jobs/summary_jobs.cpp:218-240 | a summary whose signal query failed is stored for good and has no count, whatever the rows |
| SummaryCompleteness.FailedEventQueryErases | scheduled_task_manager/src/jobs/summary_jobs.cpp:242-264 | a summary whose event query failed counts 0 everywhere, and the next cleanup leaves no event of its day |
| SummaryCompleteness.FailedQueryLosesMeal | scheduled_task_manager/src/jobs/summary_jobs.cpp:218-222 | a concrete run with a meal, nothing lost and nothing late, whose stored counts are wrong because the query failed |
| SummaryCompleteness.LostReplyStored | scheduled_task_manager/src/jobs/summary_jobs.cpp:269-282 | a daily row whose INSERT commits and loses its reply is reported as "Insert failed", is in the table after every continuation, and makes every later job of its day skip |
| SummaryTheorems.LateEventErased | scheduled_task_manager/src/jobs/cleanup_jobs.cpp:121-138 | an event that arrives after its day was summarised is gone after the next cleanup and no summary has changed |
| SummaryWeekly.SumSplits | scheduled_task_manager/src/jobs/summary_jobs.cpp:97-100 | sums and counts of a signal are additive over disjoint row selections |
| SummaryWeekly.WeekFoldMatchesHistory | scheduled_task_manager/src/jobs/summary_jobs.cpp:360-387 | the weekly loop over stored payloads of any range of days totals exactly the never-pruned rows of the days that have a summary |
| SummaryWeekly.DaysCounted | scheduled_task_manager/src/jobs/summary_jobs.cpp:347-376 | the loop counts exactly the days of the range that have a summary, each once and each with data |
| SummaryWeekly.WeeklyMatchesHistory | scheduled_task_manager/src/jobs/summary_jobs.cpp:301-442 | a weekly payload computed at any point of a disciplined run covers exactly the days of its week summarised then: it counts them, and its food, treat, meal and event totals are those of their complete raw history, after any pruning |
| SummaryWeekly.SummarisedDaysClosed | scheduled_task_manager/src/jobs/summary_jobs.cpp:143-153 | once a set of days is summarised, a step of a disciplined run inserts no row into any of them and keeps them summarised |
| SummaryWeekly.SevenDaysFull | scheduled_task_manager/src/jobs/summary_jobs.cpp:347-376 | a payload that covers as many days as the week has covers the whole week |
| SummaryWeekly.WeeklyLossless | scheduled_task_manager/src/jobs/summary_jobs.cpp:301-442 | every stored weekly payload, full or not, counts exactly the days of its week that were summarised at some earlier point of the run, when its job read them, and holds the totals of every row the whole disciplined run ever inserts for those days; seven are the whole week |
| SummaryWeekly.FiguresSummed | scheduled_task_manager/src/jobs/summary_jobs.cpp:383-386 | the loop's temperature and battery sums are the sums of the figures present, of which there are at most as many as days with data |
| SummaryWeekly.WeeklyAverageIff | scheduled_task_manager/src/jobs/summary_jobs.cpp:401-404 | the weekly temperature and battery averages are the means of the available daily figures if and only if there is no day with data, or some figure is present and every day with data has one or they sum to 0 |
| SummaryWeekly.NoTemperatureStoredAsZero | scheduled_task_manager/src/jobs/summary_jobs.cpp:401-402 | for every device, time and number of summarised days, a run without any row whose weekly summary stores an average of 0 degrees |
| SummaryWeekly.OneWarmDayDivided | scheduled_task_manager/src/jobs/summary_jobs.cpp:401-402 | and a run whose one temperature of 21 degrees is stored as 21 divided by the summarised days, 3 for seven |
| SummaryTheorems.CleanupBoundsStorage | scheduled_task_manager/src/jobs/cleanup_jobs.cpp:89-117 | after a cleanup at most five summarised-or-expired rows of any (device, signal) group remain |
| SummaryInterleaving.UninterruptedDaily | scheduled_task_manager/src/jobs/summary_jobs.cpp:182-282 | the statements of a daily job, run one after the other with any of them failing, change the tables as the uninterrupted job of the run model does |
| SummaryInterleaving.UninterruptedWeekly | scheduled_task_manager/src/jobs/summary_jobs.cpp:301-442 | the same for a weekly job |
| SummaryInterleaving.InterleavedLossless | scheduled_task_manager/src/jobs/summary_jobs.cpp:160-442 | over every interleaving of rows, prunes and the statements of any number of jobs, in which rows precede the reading of their day and reading precedes loss, every stored daily payload is the aggregate of the history and every weekly one holds the totals of the days it counts, of the whole week if it counts seven |
| SummaryInterleaving.StatementSound | scheduled_task_manager/src/jobs/summary_jobs.cpp:201-282 | each statement keeps what its job has read equal to the aggregate of the history, or the day is summarised already |
| SummaryInterleaving.StoredHasSource | scheduled_task_manager/src/jobs/summary_jobs.cpp:217-282 | in every interleaving of rows, prunes and statements, what a job has read and every stored daily row is what the two SELECTs return at some points of the run, the day not summarised yet |
| SummaryInterleaving.StoredCountsIff | scheduled_task_manager/src/jobs/summary_jobs.cpp:217-282 | so for every stored daily row of every interleaving: its counts are right if and only if the signal query was answered, no counted row had been lost or missed at the reads, and none has been inserted since them |
| SummaryInterleaving.RowBetweenReadAndStoreMissed | scheduled_task_manager/src/jobs/summary_jobs.cpp:218-278 | after any acts: a daily job reads an unsummarised day by answered queries, a meal of the day arrives, the INSERT commits; the stored row is in the table and its counts are wrong, with nothing lost and nothing inserted after the INSERT |
| SummaryPolicy.CountsForeverIff | scheduled_task_manager/src/jobs/summary_jobs.cpp:182-282 | for every interleaving and stored daily row: all its counts are right in every continuation whose rows are at most lag late if and only if the signal query was answered, no counted row has been lost or missed so far, and a job has run lag after the end of the day |
| SummaryPolicy.CompleteForeverIff | scheduled_task_manager/src/jobs/summary_jobs.cpp:182-282 | the row is complete in every such continuation if and only if its day was read in full, no row of it came since, and a job has run lag after its end |
| SummaryPolicy.JobCountsForeverIff | scheduled_task_manager/src/jobs/summary_jobs.cpp:182-264 | for a job that nothing interrupts, judged when it runs: its counts are right in every such continuation if and only if the signal query was answered, no counted row had been lost, and the job ran lag after the end of its day |
| SummaryPolicy.JobCompleteForeverIff | scheduled_task_manager/src/jobs/summary_jobs.cpp:182-264 | and its row is complete in every such continuation if and only if the day was read in full and the job ran lag after its end |
| SummaryPolicy.JobExactForever | scheduled_task_manager/src/jobs/summary_jobs.cpp:182-282 | then the row stays in the table and its payload the aggregate of the history, in every such continuation |
| SummaryPolicy.OpenDayMissesMeal | scheduled_task_manager/src/jobs/summary_jobs.cpp:182-188 | as long as no job has run lag after the end of a day, a meal of it is possible that makes the counts of its stored summary wrong |
| SummaryPolicy.RunningDayMissesMeal | scheduled_task_manager/src/jobs/summary_jobs.cpp:182-188 | so it is after every summary written by the default generator |
| SummaryPolicy.PolicyLossless | scheduled_task_manager/src/jobs/summary_jobs.cpp:160-442 | if rows are at most lag late, every daily job begins lag after its day and reads it by answered queries before any cleanup's cutoff has passed its start, then over any interleaving of statements every stored daily payload is the aggregate of the history and every weekly one sound |
| SummaryPolicy.LateTemperatureMissed | environment_condition_node/src/environment_condition_monitor.cpp:319-346 | the bound is sharp: for every lag, a run that follows the policy with one temperature row a millisecond later than that stores no temperature for a day that had 21 degrees |
| SummaryPolicy.StaleReadingBreaksAnyLag | environment_condition_node/src/environment_condition_monitor.cpp:319-346 | for every lag and however late the job, a run that follows the policy and in which a reading is written again under its old time stamp stores an average of 21 where the history has 64/3 |
| SummaryAggregates.PayloadBrackets | scheduled_task_manager/src/jobs/summary_jobs.cpp:87-106 | a payload's minimum and maximum temperature and light are attained by rows of the right signal and bound all of them, the averages lie between, and all are null exactly without a reading |
| SummaryAggregates.PayloadAverages | scheduled_task_manager/src/jobs/summary_jobs.cpp:87-100 | each average of a payload (temperature, light, humidity) times the number of rows with a reading of its signal is the sum of those readings, the battery figure is the least reading, and each is null exactly without a reading |
| SummaryAggregates.PayloadTotals | scheduled_task_manager/src/jobs/summary_jobs.cpp:97-101 | every sum and count of a payload is what its rows and events contribute one by one: grams and count by signal 117, 125 and 71, one per event kind, one per high or critical severity |
| SummaryAggregates.StoredFiguresOfHistory | scheduled_task_manager/src/jobs/summary_jobs.cpp:85-116 | over every orderly interleaving, all figures of a stored daily row (averages, extremes, sums and counts, taken row by row) are those of every row and event ever inserted for its day |
| SummaryAggregates.RowOrderIrrelevant | scheduled_task_manager/src/jobs/summary_jobs.cpp:87-116 | every job gives the same payloads and the same surviving rows for any order of rows in the tables, as SQL requires |
| SummaryDatabase.DailyReportWrongIff | scheduled_task_manager/src/jobs/summary_jobs.cpp:160-295 | a daily job reports failure and has stored a row if and only if its INSERT lost its reply on an unsummarised day, and reports a row and has stored none if and only if the existence check missed a summary; otherwise the report is right |
| SummaryDatabase.WeeklyReportWrongIff | scheduled_task_manager/src/jobs/summary_jobs.cpp:301-442 | the same for a weekly job |
| SummaryDatabase.ExpiredRowsIff | scheduled_task_manager/src/jobs/cleanup_jobs.cpp:140-150 | of notifications and executions exactly those no older than the retention in days are left |
| SummaryDatabase.RetriesLeftIff | scheduled_task_manager/src/jobs/cleanup_jobs.cpp:152-156 | of retries all but the dead letters older than the retention in days are left |
| SummaryDatabase.MediaLeftIff | scheduled_task_manager/src/jobs/cleanup_jobs.cpp:43-57 | of the media files all but the regular ones older than the retention in whole hours are left, and everything from an entry that throws on |
| SummaryDatabase.Database.constructor | scheduled_task_manager/src/jobs/summary_jobs.cpp:38-154 | the tables start empty, the initial state of every run |
| SummaryDatabase.Database.TallyEvents | scheduled_task_manager/src/jobs/summary_jobs.cpp:246-258 | the loop's five counters are the numbers of severe events and of events of each kind |
| SummaryDatabase.Database.CollectDay | scheduled_task_manager/src/jobs/summary_jobs.cpp:217-264 | the payload's averages, extremes, sums and counts are, row by row, those of the rows stored for the day; a failed query leaves its part empty |
| SummaryDatabase.Database.DailySummary | scheduled_task_manager/src/jobs/summary_jobs.cpp:160-295 | the daily generator moves the tables as the run model says and reports the right outcome; an INSERT whose reply is lost stores the row and reports failure |
| SummaryDatabase.Database.TotalWeek | scheduled_task_manager/src/jobs/summary_jobs.cpp:360-387 | the weekly loop computes the fold that WeekFoldMatchesHistory is about |
| SummaryDatabase.Database.WeeklySummary | scheduled_task_manager/src/jobs/summary_jobs.cpp:301-442 | the weekly generator moves the tables as the run model says and reports the right outcome, a lost reply as failure |
| SummaryDatabase.Database.PruneMedia | scheduled_task_manager/src/jobs/cleanup_jobs.cpp:38-64 | old regular files are removed, in directory order, up to the entry that throws; the count is what was removed |
| SummaryDatabase.Database.PruneSummarised | scheduled_task_manager/src/jobs/cleanup_jobs.cpp:20-24 | the two gated prunes change signals and events as the run model says; reported, unreported and remaining rows add up to what was there |
| SummaryDatabase.Database.PruneExpired | scheduled_task_manager/src/jobs/cleanup_jobs.cpp:140-156 | the age prunes keep exactly the rows not past the cutoff, and of the retries all that are not dead letters, with the same account |
| SummaryDatabase.Database.DataCleanup | scheduled_task_manager/src/jobs/cleanup_jobs.cpp:9-78 | reported items, deletions whose reply was lost and what is left add up to what was there, table by table and in total; success fails only with the disk prune |
| OrderStatistics.OrderStatistic | environment_condition_node/src/ambient_light_estimator.cpp:225-250 | the k-th smallest element is at most v exactly when more than k elements are: counts determine sorted positions |
| OrderStatistics.SortingUnique | environment_condition_node/src/ambient_light_estimator.cpp:225-250 | a frame has one sorting, so the reference the histogram loop is compared with is well defined |
| OrderStatistics.SortedPointwise | environment_condition_node/src/ambient_light_estimator.cpp:236-250 | pointwise order of two frames carries over to their sorted frames |
| AmbientLight.ScanBins | environment_condition_node/src/ambient_light_estimator.cpp:228-250 | the nested loop over bins computes the sorted frame's element at the target and the sum and count of its sorted elements between the two limits |
| AmbientLight.ScanHistogram | environment_condition_node/src/ambient_light_estimator.cpp:223-252 | the percentile is element percentile*n/100 of the sorted frame, found exactly below 100; the mean is that of sorted elements 10n/100 to 90n/100, whose count is never 0 |
| AmbientLight.TrimmedRange | environment_condition_node/src/ambient_light_estimator.cpp:244-247 | the number of positions counted between the limits, in closed form |
| AmbientLight.TrimmedMeanInRange | environment_condition_node/src/ambient_light_estimator.cpp:252 | the trimmed mean lies between any bounds of the pixels |
| AmbientLight.PercentileValueInRange | environment_condition_node/src/ambient_light_estimator.cpp:232-243 | so does the percentile below 100; from 100 on it is 0 |
| AmbientLight.EstimateInRange | environment_condition_node/src/ambient_light_estimator.cpp:252-259 | the combined estimate of an accepted, not dark frame lies between its extreme pixels |
| AmbientLight.EstimateSigns | environment_condition_node/src/ambient_light_estimator.cpp:201-259 | brightness is negative exactly for rejected frames, and confidence is always within 0.1 and 1 |
| AmbientLight.QualityIff | environment_condition_node/src/ambient_light_estimator.cpp:201-219 | a frame is rejected exactly when more than 85 percent of its pixels are at least 250, and dark exactly when every pixel is below 3 |
| AmbientLight.EstimateMeaning | environment_condition_node/src/ambient_light_estimator.cpp:201-259 | the estimate in terms of the pixels: -1 and 0.1 when rejected, 0 and 0.95 when dark; otherwise seven tenths of the mean of the sorted pixels 10n/100 to 90n/100 and three tenths of pixel percentile*n/100, with full confidence less half the saturated share and 1.5/255 for each level between the two, at least 0.1 |
| AmbientLight.EvenFrame | environment_condition_node/src/ambient_light_estimator.cpp:201-259 | an evenly lit frame is measured as its grey level with full confidence |
| AmbientLight.BrightnessMonotone | environment_condition_node/src/ambient_light_estimator.cpp:201-259 | if frame B is pointwise at least as bright as A and accepted, A is accepted and its estimate is no larger, dark frames included |
| AmbientLight.SmoothedInHull | environment_condition_node/src/ambient_light_estimator.cpp:145-151 | the smoothed value is unavailable until a frame is accepted and then stays within the range of the accepted estimates |
| AmbientLight.SmoothedClosedForm | environment_condition_node/src/ambient_light_estimator.cpp:145-151 | the smoothed value of every stream is (1 - alpha)^n e0 plus the sum of alpha (1 - alpha)^(n - i) ei for i = 1 to n over its accepted estimates e0 to en, and unavailable without one |
| AmbientLight.SmoothedMonotone | environment_condition_node/src/ambient_light_estimator.cpp:142-151 | a pointwise brighter stream that is rejected only where the darker one is never has a smaller smoothed brightness, and gives a first reading at the same time |
| AmbientLight.BucketMonotone | environment_condition_node/src/ambient_light_estimator.cpp:53-59 | with a monotone light model the published bucket of the brighter stream is never a darker one |
| AmbientLight.BucketRank | environment_condition_node/src/ambient_light_estimator.cpp:53-59 | the bucket's rank is one more than the number of the limits 10, 50, 500 and 2000 lux that are reached |
| AmbientLight.AvailableIff | environment_condition_node/src/ambient_light_estimator.cpp:42-51 | with a model that is not negative a reading is available exactly after a first accepted frame |
| AmbientLight.Estimator.constructor | environment_condition_node/src/ambient_light_estimator.cpp:42-51 | a fresh estimator has seen no frame |
| AmbientLight.Estimator.EstimateBrightness | environment_condition_node/src/ambient_light_estimator.cpp:170-260 | the histogram code returns the order-statistics estimate: rejection, darkness, brightness and confidence |
| AmbientLight.Estimator.Publish | environment_condition_node/src/ambient_light_estimator.cpp:145-163 | a negative estimate changes nothing; otherwise the smoothed value is the estimate, or alpha times it plus 1 - alpha times the old one, and all published fields follow it |
| AmbientLight.Estimator.ProcessFrame | environment_condition_node/src/ambient_light_estimator.cpp:142-163 | after every frame the smoothed value is the exponentially weighted sum of the accepted estimates and the published fields are those of the stream; a rejected frame leaves the published reading alone |
| AmbientLight.Estimator.LatestLux | environment_condition_node/src/ambient_light_estimator.cpp:42-51 | the reading is that of the stream of frames seen, available exactly after a first accepted frame if the model is not negative |
| RecordingSessions.InvHolds | command_executor/src/command_handlers.cpp:693-824 | the session invariant (shape, conservation, ids, watchers, due times) holds after every interleaving |
| RecordingSessions.FieldsAgree | command_executor/src/command_handlers.cpp:709-724 | whenever the mutex is free the five fields are all cleared or all describe, field by field, one start command of the run: the last that ran |
| RecordingSessions.PerformedFromStarts | command_executor/src/command_handlers.cpp:714-721 | every session ever performed carries the id, device and dog of a start command that ran and the time that start read |
| RecordingSessions.SessionsConserved | command_executor/src/command_handlers.cpp:693-824 | starts performed = taken by a stop + taken by a watcher + superseded + the active one, as multisets and in number |
| RecordingSessions.UploadedAtMostOnce | command_executor/src/command_handlers.cpp:763-829 | each start's file is handed to upload at most once, never while active and never after being superseded |
| RecordingSessions.WatcherEndsOwnSession | command_executor/src/command_handlers.cpp:735-761 | a firing watcher ends its own start's session, at least 30 s old, or changes no session at all |
| RecordingSessions.NoSessionOutlivesItsWatcher | command_executor/src/command_handlers.cpp:735-761 | no session is active once its own watcher has fired |
| RecordingSessions.SessionFate | command_executor/src/command_handlers.cpp:706-824 | the session of every start is superseded, stopped or watched if and only if the first later event among a start, a stop and its own watcher is of that kind, and active if and only if there is none |
| RecordingSessions.SupersededNeverUploaded | command_executor/src/command_handlers.cpp:709-724 | a superseded recording is uploaded in no continuation |
| RecordingSessions.FirstOfTwoStartsLost | command_executor/src/command_handlers.cpp:709-724 | the input: of two starts in turn the first is uploaded in no continuation |
| RecordingSessions.UploadedIsOfStart | command_executor/src/command_handlers.cpp:735-824 | in every run a stop or watcher that takes a session is the first later event to take that of some start, and hands over the video named after that start's time under the file id and command id of its command |
| RecordingSessions.WatcherStaysDue | command_executor/src/command_handlers.cpp:735-741 | a watcher is due exactly 30 s after it was spawned and stays so until it fires |
| RecordingSessions.StartedOutsidePrivacy | command_executor/src/command_handlers.cpp:630-647 | every start that runs was received outside privacy mode |
| RecordingSessions.ReusedIdEndsLaterSession | command_executor/src/command_dispatcher.cpp:88-96 | why ids must be fresh: with a reused id the earlier watcher ends the later session before its 30 s |
| RecordingSessions.VideoCapture.constructor | command_executor/src/command_handlers.cpp:630-647 | no session, no threads, privacy off |
| RecordingSessions.VideoCapture.HandleStop | command_executor/src/command_handlers.cpp:693-701 | a stop is refused in privacy mode or without a session, and launches a thread exactly when it is not refused |
| RecordingSessions.VideoCapture.StartThread | command_executor/src/command_handlers.cpp:706-724 | the start section overwrites all five fields for its own command |
| RecordingSessions.VideoCapture.WatcherThread | command_executor/src/command_handlers.cpp:735-761 | the watcher section takes and clears the session exactly when it is its own, and uploads what it took |
| RecordingSessions.VideoCapture.StopThread | command_executor/src/command_handlers.cpp:799-824 | the stop section takes and clears whatever session is active, or returns without an upload |
| JobLocks.InvHolds | scheduled_task_manager/src/lock_manager.cpp:10-33 | in every run of acquire, extend, release, crash and lost-reply steps, live leases are backed by their rows and each job's row is its latest unreleased grant |
| JobLocks.MutualExclusion | scheduled_task_manager/src/lock_manager.cpp:11-21 | at most one owner of a job is inside its bracket with an unexpired lease, and the row names it and its expiry |
| JobLocks.GrantsNeverOverlap | scheduled_task_manager/src/lock_manager.cpp:11-26 | any two grants of a job are separated by the release or the expiry of the earlier one |
| JobLocks.LateCallsHarmless | scheduled_task_manager/src/lock_manager.cpp:23-32 | a late release or extend by an owner whose lock was taken over changes no row and no grant, and its own lease had expired |
| JobLocks.JobsDoNotInterfere | scheduled_task_manager/src/lock_manager.cpp:11-32 | a job's row and grants are those of the run restricted to that job's calls and the clock |
| JobLocks.CrashedRowStays | scheduled_task_manager/src/lock_manager.cpp:23-32 | while nobody asks for the job, a crashed owner's row stays as it was |
| JobLocks.CrashedJobRecovers | scheduled_task_manager/src/lock_manager.cpp:11-21 | a crashed owner's job is refused until its TTL has passed and then granted to the next owner that asks |
| JobLocks.LostReplyBlocks | scheduled_task_manager/src/lock_manager.cpp:35-48 | after a committed acquire whose reply is lost, in every continuation up to the end of its lease: the row stays, no owner is inside with a live lease, the job is not granted and every acquire is refused; after it the first owner that asks gets the job |
| JobLocks.ExtendEffectiveIff | scheduled_task_manager/src/lock_manager.cpp:28-32 | the caller ends up with the extended lease if and only if it still owned the row; otherwise nothing changes |
| JobLocks.CompletedIff | scheduled_task_manager/src/job_executor.cpp:44-66 | a job is logged as completed if and only if its handler returned success, and the entry's item count and error text are those of the outcome |
| JobLocks.LockManager.TryAcquire | scheduled_task_manager/src/lock_manager.cpp:35-48 | true exactly when the statement ran, granted and its answer arrived; the table changes exactly on a grant |
| JobLocks.LockManager.Release | scheduled_task_manager/src/lock_manager.cpp:50-57 | removes the row exactly when this owner holds it |
| JobLocks.LockManager.Extend | scheduled_task_manager/src/lock_manager.cpp:59-67 | reports only that the statement ran; moves the expiry exactly when this owner holds the row |
| JobLocks.JobExecutor.Begin | scheduled_task_manager/src/job_executor.cpp:31-41 | runs the job only with a granted lock of timeout + 30 s; otherwise one skipped log entry and "Lock busy" |
| JobLocks.JobExecutor.Finish | scheduled_task_manager/src/job_executor.cpp:44-77 | every outcome of the handler (result, exception, none) is logged once with its status, and the lock is released on every path |
| JobLocks.JobExecutor.Log | scheduled_task_manager/src/job_executor.cpp:80-101 | a log write that fails is swallowed and leaves the log as it was |
| WaterIntake.CyclesDecompose | dog_wellbeing_node/src/dog_wellbeing_monitor.cpp:501-513 | splitting a window at refills gives consecutive cycles, each starting more than 15 above the peak before it and containing no such rise |
| WaterIntake.CyclesUnique | dog_wellbeing_node/src/dog_wellbeing_monitor.cpp:501-513 | there is only one such decomposition, so the intake is well defined |
| WaterIntake.BestIsUpperBound | dog_wellbeing_node/src/dog_wellbeing_monitor.cpp:521-527 | the running total is at least the intake at every counted reading |
| WaterIntake.BestIsAttained | dog_wellbeing_node/src/dog_wellbeing_monitor.cpp:521-527 | and is the intake at one of them, or 0 |
| WaterIntake.FieldsMatchCycles | dog_wellbeing_node/src/dog_wellbeing_monitor.cpp:443-527 | after any readings peak, last level and refill sum are those of the open window's cycles, the running total is its best counted intake, and each closed window emitted exactly its positive total |
| WaterIntake.ClampUnreachable | dog_wellbeing_node/src/dog_wellbeing_monitor.cpp:515-519 | the value that would be clamped is the declarative intake and is never negative |
| WaterIntake.IntakeVersusDrops | dog_wellbeing_node/src/dog_wellbeing_monitor.cpp:501-519 | intake is at most the total downward variation, with equality if and only if every rise is a refill or starts at the peak |
| WaterIntake.WindowTotal | dog_wellbeing_node/src/dog_wellbeing_monitor.cpp:443-527 | a window's total is at most its drops, and exactly its drops when the last reading counts and every rise is counted |
| WaterIntake.NeverOvercounts | dog_wellbeing_node/src/dog_wellbeing_monitor.cpp:443-527 | totals emitted for closed windows plus the running total never exceed the drops of all readings |
| WaterIntake.OneAlarmPerLowRun | dog_wellbeing_node/src/dog_wellbeing_monitor.cpp:529-577 | the refill alarm is raised once for each maximal run of readings below 800 ml |
| WaterIntake.AlarmsTellLevel | dog_wellbeing_node/src/dog_wellbeing_monitor.cpp:529-577 | each alarm gives the first level of its low run in percent of 5000 ml |
| WaterIntake.HourWindows | dog_wellbeing_node/src/dog_wellbeing_monitor.cpp:426-445 | with hourly windows two readings of one local day share a unit exactly when they share the hour |
| WaterIntake.MinuteWindows | dog_wellbeing_node/src/dog_wellbeing_monitor.cpp:426-445 | with windows of a minute two readings of one hour share a unit exactly when they share the minute |
| WaterIntake.CountsIff | dog_wellbeing_node/src/dog_wellbeing_monitor.cpp:426-445 | a reading counts unless the setting is 24h and it falls in the first minute of its local day |
| WaterIntake.WaterMonitor.constructor | dog_wellbeing_node/src/dog_wellbeing_monitor.cpp:443-499 | unset levels, no window yet |
| WaterIntake.WaterMonitor.UpdateWaterLevel | dog_wellbeing_node/src/dog_wellbeing_monitor.cpp:426-580 | one reading moves all fields as the step of the proofs does, for every aggregation window setting |
| WaterIntake.WaterMonitor.CloseWindow | dog_wellbeing_node/src/dog_wellbeing_monitor.cpp:443-493 | a change of calendar unit emits a positive total once and resets the meters |
| WaterIntake.WaterMonitor.IntegrateLevel | dog_wellbeing_node/src/dog_wellbeing_monitor.cpp:495-513 | baseline, refill detection and peak tracking of one level |
| WaterIntake.WaterMonitor.CheckRefill | dog_wellbeing_node/src/dog_wellbeing_monitor.cpp:529-577 | the alarm is appended exactly on a first or changed check that is low, with the clamped percentage |
| MealSchedule.OccurrenceIsOnDay | dog_wellbeing_node/src/dog_wellbeing_monitor.cpp:112-130 | the occurrence arithmetic gives the clock time on the local day, or on the day after |
| MealSchedule.ScanFindsEarliest | dog_wellbeing_node/src/dog_wellbeing_monitor.cpp:141-151 | the search loop's candidate is the earliest start after now on that day, if there is any |
| MealSchedule.NextMealIsEarliest | dog_wellbeing_node/src/dog_wellbeing_monitor.cpp:132-193 | the next meal starts strictly after now, at most 24 h ahead, no meal on any day starts in between, and it exists exactly when there are meals |
| MealSchedule.WindowLength | dog_wellbeing_node/src/dog_wellbeing_monitor.cpp:412-424 | a window ends at or after its start, within 24 h, and its whole minutes are the tolerance window, across midnight too |
| MealSchedule.WindowsDisjoint | dog_wellbeing_node/src/dog_wellbeing_monitor.cpp:219-256 | in every run of ticks and weighings recorded windows are scheduled occurrences, disjoint and increasing, and each is the first to start after the previous one was closed |
| MealSchedule.BowlsRememberLastWeight | dog_wellbeing_node/src/dog_wellbeing_monitor.cpp:48-110 | a bowl's weight is the last one reported for it, 0 before the first, however alarms were raised |
| MealSchedule.IntakeIsNetLoss | dog_wellbeing_node/src/dog_wellbeing_monitor.cpp:226-258 | a window opened by one tick and closed by another is finished with the bowl's last weight before the one minus its last weight before the other, whatever happens in between |
| MealSchedule.FinishedHaveTicks | dog_wellbeing_node/src/dog_wellbeing_monitor.cpp:226-258 | every finished window of every run has an opening tick at or after its start and a later closing tick at or after its end, no window is finished in between, and its intake is the bowl's last weight before the one minus that before the other |
| MealSchedule.OneVerdictPerWindow | dog_wellbeing_node/src/dog_wellbeing_monitor.cpp:283-391 | the verdict signals of a run are, in order, exactly one verdict per finished window: intake with day total, or skipped |
| MealSchedule.VerdictOfWindow | dog_wellbeing_node/src/dog_wellbeing_monitor.cpp:262-391 | in every run the verdict signals of the finished windows follow one another, and those of a window are decided by what its bowl lost between its opening and its closing tick: more than 5 g is an intake signal with the meal, the grams and the start and then the day's total at the closing tick, anything less one skipped signal with the window's whole minutes |
| MealSchedule.RecordsOnTime | dog_wellbeing_node/src/dog_wellbeing_monitor.cpp:219-262 | after any tick of a non-empty schedule a window is adopted and is being recorded if and only if its start has been reached, and its end has not, unless that very tick opened it |
| MealSchedule.ServedExactly | dog_wellbeing_node/src/dog_wellbeing_monitor.cpp:48-110 | the served signals of a run are, in order, exactly one pair for every weighing more than 10 g above the bowl's non-zero last weight |
| MealSchedule.MealMonitor.constructor | dog_wellbeing_node/src/dog_wellbeing_monitor.cpp:219-224 | no window, nothing recorded |
| MealSchedule.MealMonitor.FirstToday | dog_wellbeing_node/src/dog_wellbeing_monitor.cpp:141-151 | the loop finds the earliest of today's later meals |
| MealSchedule.MealMonitor.FirstTomorrow | dog_wellbeing_node/src/dog_wellbeing_monitor.cpp:153-163 | the loop finds tomorrow's first meal although it compares nothing with now |
| MealSchedule.MealMonitor.FindNextMeal | dog_wellbeing_node/src/dog_wellbeing_monitor.cpp:132-193 | both loops together compute the next meal and its end |
| MealSchedule.MealMonitor.InitializeNextMeal | dog_wellbeing_node/src/dog_wellbeing_monitor.cpp:195-217 | adopts the next meal and waits for it; without meals nothing changes |
| MealSchedule.MealMonitor.Tick | dog_wellbeing_node/src/dog_wellbeing_monitor.cpp:219-410 | one tick moves the fields and signals as the step of the proofs does, and the closing tick emits the intake and the day's total for more than 5 g and the skipped signal otherwise |
| MealSchedule.MealMonitor.UpdateBowlWeight | dog_wellbeing_node/src/dog_wellbeing_monitor.cpp:48-110 | one weighing, with the served signals exactly for a rise of more than 10 g on a known bowl |
| CommandPipeline.InboundIffHandledOrZero | command_executor/include/command_executor/command_registry.hpp:18-38 | the table admits exactly the signals the worker handles, and signal 0 |
| CommandPipeline.FirstInFirstOut | command_executor/include/command_executor/command_queue.hpp:14-28 | finished, held and queued commands are, in this order, exactly the pushed ones, with two producers |
| CommandPipeline.AnsweredInOrder | command_executor/src/command_executor.cpp:33-111 | executed commands are answered in push order |
| CommandPipeline.AnswersAsReported | command_executor/src/command_executor.cpp:44-111 | in every run the executed answers are, in order, those of the finished commands, one for each event at which the worker finished one: a success if and only if that event reports success and the signal has a handler, otherwise a failure |
| CommandPipeline.WorkerDrains | command_executor/src/command_executor.cpp:33-44 | an idle worker that goes round as often as the queue is long has finished every pushed command |
| CommandPipeline.HeaderBecomesCommand | command_executor/src/main.cpp:102-134 | a received header becomes one command with the next ticket, queued or refused, that carries its signal id, 0 if absent and modulo 65536, its command id or the generated one, and its issuer or unknown_sender |
| CommandPipeline.RepeatedIdRefused | command_executor/src/command_dispatcher.cpp:88-96 | a header with the id of an earlier accepted command is refused, whatever else it says |
| CommandPipeline.EveryCommandOnce | command_executor/src/main.cpp:102-134 | every parsed wire command and every hardware command is in exactly one place: answered once, queued, or held by the worker |
| CommandPipeline.ReceiptsAreSound | command_executor/src/command_dispatcher.cpp:88-98 | the id set is that of the accepted commands, and each verdict is right against the commands before it |
| CommandPipeline.AcceptedIff | command_executor/src/command_dispatcher.cpp:53-99 | a parsed command is accepted if and only if its signal is handled or 0, its fields are present and no earlier accepted command had its id |
| CommandPipeline.PushedAreAccepted | command_executor/src/main.cpp:120-132 | the wire commands pushed are exactly the accepted ones, in order |
| CommandPipeline.RejectedIffNotAccepted | command_executor/src/main.cpp:120-129 | the commands answered as rejected are exactly those validation did not accept, in order of arrival |
| CommandPipeline.ExecutedAtMostOnce | command_executor/src/command_dispatcher.cpp:88-96 | no accepted wire id is executed twice |
| CommandPipeline.UnhandledNeverSucceeds | command_executor/src/command_executor.cpp:44-111 | in every run a command without a handler is answered, if at all, as failed when it reached the queue and as rejected when it did not |
| CommandPipeline.SignalZeroAlwaysFails | command_executor/src/command_executor.cpp:88-103 | in every run a received command with signal 0 is answered, if at all, as failed when its fields are present and its id is new, and as rejected otherwise |
| CommandPipeline.CommandQueue.PushBack | command_executor/include/command_executor/command_queue.hpp:14-18 | appends one command |
| CommandPipeline.CommandQueue.Pop | command_executor/include/command_executor/command_queue.hpp:20-28 | takes the oldest command, or nothing from an empty queue |
| CommandPipeline.CommandDispatcher.FindInbound | command_executor/src/command_dispatcher.cpp:56-78 | the scan decides by the first descriptor of the signal |
| CommandPipeline.CommandDispatcher.Validate | command_executor/src/command_dispatcher.cpp:53-99 | accepts exactly acceptable commands with a new id, and remembers exactly the accepted ids |
| CommandPipeline.Pipeline.ReceiveMessage | command_executor/src/main.cpp:102-134 | one received message is dropped, rejected with an answer, or queued |
| CommandPipeline.Pipeline.PushHardwareEvent | command_executor/src/status_subscriber.cpp:172-205 | hardware events enter the queue without validation |
| CommandPipeline.Pipeline.TakeNext | command_executor/src/command_executor.cpp:33-40 | the idle worker takes the head of the queue |
| CommandPipeline.Pipeline.Complete | command_executor/src/command_executor.cpp:44-111 | the worker answers its command once, as a success exactly if it has a handler and the handler succeeded |
| LidRecognizer.FlagsMatchHistory | command_executor/src/status_subscriber.cpp:76-125 | the manual flag holds exactly when a transition reading came after the last stable reading and after the last motor-running message; the stable field is the last stable reading |
| LidRecognizer.StateMatchesHistory | command_executor/src/status_subscriber.cpp:76-125 | the state field is the latest reading and the actuation flag says whether a motor has ever started |
| LidRecognizer.FiresExactly | command_executor/src/status_subscriber.cpp:96-125 | before the debounce an open (close) event fires exactly when the reading is 1 (0), the last stable reading was 0 (1) and the flag's history condition holds |
| LidRecognizer.MotorMoveReportedManual | command_executor/src/status_subscriber.cpp:97-101 | a move made while the motor runs is reported as manual |
| LidRecognizer.FiresWhileRunningIff | command_executor/src/status_subscriber.cpp:76-125 | a message fires an event while the motor runs if and only if the recogniser's history condition holds and the last motor message says running |
| LidRecognizer.EventsApart | command_executor/src/status_subscriber.cpp:157-170 | any two emitted events of a lid are at least 1000 ms apart |
| LidRecognizer.FiredIsEmittedUnlessRecent | command_executor/src/status_subscriber.cpp:157-170 | a fired move is emitted unless less than 1000 ms have passed since the last emitted one |
| LidRecognizer.LidsDoNotInterfere | command_executor/src/status_subscriber.cpp:64-155 | each lid behaves as if its own messages were the only ones |
| LidRecognizer.LidMachine.HandleMotor | command_executor/src/status_subscriber.cpp:76-88 | a motor message sets the motor flag and, when running, disarms the lid |
| LidRecognizer.LidMachine.HandleReading | command_executor/src/status_subscriber.cpp:96-125 | one reading moves the lid's fields as the recogniser's step does |
| LidRecognizer.LidMachine.EmitManualEvent | command_executor/src/status_subscriber.cpp:157-206 | the debounce drops or emits a fired event |
| LidRecognizer.StatusSubscriber.HandleMessage | command_executor/src/status_subscriber.cpp:64-155 | a message changes only the lid of its topic; others are ignored |
| HealthMonitor.StaleIffUnchanged | health_monitoring_node/src/health_monitor.cpp:109-133 | after a tick that follows a first heartbeat the flag holds if and only if the number has not changed for at least 3000 ms |
| HealthMonitor.SilentIsStagnant | health_monitoring_node/src/health_monitor.cpp:110-111 | silence implies stagnation |
| HealthMonitor.MissedEventsSeparated | health_monitoring_node/src/health_monitor.cpp:113-133 | between any two missed-heartbeat events the number changed, and the later came at least 3 s after that change |
| HealthMonitor.MissedIff | health_monitoring_node/src/health_monitor.cpp:109-133 | a missed heartbeat is reported exactly by a tick after a first heartbeat, 3 s after the number's last change and not yet reported for it, as silent exactly if no heartbeat came for 3 s |
| HealthMonitor.OneVerdictPerRun | health_monitoring_node/src/health_monitor.cpp:624-671 | each completed pump run has exactly one verdict (failed after at least 10 s with the bowl not full, or healthy at its stop), and the emitted verdicts are, in order, those of the completed runs and the stray ones, then that of the run under way |
| HealthMonitor.VerdictOfPumpRun | health_monitoring_node/src/health_monitor.cpp:213-232 | on the event history: up to any point of a pump run the verdicts emitted since its start are one failure, at the first tick at least 10 s after the start that finds the latest bowl level other than 1, if there is one; the stop adds healthy if and only if there is none |
| HealthMonitor.VerdictIff | health_monitoring_node/src/health_monitor.cpp:213-232 | event by event: a failure is emitted exactly by such a first tick, healthy exactly by a change to another status than running when the latest pump run had none, and nothing else |
| HealthMonitor.StrayVerdictIff | health_monitoring_node/src/health_monitor.cpp:648-667 | a verdict without a run is emitted exactly on a change between two statuses other than running with no failure standing |
| HealthMonitor.LowEventsSeparated | health_monitoring_node/src/health_monitor.cpp:139-160 | between two low-battery events some tick saw a level of at least 10 |
| HealthMonitor.LowEventIff | health_monitoring_node/src/health_monitor.cpp:139-160 | a low-battery event is emitted exactly at a tick whose reported level is low when the previous known one was not |
| HealthMonitor.ReportIff | health_monitoring_node/src/health_monitor.cpp:160-178 | a level is reported exactly by a tick at least 60 s after the last emission with a reported level of at least 10, or by an update that is the first, differs by at least 3 points or comes 60 s after the last emission |
| HealthMonitor.CachedLevelClose | health_monitoring_node/src/health_monitor.cpp:296-323 | in every run the cached battery level is within 3 points of the latest true one, however updates were reported or suppressed |
| HealthMonitor.Monitor.TickHeartbeat | health_monitoring_node/src/health_monitor.cpp:109-133 | the heartbeat part of a tick |
| HealthMonitor.Monitor.TickBattery | health_monitoring_node/src/health_monitor.cpp:139-178 | the battery part of a tick |
| HealthMonitor.Monitor.TickPump | health_monitoring_node/src/health_monitor.cpp:213-232 | the dry-run part of a tick: a failure is emitted exactly if the pump runs, none was reported, 10 s have passed and the bowl is not full |
| HealthMonitor.Monitor.OnTick | health_monitoring_node/src/health_monitor.cpp:105-232 | the three parts of a tick do not disturb one another |
| HealthMonitor.Monitor.UpdateDeviceHeartbeat | health_monitoring_node/src/health_monitor.cpp:277-290 | a heartbeat updates arrival, and change and latch exactly on a new number |
| HealthMonitor.Monitor.UpdateBatteryLevel | health_monitoring_node/src/health_monitor.cpp:296-323 | a level is reported and cached after 60 s, at first, or on a change of 3 points |
| HealthMonitor.Monitor.UpdateWaterPumpState | health_monitoring_node/src/health_monitor.cpp:624-671 | a status change starts or ends a pump run and emits the healthy verdict where no failure stands |
| HealthMonitor.Monitor.UpdateBowlWaterLevel | health_monitoring_node/src/health_monitor.cpp:673-682 | the bowl level is remembered and nothing else changes |
| Launcher.LaunchBudget | scripts/launch_edge_layer.py:125-133 | a node is launched at most 21 times in any run |
| Launcher.LaunchedIff | scripts/launch_edge_layer.py:21-65 | in every run an event launches a node, once, if and only if the flag is not set, the spawn works, and it is the node's start or finds it exited with restarts left and any wait uninterrupted |
| Launcher.CrashesRelaunched | scripts/launch_edge_layer.py:113-133 | a running node that exits before each poll is launched again at each of the first 20, neither more nor fewer times |
| Launcher.WaitsExactly | scripts/launch_edge_layer.py:31-43 | a relaunch waits until its backoff has passed since the last launch and no longer |
| Launcher.TotalBackoffClosedForm | scripts/launch_edge_layer.py:33-34 | the summed backoffs are 2^k - 1 up to the fifth restart and 31 + 30(k - 5) beyond |
| Launcher.RelaunchDelay | scripts/launch_edge_layer.py:32-59 | the k-th relaunch happens no earlier than that many seconds after the first launch, failed spawns in between or not |
| Launcher.ShutdownEndsHistory | scripts/launch_edge_layer.py:21-45 | after the shutdown flag no event of any continuation launches, restarts or changes a node |
| Launcher.NodesDoNotInterfere | scripts/launch_edge_layer.py:105-133 | a node's budget, backoff and launches in any run are those of the run restricted to its own events and the shutdown |
| Launcher.ProcessManager.AwaitDeadline | scripts/launch_edge_layer.py:39-43 | the sleep loop ends at the first reading at the deadline, or as soon as it sees the shutdown flag |
| Launcher.ProcessManager.StartProcess | scripts/launch_edge_layer.py:21-65 | a start waits out its backoff and then launches once, or is interrupted, or fails without recording a start |
| Launcher.ProcessManager.PollNode | scripts/launch_edge_layer.py:113-133 | one monitor pass over one node spends one restart exactly for an exited node within budget |

## Left out

- ZeroMQ sockets, PostgreSQL connections, JSON text, image conversion and resizing, shell commands, CSV files and logging: foreign I/O; failures of database calls are parameters of the modelled operations.
- The reconnect throttling of the storage writer, the device, health, care, overdue and retry jobs, cron text and configuration loading: easy facts or library behaviour.
- The power law from brightness to lux: a parameter of the estimator, assumed monotone where the bucket order needs it.
- Daylight saving and the C library's calendar: the offset is fixed and the day of the year of a water reading is given by the caller.
- The recorder process, its `pkill` and the upload's own outcome; legacy fixed-duration recording and invalid action values; the other command handlers.
- Summary titles, source references, dog ids, rows with null timestamps, and summary rows of another status than `generated`, which no modelled job writes.
- The other periodic emissions of a health tick (node heartbeat, power, connectivity, frame quality), which share no state with the modelled ones.
- The date suffix of emitted meal ids, the metadata of wellbeing signals, and meal times before 2 January 1970, where unsigned occurrence times wrap.
- Unsigned wrap-around of time differences when a clock runs back, excluded by the assumption on clocks.
- Headers whose fields have the wrong JSON type: the parser does not catch that exception.
- The fields of a result message and exceptions inside the result callback: an answer is its command id and status.
- Reuse of owner ids after a process restart with the same process number.
- Data races below the mutex and callback level.
- SummaryTheorems.Lossless: needs rows to precede their day's summary, answered queries, summaries that precede loss and interrupted jobs that store what is still the aggregate, because the code ensures none of them; SummaryInterleaving.InterleavedLossless derives the last one from the time of the SELECTs, and StoredCountsIff and CompleteIff state exactly when one summary is right without any of them.
- SummaryInterleaving.InterleavedLossless: the same hypotheses, at the time of each SELECT.
- SummaryPolicy.PolicyLossless: needs the bound on late rows, which the environment node breaks while a sensor is silent (StaleReadingBreaksAnyLag).
- SummaryWeekly.WeeklyLossless: covers the totals; the averages are not those of the raw history (WeeklyAverageIff).
- SummaryPolicy.CountsForeverIff: speaks of the eight counts; averages and extremes can be right by chance when a row was lost.
- AmbientLight.ScanHistogram: the frame is the downsampled grey frame of any size of at least one pixel; cropping and resizing are the image library's.
- Light buckets, pump statuses and storage paths are enumerations or a time stamp instead of their strings.
