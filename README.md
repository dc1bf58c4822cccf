# Traffic-density import: per-record accounting, in Dafny

This project models the part of the Spring-Kotlin-Batch traffic-density importer that
the repository itself implements, around the chunk engine the batch framework supplies:

- **Reading** (`batch_config.dfy`, module `Config`): the reader opens the job's `filePath`
  (or `traffic_density_202412.csv`), discards one header line, splits each data line on
  commas, binds the tokens to the eight columns DATE_TIME, LATITUDE, LONGITUDE, GEOHASH,
  MINIMUM_SPEED, MAXIMUM_SPEED, AVERAGE_SPEED, NUMBER_OF_VEHICLES, and builds a
  `TrafficDensity` record (`records.dfy`) with no id: the first four columns as text, the
  last four parsed as 32-bit integers. The step's chunk size is the constant `ChunkSize` = 10,000.
  Comma splitting, the integer parse the model assumes for `readInt` (an optional sign, then decimal
  digits, within the 32-bit range) and Kotlin's integer `toString` are in `text.dfy`.
- **Processing** (`processor.dfy`, module `Processor`): records with geohash `sxk9jr` are
  rejected; every other record passes through unchanged; the congestion condition
  (average speed below 50 and more than 100 vehicles) only logs.
- **Progress accounting**: the single `ProgressTracker` object (`progress_tracker.dfy`) with
  its four fields, `reset` and `toString`; the chunk listener (`chunk_progress_listener.dfy`)
  that overwrites the tracker's counters with the step's counts after each chunk; and the
  skip listener (`skip_listener.dfy`) that, per process or write skip, moves one per-job
  counter by one and appends the skipped record to the skip output.
- **Control plane** (`batch_controller.dfy`, module `Controller`): `run` with its
  missing-file guard, `stopJob` with its three outcomes, the two execution listings, and
  the progress bar.

The framework's observable types (statuses, step and job executions, job parameters) are in
`batch_types.dfy`; `wrappers.dfy` holds `Option`, `Result` and `Outcome`, which stand for
Kotlin's nullable values and thrown exceptions.

Objects the source changes in place are classes: `ProgressTracker`, the listeners, the
controller, and `JobExecution`, whose `status` `stopJob` sets. Everything outside the repository
is a parameter or a recorded request. This covers the clock, whether the CSV file exists, its
absolute path, the status a launch ends with, the explorer's lists, the current job's parameters
and whether a skip-output write succeeds. Launches and stop requests are recorded in
`JobLauncher.launched` and `JobOperator.stopRequests`.

Notes on the source as written:

- The skip listener calls `progressTracker.updateProgress(jobId) { ... }`
  (`src/main/kotlin/com/github/senocak/service/TrafficDensitySkipListener.kt:35,50`), but
  `ProgressTracker.kt` declares no such method and holds no per-job state. The model gives the
  per-job entries their own registry (`Skips.JobProgressRegistry`), a map from job id to
  counters. An update changes that job's entry alone, and a job not seen before starts from
  zeroed counters. This get-or-create rule is an assumption: the code that would decide it is absent.
- `isRunning` of a job execution follows the batch framework (version 5): an execution is
  running while its status is STARTING, STARTED or STOPPING (`Batch.IsRunning`).
- The step configured in `BatchConfig.kt:67-73` registers neither listener and configures no
  skipping. The listeners are modelled as the classes they are, not as part of a step that calls them.

## Model

| member | source | states |
|---|---|---|
| `Config.ResourcePath` | src/main/kotlin/com/github/senocak/config/BatchConfig.kt:45 | the reader opens the given path, or `traffic_density_202412.csv` when none is given |
| `Config.Tokenize` | src/main/kotlin/com/github/senocak/config/BatchConfig.kt:47-49 | a line tokenizes exactly when its comma split has eight tokens, which are bound to the eight column names in order |
| `Config.ColumnPositions` | src/main/kotlin/com/github/senocak/config/BatchConfig.kt:49 | each column name sits at its position: DATE_TIME 0, LATITUDE 1, … NUMBER_OF_VEHICLES 7 |
| `Config.ColumnReads` | src/main/kotlin/com/github/senocak/config/BatchConfig.kt:52-59 | reading a column by name yields the token at that column's position |
| `Config.ReadString` | src/main/kotlin/com/github/senocak/config/BatchConfig.kt:52-55 | `readString` yields a token of the line: the one in the first column with that name |
| `Config.ReadInt` | src/main/kotlin/com/github/senocak/config/BatchConfig.kt:56-59 | `readInt` succeeds exactly when the named token parses as a 32-bit integer, and then yields that value |
| `Config.MapFieldSet` | src/main/kotlin/com/github/senocak/config/BatchConfig.kt:50-61 | the mapper succeeds exactly when the four integer columns parse; the record then has no id, text fields equal to tokens 0-3 and integers parsed from tokens 4-7 |
| `Config.MapLine` | src/main/kotlin/com/github/senocak/config/BatchConfig.kt:47-61 | one line maps exactly when it has eight tokens whose last four are 32-bit integers; the result binds the tokens in column order, with no id |
| `Config.MapLines` | src/main/kotlin/com/github/senocak/config/BatchConfig.kt:47-61 | one result per line, the k-th from the k-th line |
| `Config.ReadItems` | src/main/kotlin/com/github/senocak/config/BatchConfig.kt:46 | the first line is discarded as the header, and every later line yields one result, in file order |
| `Config.MapLineFormatLine` | src/main/kotlin/com/github/senocak/config/BatchConfig.kt:47-61 | a record with comma-free text fields and 32-bit integers, written as a line, is read back as itself with the id dropped |
| `Config.HeaderSplitsIntoColumns` | src/main/kotlin/com/github/senocak/config/BatchConfig.kt:49 | the header line (the column names joined by commas) splits back into exactly the eight column names |
| `Config.ColumnNamesDistinct` | src/main/kotlin/com/github/senocak/config/BatchConfig.kt:49 | no two columns share a name, so each name picks one token |
| `Text.JoinSplit` | src/main/kotlin/com/github/senocak/config/BatchConfig.kt:47-48 | joining the comma split of any line gives the line back |
| `Text.SplitJoin` | src/main/kotlin/com/github/senocak/config/BatchConfig.kt:47-48 | splitting a line joined from comma-free fields gives exactly those fields |
| `Text.Split` | src/main/kotlin/com/github/senocak/config/BatchConfig.kt:47-48 | a split yields at least one token and no token contains the delimiter |
| `Text.ParseInt` | src/main/kotlin/com/github/senocak/config/BatchConfig.kt:56-59 | a token parses exactly when it is an optional sign followed by one or more decimal digits |
| `Text.ParseInt32` | src/main/kotlin/com/github/senocak/config/BatchConfig.kt:56-59 | a parse succeeds only with a value inside the 32-bit range, and succeeds whenever the decimal value is inside it |
| `Text.ParseFormatInt` | src/main/kotlin/com/github/senocak/service/ProgressTracker.kt:19 | the decimal rendering of any integer parses back to that integer |
| `Text.ParseInt32FormatInt` | src/main/kotlin/com/github/senocak/config/BatchConfig.kt:56-59 | every 32-bit value survives rendering and the 32-bit parse |
| `Text.FormatInt` | src/main/kotlin/com/github/senocak/service/ProgressTracker.kt:19 | a rendered integer is non-empty and holds no comma |
| `Processor.Process` | src/main/kotlin/com/github/senocak/service/TrafficDensityProcessor.kt:14-24 | `process` fails exactly when the geohash is `sxk9jr`, with "Invalid date"; otherwise it returns its argument unchanged |
| `Processor.ProcessIdempotent` | src/main/kotlin/com/github/senocak/service/TrafficDensityProcessor.kt:23 | processing an accepted result again returns the same result |
| `Processor.CongestionOnlyWarns` | src/main/kotlin/com/github/senocak/service/TrafficDensityProcessor.kt:20-23 | a congested record is rejected only for the rejected geohash, and is otherwise returned unchanged |
| `Processor.Accepted` | src/main/kotlin/com/github/senocak/service/TrafficDensityProcessor.kt:15-23 | the accepted records are exactly the input records whose geohash is not `sxk9jr` |
| `Processor.AcceptedPlusRejected` | src/main/kotlin/com/github/senocak/service/TrafficDensityProcessor.kt:15-23 | every record is either accepted or rejected: accepted = read - rejected |
| `Processor.ThreeRecordsOneRejected` | src/test/kotlin/com/github/senocak/batch/TrafficDensityBatchTest.kt:89-93 | three records with one `sxk9jr` yield the other two, in order, and one rejection |
| `Processor.CongestedSampleAccepted` | src/test/kotlin/com/github/senocak/batch/TrafficDensityBatchTest.kt:105-115 | the sample record (txk9jr, speed 45, 120 vehicles) is congested and is accepted with its fields intact |
| `Tracker.ProgressTracker.constructor` | src/main/kotlin/com/github/senocak/service/ProgressTracker.kt:7-10 | a fresh tracker has all three counters at zero and its last update at the creation time |
| `Tracker.ProgressTracker.Reset` | src/main/kotlin/com/github/senocak/service/ProgressTracker.kt:12-17 | after `reset` the counters are zero, whatever they held, and the last update is the current time |
| `Tracker.ProgressTracker.ToString` | src/main/kotlin/com/github/senocak/service/ProgressTracker.kt:19 | the text is "ProgressTracker(…)" whose comma-separated entries are totalRead, totalWritten, lastUpdate and skipCount with their values, in that order |
| `Tracker.Entries` | src/main/kotlin/com/github/senocak/service/ProgressTracker.kt:19 | there are four `name=value` entries and none contains a comma |
| `ChunkListener.ChunkProgressListener.AfterChunk` | src/main/kotlin/com/github/senocak/service/ChunkProgressListener.kt:16-24 | the tracker's counters become the step's read, write and skip counts (overwritten, not added), and the last update becomes the current time; only the tracker is written |
| `ChunkListener.ChunkProgressListener.AfterChunkError` | src/main/kotlin/com/github/senocak/service/ChunkProgressListener.kt:26-28 | every tracker field is unchanged |
| `Skips.GetJobId` | src/main/kotlin/com/github/senocak/service/TrafficDensitySkipListener.kt:24-30 | the job id is the `JobID` parameter; with no job context, or no such parameter, it fails with the matching error |
| `Skips.UpdatedProgress` | src/main/kotlin/com/github/senocak/service/TrafficDensitySkipListener.kt:35-37 | the named job's entry moves by exactly one, in the counter the delta names (read +1 or written -1); its skip count and every other job's entry stay as they were |
| `Skips.OnSkip` | src/main/kotlin/com/github/senocak/service/TrafficDensitySkipListener.kt:20-60 | a read skip, or a process or write skip whose job id cannot be found, changes nothing; otherwise the job's entry gets the callback's delta (read +1 for a process skip, written -1 for a write skip); the skip output gains the record exactly when the job id is found and the write succeeds |
| `Skips.ReplayAccounting` | src/main/kotlin/com/github/senocak/service/TrafficDensitySkipListener.kt:32-60 | over any sequence of callbacks, a job's read count rises by its process skips, its written count falls by its write skips, its skip count is untouched, and the skip output gains exactly the skipped records, in call order |
| `Skips.JobProgressRegistry.UpdateProgress` | src/main/kotlin/com/github/senocak/service/TrafficDensitySkipListener.kt:35 | the registry's entries become the single-job update of the old entries |
| `Skips.SkippedItemsWriter.Write` | src/main/kotlin/com/github/senocak/service/TrafficDensitySkipListener.kt:39-41 | a successful write appends the chunk; a failed one appends nothing and reports failure |
| `Skips.TrafficDensitySkipListener.OnSkipInRead` | src/main/kotlin/com/github/senocak/service/TrafficDensitySkipListener.kt:20-22 | no counter and no skip output changes |
| `Skips.TrafficDensitySkipListener.OnSkipInProcess` | src/main/kotlin/com/github/senocak/service/TrafficDensitySkipListener.kt:32-45 | fails, changing nothing, exactly when the job id cannot be found; otherwise that job's read count rises by one and the record is appended to the skip output, and a failed write is swallowed with the count change kept |
| `Skips.TrafficDensitySkipListener.OnSkipInWrite` | src/main/kotlin/com/github/senocak/service/TrafficDensitySkipListener.kt:47-60 | fails, changing nothing, exactly when the job id cannot be found; otherwise that job's written count falls by one and the record is appended to the skip output, and a failed write is swallowed with the count change kept |
| `Controller.LaunchParameters` | src/main/kotlin/com/github/senocak/controller/BatchController.kt:108-111 | a launch has exactly the parameters `filePath`, holding the absolute path, and `JobID`, whose text parses back to the clock reading it was made from |
| `Controller.LaunchParametersCarryJobId` | src/main/kotlin/com/github/senocak/controller/BatchController.kt:108-111 | the skip listener finds the launch's clock-derived job id in the launch parameters, and it reads back as that time |
| `Controller.JobLauncher.Run` | src/main/kotlin/com/github/senocak/controller/BatchController.kt:114 | one launch is recorded with its parameters, and the run's outcome is returned |
| `Controller.JobOperator.Stop` | src/main/kotlin/com/github/senocak/controller/BatchController.kt:173 | exactly one stop request for the id is recorded |
| `Controller.BatchController.Run` | src/main/kotlin/com/github/senocak/controller/BatchController.kt:99-121 | a missing file fails with "CSV file not found" and touches neither tracker nor launcher; otherwise the tracker is reset, one launch is made with the file path and job id, and the message carries the returned status, or the launch error is passed on |
| `Controller.BatchController.StopJob` | src/main/kotlin/com/github/senocak/controller/BatchController.kt:166-180 | an unknown id fails with "Job execution not found" and changes nothing; a running execution becomes STOPPING with exactly one stop request and the success message, all its other fields as they were; any other execution is left entirely unchanged, gets no request and yields "Job is not running" |
| `Controller.TimeText` | src/main/kotlin/com/github/senocak/controller/BatchController.kt:136-137 | a missing time becomes the empty string, and a present one is kept |
| `Controller.Summarize` | src/main/kotlin/com/github/senocak/controller/BatchController.kt:131-149 | an execution summary carries the id, job name, status name, times (empty when missing) and exit code, plus one step summary per step execution whose read, write, commit and rollback counts are copied verbatim |
| `Controller.FlatMapAppend` | src/main/kotlin/com/github/senocak/controller/BatchController.kt:128-131 | flattening keeps order: the flattening of a concatenation is the concatenation of the flattenings |
| `Controller.FlatMapMember` | src/main/kotlin/com/github/senocak/controller/BatchController.kt:128-131 | an element is in a flattening exactly when one input element's list holds it |
| `Controller.ExecutionsMember` | src/main/kotlin/com/github/senocak/controller/BatchController.kt:128-131 | an execution is listed exactly when it belongs to an instance of one of the job names |
| `Controller.ExecutionsAppend` | src/main/kotlin/com/github/senocak/controller/BatchController.kt:128-131 | executions are listed name by name: the listing for names `a + b` is that of `a` followed by that of `b` |
| `Controller.AllJobExecutions` | src/main/kotlin/com/github/senocak/controller/BatchController.kt:127-153 | one summary per listed execution, in name → instance → execution order |
| `Controller.SingleExecutionListed` | src/test/kotlin/com/github/senocak/controller/BatchControllerTest.kt:44-63 | with one name, one instance and one execution, the listing is exactly that execution's summary |
| `Controller.RunningExecutions` | src/main/kotlin/com/github/senocak/controller/BatchController.kt:155-164 | one summary per running execution, in the order given, with id, job name, status name and start time (empty when missing) |
| `Controller.ProgressBar` | src/main/kotlin/com/github/senocak/controller/BatchController.kt:86-94 | the bar is "[", then one '=' per filled cell, then one ' ' per remaining cell of the 50, then "]"; a count below zero draws no '=' and one above 50 draws no ' ', as Kotlin's `repeat` does with a negative count |
| `Controller.BarLengthInRange` | src/main/kotlin/com/github/senocak/controller/BatchController.kt:87-94 | for a fill count from 0 to 50 the bar is 52 characters long with exactly that many '=' |
| `Batch.StatusName` | src/main/kotlin/com/github/senocak/controller/BatchController.kt:135 | a status renders as its constant's name: at least six capital letters, and distinct statuses give distinct names (`Batch.StatusNameInjective`) |
| `Batch.IsRunning` | src/main/kotlin/com/github/senocak/controller/BatchController.kt:171 | an execution is running exactly when it has not ended (completed, stopped, failed, abandoned) and its status is not unknown, that is, while starting, started or stopping |
| `Batch.StatusNameInjective` | src/main/kotlin/com/github/senocak/controller/BatchController.kt:135 | distinct statuses render differently, so the status text in a summary identifies the status |

## Left out

- The chunk engine (read-process-write loop, transactions, skip limit, per-item write retry) belongs to the batch framework, and `BatchConfig.kt` configures only the chunk size. It is not modelled.
- File download (`download`, `downloadFileWithProgress`): network and file I/O and a fire-and-forget asynchronous task.
- The percentage arithmetic of `printProgress` and the line it prints are floating point and console output. Only the bar built from the integer fill count is modelled.
- `getProgress()` returns the tracker object itself, so there is nothing to state beyond identity.
- JPA persistence: the `JpaItemWriter` and the entity annotations of `TrafficDensity`.
- The library reader's own rules are not modelled. These are whitespace trimming by `readString`/`readInt`, quote handling, comment lines and the exception types. A wrong token count is the failure `IncorrectTokenCount`.
- The job repository, launcher and operator are external. They are modelled only through what the controller passes to them and reads back. Exceptions raised by `jobOperator.stop` and its boolean result are not modelled.
- Times of executions are held as their ISO-8601 text; formatting a date-time is not modelled.
- Thread-local job context and the synchronized writer's lock: the job's parameters are passed to each callback, and the skip output is a plain sequence.
- The clock and logging: times are parameters; log calls have no effect in the model.
- The per-job progress API that only the tests use (`getProgress(jobId)`, `JobProgress`, `reset(jobId)`) is not part of the source and is not modelled.
- `JobNotificationExecutionListener`, `JobStepExecutionListener` and the application bootstrap only log or wire components.
- Config.ReadInt: the integer parse of `readInt` belongs to the batch library and is assumed here to be an optional sign followed by decimal digits, within the 32-bit range. The library reads the number through a number format and narrows it to `Int`. So, unlike this model, it may accept `12abc` as 12 and `1.5` as 1, and it may wrap an out-of-range value instead of rejecting it.
- Skips.UpdatedProgress: counters are unbounded integers; the 64-bit wrap-around of Kotlin `Long` is not modelled, because no run comes near 2^63 records.
- Controller.BatchController.Run: the contract states that the tracker is reset and the launch is made, but not their order. In the model the launcher does not read the tracker, so the order is visible only in the method body.
- Controller.BatchController.StopJob: the status is set on the execution object the explorer returned. Whether the job repository stores that change is the framework's business.
- Config.HeaderSplitsIntoColumns: the header is stated as the column names joined by commas. The literal header text the test expects is not compared character by character.
