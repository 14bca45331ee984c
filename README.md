# SelfPomodoro core, modelled in Dafny

SelfPomodoro is a pomodoro timer that tunes a user's work and break lengths
with Bayesian optimisation. This project models the parts of it that decide
what is stored, what is optimised and what the user is told:

- the **optimiser service** (Python): the scope registry ("round" is two
  continuous dimensions, "session" two continuous and one integer, anything
  else an error), the sign flip of objectives before `tell` and the
  ask/tell sequencing (`BayesianOptimizer`); the DynamoDB history codec
  that writes round and session items and reads them back as rows of
  chosen columns (`DynamoDBHandler`);
- the **Go backend**:
  - sample optimisation history generated for a new user, batched in
    groups of 25, with write errors classified (`SampleData`), and the
    optimisation log constructors (`OptimizationLog`) and queue messages
    (`OptimizationMessage`);
  - rounds: the entity and its completion and abort rules (`Rounds`),
    the round table with its guards and session statistics
    (`RoundRepository`) and the round use cases that start, complete and
    abort rounds and send the optimisation message (`RoundUseCase`);
  - user configuration: defaults, ranges and validation (`UserConfigs`),
    the DynamoDB table with conditional writes (`UserConfigRepository`) and
    the use cases with the partial update (`UserConfigUseCase`);
  - statistics: the period constructors (`Statistics`), the gap filling and
    stable bubble sort of the focus trend (`StatisticsRepository`) and the
    period selection and not-found rule (`StatisticsUseCase`);
  - users: the entity (`Users`), the repository's result mapping and
    provider detection (`UserRepository`) and the use cases with their
    validators and pagination clamp (`UserUseCase`);
  - authentication: Cognito claims (`Claims`) and the HTTP middleware
    (`Middleware`);
  - the error taxonomy: Go error values with `errors.Is`/`errors.As` over
    the unwrap chain (`GoErrors`), domain, infrastructure and Cognito
    errors (`DomainErrors`, `InfraErrors`, `CognitoErrors`) and the mapping
    of errors to HTTP responses (`ErrorMapper`).

`Wrappers` (Option, Result), `Text` (decimal rendering and parsing, ASCII
lower-casing) and `Uuids` (`uuid.Parse` and the canonical text) are shared
helpers.

Objects the source updates in place are classes: the optimiser
(`Optimizer`), a round, a user configuration, a user and the claims, and
the two tables the use cases write through (`RoundStore`, `ConfigTable`)
as maps the methods reassign. The PostgreSQL and DynamoDB clients, the
queue, the clock, the calendar and time formatting are parameters: a
method is handed the client's outcome (a driver error, the rows affected,
whether a write succeeded) and returns or records what it handed over, so
every branch the source takes on those outcomes is modelled. Go's
`errors.Is` is the relation `Is` over a datatype of errors in which each
sentinel is its own constructor, so two sentinels with the same text in
different packages are different errors, as `errors.New` makes them.

Where the source has one of the defects listed under "## Findings", the
operations run the corrected definition and the as-written one is modelled
beside it (the members ending in `AsWritten`); the rows of such operations
say "corrected", and "## Left out" says, operation by operation, what the
code as written does instead.

## Model

| member | source | states |
|---|---|---|
| BayesianOptimizer.ScopeConfig | optim/app/services/optimize/bayesian_optimizer.py:13-32 | the target is accepted exactly when it is "round" or "session"; both use 10 initial points and expected improvement; any other target fails with the init-failure text naming it |
| BayesianOptimizer.ScopeShapes | optim/app/services/optimize/bayesian_optimizer.py:14-27 | "round" has the continuous ranges [15,60] then [3,20]; "session" has [60,480], [10,60] and the integer range [1,10], in that order; both spaces are well formed |
| BayesianOptimizer.Negate | optim/app/services/optimize/bayesian_optimizer.py:47 | the sign flip keeps the number of objectives |
| BayesianOptimizer.NegateInvolution | optim/app/services/optimize/bayesian_optimizer.py:71 | flipping the signs twice gives back the objectives |
| BayesianOptimizer.NegateReversesOrder | optim/app/services/optimize/bayesian_optimizer.py:46-51 | after the flip, one objective is at most another exactly when the originals are ordered the other way round |
| BayesianOptimizer.MinimumOfNegatedIsMaximum | optim/app/services/optimize/bayesian_optimizer.py:46-51 | the minimum the optimiser seeks over the flipped values is the maximum of the original objectives |
| BayesianOptimizer.Optimizer.constructor | optim/app/services/optimize/bayesian_optimizer.py:15-27 | a new optimiser holds its scope configuration and has observed nothing |
| BayesianOptimizer.Optimizer.Tell | optim/app/services/optimize/bayesian_optimizer.py:49 | an accepted tell appends the rows and values to the history in order; a refused one leaves the history as it was |
| BayesianOptimizer.NewOptimizer | optim/app/services/optimize/bayesian_optimizer.py:7-32 | an optimiser exists exactly when the scope is known, with that scope's configuration and an empty history; otherwise the scope's error is returned and nothing is kept |
| BayesianOptimizer.Step | optim/app/services/optimize/bayesian_optimizer.py:45-57 | the flipped objectives are told with the rows unchanged; on success the answer is the optimiser's next point of the expected arity; every failure carries the operation's prefix |
| BayesianOptimizer.OptimizeRound | optim/app/services/optimize/bayesian_optimizer.py:35-57 | the two components of the next point, in order; inside the round space they lie in [15,60] and [3,20]; the history grows by the rows and the flipped objectives exactly when tell accepts |
| BayesianOptimizer.OptimizeSession | optim/app/services/optimize/bayesian_optimizer.py:59-81 | the three components of the next point, in order; inside the session space they lie in [60,480], [10,60] and are an integer in [1,10]; same history rule as for rounds |
| DynamoDBHandler.DecodeAttribute | optim/app/services/dynamodb/dynamodb_handler.py:142-149 | an S value is kept as its string, an N value with a dot as a float, an N value without a dot as the integer it parses to, any other type tag is dropped |
| DynamoDBHandler.DecodedItem | optim/app/services/dynamodb/dynamodb_handler.py:135-151 | the decoded item has only keys of the stored item, keeps every string attribute and drops every attribute of another type |
| DynamoDBHandler.ConvertItem | optim/app/services/dynamodb/dynamodb_handler.py:135-151 | conversion succeeds exactly when every number attribute is readable, and then gives the decoded item; an empty item gives an empty mapping; a failure carries the int() text of one of its bad literals |
| DynamoDBHandler.ConvertItems | optim/app/services/dynamodb/dynamodb_handler.py:154-156 | the list conversion succeeds exactly when every item converts, keeping length and order; a failure carries the int() text of a bad literal of one of them |
| DynamoDBHandler.NumberRoundTrip | optim/app/services/dynamodb/dynamodb_handler.py:146-149 | a stored integer reads back as that integer, and a stored float reads back as a float of its rendering |
| DynamoDBHandler.PutRoundData | optim/app/services/dynamodb/dynamodb_handler.py:16-43 | the round item always holds user_id and time as strings and each optional attribute exactly when given; the put error is reported with the round prefix |
| DynamoDBHandler.SessionKeysDistinct | optim/app/services/dynamodb/dynamodb_handler.py:78-93 | the seven session attribute names are pairwise different, so no attribute overwrites another |
| DynamoDBHandler.PutSessionData | optim/app/services/dynamodb/dynamodb_handler.py:74-103 | the session item follows the same rule for round_count, break_time, avg_focus_score, total_work_time and timestamp; the put error carries the session prefix |
| DynamoDBHandler.RoundRecordReadsBack | optim/app/services/dynamodb/dynamodb_handler.py:20-33 | a round item with integer work time and score reads back with the same user, time, work time and score, and with a timestamp exactly when one was given |
| DynamoDBHandler.Project | optim/app/services/dynamodb/dynamodb_handler.py:199-203 | a row never holds more values than columns were asked for |
| DynamoDBHandler.ProjectEmpty | optim/app/services/dynamodb/dynamodb_handler.py:201 | a row is empty exactly when the item holds none of the requested columns |
| DynamoDBHandler.ProjectAllPresent | optim/app/services/dynamodb/dynamodb_handler.py:201 | when every column is present the row holds the item's values in column order |
| DynamoDBHandler.ChosenRows | optim/app/services/dynamodb/dynamodb_handler.py:199-203 | no more rows than items, and no empty row survives |
| DynamoDBHandler.Heads | optim/app/services/dynamodb/dynamodb_handler.py:206-207 | flattening gives at most one value per row |
| DynamoDBHandler.SingleColumnFlattens | optim/app/services/dynamodb/dynamodb_handler.py:206-207 | with one requested column the flattened rows are that column's values for the items that hold it, in order |
| DynamoDBHandler.AllPresentKeepsEveryItem | optim/app/services/dynamodb/dynamodb_handler.py:199-203 | when every item holds every column, each item gives exactly its projected row, in item order |
| DynamoDBHandler.CollectRows | optim/app/services/dynamodb/dynamodb_handler.py:199-203 | the row-collecting loop gives the chosen rows |
| DynamoDBHandler.MakeChosen | optim/app/services/dynamodb/dynamodb_handler.py:159-213 | with a time: a missing or empty item gives an empty list, otherwise the projected row (a bare value for one column); without a time: no items gives an empty list, otherwise the rows (flattened for one column); a client failure, and an item holding a bad integer literal, fail with the prefix followed by that failure's text |
| DynamoDBHandler.SingleColumnAtTimeIsBare | optim/app/services/dynamodb/dynamodb_handler.py:186-188 | for one time and one column the answer is the bare value, while the listing branch gives a one-element list for the same row |
| SampleData.Trunc | backend/internal/infrastructure/repository/dynamodb/sample_optimization_data_repository.go:185 | truncation toward zero: the integer part of the base focus |
| SampleData.Clamp | backend/internal/infrastructure/repository/dynamodb/sample_optimization_data_repository.go:187-193 | the result lies in [lo,hi], is the input when it already lies there, and is the nearer bound otherwise |
| SampleData.RoundsRun | backend/internal/infrastructure/repository/dynamodb/sample_optimization_data_repository.go:117-120 | the guard never lets a session run more rounds than there are round patterns |
| SampleData.GenerateRoundLog | backend/internal/infrastructure/repository/dynamodb/sample_optimization_data_repository.go:162-202 | the round log of the day and round pattern: score within [30,100], the pattern's break time, and timestamp equal to creation time |
| SampleData.GenerateSessionLog | backend/internal/infrastructure/repository/dynamodb/sample_optimization_data_repository.go:133-158 | the session log: round count from the pattern, total work 25 per round, break 20 on days after the fifth and 15 otherwise, average focus the base focus |
| SampleData.SessionRounds | backend/internal/infrastructure/repository/dynamodb/sample_optimization_data_repository.go:117-125 | one round log per round run |
| SampleData.DayRounds | backend/internal/infrastructure/repository/dynamodb/sample_optimization_data_repository.go:108-126 | a day yields its sessions times its rounds per session |
| SampleData.DaySessions | backend/internal/infrastructure/repository/dynamodb/sample_optimization_data_repository.go:108-114 | a day yields one session log per session |
| SampleData.GeneratedCounts | backend/internal/infrastructure/repository/dynamodb/sample_optimization_data_repository.go:104-127 | the generated lists hold as many session and round logs as the day patterns add up to |
| SampleData.RoundGuardNeverFires | backend/internal/infrastructure/repository/dynamodb/sample_optimization_data_repository.go:117-120 | no sample day asks for more rounds than there are round patterns, so every session runs all its rounds |
| SampleData.SampleTotals | backend/internal/infrastructure/repository/dynamodb/sample_optimization_data_repository.go:30-46 | the sample days add up to 19 sessions and 64 rounds |
| SampleData.SampleScoresUnclamped | backend/internal/infrastructure/repository/dynamodb/sample_optimization_data_repository.go:185-193 | for every sample day and round the unclamped score already lies in [30,100] |
| SampleData.GenerateSessionRounds | backend/internal/infrastructure/repository/dynamodb/sample_optimization_data_repository.go:117-125 | the round loop of one session produces its round logs 30 minutes apart |
| SampleData.GenerateDay | backend/internal/infrastructure/repository/dynamodb/sample_optimization_data_repository.go:108-126 | the session loop of one day produces that day's round and session logs |
| SampleData.GenerateFromPatterns | backend/internal/infrastructure/repository/dynamodb/sample_optimization_data_repository.go:104-127 | the day loop produces all round and session logs of the given days, in order |
| SampleData.GenerateSampleData | backend/internal/infrastructure/repository/dynamodb/sample_optimization_data_repository.go:97-130 | the sample history starts ten days back and holds exactly 19 session logs and 64 round logs |
| SampleData.IndexOfString | backend/internal/infrastructure/repository/dynamodb/sample_optimization_data_repository.go:396-410 | -1 or the first position where the needle occurs: 0 for an empty needle, -1 for a needle longer than the text |
| SampleData.ContainsString | backend/internal/infrastructure/repository/dynamodb/sample_optimization_data_repository.go:389-393 | a case-insensitive occurrence test that is false for an empty needle |
| SampleData.WriteErrorOperation | backend/internal/infrastructure/repository/dynamodb/sample_optimization_data_repository.go:292-303 | the operation name follows the priority throttling, table_not_found, access_denied, batch_write |
| SampleData.IsDynamoDBThrottlingError | backend/internal/infrastructure/repository/dynamodb/sample_optimization_data_repository.go:364-370 | true exactly when the error text names throttling |
| SampleData.IsDynamoDBTableNotFoundError | backend/internal/infrastructure/repository/dynamodb/sample_optimization_data_repository.go:373-378 | true exactly when the error text names a missing table |
| SampleData.IsDynamoDBAccessDeniedError | backend/internal/infrastructure/repository/dynamodb/sample_optimization_data_repository.go:381-386 | true exactly when the error text names denied access |
| SampleData.WriteOutcome | backend/internal/infrastructure/repository/dynamodb/sample_optimization_data_repository.go:286-306 | no error exactly when the client reports none; otherwise a dynamodb infrastructure error wrapping the client's error |
| SampleData.ClassifyWriteError | backend/internal/infrastructure/repository/dynamodb/sample_optimization_data_repository.go:292-303 | the classifying branches agree with the write outcome |
| SampleData.RoundLogReadsBack | backend/internal/infrastructure/repository/dynamodb/sample_optimization_data_repository.go:264-272 | a written round log reads back with the same user, timestamp, work time, break time and score |
| SampleData.RoundItems | backend/internal/infrastructure/repository/dynamodb/sample_optimization_data_repository.go:264-279 | one item per round log |
| SampleData.SessionItems | backend/internal/infrastructure/repository/dynamodb/sample_optimization_data_repository.go:313-330 | one item per session log |
| SampleData.BatchWriteRoundLogs | backend/internal/infrastructure/repository/dynamodb/sample_optimization_data_repository.go:261-306 | the batch write reports the classified outcome of writing the logs' items |
| SampleData.BatchWriteSessionLogs | backend/internal/infrastructure/repository/dynamodb/sample_optimization_data_repository.go:310-356 | the same for session logs |
| SampleData.ChunksCover | backend/internal/infrastructure/repository/dynamodb/sample_optimization_data_repository.go:212-226 | the batches concatenate to the logs, each holds 1 to 25 logs and all but the last hold 25 |
| SampleData.ChunkAt | backend/internal/infrastructure/repository/dynamodb/sample_optimization_data_repository.go:214-220 | the batch starting at a multiple of 25 is the slice up to 25 logs further or the end |
| SampleData.ChunkCount | backend/internal/infrastructure/repository/dynamodb/sample_optimization_data_repository.go:212-214 | the number of batches is the log count divided by 25, rounded up |
| SampleData.CreateInBatches | backend/internal/infrastructure/repository/dynamodb/sample_optimization_data_repository.go:205-230 | batches are written in order and the first failing one stops the loop with an operation error wrapping its cause; on success every batch was written; no logs means no call |
| SampleData.CreateSampleOptimizationData | backend/internal/infrastructure/repository/dynamodb/sample_optimization_data_repository.go:73-94 | the generated lists are the sample data; the round batches handed to the client are a prefix of the 25-chunks of the round logs, and session batches are attempted only after every round batch succeeded; no error exactly when every chunk of both lists was written; a failure is the failing batch's error wrapped as create_round_logs or create_session_logs |
| OptimizationLog.NewRoundOptimizationLogWithTime | backend/internal/domain/model/optimization_log.go:33-42 | the user, work time, break time and score are copied and timestamp and creation time are the same rendering of the given time |
| OptimizationLog.NewRoundOptimizationLog | backend/internal/domain/model/optimization_log.go:20-30 | the same as the timed constructor at the current instant |
| OptimizationLog.NewSessionOptimizationLogWithTime | backend/internal/domain/model/optimization_log.go:70-80 | the round count, break time, average and total are copied with timestamp equal to creation time |
| OptimizationLog.NewSessionOptimizationLog | backend/internal/domain/model/optimization_log.go:56-67 | the same as the timed constructor at the current instant |
| OptimizationMessage.NewRoundOptimizationMessage | backend/internal/domain/model/round_optimization_message.go:23-43 | type "round_optimization", version "2.0", the ids and score copied; valid exactly when the score lies in [0,100] |
| OptimizationMessage.NewSessionOptimizationMessage | backend/internal/domain/model/session_optimization_message.go:24-46 | type "session_optimization", version "2.0", the ids, average and total copied; valid exactly when the average lies in [0,100] and the total is not negative |
| OptimizationMessage.RoundMessageValid | backend/internal/domain/model/round_optimization_message.go:36-44 | the round message's validity; NewRoundOptimizationMessage states that a new message is valid exactly when its score lies in [0,100] |
| OptimizationMessage.SessionMessageValid | backend/internal/domain/model/session_optimization_message.go:38-47 | the session message's validity; NewSessionOptimizationMessage states that a new message is valid exactly when the average lies in [0,100] and the total is non-negative |
| OptimizationMessage.RoundLogString | backend/internal/domain/model/round_optimization_message.go:57-60 | for ids of at least 8 characters the log line names the first 8 characters of the message, user and round ids in that order and ends with ", FocusScore=" and the score in decimal, then "]" |
| OptimizationMessage.RoundLogScoreReadsBack | backend/internal/domain/model/round_optimization_message.go:57-60 | the decimal score at the end of the round log line parses back to the message's focus score |
| OptimizationMessage.SessionLogString | backend/internal/domain/model/session_optimization_message.go:61-64 | for ids of at least 8 characters the log line names the first 8 characters of the message, user and session ids, then the average focus in one-decimal rendering, and ends with ", TotalWork=", the total in decimal and "min]" |
| OptimizationMessage.SessionLogWorkReadsBack | backend/internal/domain/model/session_optimization_message.go:61-64 | the decimal total work time near the end of the session log line parses back to the message's total |
| OptimizationMessage.ValidDoesNotImplyLogReady | backend/internal/domain/model/round_optimization_message.go:36-60 | a valid message can have ids too short for its log line |
| Rounds.StatesPartition | backend/internal/domain/model/round.go:49-61 | every round is completed, in progress or aborted, and never two of these at once |
| Rounds.IsCompleted | backend/internal/domain/model/round.go:49-52 | ended and not aborted; see StatesPartition for the three-way partition |
| Rounds.IsInProgress | backend/internal/domain/model/round.go:54-57 | without end time and not aborted; see StatesPartition |
| Rounds.HasFocusScore | backend/internal/domain/model/round.go:64-66 | a score is set and non-negative, and it is then the score the statistics read; CompleteWith leaves one exactly when it was given a score; see StatisticsAndScore and Round.CompleteWith |
| Rounds.ContributesToStatistics | backend/internal/domain/model/round.go:162-164 | exactly the completed rounds: neither in progress nor aborted; a completed round contributes and an aborted one does not; see StatisticsAndScore, Round.CompleteWith and Round.Abort |
| Rounds.StatisticsAndScore | backend/internal/domain/model/round.go:145-164 | a round contributes to the statistics exactly when it is neither in progress nor aborted; a score counts exactly when it is set and non-negative, and it is then the score read; a message is due exactly for a contributing round with a counting score |
| Rounds.GetFocusScoreOrZero | backend/internal/domain/model/round.go:69-74 | the score, or 0 when none |
| Rounds.GetWorkTimeForStats | backend/internal/domain/model/round.go:167-172 | the work time, or 0 when none |
| Rounds.GetBreakTimeForStats | backend/internal/domain/model/round.go:175-180 | the break time, or 0 when none |
| Rounds.CanBeCompleted | backend/internal/domain/model/round.go:79-87 | no error exactly for a round in progress; the completed and the aborted round each get their own message |
| Rounds.CanBeAborted | backend/internal/domain/model/round.go:90-98 | no error exactly for a round in progress; the completed and the aborted round each get their own message |
| Rounds.GuardsAgree | backend/internal/domain/model/round.go:79-98 | completion and abortion are refused for the same rounds: the completed and the aborted ones |
| Rounds.AcceptableCompletion | backend/internal/domain/model/round.go:101-116 | the score, if given, lies in [0, 100], the work time is positive and the break time non-negative; CompleteWith succeeds exactly on a round in progress with such arguments; see Round.CompleteWith |
| Rounds.ShouldSendOptimizationMessage | backend/internal/domain/model/round.go:145-149 | a completed round whose score is set and non-negative; see StatisticsAndScore, GetOptimizationMessageData and Round.CompleteWith |
| Rounds.GetOptimizationMessageData | backend/internal/domain/model/round.go:152-157 | a message is due exactly for a completed round with a non-negative score, which it carries; otherwise (0,false) |
| Rounds.WholeMinutes | backend/internal/domain/model/round.go:193-195 | whole minutes truncated toward zero |
| Rounds.GetDuration | backend/internal/domain/model/round.go:185-190 | end minus start for an ended round, now minus start otherwise |
| Rounds.GetDurationMinutes | backend/internal/domain/model/round.go:193-195 | the whole minutes of the duration |
| Rounds.OvertimeAfterFullMinute | backend/internal/domain/model/round.go:198-200 | a round lasting a full minute beyond the expected time is overtime |
| Rounds.IsOvertime | backend/internal/domain/model/round.go:198-200 | for a non-negative duration, overtime exactly when at least expectedMinutes + 1 full minutes have passed; see OvertimeIffFullMinutes and OvertimeAfterFullMinute |
| Rounds.OvertimeIffFullMinutes | backend/internal/domain/model/round.go:198-200 | for a non-negative duration, a round is overtime if and only if it has lasted at least expectedMinutes + 1 full minutes |
| Rounds.ToResponse | backend/internal/domain/model/round.go:227-240 | the response keeps every field of the round but the creation and update times; two rounds give the same response exactly when they differ at most in those; see ResponseDropsOnlyBookkeeping |
| Rounds.ResponseDropsOnlyBookkeeping | backend/internal/domain/model/round.go:227-240 | two rounds have the same response if and only if they agree on everything but the creation and update times |
| Rounds.Round.constructor | backend/internal/domain/model/round.go:33-44 | a new round has no end, score or times, is not aborted, and is in progress |
| Rounds.Round.CompleteWith | backend/internal/domain/model/round.go:101-126 | refused for a round not in progress, a score outside [0,100] or a bad work or break time, leaving the round untouched; otherwise it ends the round with the score and times, after which it is completed, both guards refuse, and a message is due exactly when a score was given |
| Rounds.Round.Abort | backend/internal/domain/model/round.go:129-140 | refused as the abort guard says, leaving the round untouched; otherwise the round ends aborted, neither completed nor in progress, and no message is due |
| RoundRepository.InsertError | backend/internal/infrastructure/repository/postgres/round_repository.go:46-61 | a database error wrapping the driver error, named constraint for 23505, create_round_fk for 23503, create_round otherwise |
| RoundRepository.Inserted | backend/internal/infrastructure/repository/postgres/round_repository.go:32-43 | the stored row keeps the id, session and order and starts in progress without score or times |
| RoundRepository.CompleteGuardAsWritten | backend/internal/infrastructure/repository/postgres/round_repository.go:137-141 | the completion query refuses only an already completed round |
| RoundRepository.CompleteGuard | backend/internal/infrastructure/repository/postgres/round_repository.go:137-141 | corrected guard: refuses exactly the rounds the domain model refuses to complete, with record-not-found |
| RoundRepository.CompleteAcceptsAborted | backend/internal/infrastructure/repository/postgres/round_repository.go:137-141 | an aborted round passes the guard as written and would be completed while still aborted, with work time counted |
| RoundRepository.AbortGuard | backend/internal/infrastructure/repository/postgres/round_repository.go:185-189 | refuses exactly the rounds the domain model refuses to abort, with record-not-found |
| RoundRepository.ExecError | backend/internal/infrastructure/repository/postgres/round_repository.go:169-172 | success exactly when some row was affected; zero rows gives record-not-found |
| RoundRepository.FocusCount | backend/internal/infrastructure/repository/postgres/round_repository.go:250-274 | the number of rounds with a score is at most the number of rounds |
| RoundRepository.FocusSumBounds | backend/internal/infrastructure/repository/postgres/round_repository.go:252-256 | with scores in [0,100] the score sum lies between 0 and 100 times the number of scores |
| RoundRepository.AverageInRange | backend/internal/infrastructure/repository/postgres/round_repository.go:268-272 | with scores in [0,100] the average lies in [0,100] |
| RoundRepository.SessionStats | backend/internal/infrastructure/repository/postgres/round_repository.go:250-274 | count of rounds, sums of the given work and break times, and the average of the given scores (0 without any); all zero for no rounds |
| RoundRepository.RoundStore.constructor | backend/internal/infrastructure/repository/postgres/round_repository.go:17-29 | an empty table |
| RoundRepository.RoundStore.GetByID | backend/internal/infrastructure/repository/postgres/round_repository.go:66-85 | a driver error becomes a query error; otherwise the stored round, or record-not-found when absent |
| RoundRepository.RoundStore.Create | backend/internal/infrastructure/repository/postgres/round_repository.go:32-63 | a new id is stored as an in-progress row and nothing else changes; a taken id gives the unique-constraint error and a driver failure its classified error, both leaving the table unchanged |
| RoundRepository.RoundStore.GetLastRoundBySessionID | backend/internal/infrastructure/repository/postgres/round_repository.go:106-127 | the session's round with the highest order, or record-not-found when the session has none |
| RoundRepository.RoundStore.Complete | backend/internal/infrastructure/repository/postgres/round_repository.go:130-175 | corrected guard: lookup errors and refused rounds leave the table as it was; otherwise the affected-rows outcome decides and an applied update completes exactly that round |
| RoundRepository.RoundStore.AbortRound | backend/internal/infrastructure/repository/postgres/round_repository.go:178-220 | lookup errors and refused rounds leave the table as it was; otherwise an applied update aborts exactly that round |
| RoundRepository.RoundStore.SelectQualifying | backend/internal/infrastructure/repository/postgres/round_repository.go:225-229 | exactly the session's ended, non-aborted rounds, each once |
| RoundRepository.RoundStore.CalculateSessionStats | backend/internal/infrastructure/repository/postgres/round_repository.go:223-275 | a driver error gives a query error and zeros; otherwise the statistics of exactly the qualifying rounds |
| RoundUseCase.EmptySessionRejectedAsWritten | backend/internal/usecase/round_usecase.go:63-67 | the record-not-found answer for a session without rounds aborts the start as written, but not under the corrected test |
| RoundUseCase.LookupAborts | backend/internal/usecase/round_usecase.go:63-67 | corrected lookup test: EmptySessionRejectedAsWritten shows it tolerates the repository's not-found where the test as written does not; StartRound returns exactly the errors it does not tolerate |
| RoundUseCase.NextRoundOrder | backend/internal/usecase/round_usecase.go:75-84 | 1 for the first round, otherwise one past the last round's order |
| RoundUseCase.WorkAndBreakTime | backend/internal/usecase/round_usecase.go:234-258 | never an error: the configured times when the repository answers, otherwise 25 and 5 |
| RoundUseCase.RoundService.constructor | backend/internal/usecase/round_usecase.go:43-51 | the service holds its repository and queue setting and has sent nothing |
| RoundUseCase.RoundService.StartRound | backend/internal/usecase/round_usecase.go:54-94 | corrected lookup test: a failed session or last-round lookup is returned and changes nothing; an unfinished last round blocks the start and changes nothing; once the lookups let it through, a taken id gives the unique-constraint error, an insert failure its classified error, and otherwise the call succeeds with exactly one new in-progress round, numbered one past every last round of the session (1 for none or a tolerated lookup error) |
| RoundUseCase.RoundService.CompleteRound | backend/internal/usecase/round_usecase.go:125-175 | corrected (inherits the guard of RoundStore.Complete): failures of the first lookup, the session lookup and the repository's own lookup are returned unchanged; a refused round gives record-not-found and a failed UPDATE its error; the table changes only when the guarded UPDATE is applied, and then exactly that row is completed with the configured times; the message is sent exactly when the completion takes effect with a score and the queue accepts it, and a failing re-read is returned after that; otherwise it fails and nothing is sent |
| RoundUseCase.RoundService.AbortRound | backend/internal/usecase/round_usecase.go:178-211 | failures of the first lookup, the session lookup and the repository's own lookup are returned unchanged; a refused round gives record-not-found and a failed UPDATE its error; the table changes only when the guarded UPDATE is applied, and then exactly that row is aborted; when the abort takes effect the re-read decides the answer; otherwise it fails; no message is ever sent |
| UserConfigs.DefaultConfig | backend/internal/domain/model/userconfig.go:40-51 | the defaults 25, 5, 3 and 15, created and updated at the same instant, and they are valid |
| UserConfigs.IsValid | backend/internal/domain/model/userconfig.go:112-117 | each of the four settings lies in its range; the defaults are valid; ValidateSettings reports no error exactly for a valid configuration; a valid configuration is its own base values; see DefaultConfig, ValidateSettings and BaseValuesOfValid |
| UserConfigs.GetWorkTimeOrDefault | backend/internal/domain/model/userconfig.go:61-66 | always positive: the setting when positive, otherwise 25 |
| UserConfigs.GetBreakTimeOrDefault | backend/internal/domain/model/userconfig.go:69-74 | always positive: the setting when positive, otherwise 5 |
| UserConfigs.GetSessionRoundsOrDefault | backend/internal/domain/model/userconfig.go:77-82 | always positive: the setting when positive, otherwise 3 |
| UserConfigs.GetSessionBreakTimeOrDefault | backend/internal/domain/model/userconfig.go:85-90 | always positive: the setting when positive, otherwise 15 |
| UserConfigs.BaseValuesOfValid | backend/internal/domain/model/userconfig.go:95-100 | a valid configuration gives its own four settings; a missing one gives 25, 5, 3, 15 |
| UserConfigs.GetOptimizationBaseValues | backend/internal/domain/model/userconfig.go:95-100 | all four base values are positive, and a missing configuration gives the defaults 25, 5, 3 and 15 |
| UserConfigs.ValidateSettings | backend/internal/domain/model/userconfig.go:120-134 | no error exactly for a valid configuration; otherwise the message of the first failing setting in the order work, break, rounds, session break |
| UserConfigs.ResponseKeepsEveryField | backend/internal/domain/model/userconfig.go:166-176 | the response copies every field: two configurations give the same response exactly when they are equal |
| UserConfigs.UserConfig.constructor | backend/internal/domain/model/userconfig.go:40-56 | the new configuration is the default one |
| UserConfigs.UserConfig.FromRecord | backend/internal/domain/model/userconfig.go:28-37 | a configuration built from a record holds exactly its fields |
| UserConfigs.UserConfig.UpdateSettings | backend/internal/domain/model/userconfig.go:103-109 | the four settings and the update time are replaced; owner and creation time stay |
| UserConfigRepository.FailedWith | backend/internal/infrastructure/repository/dynamodb/userconfig_repository.go:22-25 | an error that is exactly its own local sentinel, rendered as the sentinel text and the message |
| UserConfigRepository.EncodeItem | backend/internal/infrastructure/repository/dynamodb/userconfig_repository.go:139-147 | exactly seven attributes: the owner as a string, each of the four settings as its decimal number, the two times as formatted strings |
| UserConfigRepository.IntAttr | backend/internal/infrastructure/repository/dynamodb/userconfig_repository.go:76-107 | a setting is read only from a number attribute that parses, and then is its value |
| UserConfigRepository.TimeAttr | backend/internal/infrastructure/repository/dynamodb/userconfig_repository.go:110-125 | a time is read only from a string attribute that parses, and then is its value |
| UserConfigRepository.DecodeItem | backend/internal/infrastructure/repository/dynamodb/userconfig_repository.go:67-125 | the owner and each of the four settings and two times are taken from the item when readable; an unreadable owner stays empty, an unreadable setting stays 0 and an unreadable time stays the zero time |
| UserConfigRepository.DecodeEncode | backend/internal/infrastructure/repository/dynamodb/userconfig_repository.go:67-147 | decoding an encoded configuration gives it back when the time format round-trips |
| UserConfigRepository.CreateError | backend/internal/infrastructure/repository/dynamodb/userconfig_repository.go:151-164 | a write failure gives the local create sentinel; otherwise success exactly when the key is absent, else "already exists" |
| UserConfigRepository.UpdateError | backend/internal/infrastructure/repository/dynamodb/userconfig_repository.go:187-201 | a write failure gives the local update sentinel; otherwise success exactly when the key is present, else "does not exist" |
| UserConfigRepository.DeleteError | backend/internal/infrastructure/repository/dynamodb/userconfig_repository.go:216-226 | a write failure gives the local delete sentinel; otherwise success exactly when the key is present, else the local not-found sentinel |
| UserConfigRepository.ConfigTable.constructor | backend/internal/infrastructure/repository/dynamodb/userconfig_repository.go:28-42 | an empty table |
| UserConfigRepository.ConfigTable.Lookup | backend/internal/infrastructure/repository/dynamodb/userconfig_repository.go:45-64 | a read failure is wrapped; a missing key gives the local not-found sentinel; a stored item gives its owner's configuration |
| UserConfigRepository.ConfigTable.GetUserConfig | backend/internal/infrastructure/repository/dynamodb/userconfig_repository.go:45-131 | a fresh configuration holding the decoded item exactly when the lookup succeeds, otherwise the lookup's error |
| UserConfigRepository.ConfigTable.CreateUserConfig | backend/internal/infrastructure/repository/dynamodb/userconfig_repository.go:134-169 | a conditional put: the encoded configuration is stored exactly when the key was absent and the write succeeded, otherwise the table is unchanged |
| UserConfigRepository.ConfigTable.UpdateUserConfig | backend/internal/infrastructure/repository/dynamodb/userconfig_repository.go:172-206 | the update time is set first; the encoded configuration replaces the stored one exactly when the key was present and the write succeeded |
| UserConfigRepository.ConfigTable.DeleteUserConfig | backend/internal/infrastructure/repository/dynamodb/userconfig_repository.go:209-231 | the key is removed exactly when it was present and the write succeeded, otherwise the table is unchanged |
| UserConfigRepository.ConfigTable.GetOrCreateUserConfig | backend/internal/infrastructure/repository/dynamodb/userconfig_repository.go:234-256 | read failures are returned; an existing configuration is returned as stored; otherwise the default is created and returned, or the create failure is returned |
| UserConfigRepository.CreateThenLookup | backend/internal/infrastructure/repository/dynamodb/userconfig_repository.go:67-147 | after a create, looking the owner up gives the same configuration |
| UserConfigUseCase.CreateRangesAgree | backend/internal/usecase/userconfig_usecase.go:90-97 | the request passes the range checks exactly when the configuration it describes is valid |
| UserConfigUseCase.PresentCount | backend/internal/usecase/userconfig_usecase.go:206-241 | at most four settings are counted as present |
| UserConfigUseCase.PartialUpdateProperties | backend/internal/usecase/userconfig_usecase.go:206-241 | a full request replaces all four settings, an empty one only refreshes the update time, a valid configuration stays valid under an in-range request, and owner and creation time never change |
| UserConfigUseCase.ReadFailureAsWritten | backend/internal/usecase/userconfig_usecase.go:121-128 | as written: not-found only for the shared sentinel, anything else internal |
| UserConfigUseCase.CreateFailureAsWritten | backend/internal/usecase/userconfig_usecase.go:100-106 | as written: only the shared create-failed sentinel gives the create-failed error, anything else internal |
| UserConfigUseCase.UpdateFailureAsWritten | backend/internal/usecase/userconfig_usecase.go:140-146 | as written: only the shared update-failed sentinel gives the update-failed error, anything else internal |
| UserConfigUseCase.DeleteFailureAsWritten | backend/internal/usecase/userconfig_usecase.go:160-169 | as written: the shared not-found, then the shared delete-failed sentinel, then internal |
| UserConfigUseCase.ReadFailure | backend/internal/usecase/userconfig_usecase.go:121-128 | corrected: the repository's not-found gives the configuration-not-found error, anything else internal |
| UserConfigUseCase.CreateFailure | backend/internal/usecase/userconfig_usecase.go:100-106 | corrected: the repository's create failure gives the create-failed error, anything else internal |
| UserConfigUseCase.UpdateFailure | backend/internal/usecase/userconfig_usecase.go:140-146 | corrected: the repository's update failure gives the update-failed error, anything else internal |
| UserConfigUseCase.DeleteFailure | backend/internal/usecase/userconfig_usecase.go:160-169 | corrected: not-found, then delete-failed, then internal |
| UserConfigUseCase.RepositoryErrorsMissAsWritten | backend/internal/usecase/userconfig_usecase.go:121-169 | no error the repository returns matches a sentinel the use case tests, so a missing configuration becomes an internal error |
| UserConfigUseCase.RepositoryErrorsInternalAsWritten | backend/internal/usecase/userconfig_usecase.go:100-169 | as written, every error the repository's create, update and delete return becomes an internal error wrapping it |
| UserConfigUseCase.RepositoryErrorsClassified | backend/internal/usecase/userconfig_usecase.go:121-169 | with the corrected tests every repository error reaches its own domain error |
| UserConfigUseCase.UserConfigService.constructor | backend/internal/usecase/userconfig_usecase.go:41-46 | the service holds its repository, possibly none |
| UserConfigUseCase.UserConfigService.GetUserConfig | backend/internal/usecase/userconfig_usecase.go:49-81 | never an error: the stored configuration, or the default one when there is no repository or the read fails |
| UserConfigUseCase.UserConfigService.CreateUserConfig | backend/internal/usecase/userconfig_usecase.go:84-112 | corrected classification: no repository is an internal error; settings out of range are a validation error before any write; otherwise the requested configuration is stored exactly when the create succeeds |
| UserConfigUseCase.UserConfigService.ApplyPartialUpdateTo | backend/internal/usecase/userconfig_usecase.go:206-241 | the configuration becomes the partial update of itself, and the count is the number of given settings |
| UserConfigUseCase.UserConfigService.UpdateUserConfig | backend/internal/usecase/userconfig_usecase.go:115-152 | corrected classification: lookup failures are classified; the merged configuration is validated before any write; on success it is stored and returned |
| UserConfigUseCase.UserConfigService.DeleteUserConfig | backend/internal/usecase/userconfig_usecase.go:155-173 | corrected classification: success exactly when the key was present and the delete succeeded; a missing key is not-found and a failed write delete-failed |
| UserConfigUseCase.UserConfigService.GetUserConfigForOptimization | backend/internal/usecase/userconfig_usecase.go:176-203 | never an error: the stored configuration or the default one |
| Statistics.StartOfDay | backend/internal/domain/model/statistics.go:39 | the day at 00:00:00.000000000 |
| Statistics.EndOfDay | backend/internal/domain/model/statistics.go:37 | the day at 23:59:59.999999999 |
| Statistics.NewLastWeekPeriod | backend/internal/domain/model/statistics.go:35-45 | seven whole days ending today, start not after end |
| Statistics.NewLastMonthPeriod | backend/internal/domain/model/statistics.go:48-58 | whole days from the same day one month earlier to today |
| Statistics.NewCustomPeriod | backend/internal/domain/model/statistics.go:61-70 | the input days stretched to whole days, neither reordered nor rejected when start is after end |
| Statistics.CustomPeriodIdempotent | backend/internal/domain/model/statistics.go:61-70 | stretching an already stretched period changes nothing |
| Statistics.CustomWeekIsLastWeek | backend/internal/domain/model/statistics.go:35-70 | a custom period of the last seven days equals the last-week period |
| StatisticsUseCase.SelectPeriod | backend/internal/usecase/statistics_usecase.go:43-58 | "week" and "month" select their period, "custom" with both dates the custom one, anything else the last week |
| StatisticsUseCase.ResponseOf | backend/internal/usecase/statistics_usecase.go:61-75 | record-not-found becomes an empty list, any other error an internal error, and an answer passes through |
| StatisticsUseCase.GetFocusTrend | backend/internal/usecase/statistics_usecase.go:39-84 | an error exactly when the query fails with something other than record-not-found; an answer passes through |
| StatisticsUseCase.GetFocusHeatmap | backend/internal/usecase/statistics_usecase.go:87-132 | the same period selection and error rule for the heatmap, which the source duplicates from the trend |
| StatisticsRepository.StrLessIrreflexive | backend/internal/infrastructure/repository/postgres/statistics_repository.go:236 | Go's string order: no date is before itself |
| StatisticsRepository.StrLessTransitive | backend/internal/infrastructure/repository/postgres/statistics_repository.go:236 | Go's string order is transitive |
| StatisticsRepository.StrLessTotal | backend/internal/infrastructure/repository/postgres/statistics_repository.go:236 | two different dates are ordered one way or the other |
| StatisticsRepository.StrLessAsymmetric | backend/internal/infrastructure/repository/postgres/statistics_repository.go:236 | two dates are never before each other |
| StatisticsRepository.DateLeTransitive | backend/internal/infrastructure/repository/postgres/statistics_repository.go:236 | the item order by date is transitive |
| StatisticsRepository.WithDate | backend/internal/infrastructure/repository/postgres/statistics_repository.go:231-241 | the items of one date are at most all items |
| StatisticsRepository.WithDateConcat | backend/internal/infrastructure/repository/postgres/statistics_repository.go:231-241 | the items of one date in a concatenation are those of each part in turn |
| StatisticsRepository.SwapAt | backend/internal/infrastructure/repository/postgres/statistics_repository.go:236-238 | the two neighbours trade places and nothing else moves |
| StatisticsRepository.StablePermutationTransitive | backend/internal/infrastructure/repository/postgres/statistics_repository.go:231-241 | being a stable rearrangement composes |
| StatisticsRepository.CountWithinDate | backend/internal/infrastructure/repository/postgres/statistics_repository.go:231-241 | an item occurs as often in the list as among the items of its own date |
| StatisticsRepository.StableIsPermutation | backend/internal/infrastructure/repository/postgres/statistics_repository.go:231-241 | a rearrangement that keeps every date's items in order keeps the same items (equal multisets) |
| StatisticsRepository.SwapKeepsDateOrder | backend/internal/infrastructure/repository/postgres/statistics_repository.go:236-238 | swapping neighbours of different dates keeps the order of every date's items |
| StatisticsRepository.SwapIsStable | backend/internal/infrastructure/repository/postgres/statistics_repository.go:236-238 | such a swap is a stable rearrangement |
| StatisticsRepository.SwapNeighbours | backend/internal/infrastructure/repository/postgres/statistics_repository.go:237 | the array becomes the swapped sequence |
| StatisticsRepository.PassExtends | backend/internal/infrastructure/repository/postgres/statistics_repository.go:232-240 | once the largest of the first m items is at m - 1, the sorted part starts one place earlier |
| StatisticsRepository.SuffixKept | backend/internal/infrastructure/repository/postgres/statistics_repository.go:232-240 | a pass that leaves the items from m on alone and keeps the first m at most the rest keeps the sorted part |
| StatisticsRepository.SortedWhole | backend/internal/infrastructure/repository/postgres/statistics_repository.go:232-240 | when the sorted part starts at the first or second item, the whole list is in date order |
| StatisticsRepository.SwapStep | backend/internal/infrastructure/repository/postgres/statistics_repository.go:236-238 | a swap on strict greater moves the largest date forward and keeps the suffix and stability |
| StatisticsRepository.KeepStep | backend/internal/infrastructure/repository/postgres/statistics_repository.go:236 | no swap when not strictly greater, and the largest date is still at hand |
| StatisticsRepository.BubblePass | backend/internal/infrastructure/repository/postgres/statistics_repository.go:233-240 | one pass carries the largest date to the end of the unsorted part, stably, leaving the sorted suffix alone |
| StatisticsRepository.SortByDate | backend/internal/infrastructure/repository/postgres/statistics_repository.go:231-242 | the array ends in ascending date order with the same items, and items of equal date keep their order |
| StatisticsRepository.StopDay | backend/internal/infrastructure/repository/postgres/statistics_repository.go:213-222 | the fill never stops before the start day |
| StatisticsRepository.MissingDays | backend/internal/infrastructure/repository/postgres/statistics_repository.go:213-222 | at most one added item per day of the period |
| StatisticsRepository.MissingDaysMeaning | backend/internal/infrastructure/repository/postgres/statistics_repository.go:200-222 | every added item has score 0 and the date of a period day absent from the input, and every such day gets one |
| StatisticsRepository.FillCoversPeriod | backend/internal/infrastructure/repository/postgres/statistics_repository.go:198-222 | after filling every period day is present, the input is kept, at most one item per day is added, and the period's days are counted right |
| StatisticsRepository.CollectDates | backend/internal/infrastructure/repository/postgres/statistics_repository.go:200-204 | the set of input dates |
| StatisticsRepository.AppendMissing | backend/internal/infrastructure/repository/postgres/statistics_repository.go:210-222 | the input followed by the missing days |
| StatisticsRepository.FillMissingDates | backend/internal/infrastructure/repository/postgres/statistics_repository.go:198-228 | the filled items sorted by date, stably and with the same items |
| StatisticsRepository.GetFocusTrend | backend/internal/infrastructure/repository/postgres/statistics_repository.go:30-78 | a query failure becomes a query error; otherwise the filled items sorted by date covering every period day |
| Users.ProviderAndValidators | backend/internal/domain/model/user.go:91-108 | never both a Google and a Cognito user; each validator holds exactly when its field is non-empty |
| Users.IsGoogleUser | backend/internal/domain/model/user.go:91-94 | the provider is "Google"; ProviderAndValidators shows it excludes IsCognitoUser |
| Users.IsCognitoUser | backend/internal/domain/model/user.go:96-99 | the provider is "Cognito_UserPool"; see ProviderAndValidators |
| Users.ValidateEmail | backend/internal/domain/model/user.go:101-104 | ProviderAndValidators shows the two tests amount to a non-empty email |
| Users.ValidateName | backend/internal/domain/model/user.go:106-109 | ProviderAndValidators shows the two tests amount to a non-empty name |
| Users.ToResponse | backend/internal/domain/model/user.go:68-77 | every field except the provider id is copied |
| Users.UpdateProperties | backend/internal/domain/model/user.go:80-88 | a non-empty text replaces its field and an empty one keeps it; the update time is always refreshed; nothing else changes; a set field is never emptied; repeating the update only moves the time |
| Users.User.constructor | backend/internal/domain/model/user.go:32-43 | the parameters, created and updated at the same instant |
| Users.User.FromRecord | backend/internal/domain/model/user.go:11-19 | the user as stored |
| Users.User.UpdateProfile | backend/internal/domain/model/user.go:80-88 | the user becomes the update of itself |
| UserRepository.GetResult | backend/internal/infrastructure/repository/postgres/user_repository.go:44-83 | the found user; no rows gives the repository's own not-found; a failed query its error |
| UserRepository.ExecResult | backend/internal/infrastructure/repository/postgres/user_repository.go:123-176 | success exactly when some row changed; no rows gives the own not-found; a failed statement wraps its sentinel |
| UserRepository.UpdateResult | backend/internal/infrastructure/repository/postgres/user_repository.go:139-154 | ExecResult with the update sentinel: success exactly when a row changed, the repository's own not-found for none; RepositoryErrorsAreLocal shows no outcome is a shared sentinel |
| UserRepository.DeleteResult | backend/internal/infrastructure/repository/postgres/user_repository.go:161-176 | ExecResult with the delete sentinel, with the same outcomes; see RepositoryErrorsAreLocal |
| UserRepository.RepositoryErrorsAreLocal | backend/internal/infrastructure/repository/postgres/user_repository.go:22-27 | the repository's errors are never the shared sentinels; a missing user is always its own not-found |
| UserRepository.ExtractDisplayName | backend/internal/infrastructure/repository/postgres/user_repository.go:179-206 | never empty |
| UserRepository.DisplayNameAgrees | backend/internal/infrastructure/repository/postgres/user_repository.go:179-206 | the claims' display name, or "User"; the name first, then given name and family name joined by a space |
| UserRepository.FirstGoogleFrom | backend/internal/infrastructure/repository/postgres/user_repository.go:213-222 | the first identity from the given position whose provider names Google, or -1 when none |
| UserRepository.SubjectID | backend/internal/infrastructure/repository/postgres/user_repository.go:225-231 | the subject when non-empty, otherwise none |
| UserRepository.DetectionPriority | backend/internal/infrastructure/repository/postgres/user_repository.go:213-222 | the first Google identity decides, with its user id |
| UserRepository.DetectionFallbacks | backend/internal/infrastructure/repository/postgres/user_repository.go:225-254 | then an identity provider, a Google picture or a locale give Google with the subject; Cognito exactly when none of them applies, and then without id |
| UserRepository.DetectedProvider | backend/internal/infrastructure/repository/postgres/user_repository.go:209-255 | the detection rule; DetectionPriority and DetectionFallbacks state its cases, and DetectProviderType's loop is proved equal to it |
| UserRepository.DetectProviderType | backend/internal/infrastructure/repository/postgres/user_repository.go:209-255 | the detection loop agrees with the detection rule |
| UserUseCase.CharBytes | backend/internal/usecase/user_usecase.go:262 | a character takes 1 to 4 bytes, 1 exactly for ASCII |
| UserUseCase.Utf8LengthBounds | backend/internal/usecase/user_usecase.go:262 | the byte length lies between the character count and four times it, and equals it for ASCII |
| UserUseCase.AtCountZero | backend/internal/usecase/user_usecase.go:271-278 | no at sign is counted exactly when the text has none |
| UserUseCase.AtCountOne | backend/internal/usecase/user_usecase.go:281-289 | one at sign is counted exactly when there is a single one |
| UserUseCase.ContainsAtSymbol | backend/internal/usecase/user_usecase.go:271-278 | true exactly when at least one at sign is present |
| UserUseCase.ContainsMultipleAtSymbols | backend/internal/usecase/user_usecase.go:281-289 | true exactly when more than one at sign is present |
| UserUseCase.IsValidEmailFormat | backend/internal/usecase/user_usecase.go:260-268 | true exactly for more than 3 bytes, one at sign, and neither first nor last character an at sign |
| UserUseCase.EmailFormat | backend/internal/usecase/user_usecase.go:260-268 | the email rule; IsValidEmailFormat is proved to return true exactly when it holds, and ByteLengthCounts shows the byte-length test |
| UserUseCase.ByteLengthCounts | backend/internal/usecase/user_usecase.go:262 | the length test counts bytes, so a three-character address with a multi-byte character passes, while short and badly placed ones fail |
| UserUseCase.IsValidProviderName | backend/internal/usecase/user_usecase.go:292-304 | true exactly for "Cognito_UserPool" and "Google" |
| UserUseCase.ClampLimit | backend/internal/usecase/user_usecase.go:232-234 | a limit outside [1,100] becomes 20, any other stays |
| UserUseCase.ClampOffset | backend/internal/usecase/user_usecase.go:235-237 | a negative offset becomes 0, any other stays |
| UserUseCase.ClampIdempotent | backend/internal/usecase/user_usecase.go:232-237 | clamping twice is clamping once |
| UserUseCase.LookupFailureAsWritten | backend/internal/usecase/user_usecase.go:54-58 | as written: not-found only for the shared sentinel, anything else internal |
| UserUseCase.LookupFailure | backend/internal/usecase/user_usecase.go:54-58 | corrected: the repository's own not-found also gives user-not-found |
| UserUseCase.UpdateFailureAsWritten | backend/internal/usecase/user_usecase.go:116-126 | as written: a duplicate email gives email-already-exists, only the shared not-found sentinel gives not-found, anything else internal |
| UserUseCase.UpdateFailure | backend/internal/usecase/user_usecase.go:116-126 | corrected: a duplicate email gives email-already-exists, either not-found sentinel not-found, anything else internal |
| UserUseCase.MissingUserIsInternalAsWritten | backend/internal/usecase/user_usecase.go:54-58 | as written, a missing user is reported as an internal error by the lookup, delete and update classifications |
| UserUseCase.MissingUserIsNotFound | backend/internal/usecase/user_usecase.go:54-58 | corrected, a missing user is reported as not found and other failures as internal |
| UserUseCase.GetUserProfile | backend/internal/usecase/user_usecase.go:50-66 | corrected classification: the user's response, or the classified lookup failure |
| UserUseCase.CheckUserExists | backend/internal/usecase/user_usecase.go:170-184 | the answer, or an internal error |
| UserUseCase.DeleteUser | backend/internal/usecase/user_usecase.go:187-217 | corrected classification: the user is deleted exactly when the lookup succeeds; failures are classified |
| UserUseCase.GetUserByEmail | backend/internal/usecase/user_usecase.go:146-167 | corrected classification: a malformed address is a validation error before any lookup; otherwise the lookup's profile |
| UserUseCase.GetUsersByProvider | backend/internal/usecase/user_usecase.go:220-255 | an empty or unknown provider is a validation error before any call; otherwise one call with the clamped page, whose users are returned in order |
| UserUseCase.MergeProperties | backend/internal/usecase/user_usecase.go:91-104 | absent or empty fields keep the current value, given ones replace it; identity, provider and creation never change |
| UserUseCase.Merged | backend/internal/usecase/user_usecase.go:88-104 | the profile after the update; MergeProperties states which fields it keeps and which it replaces |
| UserUseCase.UpdateUserProfile | backend/internal/usecase/user_usecase.go:69-143 | corrected classification: failures in order: lookup, forbidden email change, invalid name, invalid email; exactly the merged user is written when all pass, and the write's failure is classified |
| Claims.IsValid | backend/internal/infrastructure/auth/claims.go:58-86 | errors in the order missing subject, missing token use, unknown token use, expired, non-UUID subject; none exactly for an access or id token that has not expired with a UUID subject |
| Claims.ExpiryMonotone | backend/internal/infrastructure/auth/claims.go:94-99 | claims that have expired stay expired later, and claims without an expiry time never expire |
| Claims.IsExpired | backend/internal/infrastructure/auth/claims.go:94-99 | an expiry time is set and now lies past it; see ExpiryMonotone and ValidClaims |
| Claims.GetUserID | backend/internal/infrastructure/auth/claims.go:89-92 | the subject parsed as a UUID; ValidClaims states that valid claims always give one |
| Claims.IsAccessToken | backend/internal/infrastructure/auth/claims.go:102-105 | the token use is "access"; see TokenUseExclusive |
| Claims.IsIDToken | backend/internal/infrastructure/auth/claims.go:107-110 | the token use is "id"; see TokenUseExclusive |
| Claims.IsGoogleUser | backend/internal/infrastructure/auth/claims.go:112-115 | an identity provider or an identity is present; GetProviderName states that this is exactly when the provider is "Google" |
| Claims.ValidClaims | backend/internal/infrastructure/auth/claims.go:58-99 | valid claims give a user id, have not expired and are an access or id token; the expiry error is given exactly for expired claims with a subject and a known token use |
| Claims.TokenUseExclusive | backend/internal/infrastructure/auth/claims.go:102-109 | never both an access and an id token; valid claims are exactly one |
| Claims.GetProviderName | backend/internal/infrastructure/auth/claims.go:112-122 | "Google" exactly when an identity provider or an identity is present, otherwise "Cognito_UserPool" |
| Claims.FullName | backend/internal/infrastructure/auth/claims.go:131-134 | the given name alone, or joined to the family name by one space |
| Claims.GetDisplayName | backend/internal/infrastructure/auth/claims.go:125-143 | name, then given and family name, then username, then email; empty exactly when all are |
| Claims.ShortSubject | backend/internal/infrastructure/auth/claims.go:223-231 | a subject of at most 8 characters is kept, a longer one becomes its first 8 and "..." |
| Claims.LogStringShowsShortSubject | backend/internal/infrastructure/auth/claims.go:223-231 | the log line starts with the shortened subject |
| Claims.ToLogString | backend/internal/infrastructure/auth/claims.go:223-231 | the log line; LogStringShowsShortSubject states that it starts with the shortened subject |
| Claims.CognitoClaims.constructor | backend/internal/infrastructure/auth/claims.go:51-55 | empty claims with an empty attribute map |
| Claims.CognitoClaims.Decoded | backend/internal/infrastructure/auth/claims.go:13-48 | decoded claims start without an attribute map |
| Claims.CognitoClaims.GetCustomAttribute | backend/internal/infrastructure/auth/claims.go:214-220 | absent without a map; otherwise the stored value when present |
| Claims.CognitoClaims.SetCustomAttribute | backend/internal/infrastructure/auth/claims.go:206-212 | the map is created when missing; the value is then read back and no other key changes |
| Middleware.HeaderChoiceProperties | backend/internal/infrastructure/auth/middleware.go:88-107 | no matching key gives ""; a non-empty header is the value of a key equal to "authorization" ignoring case |
| Middleware.GetAuthorizationHeader | backend/internal/infrastructure/auth/middleware.go:88-107 | the header is one the lookup rule allows |
| Middleware.ValidatorFailureAsWritten | backend/internal/infrastructure/auth/middleware.go:156-185 | as written: expiry only for the shared sentinel, and any error without shared sentinels a generic unauthorized |
| Middleware.ValidatorFailure | backend/internal/infrastructure/auth/middleware.go:156-185 | corrected: expired, then invalid token, then key-set and HTTP failures with their messages, otherwise generic unauthorized |
| Middleware.ValidatorErrorsGenericAsWritten | backend/internal/infrastructure/auth/middleware.go:156-185 | as written, every validator error without a shared sentinel, the expiry error included, becomes the generic unauthorized response |
| Middleware.TaggedValidatorErrorsGenericAsWritten | backend/internal/infrastructure/auth/middleware.go:156-185 | as written, a key-set failure over a cause without a shared sentinel becomes the generic unauthorized response as well |
| Middleware.ValidatorErrorsClassified | backend/internal/infrastructure/auth/middleware.go:156-185 | corrected, an expired token gets the expiry error, and an invalid or badly signed token, or a parsing error whose cause is the parse sentinel, gets the invalid-token error |
| Middleware.TaggedValidatorErrorsClassified | backend/internal/infrastructure/auth/middleware.go:156-185 | corrected, a key-set or public-key failure gets the key-set message and an HTTP failure the HTTP message, when its cause carries no JWT sentinel |
| Middleware.UserIDFailure | backend/internal/infrastructure/auth/middleware.go:188-201 | invalid subject, then missing subject, otherwise invalid token |
| Middleware.UserIDFailureIsInvalidToken | backend/internal/infrastructure/auth/middleware.go:188-201 | a subject that is not a UUID gives invalid token |
| Middleware.DevTokenAuthResult | backend/internal/infrastructure/auth/middleware.go:115-136 | the fixed development user and claims |
| Middleware.IsDevelopmentEnvironment | backend/internal/infrastructure/auth/middleware.go:110-113 | exactly "development" or "dev"; AuthenticateHeader states that the development token is accepted only then |
| Middleware.AuthenticateWithCognito | backend/internal/infrastructure/auth/middleware.go:139-209 | corrected classification: no Bearer prefix is a format error, an empty token invalid, a validator failure is classified, and a valid token yields its subject as user id with its claims |
| Middleware.AuthenticateHeader | backend/internal/infrastructure/auth/middleware.go:51-67 | corrected classification: an empty header is token-not-found; the development token counts only in a development environment; any other success comes from the validator |
| Middleware.Authenticate | backend/internal/infrastructure/auth/middleware.go:51-67 | corrected classification: authentication of the chosen header |
| Middleware.GetUserIDFromRequest | backend/internal/infrastructure/auth/middleware.go:70-76 | corrected classification: the authenticated user id, or the nil id with the error |
| CognitoErrors.CognitoRender | backend/internal/infrastructure/repository/auth/errors/cognito.go:49-54 | the rendering with kind and message, and the cause in parentheses when present |
| CognitoErrors.NewCognitoAuthError | backend/internal/infrastructure/repository/auth/errors/cognito.go:67-90 | stands for this file's constructors, NewCognitoAuthError and its four helpers: each error renders its kind and message, unwraps to its cause and matches what the cause matches; the key-set and HTTP helpers fall in their tag classes; see CognitoRender, CognitoUnwrapIs and TagClassifiers |
| CognitoErrors.CognitoUnwrapIs | backend/internal/infrastructure/repository/auth/errors/cognito.go:57-64 | the error unwraps to its cause and matches exactly what the cause matches |
| CognitoErrors.FirstCognitoAgrees | backend/internal/infrastructure/repository/auth/errors/cognito.go:57-64 | the first Cognito error on a chain matches what the whole chain matches |
| CognitoErrors.TokenClassifiersArePlainIs | backend/internal/infrastructure/repository/auth/errors/cognito.go:93-111 | the token classifiers are plain sentinel matches |
| CognitoErrors.TagClassifiers | backend/internal/infrastructure/repository/auth/errors/cognito.go:113-127 | the key-set classifier recognises key-set and public-key errors, the HTTP one HTTP errors, and neither a bare sentinel |
| CognitoErrors.IsTokenExpiredError | backend/internal/infrastructure/repository/auth/errors/cognito.go:93-99 | the expiry sentinel, through a Cognito error's cause when there is one; see TokenClassifiersArePlainIs |
| CognitoErrors.IsInvalidTokenError | backend/internal/infrastructure/repository/auth/errors/cognito.go:101-111 | the invalid, parse and signature sentinels, in the same way; see TokenClassifiersArePlainIs |
| CognitoErrors.IsJWKSError | backend/internal/infrastructure/repository/auth/errors/cognito.go:113-119 | a Cognito error tagged key set or public key; see TagClassifiers |
| CognitoErrors.IsHTTPError | backend/internal/infrastructure/repository/auth/errors/cognito.go:121-127 | a Cognito error tagged HTTP; see TagClassifiers |
| DomainErrors.DomainRender | backend/internal/errors/domain.go:93-98 | the message, followed by the cause when present |
| DomainErrors.Fixed | backend/internal/errors/domain.go:113-267 | stands for the fixed constructors of this file, from NewUserNotFoundError to NewInvalidTokenUseError: each error is a domain error that unwraps to its own sentinel and matches nothing else; the not-found and token ones fall in their classes; see FixedIsOwnSentinel, NotFoundClassification and AuthClassification |
| DomainErrors.WithDefault | backend/internal/errors/domain.go:218-303 | stands for the message-taking constructors of this file, NewUnauthorizedError to NewConflictError: an empty message is replaced by the default, and the error matches exactly its own sentinel; see DefaultMessage and ValidationAndConflictClassification |
| DomainErrors.FixedIsOwnSentinel | backend/internal/errors/domain.go:100-102 | a fixed constructor's error unwraps to its own sentinel and matches only it |
| DomainErrors.DefaultMessage | backend/internal/errors/domain.go:270-303 | an empty message is replaced by the default, and the error matches only its sentinel |
| DomainErrors.InternalErrorTransparent | backend/internal/errors/domain.go:305-307 | the internal error has code INTERNAL_ERROR and matches exactly what its cause matches |
| DomainErrors.NotFoundClassification | backend/internal/errors/domain.go:324-331 | the not-found constructors are classified not-found, a plain not-found error is not |
| DomainErrors.AuthClassification | backend/internal/errors/domain.go:333-339 | the token and unauthorized errors are auth errors, format and subject errors are not |
| DomainErrors.ValidationAndConflictClassification | backend/internal/errors/domain.go:341-353 | a validation error is also a business error; conflict and round-in-progress are conflicts, round-already-ended is not |
| InfraErrors.InfraRender | backend/internal/errors/infrastructure.go:91-96 | component, operation and message, and the cause in parentheses when present |
| InfraErrors.NewInfrastructureError | backend/internal/errors/infrastructure.go:106-274 | stands for the constructor helpers of this file, from NewDatabaseError to NewExternalServiceTimeoutError: each error renders its component, operation and message, unwraps to its cause, and falls in its class; see InfraRender, InfraUnwrap, StatusCodeMessage and SentinelHelpersClassified |
| InfraErrors.InfraUnwrap | backend/internal/errors/infrastructure.go:98-113 | the error unwraps to its cause, matches what the cause matches and is an infrastructure error |
| InfraErrors.InfraAnywhereOnChain | backend/internal/errors/infrastructure.go:279-288 | an infrastructure error anywhere on a chain classifies the whole chain |
| InfraErrors.ClassifiersSeeThroughWrapping | backend/internal/errors/infrastructure.go:279-395 | wrapping an error with %w never changes any of the seventeen classifications |
| InfraErrors.IsInfrastructureErrorType | backend/internal/errors/infrastructure.go:392-395 | an infrastructure error on the chain, found anywhere on the chain; see ClassifiersSeeThroughWrapping, InfraAnywhereOnChain and SentinelHelpersClassified |
| InfraErrors.IsInfrastructureError | backend/internal/errors/infrastructure.go:279-288 | an infrastructure error on the chain, or one of six listed sentinels, found anywhere on the chain; see ClassifiersSeeThroughWrapping, InfraAnywhereOnChain and SentinelHelpersClassified |
| InfraErrors.IsDatabaseError | backend/internal/errors/infrastructure.go:290-297 | one of the six database sentinels, found anywhere on the chain; see ClassifiersSeeThroughWrapping |
| InfraErrors.IsDynamoDBError | backend/internal/errors/infrastructure.go:299-304 | one of the four DynamoDB sentinels, found anywhere on the chain; see ClassifiersSeeThroughWrapping |
| InfraErrors.IsHTTPError | backend/internal/errors/infrastructure.go:306-311 | one of the four HTTP sentinels, found anywhere on the chain; see ClassifiersSeeThroughWrapping |
| InfraErrors.IsJWTError | backend/internal/errors/infrastructure.go:313-318 | one of the four JWT sentinels, found anywhere on the chain; see ClassifiersSeeThroughWrapping |
| InfraErrors.IsJWKSError | backend/internal/errors/infrastructure.go:320-326 | one of the five key-set sentinels, found anywhere on the chain; see ClassifiersSeeThroughWrapping |
| InfraErrors.IsSQSError | backend/internal/errors/infrastructure.go:328-332 | one of the three SQS sentinels, found anywhere on the chain; see ClassifiersSeeThroughWrapping |
| InfraErrors.IsExternalServiceError | backend/internal/errors/infrastructure.go:334-340 | one of the five external-service sentinels, found anywhere on the chain; see ClassifiersSeeThroughWrapping, InfraAnywhereOnChain and SentinelHelpersClassified |
| InfraErrors.IsNetworkError | backend/internal/errors/infrastructure.go:342-348 | one of the five network sentinels, found anywhere on the chain; see ClassifiersSeeThroughWrapping, InfraAnywhereOnChain and SentinelHelpersClassified |
| InfraErrors.IsConfigError | backend/internal/errors/infrastructure.go:350-353 | one of the two configuration sentinels, found anywhere on the chain; see ClassifiersSeeThroughWrapping, InfraAnywhereOnChain and SentinelHelpersClassified |
| InfraErrors.IsCacheError | backend/internal/errors/infrastructure.go:355-359 | one of the three cache sentinels, found anywhere on the chain; see ClassifiersSeeThroughWrapping, InfraAnywhereOnChain and SentinelHelpersClassified |
| InfraErrors.IsTokenExpiredError | backend/internal/errors/infrastructure.go:362-364 | the token-expired sentinel, found anywhere on the chain; see ClassifiersSeeThroughWrapping |
| InfraErrors.IsInvalidTokenError | backend/internal/errors/infrastructure.go:366-370 | the invalid, parse and signature sentinels, found anywhere on the chain; see ClassifiersSeeThroughWrapping |
| InfraErrors.IsRecordNotFoundError | backend/internal/errors/infrastructure.go:372-375 | the record and item not-found sentinels, found anywhere on the chain; see ClassifiersSeeThroughWrapping |
| InfraErrors.IsConnectionError | backend/internal/errors/infrastructure.go:377-382 | one of the four connection sentinels, found anywhere on the chain; see ClassifiersSeeThroughWrapping |
| InfraErrors.IsTimeoutError | backend/internal/errors/infrastructure.go:384-389 | one of the four timeout sentinels, found anywhere on the chain; see ClassifiersSeeThroughWrapping, InfraAnywhereOnChain and SentinelHelpersClassified |
| InfraErrors.StatusCodeMessage | backend/internal/errors/infrastructure.go:174-177 | a status error belongs to http status and its message contains the code |
| InfraErrors.SentinelHelpersClassified | backend/internal/errors/infrastructure.go:236-273 | each helper's error falls in its class; a timeout is not a network error |
| InfraErrors.SameTextDifferentClass | backend/internal/errors/infrastructure.go:12-78 | two sentinels with the same text are told apart by the classifiers |
| ErrorMapper.FirstCase | backend/internal/handler/error_mapper.go:21-225 | the first case in the given order whose sentinel the error matches, every earlier case failing; none exactly when no case matches |
| ErrorMapper.MapErrorToHTTP | backend/internal/handler/error_mapper.go:19-247 | every response has one of the six statuses; SentinelCasesFirst, DirectDomainErrorKeepsCode and FallbackResponses state its three branches: the first matching case, a domain error by its code, and the infrastructure or unexpected-error fallback |
| ErrorMapper.MapDomainErrorToHTTP | backend/internal/handler/error_mapper.go:250-277 | the domain error's code and message are kept, with one of the six statuses |
| ErrorMapper.DomainStatus | backend/internal/handler/error_mapper.go:251-267 | every code is given one of the six statuses; FailureCodesAreServerErrors shows that creation and update failure codes get 500 |
| ErrorMapper.SentinelCasesFirst | backend/internal/handler/error_mapper.go:21-225 | when a sentinel case matches, the response is the first matching case's |
| ErrorMapper.DirectDomainErrorKeepsCode | backend/internal/handler/error_mapper.go:228-230 | a domain error without a matching case keeps its code and message with the code's status |
| ErrorMapper.FallbackResponses | backend/internal/handler/error_mapper.go:233-246 | otherwise an infrastructure error gives the system-error response and anything else the unexpected-error response |
| ErrorMapper.SentinelCase | backend/internal/handler/error_mapper.go:21-225 | every sentinel case answers with one of the six statuses the mapper uses (400, 401, 403, 404, 409, 500) |
| ErrorMapper.StatusIsKnown | backend/internal/handler/error_mapper.go:19-247 | every mapped response has a known status |
| ErrorMapper.OnlySentinelFrom | backend/internal/handler/error_mapper.go:21-225 | an error matching one sentinel finds exactly that case when it is listed |
| ErrorMapper.OnlySentinel | backend/internal/handler/error_mapper.go:21-230 | such an error gets its case's response, or the domain mapping when unlisted |
| ErrorMapper.ValidationMessageReplaced | backend/internal/handler/error_mapper.go:169-174 | a validation error's own message is replaced by the generic one |
| ErrorMapper.DomainErrorWithoutCase | backend/internal/handler/error_mapper.go:228-230 | a domain error whose only sentinel is unlisted is mapped by its code |
| ErrorMapper.FixedWithoutCase | backend/internal/handler/error_mapper.go:228-230 | a fixed domain error with an unlisted sentinel keeps its code and message |
| ErrorMapper.FailureCodesAreServerErrors | backend/internal/handler/error_mapper.go:264 | creation and configuration failure codes are server errors |
| ErrorMapper.InternalErrorReportsItsCause | backend/internal/handler/error_mapper.go:21-26 | an internal error wrapping user-not-found is reported as not found, since it matches its cause |
| ErrorMapper.StatusClasses | backend/internal/handler/error_mapper.go:280-334 | every error is a client or a server error but not both; the client classes are exactly not-found, unauthorized, forbidden, bad request and conflict; the getters agree with the mapping |
| GoErrors.Unwrap | backend/internal/errors/domain.go:100-102 | unwrapping gives a strictly smaller error |
| GoErrors.Chain | backend/internal/infrastructure/repository/auth/errors/cognito.go:57-64 | the chain starts with the error itself |
| GoErrors.IsIffOnChain | backend/internal/infrastructure/repository/auth/errors/cognito.go:57-64 | matching a sentinel is finding it on the unwrap chain |
| GoErrors.WrapPreservesIs | backend/internal/infrastructure/repository/auth/errors/cognito.go:57-64 | a formatting wrapper matches what it wraps |
| GoErrors.AsDomain | backend/internal/handler/error_mapper.go:228 | the domain error found is on the chain |
| GoErrors.AsInfra | backend/internal/errors/infrastructure.go:279-288 | the infrastructure error found is on the chain |
| GoErrors.AsCognito | backend/internal/infrastructure/repository/auth/errors/cognito.go:113-127 | the Cognito error found is on the chain |
| GoErrors.AsDomainIffOnChain | backend/internal/handler/error_mapper.go:228 | a domain error is found exactly when one is on the chain |
| GoErrors.AsInfraIffOnChain | backend/internal/errors/infrastructure.go:279-288 | an infrastructure error is found exactly when one is on the chain |
| GoErrors.SameTextDistinctIdentity | backend/internal/errors/infrastructure.go:12-78 | two sentinels with the same text are different errors |
| Text.DigitChar | backend/internal/infrastructure/repository/dynamodb/userconfig_repository.go:141 | the digit character of a digit |
| Text.ParseInt | backend/internal/infrastructure/repository/dynamodb/userconfig_repository.go:76 | only a non-empty text parses |
| Text.NatToStringDigits | backend/internal/infrastructure/repository/dynamodb/userconfig_repository.go:141 | a decimal rendering is non-empty digits of the number's value |
| Text.ParseItoa | backend/internal/infrastructure/repository/dynamodb/userconfig_repository.go:76 | parsing a decimal rendering gives the number back |
| Text.ItoaHasNoDot | optim/app/services/dynamodb/dynamodb_handler.py:146 | a rendered integer contains no dot, so it is read back as an integer |
| Text.Lower | backend/internal/infrastructure/repository/dynamodb/sample_optimization_data_repository.go:392 | lower-cases each character |
| Uuids.LowerDashedIsCanonical | backend/internal/infrastructure/auth/claims.go:89-91 | a lower-cased dashed UUID is canonical |
| Uuids.FromDashed | backend/internal/infrastructure/auth/claims.go:89-91 | the canonical text of a dashed id equals the input up to the case of its hexadecimal letters, keeps every other character, and is the input itself when that is already canonical |
| Uuids.Hyphenate | backend/internal/infrastructure/auth/claims.go:89-91 | 32 hex digits are given the dashed form |
| Uuids.Parse | backend/internal/infrastructure/auth/claims.go:89-91 | a dashed text parses to itself in canonical form; only the four accepted lengths parse; failures are plain text errors |
| Uuids.ParseCanonical | backend/internal/infrastructure/auth/claims.go:89-91 | a canonical id parses to itself |

## Left out

- The optimiser's surrogate model, its acquisition function and the random initial points are not modelled: `ask` is a function of the configuration and the history, and `tell` is an acceptance test of the rows.
- BayesianOptimizer.OptimizeRound and BayesianOptimizer.OptimizeSession: that the point `ask` returns lies in the search space is a hypothesis (`InSpace`) of the bound clauses, not a consequence, because the optimiser library is not part of this model.
- The texts of the Python exceptions that `tell` and `ask` raise are the parameter `accepts` and an opaque failure; only the prefixes the service adds are exact.
- The Python float rendering used when a number is stored is the parameter `floatRepr`; the Go `%.2f` rendering is the parameter `fixed2`.
- `get_round_data` and `get_session_data` of the Python handler are client calls; `MakeChosen` receives their outcome.
- `GetMessageSize` of the two optimisation messages marshals JSON; it is not modelled.
- `GetAllRoundsBySessionID` and the SQL texts of the round repository are not modelled; the table is a map from id to round and each query is its effect on that map.
- Text.ParseInt: parses integers of any size, while Go's `strconv.Atoi` rejects values beyond 64 bits.
- RFC 3339 formatting and parsing, the calendar (`AddDate`, one month back) and date strings are the parameters `rfc3339`, `format`/`parse`, `monthEarlier` and `dateString`; daylight-saving shifts are not modelled, a day is 86400 seconds.
- Loggers, log texts and the update count that the partial update only logs are left out.
- Text.Lower: lower-cases ASCII only, while Go's `strings.ToLower` folds all of Unicode; it is used by the substring search and the header lookup.
- Claims.ShortSubject: slices characters, while Go slices bytes; the two agree on the ASCII subjects Cognito issues.
- Claims.CognitoClaims.GetCustomAttribute: values are a small datatype (`AttrValue`) rather than any Go `interface{}` value.
- The middleware's `HealthCheck`, `ValidateTokenAndGetClaims` and `NewAuthMiddleware` are wiring around the validator and are not modelled.
- The JWT validator's internals (signature, key set, issuer, audience) are the parameter `validate`; the middleware is modelled against the errors it returns.
- Middleware.ValidatorFailure: a parse failure wrapped as a JWT parsing error around a library error that carries no JWT sentinel still becomes the generic unauthorized response, as the corrected classification of that case leaves open.
- `CanChangeEmail` is not declared in the user model; it is the parameter `canChangeEmail` of `UpdateUserProfile`.
- `GetProviderDisplayName` only feeds a log line and is not modelled.
- The two `time.Now()` calls of `UpdateProfile` and the use case are taken as one instant `now`; so are the two `time.Now()` arguments of the UPDATE in RoundRepository.RoundStore.Complete (end time and update time) and in RoundRepository.RoundStore.AbortRound.
- Go's map iteration order in the header lookup is not determined, so the lookup is modelled as a choice among the matching keys (`HeaderChoice`).
- Sending to SQS is modelled by the parameter `accepted`: an accepted message is appended to `sent`.
- The texts of the Python client exceptions for failed reads and writes are parameters; only the prefixes the handler adds are exact.
- DynamoDBHandler.DecodeAttribute: a number text containing a dot is kept as its text (`Float`) and never fails, so a malformed one such as "1.2.3", on which Python's `float()` raises, is not modelled, and "1.50" and "1.5" are two values in the model where Python has one float. A failing `int()` carries Python's own message, "invalid literal for int() with base 10: " followed by the quoted text; Python's `int()` also accepts surrounding whitespace and digit underscores, which DynamoDB number texts do not contain.
- SampleData.IndexOfString: returns a character index, while Go's `indexOfString` returns a byte offset; the two differ when a multi-byte character comes before the match. SampleData.ContainsString, its only user, only compares the result with -1 and is not affected.
- Uuids.Parse: dispatches on the number of characters, while `uuid.Parse` dispatches on the number of bytes; a non-ASCII input is refused by both, possibly with a different error text.
- RoundRepository.RoundStore.Complete: runs the corrected guard `CompleteGuard` (first finding); as written (`CompleteGuardAsWritten`) an aborted round is completed as well, keeps its abort flag and the call succeeds, so the clauses that a success leaves a completed round hold only for the corrected code.
- RoundUseCase.RoundService.CompleteRound: inherits that guard; as written an aborted round is completed and, with a score, its optimisation message is sent.
- RoundUseCase.RoundService.StartRound: tests a failed last-round lookup with the corrected `LookupAborts` (second finding); as written (`LookupAbortsAsWritten`) the repository's not-found for a session without rounds is returned as the error, so the clauses that give such a session its round 1 hold only for the corrected code.
- UserConfigUseCase.UserConfigService.CreateUserConfig: classifies a failed create with the corrected `CreateFailure` (third finding); as written (`CreateFailureAsWritten`) every repository error is an internal error.
- UserConfigUseCase.UserConfigService.UpdateUserConfig: classifies with the corrected `ReadFailure` and `UpdateFailure`; as written a missing configuration and a failed write are internal errors (`RepositoryErrorsMissAsWritten`, `RepositoryErrorsInternalAsWritten`).
- UserConfigUseCase.UserConfigService.DeleteUserConfig: classifies with the corrected `DeleteFailure`; as written (`DeleteFailureAsWritten`) a missing configuration and a failed delete are internal errors.
- UserUseCase.GetUserProfile: classifies a failed lookup with the corrected `LookupFailure` (fifth finding); as written (`LookupFailureAsWritten`) a missing user is an internal error.
- UserUseCase.DeleteUser: the same corrected `LookupFailure` for the lookup and the delete; as written a missing user is an internal error.
- UserUseCase.GetUserByEmail: the same corrected `LookupFailure`; as written an unknown address is an internal error.
- UserUseCase.UpdateUserProfile: classifies with the corrected `LookupFailure` and `UpdateFailure`; as written (`UpdateFailureAsWritten`) a missing user is an internal error.
- Middleware.AuthenticateWithCognito: maps validator errors with the corrected `ValidatorFailure` (fourth finding); as written (`ValidatorFailureAsWritten`) every error the validator returns, an expired token included, becomes the generic "認証に失敗しました".
- Middleware.AuthenticateHeader: inherits that corrected mapping.
- Middleware.Authenticate: inherits that corrected mapping.
- Middleware.GetUserIDFromRequest: inherits that corrected mapping.

## Findings

| source | as written | input that shows it | evidently intended | confidence | as-written member | corrected member |
|---|---|---|---|---|---|---|
| backend/internal/infrastructure/repository/postgres/round_repository.go:137-141 | the completion query refuses only a round that is completed, so an aborted round is completed and keeps its abort flag | any round with `is_aborted` true and an end time | refuse every round the domain rule `CanBeCompleted` refuses (backend/internal/domain/model/round.go:79-87) | not executed | RoundRepository.CompleteAcceptsAborted | RoundRepository.CompleteGuard |
| backend/internal/usecase/round_usecase.go:63-67 | a last-round lookup error is tolerated only when it is `ErrNoRoundsInSession`, but the repository answers `ErrRecordNotFound` for a session without rounds (backend/internal/infrastructure/repository/postgres/round_repository.go:118-121) | starting the first round of a new session | tolerate the "no rounds" answer the repository gives | not executed | RoundUseCase.EmptySessionRejectedAsWritten | RoundUseCase.RoundService.StartRound |
| backend/internal/usecase/userconfig_usecase.go:121-128 | the use case tests the shared configuration sentinels, while the repository returns sentinels declared in backend/internal/infrastructure/repository/dynamodb/userconfig_repository.go:22-25 | a lookup, update or delete of a user with no stored configuration | a missing configuration is not-found and each failed write its own domain error | not executed | UserConfigUseCase.RepositoryErrorsMissAsWritten | UserConfigUseCase.RepositoryErrorsClassified |
| backend/internal/infrastructure/auth/middleware.go:156-185 | the middleware tests the shared JWT, key-set and HTTP sentinels, while the validator returns those of the Cognito error package (backend/internal/infrastructure/auth/jwt_validator.go:98-138) | an expired token, which the validator reports as its own expiry sentinel | expiry, invalid tokens, key-set and HTTP failures each get their own response | not executed | Middleware.ValidatorErrorsGenericAsWritten | Middleware.ValidatorErrorsClassified |
| backend/internal/usecase/user_usecase.go:54-58 | the use case tests the shared `ErrUserNotFound`, while the repository returns the one declared in backend/internal/infrastructure/repository/postgres/user_repository.go:22 | reading, updating or deleting a user id with no row | a missing user is reported as not found | not executed | UserUseCase.MissingUserIsInternalAsWritten | UserUseCase.MissingUserIsNotFound |
