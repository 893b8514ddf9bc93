# Challenge Server grading core in Dafny

This project models the grading core of the Challenge Server, the web
server that grades a challenge workspace: it runs a grading script, reads
its `Label : Status` lines, records solved questions and phases, hands out
tokens and optionally posts them to the gameboard. It also covers the legacy
server in `src/`, which does the same with module-level globals.

The model follows the program's own structure:

- `protocol.dfy` covers the stdout protocol: the first-colon parse shared by
  every grader, and the `print(key, ' : ', val)` lines the example scripts
  write.
- `grading.dfy` and `grading_flow.dfy` cover `do_grade`, `get_results`,
  `read_token` and `done_grading` of `src/app/grading.py`.
  - The forwarding, defaulting, commit and token loops are methods proved
    against specification functions.
  - `do_grade` itself is a method over the `Globals` and `Registry`
    objects.
- `submission.dfy` covers `post_submission`: the payload string and the
  four-attempt loop over abstract HTTP replies.
- `registry.dfy` covers `src/app/databaseHelpers.py`. The
  QuestionTracking and PhaseTracking tables are sequences of rows held in a
  `Registry` class, together with the event log and the cmi5 calls made.
- `cron.dfy` covers `set_cron_vars`, `do_cron_grade` and `run_cron_thread`
  of `src/app/cron.py`.
- `globals.dfy` covers `Globals.__init__` of `src/app/globals.py`.
- `config.dfy` and `ordering.dfy` cover the `read_config` validators of
  `src/app/functions.py`, and the phase ordering of `initialize_db`.
- `coordinator.dfy` covers the `grade`, `tasks` and `updated_results` views
  of `src/app/main/main.py`.
- `prober.dfy` covers the decisions and bounded loops of
  `src/app/portServiceChecker.py`.
- `cmi5.dfy` covers the statement building of `src/app/cmi5.py`.
- `uploads.dfy` covers the numbering and naming of `src/app/fileUploads.py`.
- The legacy files:
  - `legacy_grading.dfy`: `src/gradingFunctions.py`;
  - `legacy_cron.dfy`: `src/cronGrading.py`;
  - `legacy_globals.dfy`: `src/globals.py`;
  - `legacy_server.dfy`: `src/challengeServer.py`.
- `scripts.dfy` covers the example grading scripts.
- `text.dfy`, `dict.dfy` and `outcomes.dfy` hold the Python string,
  dictionary and sequence operations the others use.

Python dictionaries are sequences of key/value pairs with distinct keys,
kept in insertion order, because the order shows in the payload and the
results. `sys.exit`, raised exceptions and failed lookups are explicit
outcome values, never preconditions.

The outside world becomes parameters, each an abstract outcome value. This
covers:
- the grading script's exit code and stdout;
- HTTP replies;
- `vmtoolsd` lookups and environment variables;
- DNS, ping and socket outcomes;
- file contents and directory listings;
- the clock.

Times are whole seconds; the legacy `/grade` view alone reads the clock in
microseconds. Midnight of 1 January 1900, the initial submit time, is 0.

## Model

| member | source | states |
|---|---|---|
| Protocol.ParseLine | src/app/grading.py:89-91 | a stdout line yields a pair exactly when it contains ':'; the pair is the two sides of the first ':', both stripped, the label free of ':' |
| Protocol.LinePair | src/app/grading.py:90-91 | one line contributes at most one pair |
| Protocol.LinePairs | src/app/grading.py:88-91 | the pairs list has at most one entry per line |
| Protocol.LinePairsSnoc | src/app/grading.py:89-91 | one more line appends exactly the pair that line yields, so the pairs keep line order |
| Protocol.ReadResults | src/app/grading.py:88-92 | the parsing loop builds exactly the dictionary of the pairs of the lines with ':' |
| Protocol.LaterLineWins | src/app/grading.py:92 | each label maps to the status of the last line carrying that label |
| Protocol.ParseOutput | src/app/grading.py:88-92 | definition: the results dictionary read from the script's stdout; `ReadResults`, `LaterLineWins` and `PrintParseRoundTrip` state its properties |
| Protocol.FormatLines | src/custom_scripts/manualGradingExample.py:94-95 | one printed line per result, in result order, each `key  :  val` |
| Protocol.FormatLine | src/custom_scripts/manualGradingExample.py:95 | definition: one printed result line, the arguments joined by single spaces; `SplitFormatLine` and `ParseFormatLine` read it back |
| Protocol.SplitFormatLine | src/custom_scripts/manualGradingExample.py:95 | a printed line whose key has no ':' splits at the ':' that `print` put between the arguments |
| Protocol.ParseFormatLine | src/app/grading.py:90-91 | a printed line of a printable label and status parses back to that label and status |
| Protocol.LinePairsOfLines | src/app/grading.py:89-91 | lines that each parse to the matching result, then the empty piece after the last newline, give exactly those results |
| Protocol.PrintParseRoundTrip | src/app/grading.py:88-92 | results printed one `print(key, ' : ', val)` per entry are read back by the server as exactly those results, when the labels are distinct and free of ':' and nothing has newlines or edge whitespace |
| Grading.ForwardedModesAreManual | src/app/grading.py:41 | the modes whose answers are forwarded are exactly MANUAL_MODE without button and upload |
| Grading.InsertAt | src/app/grading.py:42 | `list.insert(index, x)`: x lands at the index, or at the end past it, and the other entries keep their order |
| Grading.IndexDigit | src/app/grading.py:40 | `int(ques[-1])` succeeds exactly for a non-empty label ending in a digit, giving a value below 10 |
| Grading.Forward | src/app/grading.py:35-46 | the forwarding loop computes `ForwardList`, or the exception `int(ques[-1])` raises |
| Grading.ForwardRaises | src/app/grading.py:36-40 | grading raises exactly when a key naming a part with a valid mode does not end in a digit |
| Grading.ForwardRaisedStays | src/app/grading.py:36-40 | once the loop has raised, the keys after do not matter |
| Grading.ForwardMembers | src/app/grading.py:36-42 | the list holds exactly the submitted answers of parts with a forwarded mode |
| Grading.ForwardValid | src/app/grading.py:42 | the forwarded entries have distinct labels |
| Grading.GradeArgsAnswers | src/app/grading.py:58-61 | `grade_args` maps a key to its submitted answer exactly when the key is forwarded, whatever order the inserts left |
| Grading.ScriptOutput | src/app/grading.py:74-86 | `fatal_error` is set exactly for a non-zero exit or empty stdout; a failed run's output is "" and a good run's is its stdout |
| Grading.DefaultedGet | src/app/grading.py:107-113 | existing results are kept, a part with one of the given modes and no result gets "Failed", and nothing else is added |
| Grading.DefaultedValid | src/app/grading.py:107-113 | defaulting keeps labels distinct and keeps every label already present |
| Grading.DefaultParts | src/app/grading.py:107-113 | the defaulting loop computes `Defaulted` |
| Grading.Commit | src/app/grading.py:115-117 | the `update_db('q', k, f"{v}--{user_input}")` loop leaves the question rows and cmi5 calls of `Commits`, and fails when one call exits |
| Grading.CommitOne | src/app/grading.py:116-117 | one call of the loop: it either exits, ending the loop, or leaves the tables the rest of the loop starts from |
| Grading.CommitsStep | src/app/grading.py:115-117 | the commit loop is the update for the first result followed by the loop over the rest, or ends at an exit |
| Grading.CommitsGrow | src/app/grading.py:115-117 | the loop keeps every row's place and label and never unsolves a question |
| Grading.UpdateSolves | src/app/databaseHelpers.py:157-159 | an update whose value mentions "success" in any case leaves the question solved |
| Grading.CommitFirstSolves | src/app/grading.py:117 | the stored value `status--answer` of a status with "success" solves the question |
| Grading.CommitSolves | src/app/grading.py:115-117 | after a commit loop that did not exit, every result mentioning "success" has its question solved |
| Grading.CommitSolvesFirst | src/app/grading.py:115-117 | the first result mentioning "success" has its question solved after a loop that did not exit |
| Grading.FirstLine | src/app/grading.py:291 | `readline()` is the prefix up to and including the first newline, or the whole content without one |
| Grading.ReadToken | src/app/grading.py:240-296 | a failed read gives the error text; a part without `token_name` fails; a guestinfo token is stripped; a file token has no newline before its end; an unknown location gives "None" |
| Grading.TokenOutcomes | src/app/grading.py:137-147 | one token outcome per result, in result order |
| Grading.CollectExit | src/app/grading.py:137-147 | the token loop exits exactly when one outcome is an exit |
| Grading.CollectExitStays | src/app/grading.py:137-147 | once the token loop has exited, the tokens, the failure flag and the exit are those it had at the exit |
| Grading.CollectExact | src/app/grading.py:137-147 | without an exit, one token per outcome in order, and a read failed exactly when one outcome's read failed |
| Grading.TokensExit | src/app/grading.py:141-143 | `get_results` exits exactly when some result lacks "success" and its label has no question row, the `check_db` exit |
| Grading.TokensExact | src/app/grading.py:137-147 | one token per result, in order: the token read for a result mentioning "success" or an already solved question, the refusal text otherwise; a read failed exactly when one of those reads did |
| Grading.TokenForValue | src/app/grading.py:141-147 | a result's token is read exactly when it is owed, and that read's failure is the result's failure |
| GradingFlow.GetResults | src/app/grading.py:122-150 | the results lose their non-part labels and the tokens are those the token loop reads; the run completes exactly when no token lookup or phase update exits; the rows, `current_phase` and `fatal_error` are exactly those of `ResultsOf`, including the failed reads before an exit |
| GradingFlow.ResultsOf | src/app/grading.py:122-150 | definition: `get_results` on a state: a failed read while posting sets `fatal_error`, also before an exit; with phases on and every token read, the phase rows are committed and `current_phase` moves to the phase the update stops at; graded exactly when nothing exits; `GetResults` is proved against it |
| GradingFlow.TokenLoop | src/app/grading.py:137-147 | the loop exits exactly as `Tokens` says and yields its tokens; `fatal_error` is set exactly when a read failed while posting to the gameboard, also before an exit |
| GradingFlow.TokenStep | src/app/grading.py:141-147 | one pass yields the token outcome `TokenFor` gives for the result |
| GradingFlow.SuccessLines | src/app/grading.py:70 | one string `"<part> : Success"` per part, in part order |
| GradingFlow.DictOfStrings | src/app/grading.py:71 | definition: `dict` over a list of strings takes two-character strings as key and value pairs and raises otherwise; `CompletedAsWrittenRaises` applies it |
| GradingFlow.CompletedAsWrittenRaises | src/app/grading.py:69-71 | as written, `dict(tmp)` raises `ValueError` as soon as one part is configured |
| GradingFlow.AllSuccess | src/app/grading.py:69-72 | the intended completed-challenge results: "Success" for every configured part and nothing else |
| GradingFlow.CompletedEarnsTokens | src/app/grading.py:69-72 | with every part at "Success", no question lookup is needed and every part earns the token read for it |
| GradingFlow.AllSuccessValues | src/app/grading.py:70 | the intended results have one "Success" entry per part |
| GradingFlow.RunScript | src/app/grading.py:74-119 | the run records its parsed output as an event; the question, answer and phase rows, `current_phase`, `fatal_error` and the outcome are exactly those of `ScriptGradeOf` from the state before |
| GradingFlow.ReadScriptResults | src/app/grading.py:88-113 | the parsed output, and the results with "Failed" defaults for manual parts when phases are off |
| GradingFlow.CommitResults | src/app/grading.py:115-119 | graded exactly when no `update_db` call exits and `get_results` completes; the rows, `current_phase`, `fatal_error` and the outcome are exactly those of `ResultsGrade` |
| GradingFlow.DoGrade | src/app/grading.py:23-119 | the question, answer and phase rows, `current_phase`, `fatal_error` and the outcome are exactly those of `DoGradeOf` from the state before; the events gain the script's parsed output exactly when it ran |
| GradingFlow.GradePhase | src/app/grading.py:64-119 | after the answers are forwarded: the question, answer and phase rows, `current_phase`, `fatal_error` and the outcome are exactly those of `PhaseGradeOf` from the state before; the events gain the script's parsed output exactly when `PhaseCall` names an invocation |
| GradingFlow.PhaseGradeOf | src/app/grading.py:64-119 | definition: no current phase stops with nothing changed; a non-completed current phase is stored and the script runs for it (`ScriptGradeOf`); the completed phase raises with parts and otherwise runs `get_results` on nothing; with phases off the script runs without a phase; `GradePhase` is proved against it |
| GradingFlow.ScriptGradeOf | src/app/grading.py:74-119 | definition: a failed run sets `fatal_error`, then `ResultsGrade` commits the parsed results, defaulted to "Failed" when phases are off; `RunScript` is proved against it |
| GradingFlow.PhaseCall | src/app/grading.py:64-76 | definition: the script's invocation for the forwarded answers, with the current phase when phases are on, or none when there is no current phase or it is "completed" |
| GradingFlow.DoGradeOf | src/app/grading.py:23-119 | definition: `do_grade` on a state: `fatal_error` cleared first; a refused form stops there; otherwise the forwarded answers go through `PhaseGradeOf`; `DoGrade` is proved against it |
| GradingFlow.DoGradeFatal | src/app/grading.py:34-85 | `fatal_error` after `do_grade` is set exactly when the script ran and failed, or committed every result and a token read then failed while posting; it is never left over from before |
| GradingFlow.DoGradeCurrentPhase | src/app/grading.py:65-149 | after a graded run with phases on, `current_phase` is the phase `get_current_phase` names on the new phase rows, unless every phase is now solved |
| GradingFlow.ScriptCall | src/app/grading.py:23-67 | definition: the script's invocation, the forwarded answers and the current phase when phases are on, or none for a refused form, a missing current phase or the completed phase |
| GradingFlow.GradeLog | src/app/grading.py:86-92 | definition: the one event `do_grade` logs, the script's parsed output, exactly when the script ran |
| GradingFlow.ResultsGrade | src/app/grading.py:115-150 | definition: the state after committing each result up to the first exit, then `ResultsOf` when none exits; `CommitResults` is proved against it |
| GradingFlow.GradeCompleted | src/app/grading.py:69-72 | as written, any configured part aborts with nothing changed; without parts the state and outcome are those of `ResultsOf` on no results, and a graded outcome has no results and no tokens |
| GradingFlow.DoneGrading | src/app/grading.py:215-237 | a failed run changes nothing; otherwise the results and tokens are published, one event per solved question and phase is appended, and the tokens are submitted only when posting to the gameboard, leaving the verb and `fatal_error` the submission loop gives |
| Submission.AnswersTrailingComma | src/app/grading.py:172-173 | with tokens, the answer loop leaves the comma-separated answer objects followed by one comma |
| Submission.PayloadWithTokens | src/app/grading.py:171-174 | with tokens the payload is the JSON object `{"id":…,"sectionIndex":0,"questions":[…]}` with one `{"answer":…}` per token in dict order |
| Submission.PayloadWithoutTokens | src/app/grading.py:171-174 | without tokens the dropped character is the '[' that opens the list, giving `"questions":]}` |
| Submission.AnswersStep | src/app/grading.py:172-173 | one pass of the payload loop appends that token's answer object and a comma |
| Submission.BuildPayload | src/app/grading.py:163-174 | the payload-building loop computes the payload text over the token values in dict order |
| Submission.AttemptOnce | src/app/grading.py:181-207 | one pass of the loop body does what `TryOnce` says with the 405 verb as written, "POST" |
| Submission.TryOnce | src/app/grading.py:184-207 | definition: one attempt, a POST whose non-200 reply may switch the verb, or a PUT; `AttemptOnce` is proved against it |
| Submission.Submit | src/app/grading.py:180-212 | definition: at most `left` attempts, stopping at the first delivery; `SubmitBound`, `NoOkNoDelivery` and `FirstOkDelivers` state its properties |
| Submission.SubmitKeepsVerb | src/app/grading.py:189-193 | as written, the retry loop ends with the verb it started with, whatever the replies |
| Submission.PostSubmission | src/app/grading.py:153-212 | the payload is built from the token values; the verbs sent, the verb left and `fatal_error` are those of at most four attempts that stop at the first 200, with "POST" re-assigned after a 405 |
| Submission.SubmitBound | src/app/grading.py:180-183 | at most four attempts of at most two requests each |
| Submission.TryOnceReplies | src/app/grading.py:184-203 | an attempt only consumes replies, and delivers only on a 200 |
| Submission.NoOkNoDelivery | src/app/grading.py:180-212 | nothing is delivered unless the gameboard answers some request with 200, so `fatal_error` ends set |
| Submission.FirstOkDelivers | src/app/grading.py:185-190 | a first reply of 200 ends the loop after one request with the verb unchanged |
| Submission.PutStaysPut | src/app/grading.py:196-203 | once the verb is PUT every later request is a PUT and the verb stays PUT |
| Submission.SubmitAsWrittenStaysPost | src/app/grading.py:191-193 | as written, starting from POST every request is a POST and the verb stays POST, whatever the gameboard replies |
| Submission.SubmitSwitchesToPut | src/app/grading.py:191-193 | the evidently intended 405 switch: after a 405 every later request is a PUT, and a following 200 delivers after two requests |
| Tracking.FindQuestion | src/app/databaseHelpers.py:138 | `filter_by(label=…).first()` on QuestionTracking: the first row with that label, none exactly when no row has it |
| Tracking.FindPhase | src/app/databaseHelpers.py:174 | the first PhaseTracking row with that label, none exactly when no row has it |
| Tracking.FindLabel | src/app/databaseHelpers.py:116 | the lookup both tables share: the first position holding the label, none exactly when no row has it |
| Tracking.CheckDb | src/app/databaseHelpers.py:104-120 | `check_db` exits exactly when no row carries the label, and otherwise gives that row's solved flag |
| Tracking.SolvedMonotone | src/app/databaseHelpers.py:147-159 | an update leaves the question solved exactly when it was solved or the value mentions "success" in any case; solved is never reset; id and label are kept |
| Tracking.ResponseAfter | src/app/databaseHelpers.py:142-146 | a value with "--" stores the text before its first "--"; a non-empty value without "--" sets "N/A" only over an empty response; otherwise the response is kept |
| Tracking.AnswerMentioningSuccessSolves | src/app/databaseHelpers.py:157-159 | a stored `status--answer` whose answer mentions "success" solves the question whatever the status |
| Tracking.SuccessNotifiedOnce | src/app/databaseHelpers.py:147-166 | over any run of updates the success statement is sent at most once, never for a question already solved, and only as the last notice |
| Tracking.UnsolvedZero | src/app/databaseHelpers.py:179-188 | the count of unsolved tasks is zero exactly when every listed question is solved |
| Tracking.CountUnsolved | src/app/databaseHelpers.py:179-187 | the counting loop computes the unsolved count, or the exit for a task without a row |
| Tracking.ScanMonotone | src/app/databaseHelpers.py:172-194 | the phase scan keeps every phase row's label, tasks and id, and never unsolves a phase |
| Tracking.CurrentPhase | src/app/databaseHelpers.py:197-221 | an empty table raises; a phase returned other than "completed" is one of the phase order |
| Tracking.WalkPhasesIn | src/app/databaseHelpers.py:211-218 | the walk returns either "completed" or a phase of the order |
| Tracking.ScanAgreesWithCurrentPhase | src/app/databaseHelpers.py:172-194 | where `update_db('p')` stops at a phase, `get_current_phase` on the rows it leaves names that same phase; when it solves every phase, it answers "completed" |
| Tracking.ScanPhases | src/app/databaseHelpers.py:172-194 | definition: walks the phase order, stopping at the first phase with unsolved questions and marking solved the ones before it; its properties are in `ScanMonotone` and `ScanAgreesWithCurrentPhase` |
| Tracking.QuestionEventsExact | src/app/databaseHelpers.py:84-100 | `record_solves` writes exactly one "Question Solved" event per solved question, with its label and time |
| Tracking.CountSolvedSnoc | src/app/databaseHelpers.py:88-90 | one more row adds one to the solved count exactly when it is solved |
| Tracking.CountSolvedAll | src/app/databaseHelpers.py:233-236 | the solved count is at most the row count, and equals it exactly when every question is solved |
| Tracking.NewQuestionRows | src/app/databaseHelpers.py:67-68 | one seeded question row per label, in order, with ids counting from the first id, unsolved, empty response, time "---" |
| Tracking.NewPhaseRows | src/app/databaseHelpers.py:48-49 | one seeded phase row per phase, in order, with ids counting from the first id, unsolved, time "---" |
| Tracking.PhaseTasksRoundTrip | src/app/databaseHelpers.py:49 | the stored `','.join(tasks)` splits back at ',' into the configured tasks, when none contains ',' |
| Tracking.PhaseRowTasks | src/app/databaseHelpers.py:49 | a seeded phase row stores its tasks joined by ',' |
| Tracking.FirstClash | src/app/databaseHelpers.py:48-54 | the first new id already taken by a stored row, which makes the insert fail; none when every new id is free |
| Tracking.NoClash | src/app/databaseHelpers.py:48-54 | with every new id free, no insert fails |
| Tracking.FirstClashAt | src/app/databaseHelpers.py:48-54 | the first taken id is the one the insert loop fails on |
| Tracking.Registry.constructor | src/app/models.py:16-46 | an empty database: no rows, no events, no cmi5 calls |
| Tracking.Registry.UpdateQuestion | src/app/databaseHelpers.py:136-170 | a label without a row exits and changes nothing; otherwise only that row changes, to the response and solved flag the update gives, and one cmi5 statement is logged when the question was unsolved and cmi5 is enabled |
| Tracking.Registry.UpdatePhases | src/app/databaseHelpers.py:172-194 | the phase rows become those of the scan; the scan exits on a missing row; `current_phase` is set only where the scan stops at an unsolved phase |
| Tracking.Registry.GetCurrentPhase | src/app/databaseHelpers.py:197-221 | the result is `CurrentPhase`; `current_phase` is set only to a phase returned other than "completed" |
| Tracking.Registry.RecordSolves | src/app/databaseHelpers.py:77-101 | one event per solved question, then one per solved phase, appended on every call |
| Tracking.Registry.CheckQuestions | src/app/databaseHelpers.py:224-241 | a "Challenge Completed" event is appended exactly when every question is solved |
| Tracking.Registry.SeedQuestions | src/app/databaseHelpers.py:57-74 | a table whose row count matches the parts is kept as it is; otherwise the new rows are inserted, failing at the first id already taken |
| Tracking.Registry.SeedPhases | src/app/databaseHelpers.py:38-54 | a table whose row count matches the phases is kept; otherwise the new rows are inserted, failing at the first id already taken |
| Tracking.SeedRows | src/app/databaseHelpers.py:48-51 | the insert loop adds the new rows up to the first id clash, and fails there |
| Tracking.RowAt | src/app/databaseHelpers.py:68 | the i-th seeded question row has id first+i, the part's text and mode, an empty response, unsolved, time "---" |
| Tracking.PhaseRowAt | src/app/databaseHelpers.py:49 | the i-th seeded phase row has id first+i, the comma-joined tasks, unsolved, time "---" |
| Tracking.SeedingFillsTable | src/app/databaseHelpers.py:57-70 | seeding an empty table inserts one row per part and never clashes, leaving the row count that makes a later seeding skip |
| Tracking.InitializePhases | src/app/databaseHelpers.py:23-54 | phases on with no phase info exits; phases off changes nothing; otherwise phases are enabled, the order is the casefold sort with `mini_challenge` handling, and rows are seeded |
| Tracking.InitializeQuestions | src/app/databaseHelpers.py:56-74 | an empty table is seeded with one row per part in casefold order; a table with one row per part is kept |
| Tracking.InitializeDb | src/app/databaseHelpers.py:20-74 | phases on with no phase info exits before any question is seeded; a successful start on an empty table seeds the questions in casefold order |
| Tracking.PhaseOrderNonEmpty | src/app/databaseHelpers.py:29-32 | a non-empty phase list gives a non-empty order, so `phase_order[0]` exists |
| Tracking.SortedLength | src/app/databaseHelpers.py:29 | sorting by casefold keeps the number of labels |
| Cron.SetCronVars | src/app/cron.py:19-69 | 'cron' is appended to the grading modes on every call; the call succeeds exactly when the settings resolve, and then stores the script, interval, limit, delay, start time and cron type they give |
| Cron.CronVarsOf | src/app/cron.py:19-69 | definition: the settings `set_cron_vars` stores, or none when it exits; `CronDefaults`, `ZeroSettings` and `CronDelayAdds` state its cases |
| Cron.SetCronStart | src/app/cron.py:56-69 | the `cron_at` step succeeds exactly when the start time resolves, and stores the start time, the cron type and the delay with the offset added |
| Cron.SetCronAt | src/app/cron.py:56-63 | a start time makes the type "at" and succeeds exactly when the hour and minute parse and are in range, adding the seconds until that time to the delay |
| Cron.CronDefaults | src/app/cron.py:43-67 | with nothing set: interval 60, no limit (-1), no delay, no start time, cron type "every" |
| Cron.ZeroSettings | src/app/cron.py:43-49 | a configured 0 is falsy and falls through to the default, while an environment value "0" is honoured |
| Cron.AtOffsetOf | src/app/cron.py:58-64 | "H:M" splits at its ':' and both sides must be integers; the offset is then the clock difference to H:M today |
| Cron.AtDelay | src/app/cron.py:58-64 | a start time H:M written by `str` adds H·3600 + M·60 − now seconds, negative once that time has passed |
| Cron.CronDelayAdds | src/app/cron.py:52-69 | without a start time the delay is the configured one and the type "every"; with one the type is "at" and the offset is added to the delay |
| Cron.CronOutput | src/app/cron.py:82-91 | `fatal_error` is set exactly for a non-zero exit, whose output is then ""; a good run's output is its stdout, even when empty |
| Cron.CronResultsGet | src/app/cron.py:93-106 | parsed results are kept; only a cron-mode part without a result gets "Failed"; nothing else is added |
| Cron.CronTokensExact | src/app/cron.py:110-119 | one token per result, in order: the token read when the status mentions "success" in any case, the refusal text otherwise; no question row is consulted |
| Cron.CronTokensAt | src/app/cron.py:112-119 | the i-th token is the one the i-th result earns |
| Cron.CronTokensFailed | src/app/cron.py:116-117 | a read failed exactly when one of the results mentioning "success" had its read fail |
| Cron.CronTokenLoop | src/app/cron.py:110-119 | the token loop computes the cron tokens, and sets `fatal_error` on a failed read only when posting to the gameboard |
| Cron.DoCronGrade | src/app/cron.py:72-123 | the returned results, tokens and `fatal_error` are the cron grade of the run: parsed output, cron parts defaulted, non-part labels dropped from the results, one token per parsed or defaulted label |
| Cron.CronGrade | src/app/cron.py:72-123 | definition: the cron grade of a run, its results restricted to the parts, its tokens and its fatal flag; `DoCronGrade` is proved against it |
| Cron.RunCronThread | src/app/cron.py:126-150 | the limit drops by one per pass; a limit n with 0 ≤ n ≤ the passes supplied gives exactly n passes and ends at 0, a negative one runs for every pass supplied; after a pass the submit time, results and tokens are the last pass's clock reading and the cron grade of its run, and `fatal_error` is the submission's outcome of that pass when posting and the grade's own flag otherwise; with no pass `fatal_error` is unchanged; `grading_verb` never changes |
| Cron.CronRound | src/app/cron.py:138-148 | one pass: the limit drops by one, the clock is stamped, the results and tokens stored are the cron grade of the run, and the solves are recorded; `fatal_error` is the submission's outcome when posting and the grade's own flag otherwise; `grading_verb` is unchanged |
| Cron.PassOfGrade | src/app/cron.py:138-148 | what one pass leaves: the results and tokens of the cron grade, and the submission's fatal flag and verb when posting, or the grade's flag and the unchanged verb otherwise |
| Cron.StoreCronRun | src/app/cron.py:142-148 | the results and tokens are stored and one event per solved question and phase is appended; without grader posting `fatal_error` and the verb are unchanged, with it they are those the submission loop leaves |
| Cron.PostIfEnabled | src/app/cron.py:144-145 | without grader posting nothing changes; with it, the verb and `fatal_error` are those of the submission loop |
| AppGlobals.ManualModesAreValid | src/app/globals.py:11-13 | MANUAL_MODE lies within VALID_CONFIG_MODES, which adds only 'cron'; neither has 'upload' or 'mc'; the default token location 'env' is not a valid location |
| AppGlobals.VariantIndex | src/app/globals.py:75-77 | "-1" for an empty variant, one containing "##" or one longer than two characters; otherwise `str(int(v) + 1)`, which raises exactly when the variant is not an integer |
| AppGlobals.VariantIndexRange | src/app/globals.py:76 | the stored variant index is an integer between -8 and 100 |
| AppGlobals.ParseIntBounds | src/app/globals.py:76 | an integer of at most two characters lies between -9 and 99 |
| AppGlobals.ChallengeCode | src/app/globals.py:78-79 | the stored code is never empty and never contains "##"; a code that is neither is kept |
| AppGlobals.ChallengeId | src/app/globals.py:24 | the challenge id has every '-' removed and is no longer than the stripped tag |
| AppGlobals.SupportCode | src/app/globals.py:74 | the support code is the first eight characters of the id, or all of it when shorter |
| AppGlobals.SupportCodeHasNoDash | src/app/globals.py:24-74 | the support code contains no '-' |
| AppGlobals.DefaultCodeIsWorkspace | src/app/globals.py:79-82 | an empty code or one containing "##" puts the server in the workspace |
| AppGlobals.Globals.constructor | src/app/globals.py:9-88 | the identity fields are normalised as above, `in_workspace` holds exactly when the code contains "workspace", and every runtime field has its initial value |
| AppGlobals.NewGlobals | src/app/globals.py:9-88 | construction fails exactly when the variant cannot be converted; otherwise the variant index and code are normalised, the verb is "POST", there is no task, `fatal_error` is off and the submit time is the initial one |
| Config.AppPort | src/app/functions.py:63-75 | an accepted port lies in 1..65535; with neither the environment nor the configuration setting it, the port is 8888 |
| Config.AppPortOf | src/app/functions.py:63-75 | a port written as an integer, in the environment or (when non-zero) in the configuration, is accepted exactly when it lies in 1..65535 |
| Config.AppPortFromEnv | src/app/functions.py:63-69 | an environment port is accepted exactly when it lies in 1..65535 |
| Config.Multiplier | src/app/functions.py:122-130 | G gives 2^30, M 2^20, K 2^10, any other last character 1 |
| Config.UploadLimit | src/app/functions.py:119-136 | an empty size setting is rejected |
| Config.UploadLimitUnits | src/app/functions.py:122-136 | digits followed by one last character give the digits' value times that character's multiplier |
| Config.UploadLimitDefault | src/app/functions.py:121 | without a size the limit is '1M', 1048576 bytes |
| Config.UploadLimitDropsLastDigit | src/app/functions.py:132 | the last character is dropped even when it is a digit: "500" gives 50 |
| Config.RateLimit | src/app/functions.py:213-218 | with neither setting the rate limit is 0 |
| Config.RateLimitKeepsZero | src/app/functions.py:213-218 | an explicit 0 in the configuration or the environment is kept, because the checks test for `None` |
| Config.TokenLocation | src/app/functions.py:221-225 | an accepted location is one of the valid locations, and is the setting given |
| Config.UnsetTokenLocationRejected | src/app/functions.py:222-225 | with no location set, the default 'env' is rejected |
| Config.SubmissionOf | src/app/functions.py:228-247 | an accepted method is valid; 'grader_post' needs `grader_url` and `grader_key`; without a `submission` section only the environment can supply all three |
| Config.SubmissionDefaultsToDisplay | src/app/functions.py:229 | with nothing set the method is 'display' |
| Config.GraderPostNeedsUrl | src/app/functions.py:236-239 | 'grader_post' without a URL anywhere exits |
| Config.GradingTailOf | src/app/functions.py:212-247 | the rate limit, token location and submission settings are accepted exactly when each of them is |
| Config.GradingConfigOf | src/app/functions.py:105-247 | an accepted grading section has parts and manual or cron grading enabled, a valid token location and method, and the rate limit read |
| Config.ReadGradingConfig | src/app/functions.py:105-247 | the reading succeeds exactly when the grading section is accepted, and stores the parts, grader posting, upload limit and the settings read |
| Config.ReadUploadLimit | src/app/functions.py:118-136 | with upload files configured, the size must convert and sets the content limit; otherwise nothing changes |
| Config.ReadManualScript | src/app/functions.py:192-199 | manual grading on needs a script, stored with 'manual' appended to the modes; off changes nothing |
| Config.ReadGradingTail | src/app/functions.py:212-247 | succeeds exactly when the rate limit, location and submission settings are accepted, and stores them |
| Config.NormaliseService | src/app/functions.py:252-286 | a service is accepted exactly when it has a host, a valid type (ping when missing), a port for socket, and a boolean `block_startup_scripts` (False when missing); a web service gets port 80 and path '/' when missing |
| Config.NormaliseServicesEach | src/app/functions.py:252-286 | the list is accepted exactly when every service is, and each is normalised in place |
| Config.BlockingAppend | src/app/functions.py:285-286 | the blocking list of two runs of services is the two blocking lists one after the other |
| Config.BlockingMembers | src/app/functions.py:285-286 | a service is blocking exactly when it is required and flagged |
| Config.ServiceStep | src/app/functions.py:252-286 | one pass normalises one more service and appends it to the blocking list when flagged |
| Config.ServiceFails | src/app/functions.py:252-283 | one rejected service rejects the whole list |
| Config.ConfigureRequiredServices | src/app/functions.py:249-286 | succeeds exactly when every service is accepted; the required services are then the normalised list, and the blocking ones are those flagged, in order |
| Config.NormaliseLogEntry | src/app/functions.py:298-303 | an entry is accepted exactly when it has host, password and service; a missing or null user becomes 'user' |
| Config.NormaliseLogEntriesEach | src/app/functions.py:298-303 | the list is accepted exactly when every entry is, each normalised in place |
| Config.ConfigureLogServices | src/app/functions.py:292-304 | an empty or missing list is stored as it is; otherwise it is accepted exactly when every entry is, and the normalised list is stored |
| Ordering.Insert | src/app/databaseHelpers.py:29 | inserting a label into a casefold-sorted list keeps it sorted and adds exactly that label |
| Ordering.SortByFold | src/app/databaseHelpers.py:29 | `sorted(labels, key=str.casefold)` is sorted by casefold and a permutation of the labels |
| Ordering.PhaseOrderPermutes | src/app/databaseHelpers.py:29-32 | the phase order is a permutation of the phase labels |
| Ordering.PhaseOrderWithoutMini | src/app/databaseHelpers.py:29-30 | without 'mini_challenge' the phase order is the casefold sort |
| Ordering.PhaseOrderWithMini | src/app/databaseHelpers.py:30-32 | with 'mini_challenge' present, the first sorted label, the least one, moves to the end, whatever it is, and the rest stay sorted |
| Ordering.SortedFirstIsLeast | src/app/databaseHelpers.py:31 | the label `pop(0)` takes is the least by casefold |
| Ordering.MiniChallengeExample | src/app/databaseHelpers.py:29-32 | phases 'mini_challenge' and 'phase1' are ordered 'phase1', 'mini_challenge' |
| Coordinator.GradeStep | src/app/main/main.py:38-97 | a task starts exactly when grading is enabled, the lab is not completed, the server is ready, no task exists and the rate limit has passed; it stamps the submit time, makes the call the request's method gives, and shows the grading page; otherwise the submit time is kept, the only other change is clearing a finished task on its way to the results, and disabled grading changes nothing |
| Coordinator.Grade | src/app/main/main.py:38-97 | the view's page, task start, task and submit time are those of `GradeStep`; `check_questions` logs completion whenever grading is enabled |
| Coordinator.RunTask | src/app/main/main.py:71-79 | a GET task calls `do_grade()` without its required argument, so it fails and nothing is stored or changed; a POST task does exactly what `GradeForm` states, phase rows, `current_phase` and `fatal_error` included |
| Coordinator.GradeForm | src/app/grading.py:23-237 | the task `do_grade(form)` and `done_grading`: the question, answer and phase rows, `current_phase` and the outcome are those of `DoGradeOf`; the events are those `do_grade` logged, followed by the solves when graded; a graded run's results and tokens are published and an aborted one leaves the old ones; the verb is unchanged; `fatal_error` is the submission's outcome after a posted run and that of `DoGradeOf` otherwise |
| Coordinator.StartsAreSpaced | src/app/main/main.py:58-69 | over any sequence of visits the task starts are spaced at least the rate limit apart, the first at least the rate limit after the initial submit time, and the submit time is the last start |
| Coordinator.GroupsPrefix | src/app/main/main.py:26-34 | one pass of the `tasks` loop adds one part to its mode's group |
| Coordinator.GroupsModes | src/app/main/main.py:27-29 | there is a group for a mode exactly when some part has that mode, whether phases hide its parts or not |
| Coordinator.GroupsLookup | src/app/main/main.py:30-34 | a part appears in a mode's group exactly when it has that mode and, with phases on, is listed in the current phase |
| Coordinator.Place | src/app/main/main.py:27-34 | placing one part adds it to its mode's group, creating the group when needed |
| Coordinator.PlaceAt | src/app/main/main.py:26-34 | one pass of the loop turns the groups of the first i parts into those of the first i+1 |
| Coordinator.Tasks | src/app/main/main.py:21-35 | the view's grouping is `TasksOf` for the configured parts, phases and current phase |
| Coordinator.GroupTasks | src/app/main/main.py:25-35 | with grading enabled the grouping loop computes `TasksOf` |
| Coordinator.GroupParts | src/app/main/main.py:26-34 | the grouping loop computes the groups of all parts |
| Coordinator.Display | src/app/main/main.py:124-133 | the shown status starts "Success" exactly for a solved question; "Success" alone for an empty or "N/A" response; "Failure" for "N/A"; status " -- " response for any other non-empty response; "Failure -- Has not been graded yet." for an unsolved empty response |
| Coordinator.DisplayResponse | src/app/main/main.py:124-133 | a shown response is the text after the eleven-character status prefix |
| Coordinator.ShowRow | src/app/main/main.py:121-134 | a question that is neither cron nor manual leaves the view unchanged |
| Coordinator.ShowPhasesStopsAtCurrent | src/app/main/main.py:136-143 | the walk ends after the current phase: the phases after it change nothing |
| Coordinator.ShowLabelsFailStays | src/app/main/main.py:139-143 | once a label lookup fails, the walk's view stays as it was |
| Coordinator.ShowLabelsStep | src/app/main/main.py:118-134 | one label: a missing row stops the walk, a row shows the question |
| Coordinator.ShowRowManual | src/app/main/main.py:128-134 | a manual question shows its display status under its label, and nothing else changes in the manual results |
| Coordinator.ShowLabelsShowsManual | src/app/main/main.py:118-134 | after a phase walked to its end, every label has a row and every manual question shows its display status |
| Coordinator.ShowLabelsLast | src/app/main/main.py:118-134 | a walk that reached its end did so by showing its last label's row |
| Coordinator.ShowQuestion | src/app/main/main.py:121-134 | showing one row updates the tokens, results and `fatal_error` as `ShowRow` says |
| Coordinator.ShowPhase | src/app/main/main.py:118-134 | the label loop of one phase computes `ShowLabels` |
| Coordinator.WalkPhases | src/app/main/main.py:116-143 | the phase loop computes `ShowPhases` |
| Coordinator.RefreshSubmitTimes | src/app/main/main.py:144-147 | a submit time still on 01/01/1900 becomes now; any other is kept |
| Coordinator.PhasedSnapshot | src/app/main/main.py:114-158 | with phases on, the tokens and `fatal_error` are those of the phase walk, the reply carries the walked results, and the submit times are refreshed |
| Coordinator.UpdatedResults | src/app/main/main.py:105-171 | any referrer but the results page gets the notice and changes nothing; without phases the stored state is returned unchanged; with phases the walk's results, tokens and refreshed submit times |
| Prober.OctetsPrefix | src/app/portServiceChecker.py:108-111 | an octet followed by '.' and the remaining octets matches the address pattern, whatever follows |
| Prober.IsValidIPv4 | src/app/portServiceChecker.py:108-111 | definition: the IPv4 pattern matched at the start of the host only; `DottedQuadAccepted` and `OctetsPrefix` state its properties |
| Prober.DottedQuadAccepted | src/app/portServiceChecker.py:108-111 | four dot-separated octets followed by anything at all are accepted: the match has no end anchor |
| Prober.AcceptedStartsWithDigit | src/app/portServiceChecker.py:108-111 | an accepted host starts with a digit |
| Prober.Examples | src/app/portServiceChecker.py:108-111 | "1.2.3.4x" is accepted and "256.1.1.1" is rejected |
| Prober.IsIPv4 | src/app/portServiceChecker.py:55-94 | a host is taken for IPv6 exactly when it fails the IPv4 pattern and either matches the IPv6 pattern or its resolution fails with errno -5; every other failure counts as IPv4 |
| Prober.SocketFamily | src/app/portServiceChecker.py:191 | the socket family is AF_INET exactly when `isIPv4(host)` holds |
| Prober.CheckSocket | src/app/portServiceChecker.py:189-205 | the check succeeds exactly when the port converts to an integer and the connection succeeded |
| Prober.WebUrlBrackets | src/app/portServiceChecker.py:222-233 | the URL starts "http://" and brackets the host exactly when it is neither an FQDN nor taken for IPv4 |
| Prober.WebUrl | src/app/portServiceChecker.py:222-233 | definition: the URL `checkWeb` requests; `WebUrlBrackets` states when the host is bracketed |
| Prober.CheckWeb | src/app/portServiceChecker.py:236-249 | the check succeeds exactly for a 200 reply; any other status or exception fails |
| Prober.CheckService | src/app/portServiceChecker.py:252-280 | ping, socket and web services are checked by their own probe; an unknown type is unreachable |
| Prober.WaitForService | src/app/portServiceChecker.py:283-310 | the loop returns True at the first success; with a positive maximum it fails after exactly that many failed checks; otherwise it keeps checking; it sleeps only between attempts |
| Prober.CheckServiceLoop | src/app/portServiceChecker.py:313-336 | a positive maximum gives exactly that many checks and returns True; zero or a negative one never returns; it sleeps only between checks |
| Cmi5.StatementUrl | src/app/cmi5.py:31 | the URL is the endpoint, the statements path and the statement id, in that order |
| Cmi5.EndpointNeverEmpty | src/app/cmi5.py:31-34 | the formatted URL is never empty, so the "no endpoint" branch cannot be taken |
| Cmi5.SendStatement | src/app/cmi5.py:15-53 | the statement is sent with its id replaced by the statement id, to the statement URL; delivery succeeds exactly on a 204 reply |
| Cmi5.Choices | src/app/cmi5.py:87-95 | one choice per option, in the dictionary's order, keyed by the option key and described by its value |
| Cmi5.QuestionDefinition | src/app/cmi5.py:79-103 | the interaction type is "choice" exactly for mode "mc" with dictionary options, "fill-in" exactly for "text", "performance" otherwise; choices are present only for "choice" |
| Cmi5.SendAnswered | src/app/cmi5.py:55-127 | when cmi5 is disabled nothing is sent and the answer is True; otherwise one statement is sent and the answer is whether it was delivered |
| Cmi5.SentStatement | src/app/cmi5.py:105-123 | the statement sent carries the "answered" verb, the activity id, the question's definition, the success flag and answer, the configured context and the new statement id |
| Cmi5.AnsweredStatement | src/app/cmi5.py:105-123 | definition: the "answered" statement for one graded question; `SentStatement` states what is sent |
| Cmi5.Ids | src/app/cmi5.py:152 | defined only where every existing activity is an object with a hashable id; the set holds exactly their "id" values |
| Cmi5.MergeCategories | src/app/cmi5.py:151-159 | on activities whose ids are hashable, the existing activities are kept in order and each category whose id was not already present is appended |
| Cmi5.AppendedCovers | src/app/cmi5.py:154-159 | every category ends up either among the existing ids or appended |
| Cmi5.AppendedCount | src/app/cmi5.py:152-159 | a category already present is appended zero times; any other is appended once per occurrence in the list, because the id set is not updated in the loop |
| Cmi5.AppendedObjects | src/app/cmi5.py:156-159 | every appended entry is an object with a hashable id |
| Cmi5.MergedCovers | src/app/cmi5.py:151-161 | after merging, the ids stay hashable, the existing prefix is unchanged and every category's id is present |
| Cmi5.GetDefinedContext | src/app/cmi5.py:130-162 | the result is the defined context of the configured context and categories, none exactly where Python raises |
| Cmi5.DefinedContext | src/app/cmi5.py:130-162 | definition: the context with the requested categories merged in, or none where Python raises: "contextActivities" is not an object, or an existing category is not an object or has a list or object id (`TypeError` in the set); `GetDefinedContext` is proved against it and `DefinedContextMerges` and `UnhashableIdRaises` state its properties |
| Cmi5.DefinedContextMerges | src/app/cmi5.py:143-162 | every other context key is unchanged; an existing category list is kept first and in order and every requested id ends up in it; an empty string or object as the category is kept only when nothing is requested |
| Cmi5.UnhashableIdRaises | src/app/cmi5.py:152 | an existing category activity whose id is a list gives no context, whatever is requested, as the set of ids raises `TypeError` |
| Uploads.LikeAny | src/app/fileUploads.py:52-55 | the LIKE wildcard '%' matches every file name |
| Uploads.Like | src/app/fileUploads.py:52-55 | definition: SQL LIKE with '%' and '_' wildcards and no escape; `LikeAny`, `LikeKeyName` and `WildcardMatches` state its properties |
| Uploads.LikeKeyName | src/app/fileUploads.py:52-55 | a name made of the key, '_' and anything matches the key's LIKE pattern |
| Uploads.WildcardMatches | src/app/fileUploads.py:52-55 | the pattern `key_%` also matches other keys' files ("k1_5.zip"), other letter cases ("K_1.zip") and "k.zip", because '_' is a single-character wildcard and LIKE ignores ASCII case; it does not match the bare key |
| Uploads.Latest | src/app/fileUploads.py:39-59 | nothing is found exactly when no row matches the key's pattern; a row found matches and has the largest submission number of the matching rows |
| Uploads.LatestSubmissionNumber | src/app/fileUploads.py:39-59 | definition: the number of the latest matching upload, 0 when none; `SaveAdvancesNumber` states how a save moves it |
| Uploads.ConstructFileSavePath | src/app/fileUploads.py:17-36 | definition: the next archive path, always a .zip; `SavePathIgnoresFormat` states the consequence |
| Uploads.MostRecentFile | src/app/fileUploads.py:62-83 | None exactly when no row matches; otherwise the name or path of a matching row with the latest submission number |
| Uploads.PathJoin | src/app/fileUploads.py:134 | an absolute name replaces the directory, and the joined path always ends with the name |
| Uploads.UploadTable.constructor | src/app/models.py:46-62 | a new upload table has no rows |
| Uploads.UploadTable.SaveUploadedFile | src/app/fileUploads.py:113-162 | exactly one row is appended, numbered one past the key's latest submission, named key, number and configured extension, listing the non-empty safe names; the path returned is that row's path |
| Uploads.UploadTable.MostRecentUploads | src/app/fileUploads.py:86-110 | the result maps exactly the requested keys, each to the time of its latest upload or None |
| Uploads.NonEmpty | src/app/fileUploads.py:141-145 | the archive lists exactly the non-empty safe names and no more names than were uploaded |
| Uploads.SaveAdvancesNumber | src/app/fileUploads.py:126-160 | after a save the key's latest submission number is the number just used |
| Uploads.SavePathIgnoresFormat | src/app/fileUploads.py:17-36 | `construct_file_save_path` always names a ".zip" file, so with any other configured format it differs from the path a save actually writes |
| LegacyGrading.LegacySource | src/gradingFunctions.py:89-114 | the older reader knows only "guestinfo" and files: any other location reads from a file |
| LegacyGrading.LegacyReadToken | src/gradingFunctions.py:71-114 | a part missing from the configuration, or without a token name, gives the error text and a failed read; from guestinfo a "no value" answer fails and otherwise the stripped value is returned; from a file its first line is returned or the read fails |
| LegacyGrading.PartModes | src/gradingFunctions.py:48 | the modes listed are the configured parts' modes, in order |
| LegacyGrading.PartModesCover | src/gradingFunctions.py:48 | the mode of every configured part appears among the listed modes |
| LegacyGrading.LegacyEveryPartGraded | src/gradingFunctions.py:40-60 | every configured part has a result, "Failed" when the script printed none for it, and keys that are not parts are dropped |
| LegacyGrading.LegacyTokensExact | src/gradingFunctions.py:55-64 | one token per parsed result, including results that are not parts: the part's token when the value contains "success" in any case, the no-token text otherwise |
| LegacyGrading.LegacyFatal | src/gradingFunctions.py:24-114 | the fatal flag is set exactly when the script exited non-zero, or when results are posted to the gameboard and some earned token could not be read |
| LegacyGrading.LegacyTokenLoop | src/gradingFunctions.py:55-64 | the tokens are those of the token pass, and the fatal flag is raised when, posting to the gameboard, some token read failed; it is never cleared |
| LegacyGrading.LegacyDoGrade | src/gradingFunctions.py:17-68 | the results, tokens and fatal flag are exactly the legacy grade of the configured parts for the script run |
| LegacyGrading.LegacyGradeOf | src/gradingFunctions.py:17-68 | definition: one legacy grade, the results restricted to the parts, a token per label, and the fatal flag; `LegacyDoGrade` is proved against it |
| LegacyGrading.LegacyTryOnce | src/gradingFunctions.py:160-186 | definition: one pass of the legacy loop, which only ever sends a POST; `LegacySubmitStep` uses it |
| LegacyGrading.LegacySubmit | src/gradingFunctions.py:158-190 | definition: at most `left` legacy attempts, stopping at the first 200; `LegacySubmitShape` and `LegacySubmitDelivery` state its properties |
| LegacyGrading.LegacyRoundOfGrade | src/gradingFunctions.py:17-68 | a round is that of a run exactly when its results, tokens and fatal flag are the run's legacy grade |
| LegacyGrading.LegacySubmitStep | src/gradingFunctions.py:158-186 | one attempt either delivers and ends the loop or leaves one fewer attempt with the verbs it sent prepended |
| LegacyGrading.PostStep | src/gradingFunctions.py:162-173 | from POST, a 200 reply ends the loop after one POST; any other reply leaves the rest of the loop |
| LegacyGrading.LegacySubmitShape | src/gradingFunctions.py:158-190 | from POST only POSTs are sent and the verb stays POST; a success sends at least one request and a failure uses all the attempts |
| LegacyGrading.LegacySubmitDelivery | src/gradingFunctions.py:158-190 | the submission is delivered exactly when one of the first attempts' replies is 200, and then it stops right after the first 200 |
| LegacyGrading.LegacySubmitCount | src/gradingFunctions.py:158-190 | the two lemmas above together: only POSTs, delivered iff a 200 arrives within the attempts, stopping at the first 200 |
| LegacyGrading.LegacyMatchesAsWritten | src/gradingFunctions.py:158-190 | the older submission loop sends the same requests with the same outcome as the current one as written |
| LegacyGrading.LegacyAttemptOnce | src/gradingFunctions.py:160-185 | one pass of the loop body is one legacy attempt from the current verb |
| LegacyGrading.LegacySubmitAttempt | src/gradingFunctions.py:158-186 | one pass followed by the remaining attempts is the whole bounded submission |
| LegacyGrading.LegacySubmitLoop | src/gradingFunctions.py:158-190 | the loop's outcome is the bounded submission: the fatal flag is clear exactly when it was delivered |
| LegacyGrading.LegacyPostSubmission | src/gradingFunctions.py:134-190 | the payload lists the challenge id and every token value in order, and four attempts are made as above |
| LegacyGrading.LegacyDoneGrading | src/gradingFunctions.py:117-131 | results and tokens are stored; with grader posting they are submitted, otherwise nothing is sent and the flags are unchanged |
| LegacyCron.LegacyCronSetting | src/cronGrading.py:26-49 | a value found by the test lookup is parsed as an integer; otherwise a missing configuration key fails, a falsy configured value gives the default and a non-zero number is kept |
| LegacyCron.LegacyCronAt | src/cronGrading.py:52-57 | the lookup's raw output wins when it found a value; otherwise a null configured value means no start time |
| LegacyCron.LegacyCronStart | src/cronGrading.py:59-71 | the start time is kept as given; without one the delay is unchanged |
| LegacyCron.SetLegacyCronVars | src/cronGrading.py:17-71 | the call succeeds exactly when the settings can be computed, and then the interval, limit, delay and start time hold them |
| LegacyCron.LegacyCronVarsOf | src/cronGrading.py:17-71 | definition: the settings the legacy `set_cron_vars` stores, or none when it raises; `LegacyCronDefaults`, `LegacyCronKeysRequired` and `LegacyCronAtDelay` state its cases |
| LegacyCron.SetLegacyCronAt | src/cronGrading.py:52-71 | the start time and the delay with the offset added are stored exactly when the start time can be read |
| LegacyCron.LegacyCronDefaults | src/cronGrading.py:26-57 | with no test values and falsy configured values the cron runs every 60 seconds, without limit, at once |
| LegacyCron.LegacyCronKeysRequired | src/cronGrading.py:37 | a missing configuration key makes the whole setting fail |
| LegacyCron.LegacyCronAtDelay | src/cronGrading.py:59-71 | a start time "H:M" adds the seconds from now until that time today to the delay, negative once it has passed |
| LegacyCron.RunLegacyCronThread | src/cronGrading.py:74-93 | a limit n between 0 and the ticks supplied gives exactly n passes ending at 0; a negative one runs for every tick; each pass stamps the clock and stores the legacy round of the last run, whose `fatal_error` flag is left set; with no pass `fatal_error` is unchanged; nothing is posted |
| LegacyCron.LegacyCronRound | src/cronGrading.py:84-91 | one pass lowers the limit by one, stamps the clock and stores the legacy results and tokens of the run, leaving its `fatal_error` flag |
| LegacyConfig.LegacyGlobals.constructor | src/globals.py:21-111 | the challenge id, support code, variant, challenge code and workspace flag are derived from the lookups, and nothing is configured yet |
| LegacyConfig.NewLegacyGlobals | src/globals.py:21-111 | start-up fails exactly when the stripped variant cannot be read as an integer; otherwise the variant index, challenge code and "POST" verb are set and no grading task is running |
| LegacyConfig.LegacyRate | src/globals.py:234-237 | a missing rate limit is 0 seconds and a number is kept; a string or null raises |
| LegacyConfig.LegacyGraderUrl | src/globals.py:264-273 | the setting fails exactly when neither the lookup nor the configuration has one; a looked-up URL is stripped and has every "http:" replaced by "https:"; otherwise the configured value is kept |
| LegacyConfig.ReplaceFront | src/globals.py:272 | the replacement keeps a non-empty URL's first character |
| LegacyConfig.UpgradeKeepsPrefix | src/globals.py:272 | a prefix without 'h' of the upgraded URL is a prefix of the original |
| LegacyConfig.UpgradeRemovesHttp | src/globals.py:272 | no "http:" is left anywhere in the upgraded URL |
| LegacyConfig.GuestinfoUrlIsUpgraded | src/globals.py:267-273 | a `grader_url` taken from guestinfo is a string containing no "http:" |
| LegacyConfig.LegacyGraderKey | src/globals.py:275-283 | (corrected) the key fails exactly when neither the key lookup nor the configuration has one; a looked-up key is stripped; otherwise the configured value is kept |
| LegacyConfig.GraderKeyAsWrittenReadsUrlLookup | src/globals.py:277-283 | as written, the key's origin is decided by the URL lookup: a found URL with no key lookup gives an empty key instead of the configured one, and a missing URL lookup with a found key raises |
| LegacyConfig.LegacyGraderKeyAsWritten | src/globals.py:275-283 | definition: the key as written, whose origin is chosen by the URL lookup; `GraderKeyAsWrittenReadsUrlLookup` exhibits the difference from the corrected key |
| LegacyConfig.LegacyGradingOf | src/globals.py:204-283 | an accepted grading block has a recognised mode, an executable script, its rate limit and parts, a valid token location and submission method, and grader settings exactly when posting to the gameboard |
| LegacyConfig.LegacyGradingDefaults | src/globals.py:234-261 | an enabled block with only mode, script and parts gets no rate limit, guestinfo tokens and the display method |
| LegacyConfig.ConfigureLegacyServices | src/globals.py:124-166 | the services are accepted exactly when each one normalises; then the required list holds them with defaults filled and the blocking list those that block start-up scripts |
| LegacyConfig.ReadLegacyGrading | src/globals.py:204-283 | the grading settings are accepted exactly when the block is; then they hold it, and grader settings change only when posting to the gameboard |
| LegacyConfig.ReadLegacySwitches | src/globals.py:193-283 | the hosted-files and grading switches default to off; the grading block is read only when grading is enabled |
| LegacyConfig.ReadLegacyConfig | src/globals.py:113-283 | the configuration is accepted exactly when the services and, when enabled, the grading block are; then the services, switches and grading settings hold it |
| LegacyServer.Home | src/challengeServer.py:45-73 | the grading pages appear only when grading is enabled and the server ready; with grading off the page redirects to the files exactly when hosted files are on; the start-up page shows exactly when enabled but not ready; the text page shows for "text" and "text_single" |
| LegacyServer.TextSingleShowsFirstPart | src/challengeServer.py:67-70 | "text_single" shows only the first configured part, with its configuration |
| LegacyServer.CallOf | src/challengeServer.py:107-113 | a POST calls `do_grade` with the form's values in order; a GET calls it without arguments |
| LegacyServer.TruncSeconds | src/challengeServer.py:101 | a duration in microseconds is cut toward zero to whole seconds |
| LegacyServer.LegacyGradeStep | src/challengeServer.py:76-131 | a task starts exactly when grading is enabled, the server ready, no task exists and the rate limit has passed, and then the submit time becomes now; a rate-limited request shows the wait; a finished task is cleared and shows the results page or the auto-submit page by submission method; grading off shows the no-grading page and changes nothing |
| LegacyServer.TryAgainBounds | src/challengeServer.py:100-101 | the wait shown lies between 0 and the rate limit, and is the whole limit only on the very microsecond of the last submit |
| LegacyServer.TryAgainCanBeZero | src/challengeServer.py:100-101 | a rate-limited request can be told to wait 0 seconds, because the remaining time is truncated |
| LegacyServer.LegacyGrade | src/challengeServer.py:76-131 | the request's page, the new task and submit time, and the grading call are exactly those of one grade step |
| LegacyServer.SecondBound | src/challengeServer.py:95-105 | a whole second not after now is at most now cut to the second |
| LegacyServer.LegacyStartsAreSpaced | src/challengeServer.py:94-115 | over any sequence of requests the submit times of the tasks started are at least the rate limit apart, and the stored submit time is that of the last one |
| LegacyServer.FileListGet | src/challengeServer.py:134-140 | a name is listed, mapped to its joined path, exactly when some entry of that name is a regular file not starting with '.' |
| LegacyServer.FileListHidesDotFiles | src/challengeServer.py:138 | a directory or a dot-file is never listed |
| LegacyServer.GetFileList | src/challengeServer.py:134-140 | the listing loop yields the file list of the entries |
| ScriptRuns.RunOf | src/app/grading.py:76-86 | a script that printed its results exits 0; one that raised exits 1; one that raised or exited prints nothing on stdout |
| ScriptRuns.ReadBack | src/custom_scripts/manualGradingExample.py:94-95 | results printed as `key  :  value` lines by a grading script read back through the server's parse as exactly the same results, when labels and statuses are printable |
| ManualGradingScript.SshPrecheck | src/custom_scripts/manualGradingExample.py:20-26 | the SSH helper proceeds exactly when all four arguments are given and the commands are a list; otherwise it returns a single "error" entry, the missing-argument one first |
| ManualGradingScript.Phase1 | src/custom_scripts/manualGradingExample.py:55-62 | phase 1 succeeds exactly when the submission has "GradingCheck1"; then check 1 passes exactly when it is "test", and check 2 always passes |
| ManualGradingScript.LaterPhasesFail | src/custom_scripts/manualGradingExample.py:65-74 | phases 2 and 3 each report one failed check, whatever the submission |
| ManualGradingScript.MergeAll | src/custom_scripts/manualGradingExample.py:97-101 | the loop over the phases yields their merged results |
| ManualGradingScript.MergedStep | src/custom_scripts/manualGradingExample.py:100-101 | one more phase updates the merged results with its own, and a failure anywhere fails the whole |
| ManualGradingScript.NoneStaysNone | src/custom_scripts/manualGradingExample.py:100-101 | once a phase has raised, the whole run raises |
| ManualGradingScript.MergedPhases | src/custom_scripts/manualGradingExample.py:97-101 | the merged result is phase 1's results updated with phase 2's and then phase 3's |
| ManualGradingScript.MergedAll | src/custom_scripts/manualGradingExample.py:97-104 | a submission with "GradingCheck1" gives all four checks, with check 1 as phase 1 decided |
| ManualGradingScript.AllChecksRead | src/custom_scripts/manualGradingExample.py:55-74 | the four checks in order: check 1 as decided, check 2 passes, checks 3 and 4 fail |
| ManualGradingScript.ManualNoArgsRaises | src/custom_scripts/manualGradingExample.py:105-109 | with no arguments phase 1 reads a missing submission and the script raises |
| ManualGradingScript.ManualSinglePhase | src/custom_scripts/manualGradingExample.py:81-95 | a phase name as last argument runs only that phase, on the decoded first argument when there is one |
| ManualGradingScript.ManualAllPhases | src/custom_scripts/manualGradingExample.py:96-104 | without a phase name every phase runs on the decoded submission and all four checks are printed |
| ManualGradingScript.ManualOutputReadBack | src/custom_scripts/manualGradingExample.py:94-112 | whatever the script prints is read back by the server as exactly its results, with exit status 0 |
| ManualGradingScript.MainVerdicts | src/custom_scripts/manualGradingExample.py:77-112 | every printed label is one of the four checks and every status is "Success" or "Failure" |
| ManualGradingScript.ManualMain | src/custom_scripts/manualGradingExample.py:77-112 | definition: the script's main block on its arguments; `ManualSinglePhase`, `ManualAllPhases` and `ManualOutputReadBack` state its cases |
| ManualGradingScript.PhaseVerdicts | src/custom_scripts/manualGradingExample.py:55-74 | each phase reports only known checks with "Success" or "Failure" |
| ManualGradingScript.MergedVerdicts | src/custom_scripts/manualGradingExample.py:97-101 | merging phases keeps only known checks and statuses |
| PhasedGradingScript.CheckAnswer | src/custom_scripts/manualPhasedGradingExample.py:18-33 | a phase succeeds exactly when the submission has its check; the check passes exactly when the answer is the expected one and fails otherwise |
| PhasedGradingScript.PhasedNoArgsRaises | src/custom_scripts/manualPhasedGradingExample.py:39-40 | with no arguments the script raises |
| PhasedGradingScript.PhasedUnknownIsFatal | src/custom_scripts/manualPhasedGradingExample.py:48-50 | an unknown phase exits with status 1, which the server treats as a fatal grading error |
| PhasedGradingScript.PhasedOneLine | src/custom_scripts/manualPhasedGradingExample.py:40-47 | a known phase with no submission raises; otherwise exactly the phase's one check is printed |
| PhasedGradingScript.PhasedMain | src/custom_scripts/manualPhasedGradingExample.py:36-50 | definition: the script's main block on its arguments; `PhasedNoArgsRaises`, `PhasedUnknownIsFatal` and `PhasedOneLine` state its cases |
| ArgsGradingScript.FailureIsNoSuccess | custom_scripts/exampleGradingScriptWithArgs.py:19-27 | the failure text does not contain "success" in any case and the pass text does |
| ArgsGradingScript.ArgsVerdicts | custom_scripts/exampleGradingScriptWithArgs.py:19-30 | with two arguments both checks are printed, each counting as a success exactly when its argument is the expected one, and they read back unchanged |
| ArgsGradingScript.TwoChecksReadBack | custom_scripts/exampleGradingScriptWithArgs.py:29-30 | the two printed checks read back as exactly the same results |
| ArgsGradingScript.ArgsTooFew | custom_scripts/exampleGradingScriptWithArgs.py:19-24 | with fewer than two arguments the script raises before printing anything |
| ArgsGradingScript.ArgsMain | custom_scripts/exampleGradingScriptWithArgs.py:19-30 | definition: the script on its arguments; `ArgsVerdicts`, `TwoChecksReadBack` and `ArgsTooFew` state its cases |

## Left out

- Process, network and device effects are not modelled, only their outcomes, passed in as values. This covers running grading and startup scripts, ping, TCP connect, DNS resolution, HTTP requests, `vmtoolsd` and the cmi5 PUT.
- Concurrency is not modelled: thread pools, timers, the Flask executor, the scheduler and the `record_solves` lock. Every path runs single-threaded, in the order the done callbacks would run it.
- Sleeps are dropped, and wall-clock readings are parameters. `strftime`/`strptime` texts are kept opaque, except the initial "01/01/1900 00:00:00", which is time 0.
- The SQLite database is not modelled. Its tables are sequences of rows in the `Registry` and `UploadTable` classes; queries are functions over those sequences.
- YAML loading, environment reading, executable checks, zip writing, `secure_filename` and the open-ports log file are left out. Their results are inputs, e.g. the safe names given to `Uploads.UploadTable.SaveUploadedFile`.
- The IPv6 and FQDN regular expressions, and `ipaddress.ip_address`, are uninterpreted predicates: they are given as inputs.
- Logging, the event JSON text beyond its fields, the templates, the web routes that only render or send files, and SSH log shipping are left out.
- The example scripts `exampleGradingScript.py`, `fileUploadExample.py` and `exampleStartupScript.py` are left out, as is the SSH body of `runSSHCommand` after its argument check. Their results come from the network, zip contents or a single print.
- Loops that run until the outside world says otherwise are bounded by the finite sequence of outcomes passed in: ticks, checks, replies. Past its end a loop stops with the outcome that says so. This applies to `Prober.WaitForService`, `Prober.CheckServiceLoop`, `Cron.RunCronThread` and `LegacyCron.RunLegacyCronThread`.
- The phase order follows the code: with `mini_challenge` present, the least label in casefold order moves to the end, whatever it is. The label `mini_challenge` itself does not move.
- Cron.AtOffset: the offset to the start time is whole seconds, where `total_seconds()` gives a float that includes the microseconds of now.
- Cron.CronStart: uses the whole-second offset of `Cron.AtOffset`, as above.
- LegacyCron.LegacyCronStart: uses the same whole-second offset.
- Text.Lower: lower-cases ASCII letters only. Python's `lower()` and `casefold()` also fold other Unicode letters.
- Text.Strip: strips ASCII whitespace only. Python's `strip()` also removes other Unicode whitespace.
- Text.FoldLe: compares by the ASCII fold of `Text.Lower`, standing in for `str.casefold`.
- Text.ParseInt: accepts an optional sign and ASCII digits with surrounding whitespace. It rejects "1_0" and non-ASCII digits, which Python's `int()` accepts.
- Ordering.SortByFold: states sortedness and permutation but not stability. `sorted(key=str.casefold)` keeps the input order of labels that fold to the same text.
- GradingFlow.DoneGrading: runs `record_solves` inline, where the source hands it to the scheduler as a job that runs as soon as a worker is free.
- Cron.StoreCronRun: runs `record_solves` inline, as above.
- LegacyCron.LegacyCronSetting: a truthy string setting fails when the settings are read. The source stores it and fails only later: at `sleep` for the interval, at `cron_limit - 1` for the limit, at `cron_delay + time_diff` for the delay.
- LegacyConfig.LegacyRate: only whole-second rate limits are modelled. A float `rate_limit` is treated like any other non-integer and fails.
- ManualGradingScript.ManualMain: the JSON decoding of the submission argument is a parameter, and only objects whose values are all strings are modelled.
- Config.ReadGradingConfig: reads the upload settings as if `globals.grading_uploads` existed and started as an empty dictionary. The `Globals` class in src/app/globals.py defines no such attribute, so as written src/app/functions.py:118 raises `AttributeError` whenever grading is enabled.
- Config.ReadUploadLimit: assumes the same `globals.grading_uploads` attribute, for the same reason.
- Uploads.UploadTable.SaveUploadedFile: assumes `globals.uploaded_file_directory` and `globals.grading_uploads` exist; they are the table's `uploadDir` and `format`. The source's `Globals` defines neither, so as written src/app/fileUploads.py:129-130 raise `AttributeError`.
- Grading.IndexDigit: accepts ASCII digits only. Python's `int()` also accepts a final character that is another Unicode decimal digit.
- Uploads.NonEmpty: states which safe names are listed and that there are no more than were uploaded, not that they keep the upload order.

## Findings

| source | as written | input that shows it | evidently intended | confidence | as-written member | corrected member |
|---|---|---|---|---|---|---|
| src/app/grading.py:69-71 | for a phase already completed, `dict()` is applied to a list of strings "k : Success", so it raises `ValueError` and the grading task fails without storing anything | one configured part "q1" and a completed current phase | every part reported as "Success", with its tokens | not executed | GradingFlow.CompletedAsWrittenRaises | GradingFlow.CompletedEarnsTokens |
| src/app/grading.py:189-193 | on a 405 reply the verb is set to "POST" again, although the log says it changes to PUT, so a PUT is never sent | replies 405 then 200: the source sends POST, POST | the second attempt is a PUT | not executed | Submission.SubmitAsWrittenStaysPost | Submission.SubmitSwitchesToPut |
| src/globals.py:277-283 | whether `grader_key` comes from guestinfo or from the configuration is decided by the `grader_url` lookup's stderr, not the key lookup's | URL found in guestinfo, no key in guestinfo, configured key "k": the key becomes "" | the configured key "k" | not executed | LegacyConfig.GraderKeyAsWrittenReadsUrlLookup | LegacyConfig.LegacyGraderKey |
