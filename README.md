# Data-wrangling agent pipeline: a Dafny model of its deterministic core

The pipeline cleans every CSV file in `data/raw` using three language-model
agents. The Analyst lists the quality issues it sees in the first rows. The
Coder writes a pandas script, which is run in a child interpreter. The Reviewer
grades the job, and the orchestrator takes a 0 to 100 score out of the
Reviewer's text. The run engine logs every agent action and keeps a persistent
key-value store in a JSON file. One summary record per file goes into a session
report.

The model covers the parts of this that are deterministic once the language
model, the child process and the file system are treated as given inputs:

- `score.dfy` (`ScoreExtraction`) covers `extract_score`.
  - The regular-expression search `\b(100|[1-9]?[0-9])\b` is written as the
    engine runs it: start positions left to right, alternatives in
    backtracking order.
  - It is proved equal to a reference: the leftmost *score token*. A score
    token is a maximal run of word characters that is all digits, has no
    leading zero (except "0" itself) and is at most 100.
- `pystr.dfy` (`PyStr`): Python's `str.replace` (non-overlapping, left to
  right, including an empty pattern) and `str.strip()` with CPython's
  whitespace set.
- `fences.dfy` (`Fences`): the Coder's clean-up of the reply. It removes
  "```python", then "```", then strips whitespace.
  - The result is proved to contain no fence, even where removing one fence
    joins backticks into a new one.
  - Cleaning is proved idempotent.
- `tools.dfy` (`Tools`): `execute_python_code`.
  - The fixed-name script slot in the working directory is overwritten on
    every call.
  - The process outcome is encoded as one of three prefixed strings, and the
    outcome's kind and text can be decoded back from that string.
- `engine.dfy` (`RunEngine`): the `Engine` class. It covers its log messages
  and `save_state`, which reads the session file, updates one key and writes
  the whole file back. A missing or undecodable file counts as an empty
  object; an unreadable file or a JSON value that is not an object raises.
- `agents.dfy` (`Agents`): the shared agent base and the three `run` methods.
  Each is stated as its exact sequence of log messages, its model call and
  its return value. The language model is a function from prompt to reply
  (content or exception).
- `orchestrator.dfy` (`Orchestrator`): the per-file loop of `main`.
  - It also covers the output-path construction and the Coder's instruction.
  - Each file is taken through the three agents in turn. The Analyst's
    issues go into the Coder's and the Reviewer's prompts, and the Coder's
    code and run result go into the Reviewer's prompt. The loop is proved to
    build the report that the per-file runs give.
  - The record a file ends with is stated over an outcome: the start time,
    the Analyst's and the Reviewer's texts, and which stage raised, if any.
- `results.dfy` (`Results`): `Option` and `Result`.

## Model

| member | source | states |
|---|---|---|
| ScoreExtraction.MatchAt | main.py:20 | a match at a position lies within the text, is one to three digits, and has a word boundary on both sides |
| ScoreExtraction.DecimalValue | main.py:21 | the value `int()` reads from a digit string is below ten to the power of its length |
| ScoreExtraction.ExtractScore | main.py:18-21 | the extracted score is always between 0 and 100 |
| ScoreExtraction.Search | main.py:20 | a search hit lies at or after the start position and is a match of the pattern there |
| ScoreExtraction.MatchAtIsToken | main.py:20 | a match of the pattern at a position is exactly the score token starting there, in both directions |
| ScoreExtraction.MatchIsToken | main.py:20 | a match of the pattern at a position is a score token ending where the match ends |
| ScoreExtraction.NoTokenWithoutMatch | main.py:20 | where the pattern does not match, no score token starts |
| ScoreExtraction.TokenAtMostThree | main.py:20 | a score token has at most three digits |
| ScoreExtraction.TokenIsMatched | main.py:20 | a score token is at most three characters long and the pattern's alternatives accept it at its start |
| ScoreExtraction.SearchFoundIsToken | main.py:20 | a search hit is a score token |
| ScoreExtraction.SearchSkipsNoToken | main.py:20 | the search passes over no score token: a failed search has none after its start, and a hit has none between its start and the hit |
| ScoreExtraction.SearchFindsLeftmostToken | main.py:20 | the search returns the leftmost score token at or after its start position, and fails exactly when there is none |
| ScoreExtraction.ExtractScoreIsLeftmostToken | main.py:20-21 | the score is the decimal value of the leftmost score token |
| ScoreExtraction.ExtractScoreWithoutToken | main.py:21 | a text with no score token scores 0 |
| ScoreExtraction.ExtractScoreComesFromToken | main.py:20-21 | either there is no score token, or the score is the value of the leftmost one |
| ScoreExtraction.ExtractScoreStandalone | main.py:20-21 | "87" scores 87, "100" scores 100 and "0" scores 0 |
| ScoreExtraction.ExtractScoreNoToken | main.py:20-21 | "150", "1000", "050" and "a87" score 0 |
| ScoreExtraction.ExtractScorePunctuation | main.py:20 | punctuation is a boundary: "87/100" scores 87 and "-5" scores 5 |
| ScoreExtraction.ExtractScoreLeftmostWins | main.py:20 | the leftmost token wins, not the largest or the last: "out of 100, got 85" scores 100 |
| PyStr.ReplaceLength | src/agents.py:64 | a replacement of equal length keeps the length, and a shorter one never lengthens the string |
| PyStr.ReplaceAbsent | src/agents.py:64 | replacing a non-empty pattern that does not occur leaves the string unchanged |
| PyStr.ReplaceCharPointwise | main.py:54-55 | replacing one character by another keeps the length and changes exactly the occurrences of that character |
| PyStr.TrimStartSpec | src/agents.py:64 | cutting leading whitespace leaves a suffix that does not start with whitespace, and only whitespace was cut |
| PyStr.TrimEndSpec | src/agents.py:64 | cutting trailing whitespace leaves a prefix that does not end with whitespace, and only whitespace was cut |
| PyStr.StripSpec | src/agents.py:64 | the stripped string is a contiguous slice of the input, with only whitespace cut from either end, and neither starts nor ends with whitespace |
| PyStr.StripKeepsAbsent | src/agents.py:64 | stripping cannot create an occurrence of a pattern |
| PyStr.StripTrimmed | src/agents.py:64 | stripping a string without surrounding whitespace leaves it unchanged |
| Fences.CleanCodeClean | src/agents.py:64 | the cleaned code contains no "```" and has no leading or trailing whitespace |
| Fences.RemoveFencesIsReplace | src/agents.py:64 | `replace("```", "")` equals removing fences scanned left to right, character by character |
| Fences.RemoveFencesLeadingTicks | src/agents.py:64 | removing fences from a run of k leading backticks leaves k mod 3 of them |
| Fences.RemoveFencesLeavesNone | src/agents.py:64 | after fence removal no fence is left, even where a removal joined backticks |
| Fences.CleanCodeUnfenced | src/agents.py:64 | a reply without "```" and without surrounding whitespace passes through cleaning unchanged |
| Fences.CleanCodeIdempotent | src/agents.py:64 | cleaning already-cleaned code returns it unchanged |
| Tools.EncodeResultPrefix | src/tools.py:29-35 | the result opens with "SUCCESS:\n" exactly on exit code 0, with "ERROR:\n" exactly on any other code, and with "EXECUTION FAILED: " exactly when the run raised |
| Tools.PrefixesDistinct | src/tools.py:29-35 | none of the three result prefixes is a prefix of another |
| Tools.DecodeEncode | src/tools.py:29-35 | the encoded result gives back the outcome's kind and text: stdout on exit code 0, stderr on any other code, the exception's message when the run raised |
| Tools.EncodeDeterminesKind | src/tools.py:29-35 | two outcomes with the same encoded result are of the same kind with the same text |
| Tools.ErrorDiscardsStdout | src/tools.py:31-32 | on a nonzero exit code the result depends on neither the code's value nor stdout |
| Tools.JoinPathShape | src/tools.py:12 | `os.path.join` ends with the name; an absolute name is the whole result, and otherwise the result starts with the directory |
| Tools.TempScriptPathShape | src/tools.py:11-12 | the script's path starts with the working directory and ends with "temp_agent_script.py" |
| Tools.Workspace.ExecutePythonCode | src/tools.py:5-35 | the script slot at cwd/"temp_agent_script.py" ends up holding exactly the code, every other file is kept, and the result is the encoding of running that code; an exception never propagates |
| RunEngine.SaveResult | src/engine.py:40-53 | a save succeeds exactly when the file is missing, undecodable or holds an object; then the key maps to the value; a missing or undecodable file is reset to just this key; an object keeps every other key; an unreadable file propagates its error |
| RunEngine.DocumentAfter | src/engine.py:42-53 | a successful save leaves an object in which the key reads back with the value; a failing one leaves the file as it was |
| RunEngine.SaveThenLookup | src/engine.py:50-53 | after a successful save the key is read back with the saved value |
| RunEngine.SaveTwiceKeepsLater | src/engine.py:50 | two saves to one key give the same file as the later save alone |
| RunEngine.SaveKeepsOtherKey | src/engine.py:43-50 | saving one key keeps the stored value of any other key |
| RunEngine.LogMessage | src/engine.py:36-38 | the message is "[" + agent + "] ", then the action, then ": " + details, and nothing else |
| RunEngine.LogMessageNamesAgent | src/engine.py:36-38 | a log message opens with the agent's name in brackets, so the name can be read back when it has no ']' |
| RunEngine.LineText | src/engine.py:34-38 | an agent's line is its "[agent] action: details" message and opens with '['; the start-up line is "Engine Initialized. Logging to " and the log file, and does not; so the two kinds never share a text |
| RunEngine.LogFileName | src/engine.py:21-22 | the log file is "logs/run_", then the timestamp, then ".log" |
| RunEngine.Engine.constructor | src/engine.py:8-34 | the log file is logs/run_TIMESTAMP.log and the first message announces it |
| RunEngine.Engine.Log | src/engine.py:36-38 | exactly one message, "[agent] action: details", is appended |
| RunEngine.Engine.SaveState | src/engine.py:40-53 | the outcome and the new file are those of the save's result; a failing save leaves the file as it was |
| Agents.Propagate | src/agents.py:31-32 | a reply's content is returned unmodified, and an exception from the model is passed on |
| Agents.Agent.constructor | src/agents.py:6-9 | the agent keeps its name, its engine and its model |
| Agents.Agent.Log | src/agents.py:11-12 | the agent's log entries go through the engine, tagged with the agent's name |
| Agents.Agent.AnalystRun | src/agents.py:15-35 | the model's content is returned unmodified; "Start" is logged first and "Complete" last, and only "Start" when the model raises |
| Agents.Agent.CoderRun | src/agents.py:38-72 | exactly the cleaned code is written and run, and the run returns (that run's result, the same code); the log is "Start", "Action", "Result"; when the model raises only "Start" is logged and no script is written |
| Agents.Agent.ReviewerRun | src/agents.py:75-103 | the model's content is returned unmodified; "Start" is logged first, and last a "Complete" entry quoting the grade; only "Start" when the model raises |
| Agents.CoderCodeIsClean | src/agents.py:64 | the code the Coder runs has no fence and no surrounding whitespace, and cleaning it again changes nothing |
| Orchestrator.LastSlashSpec | main.py:40 | the position found is that of the last '/' before the bound, or -1 when there is none |
| Orchestrator.BaseNameShape | main.py:40 | the base name has no '/', ends the path, and is either the whole path or preceded by '/': the longest suffix without '/' |
| Orchestrator.ForwardPointwise | main.py:54-55 | the backslash conversion keeps the length, turns each '\\' into '/', keeps every other character in place and leaves no '\\' |
| Orchestrator.SafeInputPathShape | main.py:54 | the input path quoted to the Coder has the file path's length and no backslash |
| Orchestrator.OutputPathShape | main.py:55 | the output path is "data/clean/clean_" followed by the file name with its backslashes converted, so it is as long as those together and has no backslash |
| Orchestrator.OutputPathInjective | main.py:55 | two base names never share an output path |
| Orchestrator.DistinctOutputs | main.py:40-55 | files with different base names are cleaned into different output files |
| Orchestrator.InstructionQuotes | main.py:69-72 | the instruction holds the input path in the first quotes and the output path in the second |
| Orchestrator.FileInstructionQuotes | main.py:54-72 | a file's instruction quotes, first, its path with backslashes turned into '/', and then "data/clean/clean_" followed by its base name converted the same way |
| Orchestrator.StatusText | main.py:47-89 | "Success" and "Failed" spell exactly those statuses, and a text opens with "Error: " exactly when it spells an error, whose message follows |
| Orchestrator.StatusTextInjective | main.py:47-89 | the spelt status ("Failed", "Success", "Error: " + message) determines the status |
| Orchestrator.ProcessFile | main.py:44-89 | a file's final record is well formed, names the file by base name, keeps its start time, succeeds exactly when no stage raised, and on success carries the Reviewer's text |
| Orchestrator.Report | main.py:35-92 | the session report has one record per file |
| Orchestrator.ReportAt | main.py:39-92 | the report's i-th record is the record of the i-th file found, built from that file alone |
| Orchestrator.ReportRecords | main.py:44-89 | every record has lost the default "Failed"; it succeeds exactly when no stage raised, else it carries "Error: " with the exception's text; a success is scored from its own comments; a failure has score 0 and empty comments; it keeps the Analyst's issues exactly when the Analyst returned; it names the file by base name |
| Orchestrator.ReportIsolation | main.py:53-92 | changing one file's outcome, such as a stage raising, leaves every other file's record as it was |
| Orchestrator.RunAgentsShape | main.py:53-89 | a file's run keeps its start time; a failed CSV read logs nothing, runs no script and is an error of the read; after a successful read a failure is never of the read; a success logs seven messages and runs one script; a failure before the Reviewer runs no script |
| Orchestrator.RunScriptIsClean | main.py:66-73 | any script a file's run hands to the executor has no fence and no surrounding whitespace |
| Orchestrator.AgentStagesShape | main.py:60-85 | the Analyst's stage and those after it: a failure is never of the read; a success logs seven messages and runs a script; a script is run only when the Analyst and Coder replied, and it is the Coder's reply cleaned; a failure of the Analyst or Coder runs no script |
| Orchestrator.AgentStagesTimestamp | main.py:46-83 | the stages keep the file's start time |
| Orchestrator.CoderStagesShape | main.py:66-85 | the Coder's and Reviewer's stages keep the Analyst's issues and the start time; a failure is of the Coder or the Reviewer; a success logs five messages; a script is run exactly when the Coder replied, and it is that reply cleaned |
| Orchestrator.ReviewStageShape | main.py:75-85 | the Reviewer's stage keeps the issues, the start time and the script; a failure is of the Reviewer; it logs two messages on success and one on failure |
| Orchestrator.AgentStagesSuccess | main.py:60-85 | a file succeeds exactly when the Analyst, the Coder (on the Analyst's issues) and the Reviewer (on the cleaned code and its run's result) all reply; then the issues are the Analyst's reply and the last message quotes the grade |
| Orchestrator.Settle | main.py:64-89 | the fields the try block writes leave the name and start time alone, and the status is "Success" exactly when no stage raised |
| Orchestrator.ReadableRun | main.py:44-89 | a readable file's run is the agents' stages on that file's instruction, and settling the default record with its outcome gives the record `ProcessFile` states |
| Orchestrator.RunAgentStages | main.py:60-89 | creating and running the three agents gives the record, the messages and the script slots of the file's run |
| Orchestrator.RunCoderStages | main.py:64-89 | writing the issues, then running the Coder and the Reviewer, gives the record, the messages and the script slots of those stages |
| Orchestrator.RunReviewStage | main.py:75-89 | running the Reviewer and writing comments, score and status gives the record and the messages of the Reviewer's stage |
| Orchestrator.ProcessCsvFile | main.py:40-89 | one file's default record, paths, CSV read and agents give the record `ProcessFile` states for that file's run, with its messages and script |
| Orchestrator.ProcessNext | main.py:39-92 | one pass of the loop appends the next file's record, messages and script to those of the files before it |
| Orchestrator.RunBatch | main.py:39-92 | the loop that fills and appends each record builds exactly the session report of the files' runs, logs their messages in file order, and leaves the last script written |
| Orchestrator.RunsAt | main.py:39-89 | the i-th file's run depends on that file's path, start time and preview alone |
| Orchestrator.BatchRecordAt | main.py:39-92 | the batch's report has one record per file found, and its i-th record is the one the i-th file's own run gives |

## Left out

- ScoreExtraction.IsWordChar: Python's `\b` and `\w` are Unicode-aware. The model's word characters are the ASCII letters, digits and '_', so a digit run next to, say, an accented letter is treated as bounded where Python would not treat it so.
- ScoreExtraction.IsDigit: likewise only ASCII digits count. Python's `[0-9]` is ASCII too, but other Unicode word characters count for `\b`, as above.
- Agents.Prompt: the fixed wording of the three prompts is not modelled. Each prompt is represented by the data it embeds. The Coder's prompt text names its own save location, which the model does not capture.
- Agents.Agent.constructor: `get_llm()` and its API-key check (src/llm.py) are a foreign call, and the model is a given function. The constructor is assumed not to raise. In the source an exception from `get_llm()` at main.py:62, 68 or 77 would give the same record as that stage's model call raising, but without that agent's "Start" message.
- Language-model nondeterminism: a reply is a function of the prompt. The response content is assumed to be a string.
- Tools.Workspace.ExecutePythonCode: a failure to write the temporary script propagates in the source (it is outside the `try`). The model's write always succeeds.
- Tools.Workspace.ExecutePythonCode: spawning the child interpreter, the 30-second timeout and the generated script's own reads and writes are not modelled. They are the given `run` function, and the timeout is one of the outcomes in which the run raised.
- RunEngine.Json: numbers are integers; floats and JSON serialisation details (`indent`, `default=str`) are not modelled.
- RunEngine.Engine.SaveState: the write of the new file is assumed to complete. A failure partway through writing is not modelled.
- RunEngine.Engine.constructor: `ensure_directories`, the logging configuration and the time/level/name prefix the logger adds are not modelled. The clock reading is a parameter.
- Orchestrator.RunBatch: some per-file inputs are given, not computed: the start time from `datetime.now()`, and the preview from `pd.read_csv(...).head().to_string()` or the exception it raised. `glob.glob` order is the given sequence of files. `setup_api_key`, `os.makedirs`, and writing `processing_report.json` with `json.dump` are left out.
- Orchestrator.RunBatch: every `print` is assumed never to raise. In the source a `print` that raises at main.py:85 (say, a console that cannot encode "✅") turns a finished success into an "Error: " record that keeps its comments and score. One that raises at main.py:41 or 88 escapes `main`, and the report is never written.
- Orchestrator.RunsAt: a file's run is independent of the other files only because the model and the executor are functions of their arguments. In the source a generated script can read what an earlier file's script wrote; the Coder's prompt names one fixed target, data/cleaned_data.csv (src/agents.py:53), for every file. The same holds for Orchestrator.BatchRecordAt.
- Orchestrator.BaseName: POSIX path semantics only; Windows separators are not treated as separators.
- setup_data.py (dataset downloads and directory copying), src/schemas.py (a declaration that nothing uses) and temp_agent_script.py (a generated artifact) are not part of this model.
