/** The batch driver: every discovered CSV file is taken through the Analyst,
    the Coder and the Reviewer in turn, and one summary record per file is
    appended to the session report, whether or not a stage raised. */
module Orchestrator {
  import opened Results
  import PyStr
  import Tools
  import Fences
  import ScoreExtraction
  import RunEngine
  import Agents

  const OutputDir := "data/clean"
  const CleanPrefix := "clean_"

  const AnalystName := "Analyst"
  const CoderName := "Coder"
  const ReviewerName := "Reviewer"

  // ---------------------------------------------------------------------
  // Paths

  /** The index of the last '/' among the first `n` characters, or -1 when
      there is none. */
  function LastSlash(path: string, n: nat): int
    requires n <= |path|
  {
    if n == 0 then -1 else if path[n - 1] == '/' then n - 1 else LastSlash(path, n - 1)
  }

  /** `LastSlash` finds a '/' with none after it among the first `n`
      characters. */
  lemma {:induction false} LastSlashSpec(path: string, n: nat)
    requires n <= |path|
    ensures var k := LastSlash(path, n);
      && -1 <= k < n
      && (k >= 0 ==> path[k] == '/')
      && (forall j | k < j < n :: path[j] != '/')
  {
    if n > 0 && path[n - 1] != '/' {
      LastSlashSpec(path, n - 1);
    }
  }

  /** `os.path.basename(path)` (POSIX): what follows the last '/'. */
  function BaseName(path: string): string
  {
    LastSlashSpec(path, |path|);
    path[LastSlash(path, |path|) + 1..]
  }

  /** The base name is the longest suffix of the path without '/': either
      the whole path or what follows a '/'. */
  lemma BaseNameShape(path: string)
    ensures var name := BaseName(path);
      && '/' !in name
      && |name| <= |path| && path[|path| - |name|..] == name
      && (name == path || path[|path| - |name| - 1] == '/')
  {
    LastSlashSpec(path, |path|);
    var k := LastSlash(path, |path|);
    var name := BaseName(path);
    assert forall j | 0 <= j < |name| :: name[j] == path[k + 1 + j];
  }

  /** `path.replace("\\", "/")`. */
  function Forward(path: string): string
  {
    PyStr.Replace(path, "\\", "/")
  }

  /** Every backslash becomes a slash and every other character stays where
      it is, so no backslash remains. */
  lemma ForwardPointwise(path: string)
    ensures var r := Forward(path);
      && |r| == |path|
      && (forall i | 0 <= i < |path| :: r[i] == (if path[i] == '\\' then '/' else path[i]))
      && '\\' !in r
  {
    PyStr.ReplaceCharPointwise(path, '\\', '/');
  }

  /** `file_path.replace("\\", "/")`, the input path quoted to the Coder. */
  function SafeInputPath(filePath: string): string
  {
    Forward(filePath)
  }

  /** `os.path.join(output_dir, f"clean_{file_name}").replace("\\", "/")`. */
  function OutputPath(fileName: string): string
  {
    Forward(Tools.JoinPath(OutputDir, CleanPrefix + fileName))
  }

  /** The input path keeps its length and loses every backslash. */
  lemma SafeInputPathShape(filePath: string)
    ensures |SafeInputPath(filePath)| == |filePath| && '\\' !in SafeInputPath(filePath)
  {
    ForwardPointwise(filePath);
  }

  /** The Coder's instruction. */
  function Instruction(safeInputPath: string, safeOutputPath: string): string
  {
    "Load '" + safeInputPath + "'. Fix issues. " +
    "Save strictly to '" + safeOutputPath + "'. Use index=False."
  }

  /** The instruction quotes the input path and then the output path, each
      at a fixed place. */
  lemma InstructionQuotes(safeInputPath: string, safeOutputPath: string)
    ensures var text := Instruction(safeInputPath, safeOutputPath);
      var lead := |"Load '"|;
      var mid := lead + |safeInputPath| + |"'. Fix issues. Save strictly to '"|;
      mid + |safeOutputPath| <= |text| &&
      text[lead..lead + |safeInputPath|] == safeInputPath &&
      text[mid..mid + |safeOutputPath|] == safeOutputPath
  {
  }

  /** The instruction given for a file found at `filePath`. */
  function FileInstruction(filePath: string): string
  {
    Instruction(SafeInputPath(filePath), OutputPath(BaseName(filePath)))
  }

  /** A file's instruction quotes its path with backslashes converted, and
      then the output directory, '/', "clean_" and its converted base name. */
  lemma FileInstructionQuotes(filePath: string)
    ensures var text := FileInstruction(filePath);
      var lead := |"Load '"|;
      var mid := lead + |filePath| + |"'. Fix issues. Save strictly to '"|;
      var out := OutputDir + "/" + CleanPrefix + Forward(BaseName(filePath));
      mid + |out| <= |text| &&
      text[lead..lead + |filePath|] == Forward(filePath) &&
      text[mid..mid + |out|] == out
  {
    var name := BaseName(filePath);
    var k := |OutputDir| + 1 + |CleanPrefix|;
    SafeInputPathShape(filePath);
    OutputPathShape(name);
    ForwardPointwise(name);
    var o := OutputPath(name);
    assert o == o[..k] + o[k..];
    InstructionQuotes(SafeInputPath(filePath), o);
  }

  /** The output path is the output directory, '/', "clean_" and the
      converted file name. */
  lemma OutputPathShape(fileName: string)
    ensures var out := OutputPath(fileName);
      && |out| == |OutputDir| + 1 + |CleanPrefix| + |fileName| && '\\' !in out
      && out[..|OutputDir| + 1 + |CleanPrefix|] == OutputDir + "/" + CleanPrefix
      && out[|OutputDir| + 1 + |CleanPrefix|..] == Forward(fileName)
  {
    var joined := Tools.JoinPath(OutputDir, CleanPrefix + fileName);
    var k := |OutputDir| + 1 + |CleanPrefix|;
    assert joined == OutputDir + "/" + CleanPrefix + fileName;
    ForwardPointwise(joined);
    ForwardPointwise(fileName);
    var out := OutputPath(fileName);
    assert out[..k] == OutputDir + "/" + CleanPrefix by {
      forall i | 0 <= i < k
        ensures out[i] == (OutputDir + "/" + CleanPrefix)[i]
      {
        assert joined[i] == (OutputDir + "/" + CleanPrefix)[i];
      }
    }
    assert out[k..] == Forward(fileName) by {
      forall i | 0 <= i < |fileName|
        ensures out[k..][i] == Forward(fileName)[i]
      {
        assert joined[k + i] == fileName[i];
      }
    }
  }

  /** Two file names without '/' (as base names are) never share an output
      path, although the backslash conversion merges '\\' into '/'. */
  lemma {:induction false} OutputPathInjective(name1: string, name2: string)
    requires '/' !in name1 && '/' !in name2
    requires OutputPath(name1) == OutputPath(name2)
    ensures name1 == name2
  {
    OutputPathShape(name1);
    OutputPathShape(name2);
    ForwardPointwise(name1);
    ForwardPointwise(name2);
    forall i | 0 <= i < |name1|
      ensures name1[i] == name2[i]
    {
      assert Forward(name1)[i] == Forward(name2)[i];
    }
  }

  /** Files with different base names are cleaned into different files. */
  lemma DistinctOutputs(path1: string, path2: string)
    requires BaseName(path1) != BaseName(path2)
    ensures OutputPath(BaseName(path1)) != OutputPath(BaseName(path2))
  {
    if OutputPath(BaseName(path1)) == OutputPath(BaseName(path2)) {
      BaseNameShape(path1);
      BaseNameShape(path2);
      OutputPathInjective(BaseName(path1), BaseName(path2));
    }
  }

  // ---------------------------------------------------------------------
  // Records

  /** The stages that can raise, in the order they run: reading the CSV,
      then the three agents. */
  datatype Stage = ReadCsv | Analysis | Coding | Review

  datatype Failure = Failure(stage: Stage, message: string)

  /** What happened to one file, with the parts the model does not compute
      given: the start time, the Analyst's issues, the Reviewer's grade, and
      the stage that raised with the exception's text, if any. */
  datatype FileOutcome = FileOutcome(timestamp: string, issues: string, grade: string, failure: Option<Failure>)

  /** A record's status: the default set when the record is created, or the
      value written when the file succeeds or raises. */
  datatype Status = Failed | Success | Error(message: string)

  /** The status as the report spells it: "Failed", "Success", or "Error: "
      followed by the exception's text. */
  function StatusText(s: Status): (r: string)
    ensures r == "Success" <==> s == Success
    ensures r == "Failed" <==> s == Failed
    ensures s.Error? <==> |r| >= 7 && r[..7] == "Error: "
    ensures s.Error? ==> r[7..] == s.message
  {
    match s
    case Failed => "Failed"
    case Success => assert "Success"[..7][0] == 'S'; "Success"
    case Error(m) => assert ("Error: " + m)[0] == 'E'; "Error: " + m
  }

  /** The spelt status determines the status. */
  lemma StatusTextInjective(s1: Status, s2: Status)
    ensures StatusText(s1) == StatusText(s2) <==> s1 == s2
  {
    if s1 != s2 {
      if s1.Error? && s2.Error? {
        assert StatusText(s1)[7..] == s1.message && StatusText(s2)[7..] == s2.message;
      } else {
        assert StatusText(s1)[0] != StatusText(s2)[0];
      }
    }
  }

  datatype Record = Record(
    filename: string,
    timestamp: string,
    status: Status,
    issuesDetected: string,
    qualityScore: nat,
    reviewerComments: string)

  /** The Analyst's issues reach the record only if the Analyst returned,
      that is, if nothing raised or a later stage did. */
  predicate AnalystReturned(o: FileOutcome)
  {
    o.failure.None? || o.failure.value.stage == Coding || o.failure.value.stage == Review
  }

  /** The record one file ends with. */
  function ProcessFile(filePath: string, o: FileOutcome): (r: Record)
    ensures WellFormed(r)
    ensures r.filename == BaseName(filePath) && r.timestamp == o.timestamp
    ensures r.status == Success <==> o.failure.None?
    ensures o.failure.None? ==> r.reviewerComments == o.grade
  {
    Record(
      BaseName(filePath),
      o.timestamp,
      if o.failure.None? then Success else Error(o.failure.value.message),
      if AnalystReturned(o) then o.issues else "",
      if o.failure.None? then ScoreExtraction.ExtractScore(o.grade) else 0,
      if o.failure.None? then o.grade else "")
  }

  /** What holds of every final record, whatever happened: the default
      status is gone, a success is scored from its own comments, and a
      failure has no score and no comments. */
  predicate WellFormed(r: Record)
  {
    && r.status != Failed
    && r.qualityScore <= 100
    && (r.status == Success ==> r.qualityScore == ScoreExtraction.ExtractScore(r.reviewerComments))
    && (r.status != Success ==> r.qualityScore == 0 && r.reviewerComments == "")
  }

  /** The session report for files taken one after another. */
  function Report(paths: seq<string>, outcomes: seq<FileOutcome>): (report: seq<Record>)
    requires |outcomes| == |paths|
    ensures |report| == |paths|
  {
    if |paths| == 0 then []
    else Report(paths[..|paths| - 1], outcomes[..|outcomes| - 1]) +
         [ProcessFile(paths[|paths| - 1], outcomes[|outcomes| - 1])]
  }

  /** Taking one more file appends its record. */
  lemma ReportSnoc(paths: seq<string>, outcomes: seq<FileOutcome>)
    requires |outcomes| == |paths| > 0
    ensures Report(paths, outcomes) ==
      Report(paths[..|paths| - 1], outcomes[..|paths| - 1]) + [ProcessFile(paths[|paths| - 1], outcomes[|paths| - 1])]
  {
  }

  /** One record per file, in the order the files were found, each depending
      only on its own file. */
  lemma {:induction false} ReportAt(paths: seq<string>, outcomes: seq<FileOutcome>, i: int)
    requires |outcomes| == |paths| && 0 <= i < |paths|
    ensures Report(paths, outcomes)[i] == ProcessFile(paths[i], outcomes[i])
    decreases |paths|
  {
    var n := |paths| - 1;
    var ps, os := paths[..n], outcomes[..n];
    ReportSnoc(paths, outcomes);
    var earlier := Report(ps, os);
    assert |earlier| == n;
    if i == n {
      assert Report(paths, outcomes)[i] == ProcessFile(paths[n], outcomes[n]);
    } else {
      assert Report(paths, outcomes)[i] == earlier[i];
      ReportAt(ps, os, i);
      assert ps[i] == paths[i] && os[i] == outcomes[i];
    }
  }

  /** Every record of a session report is well formed; the outcome decides
      success, and the file's base name and start time are kept. */
  lemma ReportRecords(paths: seq<string>, outcomes: seq<FileOutcome>, i: int)
    requires |outcomes| == |paths| && 0 <= i < |paths|
    ensures var r := Report(paths, outcomes)[i];
      && WellFormed(r)
      && r.filename == BaseName(paths[i])
      && r.timestamp == outcomes[i].timestamp
      && (r.status == Success <==> outcomes[i].failure.None?)
      && (outcomes[i].failure.Some? ==> r.status == Error(outcomes[i].failure.value.message))
      && r.issuesDetected == (if AnalystReturned(outcomes[i]) then outcomes[i].issues else "")
  {
    ReportAt(paths, outcomes, i);
  }

  /** A failure on one file leaves every other file's record as it would be
      without it. */
  lemma ReportIsolation(paths: seq<string>, outcomes: seq<FileOutcome>, j: int, changed: FileOutcome, i: int)
    requires |outcomes| == |paths| && 0 <= j < |paths| && 0 <= i < |paths| && i != j
    ensures Report(paths, outcomes[j := changed])[i] == Report(paths, outcomes)[i]
  {
    ReportAt(paths, outcomes, i);
    ReportAt(paths, outcomes[j := changed], i);
  }

  // ---------------------------------------------------------------------
  // One file through the three agents

  /** What taking one file through the agents produces: its outcome, the
      messages logged, and the script the Coder ran, if it got that far. */
  datatype FileRun = FileRun(outcome: FileOutcome, log: seq<RunEngine.LogLine>, script: Option<string>)

  /** The body of the `try` for one file. `csvHead` is the preview
      `pd.read_csv(...).head().to_string()` gives, or the exception it raised.
      What a run logs and hands to the executor is stated by `RunAgentsShape`. */
  function RunAgents(filePath: string, timestamp: string, csvHead: Result<string, string>,
                     llm: Agents.Prompt -> Agents.Reply, run: string -> Tools.ProcessOutcome): FileRun
  {
    match csvHead
    case Err(m) => FileRun(FileOutcome(timestamp, "", "", Some(Failure(ReadCsv, m))), [], None)
    case Ok(head) => AgentStages(FileInstruction(filePath), timestamp, head, llm, run)
  }

  /** The three agents in turn on a readable file, the Coder given
      `instruction`; each stage that raises ends the run. */
  function AgentStages(instruction: string, timestamp: string, head: string,
                       llm: Agents.Prompt -> Agents.Reply, run: string -> Tools.ProcessOutcome): FileRun
  {
    var analystStart := [RunEngine.AgentAction(AnalystName, "Start", Agents.AnalystStartDetails)];
    match llm(Agents.AnalysisPrompt(head))
    case Raised(m) => FileRun(FileOutcome(timestamp, "", "", Some(Failure(Analysis, m))), analystStart, None)
    case Responded(issues) =>
      var rest := CoderStages(issues, instruction, timestamp, llm, run);
      rest.(log := analystStart + [RunEngine.AgentAction(AnalystName, "Complete", Agents.AnalystDoneDetails)] + rest.log)
  }

  /** The Coder's and the Reviewer's stages, given the Analyst's `issues`. */
  function CoderStages(issues: string, instruction: string, timestamp: string,
                       llm: Agents.Prompt -> Agents.Reply, run: string -> Tools.ProcessOutcome): FileRun
  {
    var coderStart := [RunEngine.AgentAction(CoderName, "Start", Agents.CoderStartDetails)];
    match llm(Agents.CodingPrompt(issues, instruction))
    case Raised(m) => FileRun(FileOutcome(timestamp, issues, "", Some(Failure(Coding, m))), coderStart, None)
    case Responded(content) =>
      var code := Fences.CleanCode(content);
      var rest := ReviewStage(issues, Tools.EncodeResult(run(code)), code, timestamp, llm);
      rest.(log := coderStart + [
        RunEngine.AgentAction(CoderName, "Action", Agents.CoderActionDetails),
        RunEngine.AgentAction(CoderName, "Result", Agents.CoderResultDetails)] + rest.log)
  }

  /** The Reviewer's stage on the `code` the Coder ran and that run's
      encoded `executionResult`. */
  function ReviewStage(issues: string, executionResult: string, code: string, timestamp: string,
                       llm: Agents.Prompt -> Agents.Reply): FileRun
  {
    var reviewerStart := [RunEngine.AgentAction(ReviewerName, "Start", Agents.ReviewerStartDetails)];
    match llm(Agents.ReviewPrompt(issues, executionResult, code))
    case Raised(m) =>
      FileRun(FileOutcome(timestamp, issues, "", Some(Failure(Review, m))), reviewerStart, Some(code))
    case Responded(grade) =>
      FileRun(FileOutcome(timestamp, issues, grade, None),
              reviewerStart + [RunEngine.AgentAction(ReviewerName, "Complete", "Evaluation: " + grade)], Some(code))
  }

  /** The script slots after a file's run: the Coder's script, if one ran,
      overwrites the slot in the current directory. */
  function ScriptsAfterRun(scripts: map<string, string>, r: FileRun): map<string, string>
  {
    if r.script.Some? then scripts[Tools.TempScriptPath(Tools.DefaultCwd) := r.script.value] else scripts
  }

  /** The Reviewer logs its start, and its completion only when it replied;
      the issues and the script are handed through and a failure is its own. */
  lemma ReviewStageShape(issues: string, executionResult: string, code: string, timestamp: string,
                         llm: Agents.Prompt -> Agents.Reply)
    ensures var r := ReviewStage(issues, executionResult, code, timestamp, llm);
      && r.outcome.timestamp == timestamp && r.outcome.issues == issues && r.script == Some(code)
      && (r.outcome.failure.Some? ==> r.outcome.failure.value.stage == Review)
      && |r.log| == (if r.outcome.failure.None? then 2 else 1)
  {
  }

  /** The Coder's stages keep the Analyst's issues, fail only at Coding or
      Review, and run a script exactly when the Coder's model replied: that
      reply cleaned of fences. */
  lemma CoderStagesShape(issues: string, instruction: string, timestamp: string,
                         llm: Agents.Prompt -> Agents.Reply, run: string -> Tools.ProcessOutcome)
    ensures var r := CoderStages(issues, instruction, timestamp, llm, run);
      var coding := llm(Agents.CodingPrompt(issues, instruction));
      && r.outcome.timestamp == timestamp && r.outcome.issues == issues
      && (r.outcome.failure.Some? ==> r.outcome.failure.value.stage == Coding || r.outcome.failure.value.stage == Review)
      && (r.outcome.failure.None? ==> |r.log| == 5 && r.script.Some?)
      && (r.script.Some? <==> coding.Responded?)
      && (r.script.Some? ==> r.script.value == Fences.CleanCode(coding.content))
      && (r.outcome.failure.Some? && r.outcome.failure.value.stage == Coding ==> r.script.None?)
  {
    var coding := llm(Agents.CodingPrompt(issues, instruction));
    if coding.Responded? {
      var code := Fences.CleanCode(coding.content);
      ReviewStageShape(issues, Tools.EncodeResult(run(code)), code, timestamp, llm);
    }
  }

  /** A readable file's run never fails at ReadCsv; a success logs seven
      messages and runs a script, which is the Coder's reply to the prompt
      built from the Analyst's reply, cleaned; a failure before the Reviewer
      runs no script. */
  lemma AgentStagesShape(instruction: string, timestamp: string, head: string,
                         llm: Agents.Prompt -> Agents.Reply, run: string -> Tools.ProcessOutcome)
    ensures var r := AgentStages(instruction, timestamp, head, llm, run);
      && r.outcome.timestamp == timestamp
      && (r.outcome.failure.Some? ==> r.outcome.failure.value.stage != ReadCsv)
      && (r.outcome.failure.None? ==> |r.log| == 7 && r.script.Some?)
      && (r.script.Some? ==>
            var analysis := llm(Agents.AnalysisPrompt(head));
            && analysis.Responded?
            && var coding := llm(Agents.CodingPrompt(analysis.content, instruction));
            && coding.Responded? && r.script.value == Fences.CleanCode(coding.content))
      && (r.outcome.failure.Some? && r.outcome.failure.value.stage != Review ==> r.script.None?)
  {
    var analysis := llm(Agents.AnalysisPrompt(head));
    if analysis.Responded? {
      CoderStagesShape(analysis.content, instruction, timestamp, llm, run);
    }
  }

  lemma AgentStagesTimestamp(instruction: string, timestamp: string, head: string,
                             llm: Agents.Prompt -> Agents.Reply, run: string -> Tools.ProcessOutcome)
    ensures AgentStages(instruction, timestamp, head, llm, run).outcome.timestamp == timestamp
  {
    AgentStagesShape(instruction, timestamp, head, llm, run);
  }

  /** A file that cannot be read fails at ReadCsv with nothing logged and no
      script run; a readable one never fails there, and a success logs seven
      messages and runs a script. */
  lemma RunAgentsShape(filePath: string, timestamp: string, csvHead: Result<string, string>,
                       llm: Agents.Prompt -> Agents.Reply, run: string -> Tools.ProcessOutcome)
    ensures var r := RunAgents(filePath, timestamp, csvHead, llm, run);
      && r.outcome.timestamp == timestamp
      && (csvHead.Err? ==> r.log == [] && r.script.None? && r.outcome.failure == Some(Failure(ReadCsv, csvHead.error)))
      && (csvHead.Ok? ==> r.outcome.failure.None? || r.outcome.failure.value.stage != ReadCsv)
      && (r.outcome.failure.None? ==> |r.log| == 7 && r.script.Some?)
      && (r.outcome.failure.Some? && r.outcome.failure.value.stage != Review ==> r.script.None?)
  {
    if csvHead.Ok? {
      AgentStagesShape(FileInstruction(filePath), timestamp, csvHead.value, llm, run);
    }
  }

  /** Whatever script a file's run hands to the executor carries no fence
      and no surrounding whitespace. */
  lemma RunScriptIsClean(filePath: string, timestamp: string, csvHead: Result<string, string>,
                         llm: Agents.Prompt -> Agents.Reply, run: string -> Tools.ProcessOutcome)
    ensures var r := RunAgents(filePath, timestamp, csvHead, llm, run);
      r.script.Some? ==> PyStr.Absent(r.script.value, Fences.Fence) && PyStr.Trimmed(r.script.value)
  {
    if csvHead.Ok? {
      var head := csvHead.value;
      var instruction := FileInstruction(filePath);
      AgentStagesShape(instruction, timestamp, head, llm, run);
      var r := AgentStages(instruction, timestamp, head, llm, run);
      if r.script.Some? {
        var analysis := llm(Agents.AnalysisPrompt(head));
        var coding := llm(Agents.CodingPrompt(analysis.content, instruction));
        Agents.CoderCodeIsClean(coding.content);
      }
    }
  }

  /** A run succeeds exactly when none of the three model calls raised, and
      then its outcome holds the Analyst's and the Reviewer's replies. */
  lemma AgentStagesSuccess(instruction: string, timestamp: string, head: string,
                           llm: Agents.Prompt -> Agents.Reply, run: string -> Tools.ProcessOutcome)
    ensures var r := AgentStages(instruction, timestamp, head, llm, run);
      var analysis := llm(Agents.AnalysisPrompt(head));
      r.outcome.failure.None? <==>
        && analysis.Responded?
        && var coding := llm(Agents.CodingPrompt(analysis.content, instruction));
        && coding.Responded?
        && var code := Fences.CleanCode(coding.content);
        && llm(Agents.ReviewPrompt(analysis.content, Tools.EncodeResult(run(code)), code)).Responded?
    ensures var r := AgentStages(instruction, timestamp, head, llm, run);
      r.outcome.failure.None? ==>
        && r.outcome.issues == llm(Agents.AnalysisPrompt(head)).content
        && |r.log| == 7
        && r.log[6] == RunEngine.AgentAction(ReviewerName, "Complete", "Evaluation: " + r.outcome.grade)
  {
    AgentStagesShape(instruction, timestamp, head, llm, run);
    var analysis := llm(Agents.AnalysisPrompt(head));
    if analysis.Responded? {
      var coding := llm(Agents.CodingPrompt(analysis.content, instruction));
      CoderStagesShape(analysis.content, instruction, timestamp, llm, run);
      if coding.Responded? {
        var code := Fences.CleanCode(coding.content);
        ReviewStageShape(analysis.content, Tools.EncodeResult(run(code)), code, timestamp, llm);
      }
    }
  }

  /** The fields of `record` the try block writes, as they stand after the
      outcome `o`: the issues once the Analyst returned, comments, score and
      status once the Reviewer did, and the exception's text otherwise. */
  function Settle(record: Record, o: FileOutcome): (r: Record)
    ensures r.filename == record.filename && r.timestamp == record.timestamp
    ensures r.status == Success <==> o.failure.None?
  {
    record.(status := if o.failure.None? then Success else Error(o.failure.value.message),
            issuesDetected := if AnalystReturned(o) then o.issues else record.issuesDetected,
            qualityScore := if o.failure.None? then ScoreExtraction.ExtractScore(o.grade) else record.qualityScore,
            reviewerComments := if o.failure.None? then o.grade else record.reviewerComments)
  }

  /** Lines 60-85 of `main` after the CSV was read: the Analyst, then
      the Coder and the Reviewer, the record's issues overwritten once the
      Analyst returns and an exception written into the status. */
  method RunAgentStages(record: Record, head: string, instruction: string,
                        engine: RunEngine.Engine, workspace: Tools.Workspace,
                        llm: Agents.Prompt -> Agents.Reply, run: string -> Tools.ProcessOutcome)
    returns (result: Record)
    modifies engine`messages, workspace`scripts
    ensures var r := AgentStages(instruction, record.timestamp, head, llm, run);
      && result == Settle(record, r.outcome)
      && engine.messages == old(engine.messages) + r.log
      && workspace.scripts == ScriptsAfterRun(old(workspace.scripts), r)
  {
    ghost var m0 := engine.messages;
    var analyst := new Agents.Agent(AnalystName, engine, llm);
    var issues := analyst.AnalystRun(head);
    if issues.Err? {
      result := record.(status := Error(issues.error));
      return;
    }
    ghost var analystLog := [
      RunEngine.AgentAction(AnalystName, "Start", Agents.AnalystStartDetails),
      RunEngine.AgentAction(AnalystName, "Complete", Agents.AnalystDoneDetails)];
    assert engine.messages == m0 + analystLog;
    result := RunCoderStages(record, issues.value, instruction, engine, workspace, llm, run);
    ghost var rest := CoderStages(issues.value, instruction, record.timestamp, llm, run);
    assert AgentStages(instruction, record.timestamp, head, llm, run) == rest.(log := analystLog + rest.log);
    ConcatAssoc(m0, analystLog, rest.log);
  }

  /** Lines 64-85 of `main`: the Analyst's issues written into the record,
      then the Coder runs the model's script, the Reviewer grades it, and a
      success writes comments, score and status. */
  method RunCoderStages(record: Record, issues: string, instruction: string,
                        engine: RunEngine.Engine, workspace: Tools.Workspace,
                        llm: Agents.Prompt -> Agents.Reply, run: string -> Tools.ProcessOutcome)
    returns (result: Record)
    modifies engine`messages, workspace`scripts
    ensures var r := CoderStages(issues, instruction, record.timestamp, llm, run);
      && result == Settle(record, r.outcome)
      && engine.messages == old(engine.messages) + r.log
      && workspace.scripts == ScriptsAfterRun(old(workspace.scripts), r)
  {
    ghost var m0 := engine.messages;
    ghost var timestamp := record.timestamp;
    result := record.(issuesDetected := issues);
    var coder := new Agents.Agent(CoderName, engine, llm);
    var coded := coder.CoderRun(issues, instruction, workspace, run);
    ghost var reply := llm(Agents.CodingPrompt(issues, instruction));
    ghost var coderStart := [RunEngine.AgentAction(CoderName, "Start", Agents.CoderStartDetails)];
    if coded.Err? {
      result := result.(status := Error(coded.error));
      assert CoderStages(issues, instruction, timestamp, llm, run)
        == FileRun(FileOutcome(timestamp, issues, "", Some(Failure(Coding, reply.message))), coderStart, None);
      return;
    }
    var (executionResult, code) := coded.value;
    ghost var coderLog := coderStart + [
      RunEngine.AgentAction(CoderName, "Action", Agents.CoderActionDetails),
      RunEngine.AgentAction(CoderName, "Result", Agents.CoderResultDetails)];
    assert engine.messages == m0 + coderLog;
    result := RunReviewStage(result, executionResult, code, engine, llm);
    ghost var rest := ReviewStage(issues, executionResult, code, timestamp, llm);
    ReviewStageShape(issues, executionResult, code, timestamp, llm);
    assert CoderStages(issues, instruction, timestamp, llm, run) == rest.(log := coderLog + rest.log);
    ConcatAssoc(m0, coderLog, rest.log);
  }

  /** Lines 74-85 of `main`: the Reviewer grades the run against the
      issues already in the record, and a success writes comments, score and
      status. */
  method RunReviewStage(record: Record, executionResult: string, code: string,
                        engine: RunEngine.Engine, llm: Agents.Prompt -> Agents.Reply)
    returns (result: Record)
    modifies engine`messages
    ensures var r := ReviewStage(record.issuesDetected, executionResult, code, record.timestamp, llm);
      && result == Settle(record, r.outcome)
      && engine.messages == old(engine.messages) + r.log
  {
    var reviewer := new Agents.Agent(ReviewerName, engine, llm);
    var grade := reviewer.ReviewerRun(record.issuesDetected, executionResult, code);
    if grade.Err? {
      result := record.(status := Error(grade.error));
      return;
    }
    result := record.(reviewerComments := grade.value);
    result := result.(qualityScore := ScoreExtraction.ExtractScore(grade.value));
    result := result.(status := Success);
  }

  /** Lines 39-89 of `main` for one file: the default record, the paths the
      Coder is told to use, the CSV read, then the agents. */
  method ProcessCsvFile(filePath: string, timestamp: string, csvHead: Result<string, string>,
                        engine: RunEngine.Engine, workspace: Tools.Workspace,
                        llm: Agents.Prompt -> Agents.Reply, run: string -> Tools.ProcessOutcome)
    returns (record: Record)
    modifies engine`messages, workspace`scripts
    ensures var r := RunAgents(filePath, timestamp, csvHead, llm, run);
      && record == ProcessFile(filePath, r.outcome)
      && engine.messages == old(engine.messages) + r.log
      && workspace.scripts == ScriptsAfterRun(old(workspace.scripts), r)
  {
    var fileName := BaseName(filePath);
    record := Record(fileName, timestamp, Failed, "", 0, "");
    if csvHead.Err? {
      record := record.(status := Error(csvHead.error));
      SettleDefault(filePath, timestamp, FileOutcome(timestamp, "", "", Some(Failure(ReadCsv, csvHead.error))));
      return;
    }
    var instruction := FileInstruction(filePath);
    ReadableRun(filePath, timestamp, csvHead, llm, run);
    record := RunAgentStages(record, csvHead.value, instruction, engine, workspace, llm, run);
  }

  /** A readable file's run is the agents' stages on its instruction, and
      they settle the default record into the record `ProcessFile` states. */
  lemma ReadableRun(filePath: string, timestamp: string, csvHead: Result<string, string>,
                    llm: Agents.Prompt -> Agents.Reply, run: string -> Tools.ProcessOutcome)
    requires csvHead.Ok?
    ensures var r := AgentStages(FileInstruction(filePath), timestamp, csvHead.value, llm, run);
      && RunAgents(filePath, timestamp, csvHead, llm, run) == r
      && Settle(Record(BaseName(filePath), timestamp, Failed, "", 0, ""), r.outcome) == ProcessFile(filePath, r.outcome)
  {
    var r := AgentStages(FileInstruction(filePath), timestamp, csvHead.value, llm, run);
    AgentStagesTimestamp(FileInstruction(filePath), timestamp, csvHead.value, llm, run);
    SettleDefault(filePath, timestamp, r.outcome);
  }

  /** Settling the default record with an outcome gives the record
      `ProcessFile` states. */
  lemma SettleDefault(filePath: string, timestamp: string, o: FileOutcome)
    requires o.timestamp == timestamp
    ensures Settle(Record(BaseName(filePath), timestamp, Failed, "", 0, ""), o) == ProcessFile(filePath, o)
  {
  }

  // ---------------------------------------------------------------------
  // The loop

  /** The runs of files taken one after another. */
  function Runs(files: seq<string>, timestamps: seq<string>, heads: seq<Result<string, string>>,
                llm: Agents.Prompt -> Agents.Reply, run: string -> Tools.ProcessOutcome): (runs: seq<FileRun>)
    requires |timestamps| == |files| && |heads| == |files|
    ensures |runs| == |files|
  {
    if |files| == 0 then []
    else
      var n := |files| - 1;
      Runs(files[..n], timestamps[..n], heads[..n], llm, run) + [RunAgents(files[n], timestamps[n], heads[n], llm, run)]
  }

  function Outcomes(runs: seq<FileRun>): (outcomes: seq<FileOutcome>)
    ensures |outcomes| == |runs|
    ensures forall i | 0 <= i < |runs| :: outcomes[i] == runs[i].outcome
  {
    seq(|runs|, i requires 0 <= i < |runs| => runs[i].outcome)
  }

  /** Every message of the batch, file after file. */
  function BatchLog(runs: seq<FileRun>): seq<RunEngine.LogLine>
  {
    if |runs| == 0 then [] else BatchLog(runs[..|runs| - 1]) + runs[|runs| - 1].log
  }

  function ScriptsAfter(scripts: map<string, string>, runs: seq<FileRun>): map<string, string>
  {
    if |runs| == 0 then scripts else ScriptsAfterRun(ScriptsAfter(scripts, runs[..|runs| - 1]), runs[|runs| - 1])
  }

  lemma OutcomesSnoc(runs: seq<FileRun>, r: FileRun)
    ensures Outcomes(runs + [r])[..|runs|] == Outcomes(runs)
    ensures Outcomes(runs + [r])[|runs|] == r.outcome
  {
    assert |Outcomes(runs + [r])[..|runs|]| == |Outcomes(runs)|;
    forall i | 0 <= i < |runs|
      ensures Outcomes(runs + [r])[..|runs|][i] == Outcomes(runs)[i]
    {
      assert (runs + [r])[i] == runs[i];
    }
  }

  /** Taking one more file appends its run. */
  lemma RunsSnoc(files: seq<string>, timestamps: seq<string>, heads: seq<Result<string, string>>,
                 llm: Agents.Prompt -> Agents.Reply, run: string -> Tools.ProcessOutcome, i: int)
    requires |timestamps| == |files| && |heads| == |files| && 0 <= i < |files|
    ensures Runs(files[..i + 1], timestamps[..i + 1], heads[..i + 1], llm, run)
      == Runs(files[..i], timestamps[..i], heads[..i], llm, run) + [RunAgents(files[i], timestamps[i], heads[i], llm, run)]
  {
    assert files[..i + 1][..i] == files[..i];
    assert timestamps[..i + 1][..i] == timestamps[..i];
    assert heads[..i + 1][..i] == heads[..i];
  }

  /** Taking one more run appends its record, its messages and its script. */
  lemma BatchStep(files: seq<string>, runs: seq<FileRun>, r: FileRun, scripts: map<string, string>)
    requires |files| == |runs| + 1
    ensures Report(files, Outcomes(runs + [r])) == Report(files[..|runs|], Outcomes(runs)) + [ProcessFile(files[|runs|], r.outcome)]
    ensures BatchLog(runs + [r]) == BatchLog(runs) + r.log
    ensures ScriptsAfter(scripts, runs + [r]) == ScriptsAfterRun(ScriptsAfter(scripts, runs), r)
  {
    assert (runs + [r])[..|runs|] == runs;
    OutcomesSnoc(runs, r);
    ReportSnoc(files, Outcomes(runs + [r]));
  }

  lemma ConcatAssoc<T>(a: seq<T>, b: seq<T>, c: seq<T>)
    ensures a + b + c == a + (b + c)
  {
  }

  /** The batch after its first `i` files: the report, the messages and the
      script slots those files' runs produce. */
  ghost predicate BatchAfter(csvFiles: seq<string>, timestamps: seq<string>, csvHeads: seq<Result<string, string>>,
                             llm: Agents.Prompt -> Agents.Reply, run: string -> Tools.ProcessOutcome, i: int,
                             report: seq<Record>, messages0: seq<RunEngine.LogLine>, messages: seq<RunEngine.LogLine>,
                             scripts0: map<string, string>, scripts: map<string, string>)
    requires |timestamps| == |csvFiles| && |csvHeads| == |csvFiles| && 0 <= i <= |csvFiles|
  {
    var runs := Runs(csvFiles[..i], timestamps[..i], csvHeads[..i], llm, run);
    && report == Report(csvFiles[..i], Outcomes(runs))
    && messages == messages0 + BatchLog(runs)
    && scripts == ScriptsAfter(scripts0, runs)
  }

  /** One pass of the per-file loop: file `i` processed and its record
      appended to the report. */
  method ProcessNext(csvFiles: seq<string>, timestamps: seq<string>, csvHeads: seq<Result<string, string>>,
                     engine: RunEngine.Engine, workspace: Tools.Workspace,
                     llm: Agents.Prompt -> Agents.Reply, run: string -> Tools.ProcessOutcome,
                     i: int, report: seq<Record>, ghost messages0: seq<RunEngine.LogLine>, ghost scripts0: map<string, string>)
    returns (report': seq<Record>)
    requires |timestamps| == |csvFiles| && |csvHeads| == |csvFiles| && 0 <= i < |csvFiles|
    requires BatchAfter(csvFiles, timestamps, csvHeads, llm, run, i, report, messages0, engine.messages, scripts0, workspace.scripts)
    modifies engine`messages, workspace`scripts
    ensures BatchAfter(csvFiles, timestamps, csvHeads, llm, run, i + 1, report', messages0, engine.messages, scripts0, workspace.scripts)
  {
    ghost var earlier := Runs(csvFiles[..i], timestamps[..i], csvHeads[..i], llm, run);
    ghost var r := RunAgents(csvFiles[i], timestamps[i], csvHeads[i], llm, run);
    var record := ProcessCsvFile(csvFiles[i], timestamps[i], csvHeads[i], engine, workspace, llm, run);
    report' := report + [record];
    RunsSnoc(csvFiles, timestamps, csvHeads, llm, run, i);
    BatchStep(csvFiles[..i + 1], earlier, r, scripts0);
    ConcatAssoc(messages0, BatchLog(earlier), r.log);
    assert csvFiles[..i + 1][..i] == csvFiles[..i];
  }

  /** The per-file loop of `main`, taking the files in the order they were
      found; `timestamps` and `csvHeads` give each file's start time and
      preview. */
  method RunBatch(csvFiles: seq<string>, timestamps: seq<string>, csvHeads: seq<Result<string, string>>,
                  engine: RunEngine.Engine, workspace: Tools.Workspace,
                  llm: Agents.Prompt -> Agents.Reply, run: string -> Tools.ProcessOutcome)
    returns (sessionReport: seq<Record>)
    requires |timestamps| == |csvFiles| && |csvHeads| == |csvFiles|
    modifies engine`messages, workspace`scripts
    ensures var runs := Runs(csvFiles, timestamps, csvHeads, llm, run);
      && sessionReport == Report(csvFiles, Outcomes(runs))
      && engine.messages == old(engine.messages) + BatchLog(runs)
      && workspace.scripts == ScriptsAfter(old(workspace.scripts), runs)
  {
    ghost var messages0, scripts0 := engine.messages, workspace.scripts;
    sessionReport := [];
    for i := 0 to |csvFiles|
      invariant BatchAfter(csvFiles, timestamps, csvHeads, llm, run, i, sessionReport,
                           messages0, engine.messages, scripts0, workspace.scripts)
    {
      sessionReport := ProcessNext(csvFiles, timestamps, csvHeads, engine, workspace, llm, run, i, sessionReport,
                                   messages0, scripts0);
    }
    BatchComplete(csvFiles, timestamps, csvHeads, llm, run, sessionReport,
                  messages0, engine.messages, scripts0, workspace.scripts);
  }

  /** The run of the i-th file is that file's own run: the other files'
      inputs play no part in it. This independence holds because `llm` and
      `run` are modelled as functions of their arguments alone; a generated
      script that reads a file an earlier file's script wrote (the Coder's
      prompt names one fixed target, data/cleaned_data.csv, for every file)
      is outside the model. */
  lemma {:induction false} RunsAt(files: seq<string>, timestamps: seq<string>, heads: seq<Result<string, string>>,
                                  llm: Agents.Prompt -> Agents.Reply, run: string -> Tools.ProcessOutcome, i: int)
    requires |timestamps| == |files| && |heads| == |files| && 0 <= i < |files|
    ensures Runs(files, timestamps, heads, llm, run)[i] == RunAgents(files[i], timestamps[i], heads[i], llm, run)
    decreases |files|
  {
    var n := |files| - 1;
    var earlier := Runs(files[..n], timestamps[..n], heads[..n], llm, run);
    assert Runs(files, timestamps, heads, llm, run) == earlier + [RunAgents(files[n], timestamps[n], heads[n], llm, run)];
    if i < n {
      RunsAt(files[..n], timestamps[..n], heads[..n], llm, run, i);
      assert files[..n][i] == files[i] && timestamps[..n][i] == timestamps[i] && heads[..n][i] == heads[i];
    }
  }

  /** The batch's i-th record is the record of the i-th file found, built
      from that file's own path, start time and preview: one file's failing
      stage changes no other file's record, given that `llm` and `run`
      depend on their arguments alone (scripts sharing files on disk are
      not modelled). */
  lemma BatchRecordAt(files: seq<string>, timestamps: seq<string>, heads: seq<Result<string, string>>,
                      llm: Agents.Prompt -> Agents.Reply, run: string -> Tools.ProcessOutcome, i: int)
    requires |timestamps| == |files| && |heads| == |files| && 0 <= i < |files|
    ensures var report := Report(files, Outcomes(Runs(files, timestamps, heads, llm, run)));
      && |report| == |files|
      && report[i] == ProcessFile(files[i], RunAgents(files[i], timestamps[i], heads[i], llm, run).outcome)
  {
    RunsAt(files, timestamps, heads, llm, run, i);
    ReportAt(files, Outcomes(Runs(files, timestamps, heads, llm, run)), i);
  }

  /** After the last file the batch is that of all the files. */
  lemma BatchComplete(csvFiles: seq<string>, timestamps: seq<string>, csvHeads: seq<Result<string, string>>,
                      llm: Agents.Prompt -> Agents.Reply, run: string -> Tools.ProcessOutcome,
                      report: seq<Record>, messages0: seq<RunEngine.LogLine>, messages: seq<RunEngine.LogLine>,
                      scripts0: map<string, string>, scripts: map<string, string>)
    requires |timestamps| == |csvFiles| && |csvHeads| == |csvFiles|
    requires BatchAfter(csvFiles, timestamps, csvHeads, llm, run, |csvFiles|, report, messages0, messages, scripts0, scripts)
    ensures var runs := Runs(csvFiles, timestamps, csvHeads, llm, run);
      && report == Report(csvFiles, Outcomes(runs))
      && messages == messages0 + BatchLog(runs)
      && scripts == ScriptsAfter(scripts0, runs)
  {
    assert csvFiles[..|csvFiles|] == csvFiles;
    assert timestamps[..|csvFiles|] == timestamps;
    assert csvHeads[..|csvFiles|] == csvHeads;
  }
}
