/** The three agent roles. Each run logs its start, calls the language model
    once, post-processes the reply and logs its completion; an exception from
    the model propagates to the caller with nothing further logged. */
module Agents {
  import opened Results
  import opened RunEngine
  import Tools
  import Fences
  import PyStr

  /** The prompt a role sends, with the data it embeds; the fixed wording
      around that data is not modelled. */
  datatype Prompt =
    | AnalysisPrompt(csvHead: string)
    | CodingPrompt(issues: string, instruction: string)
    | ReviewPrompt(issues: string, executionLog: string, code: string)

  /** One `llm.invoke` call: the response's content, or the message of the
      exception it raised. */
  datatype Reply = Responded(content: string) | Raised(message: string)

  /** A reply as the run returns it: the content unmodified, or the
      exception passed on. */
  function Propagate(reply: Reply): (r: Result<string, string>)
    ensures r.Ok? <==> reply.Responded?
    ensures r.Ok? ==> r.value == reply.content
    ensures r.Err? ==> r.error == reply.message
  {
    match reply
    case Responded(content) => Ok(content)
    case Raised(message) => Err(message)
  }

  const AnalystStartDetails := "Analyzing CSV structure for quality issues"
  const AnalystDoneDetails := "Analysis finished"
  const CoderStartDetails := "Generating cleaning code based on analysis"
  const CoderActionDetails := "Executing generated Python code..."
  const CoderResultDetails := "Code execution finished"
  const ReviewerStartDetails := "Evaluating the cleaning process"

  /** An agent: its name, the engine it logs through, and the model it asks.
      The model is a function from prompt to reply, fixed for the agent's
      lifetime. The three roles share this state and differ only in their
      run methods. */
  class Agent {
    const name: string
    const engine: Engine
    const llm: Prompt -> Reply

    constructor (name: string, engine: Engine, llm: Prompt -> Reply)
      ensures this.name == name && this.engine == engine && this.llm == llm
    {
      this.name := name;
      this.engine := engine;
      this.llm := llm;
    }

    /** `log(action, details)`: an engine message tagged with the agent's name. */
    method Log(action: string, details: string)
      modifies engine`messages
      ensures engine.messages == old(engine.messages) + [AgentAction(name, action, details)]
    {
      engine.Log(name, action, details);
    }

    /** `AnalystAgent.run(csv_head_str)`: the model's list of issues in the
        preview, unmodified. */
    method AnalystRun(csvHead: string) returns (result: Result<string, string>)
      modifies engine`messages
      ensures result == Propagate(llm(AnalysisPrompt(csvHead)))
      ensures engine.messages == old(engine.messages) + [AgentAction(name, "Start", AnalystStartDetails)] +
        (if result.Ok? then [AgentAction(name, "Complete", AnalystDoneDetails)] else [])
    {
      Log("Start", AnalystStartDetails);
      var response := llm(AnalysisPrompt(csvHead));
      if response.Raised? {
        return Err(response.message);
      }
      var content := response.content;
      Log("Complete", AnalystDoneDetails);
      result := Ok(content);
    }

    /** `CoderAgent.run(issues_list, file_path)`: the reply cleaned of code
        fences, run through the executor in the current directory; returns
        that run's encoded result and the code that was run. */
    method CoderRun(issues: string, instruction: string, workspace: Tools.Workspace,
                    run: string -> Tools.ProcessOutcome)
      returns (result: Result<(string, string), string>)
      modifies engine`messages, workspace`scripts
      ensures result.Err? <==> llm(CodingPrompt(issues, instruction)).Raised?
      ensures result.Err? ==>
        && result.error == llm(CodingPrompt(issues, instruction)).message
        && workspace.scripts == old(workspace.scripts)
        && engine.messages == old(engine.messages) + [AgentAction(name, "Start", CoderStartDetails)]
      ensures result.Ok? ==>
        var code := Fences.CleanCode(llm(CodingPrompt(issues, instruction)).content);
        && result.value == (Tools.EncodeResult(run(code)), code)
        && workspace.scripts == old(workspace.scripts)[Tools.TempScriptPath(Tools.DefaultCwd) := code]
        && engine.messages == old(engine.messages) + [
             AgentAction(name, "Start", CoderStartDetails),
             AgentAction(name, "Action", CoderActionDetails),
             AgentAction(name, "Result", CoderResultDetails)]
    {
      Log("Start", CoderStartDetails);
      var response := llm(CodingPrompt(issues, instruction));
      if response.Raised? {
        result := Err(response.message);
        assert response == llm(CodingPrompt(issues, instruction));
        return;
      }
      var rawCode := response.content;
      var cleanCode := Fences.CleanCode(rawCode);
      Log("Action", CoderActionDetails);
      var executionResult := workspace.ExecutePythonCode(cleanCode, Tools.DefaultCwd, run);
      Log("Result", CoderResultDetails);
      result := Ok((executionResult, cleanCode));
      assert response == llm(CodingPrompt(issues, instruction));
    }

    /** `ReviewerAgent.run(original_issues, execution_log, code_snippet)`:
        the model's grading text, unmodified; the completion message quotes it. */
    method ReviewerRun(issues: string, executionLog: string, code: string)
      returns (result: Result<string, string>)
      modifies engine`messages
      ensures result == Propagate(llm(ReviewPrompt(issues, executionLog, code)))
      ensures engine.messages == old(engine.messages) + [AgentAction(name, "Start", ReviewerStartDetails)] +
        (if result.Ok? then [AgentAction(name, "Complete", "Evaluation: " + result.value)] else [])
    {
      Log("Start", ReviewerStartDetails);
      var response := llm(ReviewPrompt(issues, executionLog, code));
      if response.Raised? {
        return Err(response.message);
      }
      var content := response.content;
      Log("Complete", "Evaluation: " + content);
      result := Ok(content);
    }
  }

  /** The code the Coder hands on carries no fence and no surrounding
      whitespace, and cleaning it again would not change it. */
  lemma CoderCodeIsClean(content: string)
    ensures var code := Fences.CleanCode(content);
      PyStr.Absent(code, Fences.Fence) && PyStr.Trimmed(code) && Fences.CleanCode(code) == code
  {
    Fences.CleanCodeClean(content);
    Fences.CleanCodeIdempotent(content);
  }
}
