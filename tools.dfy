/** The code executor: the generated script is written to a fixed-name file in
    the working directory, run in a child interpreter with a 30-second
    timeout, and its outcome is encoded as one prefixed string. */
module Tools {
  import opened Results

  const TempScriptName := "temp_agent_script.py"
  const DefaultCwd := "."

  const SuccessPrefix := "SUCCESS:\n"
  const ErrorPrefix := "ERROR:\n"
  const FailedPrefix := "EXECUTION FAILED: "

  /** What running the child process turned out to be: it exited with a
      return code and its captured output, or the call raised (the timeout,
      a missing interpreter, undecodable output) with the exception's text. */
  datatype ProcessOutcome =
    | Exited(returnCode: int, stdout: string, stderr: string)
    | Raised(message: string)

  /** The outcome kinds the encoded string distinguishes, with the text each
      one carries. */
  datatype ExecutionResult =
    | Succeeded(output: string)
    | Errored(errors: string)
    | ExecutionFailed(message: string)

  /** The kind of an outcome and the text kept for it: stdout on a zero exit
      code, stderr on any other, the message of an exception. */
  function Classify(o: ProcessOutcome): ExecutionResult
  {
    match o
    case Exited(code, out, err) => if code == 0 then Succeeded(out) else Errored(err)
    case Raised(m) => ExecutionFailed(m)
  }

  /** The string `execute_python_code` returns for an outcome. */
  function EncodeResult(o: ProcessOutcome): string
  {
    match o
    case Exited(code, out, err) =>
      if code == 0 then SuccessPrefix + out else ErrorPrefix + err
    case Raised(m) => FailedPrefix + m
  }

  /** Which of the three prefixes the encoded string opens with tells the
      outcome's kind. */
  lemma EncodeResultPrefix(o: ProcessOutcome)
    ensures var r := EncodeResult(o);
      && (HasPrefix(r, SuccessPrefix) <==> o.Exited? && o.returnCode == 0)
      && (HasPrefix(r, ErrorPrefix) <==> o.Exited? && o.returnCode != 0)
      && (HasPrefix(r, FailedPrefix) <==> o.Raised?)
  {
    var r := EncodeResult(o);
    assert SuccessPrefix[0] != ErrorPrefix[0] && SuccessPrefix[0] != FailedPrefix[0];
    assert ErrorPrefix[1] != FailedPrefix[1];
    match o
    case Exited(code, out, err) =>
      if code == 0 {
        assert r[..|SuccessPrefix|] == SuccessPrefix;
      } else {
        assert r[..|ErrorPrefix|] == ErrorPrefix;
      }
    case Raised(m) =>
      assert r[..|FailedPrefix|] == FailedPrefix;
  }

  predicate HasPrefix(s: string, prefix: string)
  {
    |prefix| <= |s| && s[..|prefix|] == prefix
  }

  /** Reads the kind and the text back from an encoded string. */
  function DecodeResult(r: string): Option<ExecutionResult>
  {
    if HasPrefix(r, SuccessPrefix) then Some(Succeeded(r[|SuccessPrefix|..]))
    else if HasPrefix(r, ErrorPrefix) then Some(Errored(r[|ErrorPrefix|..]))
    else if HasPrefix(r, FailedPrefix) then Some(ExecutionFailed(r[|FailedPrefix|..]))
    else None
  }

  /** No prefix is a prefix of another, so the first one found is the only one. */
  lemma PrefixesDistinct()
    ensures !HasPrefix(SuccessPrefix, ErrorPrefix) && !HasPrefix(ErrorPrefix, SuccessPrefix)
    ensures !HasPrefix(SuccessPrefix, FailedPrefix) && !HasPrefix(FailedPrefix, SuccessPrefix)
    ensures !HasPrefix(ErrorPrefix, FailedPrefix) && !HasPrefix(FailedPrefix, ErrorPrefix)
  {
    assert SuccessPrefix[0] != ErrorPrefix[0] && SuccessPrefix[0] != FailedPrefix[0];
    assert ErrorPrefix[1] != FailedPrefix[1];
  }

  /** The encoded string determines the outcome's kind and its text. */
  lemma {:induction false} DecodeEncode(o: ProcessOutcome)
    ensures DecodeResult(EncodeResult(o)) == Some(Classify(o))
  {
    var r := EncodeResult(o);
    match o
    case Exited(code, out, err) =>
      if code == 0 {
        assert r[..|SuccessPrefix|] == SuccessPrefix;
      } else {
        assert r[..|ErrorPrefix|] == ErrorPrefix;
        assert r[0] != SuccessPrefix[0];
      }
    case Raised(m) =>
      assert r[..|FailedPrefix|] == FailedPrefix;
      assert r[0] != SuccessPrefix[0];
      assert r[1] != ErrorPrefix[1];
  }

  /** Two outcomes with the same encoding are of the same kind and carry the
      same text. */
  lemma EncodeDeterminesKind(o1: ProcessOutcome, o2: ProcessOutcome)
    requires EncodeResult(o1) == EncodeResult(o2)
    ensures Classify(o1) == Classify(o2)
  {
    DecodeEncode(o1);
    DecodeEncode(o2);
  }

  /** On a nonzero exit code the captured stdout is discarded: only the exit
      code's being nonzero and stderr reach the result. */
  lemma ErrorDiscardsStdout(code1: int, code2: int, out1: string, out2: string, err: string)
    requires code1 != 0 && code2 != 0
    ensures EncodeResult(Exited(code1, out1, err)) == EncodeResult(Exited(code2, out2, err))
  {
  }

  /** `os.path.join(directory, name)` (POSIX): an absolute `name` replaces
      the directory; otherwise a '/' is inserted unless the directory is
      empty or already ends with one. */
  function JoinPath(directory: string, name: string): string
  {
    if name != [] && name[0] == '/' then name
    else if directory == [] || directory[|directory| - 1] == '/' then directory + name
    else directory + "/" + name
  }

  /** The joined path ends with the name; an absolute name is the whole
      path, and otherwise the path starts with the directory. */
  lemma JoinPathShape(directory: string, name: string)
    ensures var path := JoinPath(directory, name);
      && |name| <= |path| && path[|path| - |name|..] == name
      && (name != [] && name[0] == '/' ==> path == name)
      && ((name == [] || name[0] != '/') ==> |directory| <= |path| && path[..|directory|] == directory)
  {
  }

  /** The fixed slot `os.path.join(cwd, "temp_agent_script.py")`. */
  function TempScriptPath(cwd: string): string
  {
    JoinPath(cwd, TempScriptName)
  }

  /** The slot is the working directory followed by the script's name. */
  lemma TempScriptPathShape(cwd: string)
    ensures var path := TempScriptPath(cwd);
      && |cwd| + |TempScriptName| <= |path| && path[..|cwd|] == cwd
      && path[|path| - |TempScriptName|..] == TempScriptName
  {
    JoinPathShape(cwd, TempScriptName);
  }

  /** The files the executor writes: the temporary script of each working
      directory, keyed by the path string `os.path.join` builds. Two
      spellings of one file (a relative and an absolute path, say) are two
      keys here, so "every other file is kept" speaks of path strings. */
  class Workspace {
    var scripts: map<string, string>

    constructor (scripts: map<string, string>)
      ensures this.scripts == scripts
    {
      this.scripts := scripts;
    }

    /** `execute_python_code(code, cwd)`. The script file is overwritten with
        `code` and left in place; the child process runs what the file then
        holds, and `run` gives how that run turned out. */
    method ExecutePythonCode(code: string, cwd: string, run: string -> ProcessOutcome)
      returns (result: string)
      modifies this`scripts
      ensures scripts == old(scripts)[TempScriptPath(cwd) := code]
      ensures result == EncodeResult(run(code))
    {
      var path := TempScriptPath(cwd);
      scripts := scripts[path := code];
      var outcome := run(scripts[path]);
      if outcome.Exited? {
        if outcome.returnCode == 0 {
          result := SuccessPrefix + outcome.stdout;
        } else {
          result := ErrorPrefix + outcome.stderr;
        }
      } else {
        result := FailedPrefix + outcome.message;
      }
    }
  }
}
