/** The run engine: the log every agent writes to, and a durable key-value
    store kept as one JSON object in the session file and rewritten whole on
    every save. */
module RunEngine {
  import opened Results

  const DefaultSessionFile := "state/session.json"

  /** A JSON value (numbers are modelled as integers). */
  datatype Json =
    | JNull
    | JBool(b: bool)
    | JNumber(n: int)
    | JString(s: string)
    | JArray(items: seq<Json>)
    | JObject(fields: map<string, Json>)

  /** What loading the session file finds: no file; a file that cannot be
      opened or read as text (the error propagates); text that is not JSON
      (`JSONDecodeError`, which resets the state); or a JSON value. */
  datatype Document =
    | Missing
    | Unreadable(reason: string)
    | Malformed
    | Parsed(value: Json)

  /** Why `save_state` raised: the file could not be read, or its JSON value
      is not an object, so the item assignment fails. */
  datatype SaveError = ReadFailed(reason: string) | NotAnObject

  datatype SaveOutcome = Saved | Failed(error: SaveError)

  /** The object `save_state(key, value)` writes back, or the error it raises
      before writing anything. */
  function SaveResult(stored: Document, key: string, value: Json): (r: Result<map<string, Json>, SaveError>)
    ensures r.Ok? ==> key in r.value && r.value[key] == value
    ensures r.Ok? <==> (stored.Missing? || stored.Malformed? || (stored.Parsed? && stored.value.JObject?))
    ensures stored.Missing? || stored.Malformed? ==> r == Ok(map[key := value])
    ensures stored.Parsed? && stored.value.JObject? ==>
      r.Ok? && r.value.Keys == stored.value.fields.Keys + {key} &&
      forall k | k in stored.value.fields && k != key :: r.value[k] == stored.value.fields[k]
    ensures stored.Unreadable? ==> r == Err(ReadFailed(stored.reason))
  {
    match stored
    case Missing => Ok(map[key := value])
    case Malformed => Ok(map[key := value])
    case Unreadable(reason) => Err(ReadFailed(reason))
    case Parsed(v) => if v.JObject? then Ok(v.fields[key := value]) else Err(NotAnObject)
  }

  /** The session file after `save_state(key, value)`: the written object, or
      the file as it was when the call raised. */
  function DocumentAfter(stored: Document, key: string, value: Json): (after: Document)
    ensures SaveResult(stored, key, value).Ok? ==> after.Parsed? && after.value.JObject? && Lookup(after, key) == Some(value)
    ensures SaveResult(stored, key, value).Err? ==> after == stored
  {
    match SaveResult(stored, key, value)
    case Ok(fields) => Parsed(JObject(fields))
    case Err(_) => stored
  }

  function OutcomeOf(r: Result<map<string, Json>, SaveError>): SaveOutcome
  {
    match r
    case Ok(_) => Saved
    case Err(e) => Failed(e)
  }

  /** The stored value of `key`, if the document holds an object with it. */
  function Lookup(stored: Document, key: string): Option<Json>
  {
    if stored.Parsed? && stored.value.JObject? && key in stored.value.fields
    then Some(stored.value.fields[key])
    else None
  }

  /** A successful save is read back by the next load. */
  lemma SaveThenLookup(stored: Document, key: string, value: Json)
    requires SaveResult(stored, key, value).Ok?
    ensures Lookup(DocumentAfter(stored, key, value), key) == Some(value)
  {
  }

  /** Two saves to one key leave the later value, as if the earlier save had
      not happened. */
  lemma SaveTwiceKeepsLater(stored: Document, key: string, first: Json, second: Json)
    ensures DocumentAfter(DocumentAfter(stored, key, first), key, second) == DocumentAfter(stored, key, second)
  {
    match stored
    case Parsed(v) =>
      if v.JObject? {
        assert v.fields[key := first][key := second] == v.fields[key := second];
      }
    case Unreadable(_) =>
    case _ =>
      assert map[key := first][key := second] == map[key := second];
  }

  /** Saving another key keeps an earlier save. */
  lemma SaveKeepsOtherKey(stored: Document, key: string, value: Json, other: string, v: Json)
    requires other != key
    requires Lookup(stored, other) == Some(v)
    ensures Lookup(DocumentAfter(stored, key, value), other) == Some(v)
  {
  }

  /** The text handed to the logger for one agent action: the agent's name
      in brackets, the action, and after a colon the details. */
  function LogMessage(agent: string, action: string, details: string): (m: string)
    ensures |m| == |agent| + |action| + |details| + 5
    ensures m[..|agent| + 3] == "[" + agent + "] "
    ensures m[|agent| + 3..|agent| + 3 + |action|] == action
    ensures m[|m| - |details| - 2..] == ": " + details
  {
    "[" + agent + "] " + action + ": " + details
  }

  /** The agent's name can be read back from the message when it holds no
      closing bracket: it is what stands between the opening bracket and the
      first closing one. */
  lemma LogMessageNamesAgent(agent: string, action: string, details: string)
    requires ']' !in agent
    ensures var m := LogMessage(agent, action, details);
      |m| > |agent| + 1 && m[0] == '[' && m[1..|agent| + 1] == agent && m[|agent| + 1] == ']' &&
      forall i | 0 <= i <= |agent| :: m[i] != ']'
  {
    var m := LogMessage(agent, action, details);
    assert m == "[" + agent + "] " + action + ": " + details;
    assert forall i | 1 <= i <= |agent| :: m[i] == agent[i - 1];
  }

  const InitializedText := "Engine Initialized. Logging to "

  /** One message handed to the logger: the engine's start-up notice naming
      the log file, or an agent's action with its details. */
  datatype LogLine =
    | Initialized(logFile: string)
    | AgentAction(agent: string, action: string, details: string)

  /** The text the logger receives for a line. An agent's line opens with
      '[' and the start-up notice does not, so the two kinds never share a
      text. */
  function LineText(line: LogLine): (text: string)
    ensures |text| > 0 && (text[0] == '[' <==> line.AgentAction?)
    ensures line.AgentAction? ==> text == LogMessage(line.agent, line.action, line.details)
    ensures line.Initialized? ==>
      |text| == |InitializedText| + |line.logFile| &&
      text[..|InitializedText|] == InitializedText && text[|InitializedText|..] == line.logFile
  {
    match line
    case Initialized(logFile) => InitializedText + logFile
    case AgentAction(agent, action, details) => LogMessage(agent, action, details)
  }

  /** The run's log file, named after the time the engine started. */
  function LogFileName(timestamp: string): (name: string)
    ensures |name| == |timestamp| + 13
    ensures name[..9] == "logs/run_" && name[9..9 + |timestamp|] == timestamp && name[|name| - 4..] == ".log"
  {
    "logs/run_" + timestamp + ".log"
  }

  /** The engine: the session file it persists state to, the run's log file,
      the messages logged so far (their text is `LineText`), and the session
      file's current content. */
  class Engine {
    const sessionFile: string
    const logFile: string
    var messages: seq<LogLine>
    var document: Document

    /** `Engine(session_file)`. `timestamp` is the start time as the log file
        name spells it, and `stored` what the session file holds. */
    constructor (timestamp: string, stored: Document, sessionFile: string := DefaultSessionFile)
      ensures this.sessionFile == sessionFile && logFile == LogFileName(timestamp)
      ensures document == stored
      ensures messages == [Initialized(LogFileName(timestamp))]
    {
      this.sessionFile := sessionFile;
      logFile := LogFileName(timestamp);
      document := stored;
      messages := [Initialized(LogFileName(timestamp))];
    }

    /** `log(agent, action, details)`: one message, appended. */
    method Log(agent: string, action: string, details: string)
      modifies this`messages
      ensures messages == old(messages) + [AgentAction(agent, action, details)]
    {
      messages := messages + [AgentAction(agent, action, details)];
    }

    /** `save_state(key, value)`: load the file (nothing there, or text that
        is not JSON, counts as an empty object), assign the key, write the
        whole object back. An unreadable file or a JSON value other than an
        object raises before anything is written. */
    method SaveState(key: string, value: Json) returns (outcome: SaveOutcome)
      modifies this`document
      ensures outcome == OutcomeOf(SaveResult(old(document), key, value))
      ensures document == DocumentAfter(old(document), key, value)
    {
      var data: Json := JObject(map[]);
      match document {
        case Missing =>
        case Unreadable(reason) =>
          return Failed(ReadFailed(reason));
        case Malformed =>
          data := JObject(map[]);
        case Parsed(v) =>
          data := v;
      }
      if !data.JObject? {
        return Failed(NotAnObject);
      }
      var fields := data.fields;
      fields := fields[key := value];
      document := Parsed(JObject(fields));
      outcome := Saved;
    }
  }
}
