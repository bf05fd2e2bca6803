/**
 * The three collaborators of `Application`: a logger, a secret manager and a
 * command runner. Each is a one-method interface in the program; here each is
 * the recording test double that drives it: it appends every call to a list
 * and answers with a scripted result.
 */
module Collaborators {
  import opened Basics

  /** The structured `data` argument of a log call, one variant per call site of `Run`. */
  datatype LogData =
    | NoData
    | SecretNameData(secretName: string)
    | KeysData(keys: seq<string>)
    | CommandData(commandPath: string, args: seq<string>)
    | ErrorData(error: string)

  /** One recorded `Log(level, message, data)` call. */
  datatype LogEntry = LogEntry(level: string, message: string, data: LogData)

  /** One recorded `Run(commandPath, args, env)` call. */
  datatype Execution = Execution(path: string, args: seq<string>, env: seq<string>)

  /** A Logger that records every entry instead of writing it out. */
  class MockLogger {
    var logs: seq<LogEntry>

    constructor ()
      ensures logs == []
    {
      logs := [];
    }

    method Log(level: string, message: string, data: LogData)
      modifies this
      ensures logs == old(logs) + [LogEntry(level, message, data)]
    {
      logs := logs + [LogEntry(level, message, data)];
    }
  }

  /**
   * A SecretManager with a fixed table of secrets and an optional error that
   * every call returns; it records the name of every call.
   */
  class MockSecretManager {
    const secrets: map<string, string>
    const error: Option<string>
    var calls: seq<string>

    constructor (secrets: map<string, string>, error: Option<string>)
      ensures this.secrets == secrets && this.error == error && calls == []
    {
      this.secrets := secrets;
      this.error := error;
      calls := [];
    }

    /** The answer to `GetSecret(name)`: the scripted error, the stored secret, or "secret not found". */
    function Fetch(name: string): Result<string, string>
    {
      if error.Some? then Err(error.value)
      else if name in secrets then Ok(secrets[name])
      else Err("secret not found: " + name)
    }

    /** The three answers of the store: the scripted error first, then the table, then "secret not found". */
    lemma FetchOutcome(name: string)
      ensures Fetch(name).Ok? <==> error.None? && name in secrets
      ensures Fetch(name).Ok? ==> Fetch(name).value == secrets[name]
      ensures error.Some? ==> Fetch(name) == Err(error.value)
      ensures error.None? && name !in secrets ==> Fetch(name) == Err("secret not found: " + name)
    {
    }

    method GetSecret(secretName: string) returns (r: Result<string, string>)
      modifies this
      ensures calls == old(calls) + [secretName]
      ensures r == Fetch(secretName)
    {
      calls := calls + [secretName];
      r := Fetch(secretName);
    }
  }

  /** A CommandRunner that records every launch and returns a scripted error (None is Go's nil). */
  class MockCommandRunner {
    const returnError: Option<string>
    var executed: seq<Execution>

    constructor (returnError: Option<string>)
      ensures this.returnError == returnError && executed == []
    {
      this.returnError := returnError;
      executed := [];
    }

    method Run(commandPath: string, args: seq<string>, env: seq<string>) returns (err: Option<string>)
      modifies this
      ensures executed == old(executed) + [Execution(commandPath, args, env)]
      ensures err == returnError
    {
      executed := executed + [Execution(commandPath, args, env)];
      err := returnError;
    }
  }
}
