/**
 * `Application.Run`: check the argument count, scan the arguments, fetch and
 * decode every referenced secret (stopping at the first fetch error), append
 * the merged secrets to the inherited environment, and launch the command
 * once, logging each step through the injected logger.
 */
module Launcher {
  import opened Basics
  import opened SecretDecoding
  import opened ArgumentScan
  import opened Environment
  import opened Collaborators

  /** The usage text; written as its `Usage:` head plus the rest so that the head can be read off it. */
  const UsageMessage: string := "Usage:" + " go run main.go <command_path> [args...] [--key SECRET_NAME]"

  /** The three errors `Run` can return. */
  datatype RunError =
    | UsageError
    | SecretFetchError(name: string, cause: string)
    | LaunchError(cause: string)
  {
    /** The text of the returned Go error (`%w` contributes the cause's own text). */
    function Message(): (m: string)
      ensures UsageError? ==> |m| >= 6 && m[..6] == "Usage:"
      ensures SecretFetchError? ==> |m| >= 21 + |name| && m[..21] == "failed to get secret " && m[21..21 + |name|] == name
      ensures LaunchError? ==> |m| >= 23 && m[..23] == "Command execution error"
    {
      match this
      case UsageError => UsageMessage
      case SecretFetchError(name, cause) => "failed to get secret " + name + ": " + cause
      case LaunchError(cause) => "Command execution error: " + cause
    }
  }

  lemma UsageErrorMentionsUsage()
    ensures Contains(UsageError.Message(), "Usage:")
  {
    assert UsageMessage[..6] == "Usage:";
  }

  /** A fetch error says that fetching failed and names the secret. */
  lemma FetchErrorNamesSecret(name: string, cause: string)
    ensures Contains(SecretFetchError(name, cause).Message(), "failed to get secret")
    ensures Contains(SecretFetchError(name, cause).Message(), name)
  {
    var m := SecretFetchError(name, cause).Message();
    assert m[..20] == "failed to get secret";
    assert m[21..21 + |name|] == name;
    ContainsAt(m, name, 21);
  }

  lemma LaunchErrorMentionsExecution(cause: string)
    ensures Contains(LaunchError(cause).Message(), "Command execution error")
  {
    assert LaunchError(cause).Message()[..23] == "Command execution error";
  }

  // The log entries `Run` records, in the order it records them.

  function FetchingEntry(secretName: string): LogEntry {
    LogEntry("info", "Fetching secret from AWS Secrets Manager", SecretNameData(secretName))
  }

  /** The "Retrieved secret keys" entry for a decoded secret: its keys (never its values), in map order. */
  ghost predicate KeysEntry(e: LogEntry, secretMap: map<string, string>) {
    && e.level == "info"
    && e.message == "Retrieved secret keys"
    && e.data.KeysData?
    && Enumerates(e.data.keys, secretMap)
  }

  function ExecutingEntry(commandPath: string, args: seq<string>): LogEntry {
    LogEntry("info", "Executing command", CommandData(commandPath, args))
  }

  function FailedEntry(cause: string): LogEntry {
    LogEntry("error", "Command execution failed", ErrorData(cause))
  }

  function SucceededEntry(): LogEntry {
    LogEntry("info", "Command executed successfully", NoData)
  }

  /** `L` is the pair of entries per fetched secret: "Fetching" with its name, then its keys. */
  ghost predicate ResolutionLog(L: seq<LogEntry>, names: seq<string>, maps: seq<map<string, string>>)
    decreases |names|
  {
    if names == [] then L == [] && maps == []
    else
      && |L| >= 2 && |maps| == |names|
      && L[|L| - 2] == FetchingEntry(names[|names| - 1])
      && KeysEntry(L[|L| - 1], maps[|maps| - 1])
      && ResolutionLog(L[..|L| - 2], names[..|names| - 1], maps[..|maps| - 1])
  }

  lemma ResolutionLogExtend(L: seq<LogEntry>, names: seq<string>, maps: seq<map<string, string>>,
                            name: string, secretMap: map<string, string>, entries: seq<LogEntry>)
    requires ResolutionLog(L, names, maps)
    requires |entries| == 2 && entries[0] == FetchingEntry(name) && KeysEntry(entries[1], secretMap)
    ensures ResolutionLog(L + entries, names + [name], maps + [secretMap])
  {
    var L' := L + entries;
    assert L'[..|L'| - 2] == L;
    assert (names + [name])[..|names|] == names;
    assert (maps + [secretMap])[..|maps|] == maps;
    if names == [] {
      assert maps == [];
    }
  }

  /** A resolution log holds exactly two entries per secret, in the order of the names. */
  lemma {:induction false} ResolutionLogShape(L: seq<LogEntry>, names: seq<string>, maps: seq<map<string, string>>)
    requires ResolutionLog(L, names, maps)
    ensures |L| == 2 * |names| && |maps| == |names|
    ensures forall i :: 0 <= i < |names| ==> L[2 * i] == FetchingEntry(names[i]) && KeysEntry(L[2 * i + 1], maps[i])
    decreases |names|
  {
    if names != [] {
      ResolutionLogShape(L[..|L| - 2], names[..|names| - 1], maps[..|maps| - 1]);
    }
  }

  /** The log of a run that stopped at the fetch of `failed`. */
  ghost predicate AbortLog(L: seq<LogEntry>, names: seq<string>, maps: seq<map<string, string>>, failed: string) {
    && |L| >= 1
    && ResolutionLog(L[..|L| - 1], names, maps)
    && L[|L| - 1] == FetchingEntry(failed)
  }

  /** The log of a run that reached the launch, whose runner answered `outcome`. */
  ghost predicate LaunchLog(L: seq<LogEntry>, names: seq<string>, maps: seq<map<string, string>>,
                            commandPath: string, args: seq<string>, outcome: Option<string>) {
    && |L| >= 2
    && ResolutionLog(L[..|L| - 2], names, maps)
    && L[|L| - 2] == ExecutingEntry(commandPath, args)
    && L[|L| - 1] == (if outcome.Some? then FailedEntry(outcome.value) else SucceededEntry())
  }

  /** A launch log is the resolution log's pairs followed by the "Executing" entry and the outcome entry. */
  lemma LaunchLogShape(L: seq<LogEntry>, names: seq<string>, maps: seq<map<string, string>>,
                       commandPath: string, args: seq<string>, outcome: Option<string>)
    requires LaunchLog(L, names, maps, commandPath, args, outcome)
    ensures |L| == 2 * |names| + 2
    ensures forall i :: 0 <= i < |names| ==> L[2 * i] == FetchingEntry(names[i]) && KeysEntry(L[2 * i + 1], maps[i])
    ensures L[2 * |names|] == ExecutingEntry(commandPath, args)
    ensures L[2 * |names| + 1] == (if outcome.Some? then FailedEntry(outcome.value) else SucceededEntry())
  {
    ResolutionLogShape(L[..|L| - 2], names, maps);
  }

  /** The map `Run` merges for `secretName`: its fetched text, decoded (only used once the fetch succeeded). */
  function DecodeFetched(unmarshal: Unmarshaler, store: MockSecretManager, secretName: string): map<string, string> {
    ParseSecretJson(unmarshal, store.Fetch(secretName).GetOr(""))
  }

  lemma LaunchLogExtend(L: seq<LogEntry>, names: seq<string>, maps: seq<map<string, string>>,
                        commandPath: string, args: seq<string>, outcome: Option<string>)
    requires ResolutionLog(L, names, maps)
    ensures LaunchLog(L + [ExecutingEntry(commandPath, args),
                           if outcome.Some? then FailedEntry(outcome.value) else SucceededEntry()],
                      names, maps, commandPath, args, outcome)
  {
    var tail := [ExecutingEntry(commandPath, args), if outcome.Some? then FailedEntry(outcome.value) else SucceededEntry()];
    assert (L + tail)[..|L|] == L;
  }

  /** The decoded secret of each name, in order. */
  function DecodedSecrets(unmarshal: Unmarshaler, store: MockSecretManager, names: seq<string>): (r: seq<map<string, string>>)
    ensures |r| == |names|
  {
    if names == [] then []
    else DecodedSecrets(unmarshal, store, names[..|names| - 1]) + [DecodeFetched(unmarshal, store, names[|names| - 1])]
  }

  lemma DecodedSecretsSnoc(unmarshal: Unmarshaler, store: MockSecretManager, names: seq<string>, name: string)
    ensures DecodedSecrets(unmarshal, store, names + [name])
         == DecodedSecrets(unmarshal, store, names) + [DecodeFetched(unmarshal, store, name)]
  {
    assert (names + [name])[..|names|] == names;
  }

  lemma AllFetchedSnoc(store: MockSecretManager, names: seq<string>, name: string)
    requires forall j :: 0 <= j < |names| ==> store.Fetch(names[j]).Ok?
    requires store.Fetch(name).Ok?
    ensures forall j :: 0 <= j < |names + [name]| ==> store.Fetch((names + [name])[j]).Ok?
  {
  }

  /** The position of the first name whose fetch fails, or `|names|` when none does. */
  function FirstFailure(store: MockSecretManager, names: seq<string>): (k: nat)
    ensures k <= |names|
    ensures forall j :: 0 <= j < k ==> store.Fetch(names[j]).Ok?
    ensures k < |names| ==> store.Fetch(names[k]).Err?
  {
    if names == [] || store.Fetch(names[0]).Err? then 0
    else 1 + FirstFailure(store, names[1..])
  }

  /** A position where every earlier fetch succeeds and this one fails (or the end) is the first failure. */
  lemma {:induction false} FirstFailureAt(store: MockSecretManager, names: seq<string>, k: nat)
    requires k <= |names|
    requires forall j :: 0 <= j < k ==> store.Fetch(names[j]).Ok?
    requires k < |names| ==> store.Fetch(names[k]).Err?
    ensures FirstFailure(store, names) == k
    decreases k
  {
    if k > 0 {
      FirstFailureAt(store, names[1..], k - 1);
    }
  }

  /** An application wired with its three collaborators and the process arguments. */
  class Application {
    const logger: MockLogger
    const secretManager: MockSecretManager
    const commandRunner: MockCommandRunner
    const args: seq<string>

    constructor (logger: MockLogger, secretManager: MockSecretManager, commandRunner: MockCommandRunner, args: seq<string>)
      ensures this.logger == logger && this.secretManager == secretManager
      ensures this.commandRunner == commandRunner && this.args == args
    {
      this.logger := logger;
      this.secretManager := secretManager;
      this.commandRunner := commandRunner;
      this.args := args;
    }

    /** The secret names of the `--key NAME` pairs, left to right. */
    function Names(): seq<string>
      requires |args| >= 2
    {
      RefNames(ScanArgs(args[2..]))
    }

    /** The arguments passed through to the command, in order. */
    function PassThrough(): seq<string>
      requires |args| >= 2
    {
      PassArgs(ScanArgs(args[2..]))
    }

    /** The position in `Names()` of the fetch that fails first, or `|Names()|`. */
    function FailedAt(): nat
      requires |args| >= 2
    {
      FirstFailure(secretManager, Names())
    }

    /** How many fetches a run makes: up to and including the first failing one. */
    function Attempts(): nat
      requires |args| >= 2
    {
      if FailedAt() < |Names()| then FailedAt() + 1 else FailedAt()
    }

    /**
     * One `--key NAME` pair: logs the fetch, fetches the secret, and on success
     * decodes it, writes its pairs into `envVars` and logs its keys.
     */
    method FetchSecret(unmarshal: Unmarshaler, secretName: string, envVars: map<string, string>)
      returns (merged: map<string, string>, err: Option<RunError>, ghost entries: seq<LogEntry>)
      modifies logger, secretManager
      ensures secretManager.calls == old(secretManager.calls) + [secretName]
      ensures logger.logs == old(logger.logs) + entries
      ensures err.None? <==> secretManager.Fetch(secretName).Ok?
      ensures err.Some? ==>
        && err == Some(SecretFetchError(secretName, secretManager.Fetch(secretName).error))
        && merged == envVars && entries == [FetchingEntry(secretName)]
      ensures err.None? ==>
        && merged == envVars + DecodeFetched(unmarshal, secretManager, secretName)
        && |entries| == 2 && entries[0] == FetchingEntry(secretName)
        && KeysEntry(entries[1], DecodeFetched(unmarshal, secretManager, secretName))
    {
      logger.Log("info", "Fetching secret from AWS Secrets Manager", SecretNameData(secretName));
      var secretString := secretManager.GetSecret(secretName);
      if secretString.Err? {
        return envVars, Some(SecretFetchError(secretName, secretString.error)), [FetchingEntry(secretName)];
      }
      var secretMap := ParseSecretJson(unmarshal, secretString.value);
      var secretKeys;
      merged, secretKeys := OverlaySecret(envVars, secretMap);
      logger.Log("info", "Retrieved secret keys", KeysData(secretKeys));
      err := None;
      entries := [FetchingEntry(secretName), LogEntry("info", "Retrieved secret keys", KeysData(secretKeys))];
    }

    /** A failing fetch of `secretName` after the successful `names` is the run's first failure. */
    lemma FetchAbort(names: seq<string>, secretName: string, rest: seq<string>,
                     log: seq<LogEntry>, maps: seq<map<string, string>>)
      requires |args| >= 2
      requires Names() == (names + [secretName]) + RefNames(ScanArgs(rest))
      requires forall j :: 0 <= j < |names| ==> secretManager.Fetch(names[j]).Ok?
      requires secretManager.Fetch(secretName).Err?
      requires ResolutionLog(log, names, maps)
      ensures FailedAt() == |names| < |Names()|
      ensures Names()[FailedAt()] == secretName
      ensures Names()[..Attempts()] == names + [secretName]
      ensures Names()[..FailedAt()] == names
      ensures AbortLog(log + [FetchingEntry(secretName)], names, maps, secretName)
    {
      assert Names()[..|names| + 1] == names + [secretName];
      FirstFailureAt(secretManager, Names(), |names|);
      assert (log + [FetchingEntry(secretName)])[..|log|] == log;
    }

    /** The fetch loop's invariant, one successful `--key NAME` pair further on. */
    lemma FetchAdvance(unmarshal: Unmarshaler, names: seq<string>, secretName: string,
                       log: seq<LogEntry>, entries: seq<LogEntry>, maps: seq<map<string, string>>,
                       logs0: seq<LogEntry>, calls0: seq<string>)
      requires forall j :: 0 <= j < |names| ==> secretManager.Fetch(names[j]).Ok?
      requires secretManager.Fetch(secretName).Ok?
      requires maps == DecodedSecrets(unmarshal, secretManager, names)
      requires ResolutionLog(log, names, maps)
      requires |entries| == 2 && entries[0] == FetchingEntry(secretName)
      requires KeysEntry(entries[1], DecodeFetched(unmarshal, secretManager, secretName))
      ensures forall j :: 0 <= j < |names + [secretName]| ==> secretManager.Fetch((names + [secretName])[j]).Ok?
      ensures maps + [DecodeFetched(unmarshal, secretManager, secretName)]
           == DecodedSecrets(unmarshal, secretManager, names + [secretName])
      ensures ResolutionLog(log + entries, names + [secretName], maps + [DecodeFetched(unmarshal, secretManager, secretName)])
      // the recorded logs and calls, regrouped as the loop invariants state them
      ensures (logs0 + log) + entries == logs0 + (log + entries)
      ensures (calls0 + names) + [secretName] == calls0 + (names + [secretName])
    {
      ResolutionLogExtend(log, names, maps, secretName, DecodeFetched(unmarshal, secretManager, secretName), entries);
      AllFetchedSnoc(secretManager, names, secretName);
      DecodedSecretsSnoc(unmarshal, secretManager, names, secretName);
      AppendAssociates(logs0, log, entries);
      AppendAssociates(calls0, names, [secretName]);
    }

    /**
     * The scan and fetch loop: splits the arguments, fetches and decodes each
     * referenced secret in order and merges it into `envVars`, stopping at the
     * first fetch error. `log` is what it appends to the logger.
     */
    method ResolveSecrets(unmarshal: Unmarshaler)
      returns (passArgs: seq<string>, envVars: map<string, string>, err: Option<RunError>, ghost log: seq<LogEntry>)
      requires |args| >= 2
      modifies logger, secretManager
      ensures secretManager.calls == old(secretManager.calls) + Names()[..Attempts()]
      ensures logger.logs == old(logger.logs) + log
      ensures err.None? <==> FailedAt() == |Names()|
      ensures err.None? ==>
        && passArgs == PassThrough()
        && envVars == Merge(DecodedSecrets(unmarshal, secretManager, Names()))
        && ResolutionLog(log, Names(), DecodedSecrets(unmarshal, secretManager, Names()))
      ensures err.Some? ==>
        && err == Some(SecretFetchError(Names()[FailedAt()], secretManager.Fetch(Names()[FailedAt()]).error))
        && AbortLog(log, Names()[..FailedAt()],
                    DecodedSecrets(unmarshal, secretManager, Names()[..FailedAt()]), Names()[FailedAt()])
    {
      passArgs, envVars, err, log := [], map[], None, [];
      ghost var names: seq<string> := [];
      ghost var maps: seq<map<string, string>> := [];

      var i := 2;
      while i < |args|
        invariant 2 <= i <= |args|
        invariant Names() == names + RefNames(ScanArgs(args[i..]))
        invariant PassThrough() == passArgs + PassArgs(ScanArgs(args[i..]))
        invariant forall j :: 0 <= j < |names| ==> secretManager.Fetch(names[j]).Ok?
        invariant maps == DecodedSecrets(unmarshal, secretManager, names)
        invariant envVars == Merge(maps)
        invariant secretManager.calls == old(secretManager.calls) + names
        invariant logger.logs == old(logger.logs) + log
        invariant ResolutionLog(log, names, maps)
      {
        if args[i] == KeyFlag && i + 1 < |args| {
          KeyPairAdvance(args, i, names, passArgs, Names(), PassThrough());
          var secretName := args[i + 1];
          var fetchErr;
          ghost var entries;
          envVars, fetchErr, entries := FetchSecret(unmarshal, secretName, envVars);
          if fetchErr.Some? {
            FetchAbort(names, secretName, args[i + 2..], log, maps);
            AppendAssociates(old(logger.logs), log, entries);
            AppendAssociates(old(secretManager.calls), names, [secretName]);
            return passArgs, envVars, fetchErr, log + entries;
          }
          FetchAdvance(unmarshal, names, secretName, log, entries, maps, old(logger.logs), old(secretManager.calls));
          log := log + entries;
          names := names + [secretName];
          maps := maps + [DecodeFetched(unmarshal, secretManager, secretName)];
          i := i + 2;
        } else {
          PassAdvance(args, i, names, passArgs, Names(), PassThrough());
          passArgs := passArgs + [args[i]];
          i := i + 1;
        }
      }
      ScanFinished(args, i, names, passArgs, Names(), PassThrough());
      FirstFailureAt(secretManager, Names(), |names|);
      assert Names()[..Attempts()] == names;
    }

    /** The launch step: logs the command, runs it once, and logs and returns the runner's verdict. */
    method Launch(commandPath: string, passArgs: seq<string>, env: seq<string>)
      returns (err: Option<RunError>)
      modifies logger, commandRunner
      ensures commandRunner.executed == old(commandRunner.executed) + [Execution(commandPath, passArgs, env)]
      ensures logger.logs == old(logger.logs) + [ExecutingEntry(commandPath, passArgs),
        if commandRunner.returnError.Some? then FailedEntry(commandRunner.returnError.value) else SucceededEntry()]
      ensures err == if commandRunner.returnError.Some? then Some(LaunchError(commandRunner.returnError.value)) else None
    {
      logger.Log("info", "Executing command", CommandData(commandPath, passArgs));
      var runErr := commandRunner.Run(commandPath, passArgs, env);
      if runErr.Some? {
        logger.Log("error", "Command execution failed", ErrorData(runErr.value));
        return Some(LaunchError(runErr.value));
      }
      logger.Log("info", "Command executed successfully", NoData);
      return None;
    }

    method Run(environ: seq<string>, unmarshal: Unmarshaler) returns (err: Option<RunError>)
      modifies logger, secretManager, commandRunner
      // too few arguments: a usage error before any collaborator is called
      ensures |args| < 2 ==> err == Some(UsageError) && unchanged(logger, secretManager, commandRunner)
      // one GetSecret per `--key NAME` pair, in order, up to the first failing one
      ensures |args| >= 2 ==> secretManager.calls == old(secretManager.calls) + Names()[..Attempts()]
      ensures |args| >= 2 ==> |logger.logs| >= |old(logger.logs)| && logger.logs[..|old(logger.logs)|] == old(logger.logs)
      // fail-fast: the first fetch error ends the run, and nothing is launched
      ensures |args| >= 2 && FailedAt() < |Names()| ==>
        && err == Some(SecretFetchError(Names()[FailedAt()], secretManager.Fetch(Names()[FailedAt()]).error))
        && commandRunner.executed == old(commandRunner.executed)
        && AbortLog(logger.logs[|old(logger.logs)|..], Names()[..FailedAt()],
                    DecodedSecrets(unmarshal, secretManager, Names()[..FailedAt()]), Names()[FailedAt()])
      // every fetch succeeded: exactly one launch, with the merged secrets after the inherited environment
      ensures |args| >= 2 && FailedAt() == |Names()| ==>
        && |commandRunner.executed| == |old(commandRunner.executed)| + 1
        && commandRunner.executed[..|old(commandRunner.executed)|] == old(commandRunner.executed)
        && var launch := commandRunner.executed[|old(commandRunner.executed)|];
        && launch.path == args[1]
        && launch.args == PassThrough()
        && LaunchEnv(launch.env, environ, Merge(DecodedSecrets(unmarshal, secretManager, Names())))
        && err == (if commandRunner.returnError.Some? then Some(LaunchError(commandRunner.returnError.value)) else None)
        && LaunchLog(logger.logs[|old(logger.logs)|..], Names(), DecodedSecrets(unmarshal, secretManager, Names()),
                     args[1], PassThrough(), commandRunner.returnError)
    {
      if |args| < 2 {
        return Some(UsageError);
      }
      var commandPath := args[1];
      ghost var logs0 := logger.logs;
      var passArgs, envVars, fetchErr, log := ResolveSecrets(unmarshal);
      if fetchErr.Some? {
        DropPrefix(logs0, log);
        TakePrefix(logs0, log);
        return fetchErr;
      }
      var env := AppendEnv(environ, envVars);
      err := Launch(commandPath, passArgs, env);
      ghost var tail := [ExecutingEntry(commandPath, passArgs),
        if commandRunner.returnError.Some? then FailedEntry(commandRunner.returnError.value) else SucceededEntry()];
      AppendAssociates(logs0, log, tail);
      DropPrefix(logs0, log + tail);
      LaunchLogExtend(log, Names(), DecodedSecrets(unmarshal, secretManager, Names()), commandPath, passArgs, commandRunner.returnError);
      TakePrefix(logs0, log + tail);
      TakePrefix(old(commandRunner.executed), [Execution(commandPath, passArgs, env)]);
    }
  }
}
