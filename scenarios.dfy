/**
 * The test scenarios of the program's own test suite, restated as contracts
 * over the model: each builds the recording collaborators and an
 * `Application`, calls `Run`, and states what the test checks about the
 * recorded calls.
 */
module Scenarios {
  import opened Basics
  import opened SecretDecoding
  import opened ArgumentScan
  import opened Environment
  import opened Collaborators
  import opened Launcher

  /** Too few arguments: a usage error, and no collaborator is called. */
  method UsageScenario(environ: seq<string>, unmarshal: Unmarshaler)
    returns (err: Option<RunError>, calls: seq<string>, launches: seq<Execution>, logs: seq<LogEntry>)
    ensures err.Some? && Contains(err.value.Message(), "Usage:")
    ensures calls == [] && launches == [] && logs == []
  {
    var logger := new MockLogger();
    var secretManager := new MockSecretManager(map[], None);
    var runner := new MockCommandRunner(None);
    var app := new Application(logger, secretManager, runner, ["main"]);
    err := app.Run(environ, unmarshal);
    UsageErrorMentionsUsage();
    calls, launches, logs := secretManager.calls, runner.executed, logger.logs;
  }

  const DbCredsText: string := "{\"DB_USER\":\"admin\",\"DB_PASSWORD\":\"secure123\"}"
  const DbCreds: map<string, string> := map["DB_USER" := "admin", "DB_PASSWORD" := "secure123"]

  lemma WithMocksSetup(app: Application, unmarshal: Unmarshaler)
    requires app.args == ["program", "/usr/bin/env", "--key", "db-creds"]
    requires app.secretManager.secrets == map["db-creds" := DbCredsText] && app.secretManager.error == None
    requires unmarshal(DbCredsText) == Some(DbCreds)
    ensures |app.args| >= 2 && app.Names() == ["db-creds"] && app.PassThrough() == []
    ensures app.FailedAt() == |app.Names()| && app.Attempts() == 1
    ensures DecodedSecrets(unmarshal, app.secretManager, app.Names()) == [DbCreds]
    ensures Merge(DecodedSecrets(unmarshal, app.secretManager, app.Names())) == DbCreds
  {
    assert app.args[2..] == ["--key", "db-creds"];
    assert ScanArgs(app.args[2..]) == [SecretRef("db-creds")];
    assert RefNames([SecretRef("db-creds")]) == ["db-creds"];
    assert PassArgs([SecretRef("db-creds")]) == [];
    assert DecodedSecrets(unmarshal, app.secretManager, ["db-creds"]) == [DbCreds];
    assert Merge([DbCreds]) == DbCreds;
  }

  lemma DbCredsRendered()
    ensures Render("DB_USER", "admin") == "DB_USER=admin"
    ensures Render("DB_PASSWORD", "secure123") == "DB_PASSWORD=secure123"
  {
  }

  lemma DbCredsInEnv(env: seq<string>, environ: seq<string>)
    requires LaunchEnv(env, environ, DbCreds)
    ensures "DB_USER=admin" in env && "DB_PASSWORD=secure123" in env
  {
    assert DbCreds["DB_USER"] == "admin" && DbCreds["DB_PASSWORD"] == "secure123";
    LaunchEnvShape(env, environ, DbCreds);
    var tail := env[|environ|..];
    assert Render("DB_USER", "admin") in tail && Render("DB_PASSWORD", "secure123") in tail;
    DbCredsRendered();
  }

  /** The log of a launch after one secret: its two entries, then the launch's two. */
  lemma OneSecretLaunchLog(L: seq<LogEntry>, name: string, m: map<string, string>,
                           commandPath: string, args: seq<string>, outcome: Option<string>)
    requires LaunchLog(L, [name], [m], commandPath, args, outcome)
    ensures |L| == 4 && L[0] == FetchingEntry(name) && L[2] == ExecutingEntry(commandPath, args)
    ensures L[3] == if outcome.Some? then FailedEntry(outcome.value) else SucceededEntry()
  {
    LaunchLogShape(L, [name], [m], commandPath, args, outcome);
  }

  /** One JSON secret: one fetch, one launch, and both of its pairs in the child's environment. */
  method WithMocksScenario(environ: seq<string>, unmarshal: Unmarshaler)
    returns (err: Option<RunError>, calls: seq<string>, launches: seq<Execution>, logs: seq<LogEntry>)
    requires unmarshal(DbCredsText) == Some(DbCreds)
    ensures err == None
    ensures calls == ["db-creds"]
    ensures |launches| == 1 && launches[0].path == "/usr/bin/env" && launches[0].args == []
    ensures "DB_USER=admin" in launches[0].env && "DB_PASSWORD=secure123" in launches[0].env
    ensures |logs| == 4 && logs[0] == FetchingEntry("db-creds") && logs[3] == SucceededEntry()
  {
    var logger := new MockLogger();
    var secretManager := new MockSecretManager(map["db-creds" := DbCredsText], None);
    var runner := new MockCommandRunner(None);
    var app := new Application(logger, secretManager, runner, ["program", "/usr/bin/env", "--key", "db-creds"]);
    WithMocksSetup(app, unmarshal);
    err := app.Run(environ, unmarshal);
    calls, launches, logs := secretManager.calls, runner.executed, logger.logs;
    DbCredsInEnv(launches[0].env, environ);
    OneSecretLaunchLog(logs[0..], "db-creds", DbCreds, "/usr/bin/env", [], None);
  }

  lemma FetchErrorSetup(app: Application)
    requires app.args == ["program", "/bin/ls", "--key", "some-secret"]
    requires app.secretManager.error == Some("connection error")
    ensures |app.args| >= 2 && app.Names() == ["some-secret"]
    ensures app.FailedAt() == 0 && app.Attempts() == 1
    ensures app.secretManager.Fetch("some-secret") == Err("connection error")
  {
    assert app.args[2..] == ["--key", "some-secret"];
    assert ScanArgs(app.args[2..]) == [SecretRef("some-secret")];
    assert RefNames([SecretRef("some-secret")]) == ["some-secret"];
  }

  /** The store fails: one fetch is attempted, the error names it, and nothing is launched. */
  method SecretManagerErrorScenario(environ: seq<string>, unmarshal: Unmarshaler)
    returns (err: Option<RunError>, calls: seq<string>, launches: seq<Execution>)
    ensures err.Some? && Contains(err.value.Message(), "failed to get secret")
    ensures calls == ["some-secret"] && launches == []
  {
    var logger := new MockLogger();
    var secretManager := new MockSecretManager(map[], Some("connection error"));
    var runner := new MockCommandRunner(None);
    var app := new Application(logger, secretManager, runner, ["program", "/bin/ls", "--key", "some-secret"]);
    FetchErrorSetup(app);
    err := app.Run(environ, unmarshal);
    calls, launches := secretManager.calls, runner.executed;
    FetchErrorNamesSecret("some-secret", "connection error");
  }

  const ApiKeysText: string := "{\"API_KEY\":\"xyz123\",\"API_SECRET\":\"abc456\"}"
  const ApiKeys: map<string, string> := map["API_KEY" := "xyz123", "API_SECRET" := "abc456"]
  const DbConfigText: string := "{\"DB_HOST\":\"localhost\",\"DB_PORT\":\"5432\"}"
  const DbConfig: map<string, string> := map["DB_HOST" := "localhost", "DB_PORT" := "5432"]

  lemma MultipleSecretsScan()
    ensures RefNames(ScanArgs(["test", "--key", "api-keys", "--key", "db-config"])) == ["api-keys", "db-config"]
    ensures PassArgs(ScanArgs(["test", "--key", "api-keys", "--key", "db-config"])) == ["test"]
  {
    var tokens := [PassArg("test"), SecretRef("api-keys"), SecretRef("db-config")];
    assert ScanArgs(["--key", "db-config"]) == tokens[2..];
    assert ScanArgs(["--key", "api-keys", "--key", "db-config"]) == tokens[1..];
    assert ScanArgs(["test", "--key", "api-keys", "--key", "db-config"]) == tokens;
    assert tokens[1..][1..] == tokens[2..] && tokens[2..][1..] == [];
    assert RefNames(tokens[2..]) == ["db-config"];
    assert RefNames(tokens[1..]) == ["api-keys", "db-config"];
    assert PassArgs(tokens[2..]) == [] && PassArgs(tokens[1..]) == [];
  }

  lemma MultipleSecretsDecode(store: MockSecretManager, unmarshal: Unmarshaler)
    requires store.secrets == map["api-keys" := ApiKeysText, "db-config" := DbConfigText] && store.error == None
    requires unmarshal(ApiKeysText) == Some(ApiKeys) && unmarshal(DbConfigText) == Some(DbConfig)
    ensures FirstFailure(store, ["api-keys", "db-config"]) == 2
    ensures Merge(DecodedSecrets(unmarshal, store, ["api-keys", "db-config"])) == ApiKeys + DbConfig
  {
    var names := ["api-keys", "db-config"];
    assert store.Fetch("api-keys") == Ok(ApiKeysText);
    assert store.Fetch("db-config") == Ok(DbConfigText);
    FirstFailureAt(store, names, 2);
    assert names[..1] == ["api-keys"];
    assert DecodedSecrets(unmarshal, store, names[..1]) == [ApiKeys];
    assert DecodedSecrets(unmarshal, store, names) == [ApiKeys, DbConfig];
    assert [ApiKeys, DbConfig][..1] == [ApiKeys];
    assert Merge([ApiKeys]) == ApiKeys;
  }

  lemma MultipleSecretsSetup(app: Application, unmarshal: Unmarshaler)
    requires app.args == ["program", "/bin/echo", "test", "--key", "api-keys", "--key", "db-config"]
    requires app.secretManager.secrets == map["api-keys" := ApiKeysText, "db-config" := DbConfigText]
    requires app.secretManager.error == None
    requires unmarshal(ApiKeysText) == Some(ApiKeys) && unmarshal(DbConfigText) == Some(DbConfig)
    ensures |app.args| >= 2 && app.Names() == ["api-keys", "db-config"] && app.PassThrough() == ["test"]
    ensures app.FailedAt() == |app.Names()| && app.Attempts() == 2
    ensures Merge(DecodedSecrets(unmarshal, app.secretManager, app.Names())) == ApiKeys + DbConfig
  {
    assert app.args[2..] == ["test", "--key", "api-keys", "--key", "db-config"];
    MultipleSecretsScan();
    MultipleSecretsDecode(app.secretManager, unmarshal);
  }

  lemma MultipleSecretsRendered()
    ensures Render("API_KEY", "xyz123") == "API_KEY=xyz123"
    ensures Render("API_SECRET", "abc456") == "API_SECRET=abc456"
    ensures Render("DB_HOST", "localhost") == "DB_HOST=localhost"
    ensures Render("DB_PORT", "5432") == "DB_PORT=5432"
  {
  }

  lemma MultipleSecretsInEnv(env: seq<string>, environ: seq<string>)
    requires LaunchEnv(env, environ, ApiKeys + DbConfig)
    ensures "API_KEY=xyz123" in env && "API_SECRET=abc456" in env
    ensures "DB_HOST=localhost" in env && "DB_PORT=5432" in env
  {
    var merged := ApiKeys + DbConfig;
    assert merged["API_KEY"] == "xyz123" && merged["API_SECRET"] == "abc456";
    assert merged["DB_HOST"] == "localhost" && merged["DB_PORT"] == "5432";
    LaunchEnvShape(env, environ, merged);
    var tail := env[|environ|..];
    assert Render("API_KEY", "xyz123") in tail && Render("API_SECRET", "abc456") in tail;
    assert Render("DB_HOST", "localhost") in tail && Render("DB_PORT", "5432") in tail;
    MultipleSecretsRendered();
  }

  /** Two secrets: fetched in argument order, one launch with the pass-through argument and all four pairs. */
  method MultipleSecretsScenario(environ: seq<string>, unmarshal: Unmarshaler)
    returns (err: Option<RunError>, calls: seq<string>, launches: seq<Execution>)
    requires unmarshal(ApiKeysText) == Some(ApiKeys) && unmarshal(DbConfigText) == Some(DbConfig)
    ensures err == None
    ensures calls == ["api-keys", "db-config"]
    ensures |launches| == 1 && launches[0].path == "/bin/echo" && launches[0].args == ["test"]
    ensures "API_KEY=xyz123" in launches[0].env && "API_SECRET=abc456" in launches[0].env
    ensures "DB_HOST=localhost" in launches[0].env && "DB_PORT=5432" in launches[0].env
  {
    var logger := new MockLogger();
    var secretManager := new MockSecretManager(map["api-keys" := ApiKeysText, "db-config" := DbConfigText], None);
    var runner := new MockCommandRunner(None);
    var app := new Application(logger, secretManager, runner,
                               ["program", "/bin/echo", "test", "--key", "api-keys", "--key", "db-config"]);
    MultipleSecretsSetup(app, unmarshal);
    err := app.Run(environ, unmarshal);
    calls, launches := secretManager.calls, runner.executed;
    MultipleSecretsInEnv(launches[0].env, environ);
  }

  lemma CommandErrorSetup(app: Application)
    requires app.args == ["program", "/bin/false"]
    ensures |app.args| >= 2 && app.Names() == [] && app.PassThrough() == []
    ensures app.FailedAt() == |app.Names()| && app.Attempts() == 0
  {
    assert app.args[2..] == [];
  }

  lemma FailedEntryMentionsFailure(cause: string)
    ensures FailedEntry(cause).level == "error" && Contains(FailedEntry(cause).message, "Command execution failed")
  {
    ContainsAt(FailedEntry(cause).message, "Command execution failed", 0);
  }

  /** The runner fails: the error says so and an error-level entry records the runner's error. */
  method CommandErrorScenario(environ: seq<string>, unmarshal: Unmarshaler)
    returns (err: Option<RunError>, logs: seq<LogEntry>)
    ensures err.Some? && Contains(err.value.Message(), "Command execution error")
    ensures FailedEntry("command execution failed") in logs
    ensures exists e :: e in logs && e.level == "error" && Contains(e.message, "Command execution failed")
  {
    var logger := new MockLogger();
    var secretManager := new MockSecretManager(map[], None);
    var runner := new MockCommandRunner(Some("command execution failed"));
    var app := new Application(logger, secretManager, runner, ["program", "/bin/false"]);
    CommandErrorSetup(app);
    err := app.Run(environ, unmarshal);
    logs := logger.logs;
    LaunchErrorMentionsExecution("command execution failed");
    LaunchLogShape(logs[0..], [], [], "/bin/false", [], Some("command execution failed"));
    FailedEntryMentionsFailure("command execution failed");
  }
}
