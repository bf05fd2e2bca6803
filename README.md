# AWSecRun launcher, modelled in Dafny

AWSecRun is a small launcher. It runs a command with environment variables
taken from AWS Secrets Manager. You call it as
`program <command_path> [args...] [--key SECRET_NAME]...`.

For every `--key NAME` pair, the launcher:
- fetches the secret `NAME`;
- decodes it as a JSON object of strings, or else takes it as the single pair
  `secret=<raw text>`;
- merges its pairs into one map, where a later secret overrides an earlier one.

Every other argument is passed through to the command. The merged pairs are
appended after the inherited environment. The command is then launched exactly
once. Each step is logged through an injected logger.

This project models `Application.Run` and `parseSecretJSON` from `main.go`.
The three collaborators are modelled by the recording test doubles from
`main_test.go`, as classes.

Modules:

- `Basics` (`basics.dfy`): `Option`, `Result`, and a substring predicate
  `Contains` that stands for Go's `strings.Contains`.
- `SecretDecoding` (`secret_decoding.dfy`): `ParseSecretJson`.
  - `json.Unmarshal` into a `map[string]string` is the function parameter
    `unmarshal`.
  - `UnmarshalLaws` states the one fact the proofs need from the JSON library:
    only a text that starts, after JSON whitespace, with `{` or `null` can
    decode to a map.
- `ArgumentScan` (`argument_scan.dfy`): how the arguments after the command
  path split into secret references and pass-through arguments.
  - `ScanArgs` is the scan written as a function.
  - `Untokenize` is its inverse.
- `Environment` (`environment.dfy`): the map merge, and the `k=v` entries
  appended to the inherited environment.
  - These are the two `for k, v := range` loops of `Run`, written as methods
    over maps whose iteration order is chosen arbitrarily.
  - `EnvLookup` says what the child process observes for a name.
- `Collaborators` (`collaborators.dfy`): `MockLogger`, `MockSecretManager` and
  `MockCommandRunner`. Each one records its calls in a field and answers with a
  scripted result.
- `Launcher` (`launcher.dfy`): `RunError` and its messages, the log entries
  `Run` writes, and the class `Application`.
  - `Run` is split into `ResolveSecrets` (the scan and fetch loop),
    `FetchSecret` (one `--key` pair) and `Launch`.
  - `Run`'s contract gives the complete recorded behaviour as functions of the
    arguments and the scripted collaborators.
- `Scenarios` (`scenarios.dfy`): the five `Run` tests of `main_test.go`,
  written as methods whose postconditions are what those tests check.

`os.Environ()` is the parameter `environ` of `Run`. The JSON decoder is the
parameter `unmarshal`.

## Model

| member | source | states |
|---|---|---|
| Launcher.Application.Run | main.go:172-232 | Fewer than two arguments give the usage error and touch no collaborator. Otherwise the fetches are exactly the `--key` names in order, up to and including the first one that fails. A failed fetch returns `failed to get secret NAME: cause` and launches nothing. When every fetch succeeds, there is exactly one launch: it gets the command path, the pass-through arguments, and the inherited environment followed by one entry per merged key. The result then mirrors the runner's error. The log is the fixed sequence of entries for all of these. |
| Launcher.Application.ResolveSecrets | main.go:177-209 | The scan and fetch loop. It records one `GetSecret` call per reference, up to the first failure. It returns the pass-through arguments and the merge of the decoded secrets in reference order. It returns the first fetch error together with the name that caused it. It appends the "Fetching"/"Retrieved secret keys" pair of log entries per secret. |
| Launcher.Application.FetchSecret | main.go:183-205 | One `--key NAME` pair. It logs the fetch and calls `GetSecret` once. On error it returns `SecretFetchError(NAME, cause)`, leaves the gathered variables unchanged and logs nothing more. On success it overlays the decoded map onto the variables gathered so far and logs exactly that map's keys. |
| Launcher.Application.FetchAbort | main.go:186-190 | A failing fetch after the successful ones is the run's first failure. Every name before it has been fetched, and the log ends with its "Fetching" entry. |
| Launcher.Application.Launch | main.go:219-231 | It logs "Executing command" with the path and arguments and runs the command once. In the log, that entry is followed either by "Command execution failed" with the cause, in which case it returns `Command execution error: cause`, or by the success entry, in which case it returns nil. |
| Launcher.FirstFailure | main.go:186-190 | The first position whose fetch fails, or the end. Every earlier fetch succeeds. |
| Launcher.FirstFailureAt | main.go:186-190 | Any position where all earlier fetches succeed and this one fails (or the end) is the first failure. |
| Launcher.ResolutionLogShape | main.go:184-203 | A successful resolution logs exactly two entries per secret, in reference order: "Fetching" with its name, then the keys of its decoded map. |
| Launcher.LaunchLogShape | main.go:219-231 | A run that reached the launch logs the resolution pairs, then "Executing command", then the runner's outcome. |
| Launcher.UsageErrorMentionsUsage | main.go:173-175 | The usage error contains `Usage:`. |
| Launcher.FetchErrorNamesSecret | main.go:187-190 | A fetch error contains `failed to get secret` and the secret's name. |
| Launcher.LaunchErrorMentionsExecution | main.go:225-228 | A runner error contains `Command execution error`. |
| Launcher.RunError.Message | main.go:173-175 | The usage text starts with `Usage:`. A fetch error starts with `failed to get secret ` (with its trailing space), and the secret's name follows. A runner error starts with `Command execution error`. Lines 189 and 227 give the latter two texts. |
| SecretDecoding.ParseSecretJson | main.go:158-169 | Decoding never fails. A text that unmarshals gives exactly the unmarshalled map. Any other text gives the single key `secret` holding the raw text. |
| SecretDecoding.FallbackOnNonObject | main.go:162-166 | A text that does not start (after whitespace) like an object or `null` decodes to `{"secret": raw}`. |
| SecretDecoding.EmptySecretFallsBack | main_test.go:95-100 | The empty secret decodes to `{"secret": ""}`. |
| SecretDecoding.PlainTextFallsBack | main_test.go:89-94 | `just a string` decodes to `{"secret": "just a string"}`. |
| SecretDecoding.NearNullFallsBack | main.go:162-166 | `nope` starts like `null` but is not JSON, so it decodes to `{"secret": "nope"}`. |
| SecretDecoding.ObjectDecodesToItself | main_test.go:83-88 | A text that unmarshals to a map decodes to exactly that map. |
| SecretDecoding.TrimLeadingSpace | main.go:162 | The result is the suffix left after the leading JSON whitespace. Everything removed is whitespace, and what remains does not start with whitespace. |
| ArgumentScan.ScanRoundTrip | main.go:182-208 | The scan loses nothing: putting the tokens back together gives the original arguments. |
| ArgumentScan.ScanArgs | main.go:182-208 | The scan itself. Each token stands for one or two arguments, so there are at most as many tokens as arguments and at least half as many. |
| ArgumentScan.ScanCanonical | main.go:182-208 | The scan never leaves a `--key` that has a following argument as a pass-through. |
| ArgumentScan.ScanInverse | main.go:182-208 | Every token sequence that has that property comes back unchanged from scanning its own text. So the scan and the reassembly are mutually inverse. |
| ArgumentScan.KeyPairStep | main.go:183-206 | A `--key` followed by another argument becomes a secret reference, and the scan resumes two positions later. |
| ArgumentScan.PassStep | main.go:206-208 | Any other argument, including a lone trailing `--key`, is passed through, and the scan resumes one position later. |
| ArgumentScan.ScanAppend | main.go:182-208 | Scanning a concatenation is scanning each part, when the first part does not end in an unpaired `--key`. |
| ArgumentScan.RefNamesAppend | main.go:183-185 | The referenced names of a concatenation are the names of each part, in order. |
| ArgumentScan.PassArgsAppend | main.go:206-208 | The pass-through arguments of a concatenation are those of each part, in order. |
| ArgumentScan.TrailingKeyPassesThrough | main.go:183-208 | After arguments whose scan does not end in an unpaired `--key`, appending a lone `--key` references no new secret and passes `--key` through as an argument. |
| ArgumentScan.ScanConsumesAll | main.go:182-208 | Each reference consumes two arguments and each pass-through consumes one, and together they cover all the arguments. |
| Environment.OverlaySecret | main.go:198-202 | Writing a secret's pairs into the gathered variables gives the map overlay, and the logged keys list each key of that secret exactly once. |
| Environment.AppendEnv | main.go:211-217 | The child's environment is the inherited environment followed by one `k=v` entry per merged key, in some order. |
| Environment.LastWriter | main.go:199-200 | The last secret that holds a key, or none: no later secret holds it. |
| Environment.MergePrecedence | main.go:199-200 | The contract of `Merge`, the later-write-wins overlay. A key is merged exactly when some secret holds it, and it then carries the value from the last such secret. |
| Environment.LaterSecretWins | main.go:199-200 | Of two secrets that both set a key, the second one's value remains. |
| Environment.EnvEntries | main.go:215-217 | One entry per listed key, position by position, of the form `k=v`. |
| Environment.RenderShape | main.go:216 | An entry is the name, then `=` at the position equal to the name's length, then the value; its length is the two lengths plus one. |
| Environment.LaunchEnvShape | main.go:211-217 | The inherited environment is an unchanged prefix. It is followed by exactly as many entries as there are merged keys: every merged pair appears, and nothing else does. |
| Environment.NameLength | main.go:214-217 | The length of an entry's name is the position of its first `=`, or the whole entry when it has none. |
| Environment.RenderSplits | main.go:216 | The inverse of `Render`: a `k=v` entry whose name contains no `=` splits back into `k` and `v`. |
| Environment.LookupAfterEntry | main.go:216 | For a key that contains no `=`, an appended entry decides the lookup of its own name and leaves every other name alone. |
| Environment.EntriesLookup | main.go:214-217 | When no listed key contains `=`, after the appended entries each listed key is seen with its merged value, and every other name is seen as inherited. |
| Environment.SecretsOverrideInherited | main.go:211-217 | The child sees every secret key with its merged value, whatever the inherited environment held, and sees every other name as inherited. |
| Collaborators.MockLogger.Log | main_test.go:26-32 | Appends exactly one entry, with the given level, message and data. |
| Collaborators.MockSecretManager.GetSecret | main_test.go:42-51 | Records the name, then returns the scripted error if there is one, otherwise the stored secret, otherwise `secret not found: NAME`. |
| Collaborators.MockSecretManager.FetchOutcome | main_test.go:44-50 | The answer to a fetch: the scripted error when there is one; otherwise the stored secret exactly when the name is in the table; otherwise `secret not found: NAME`. |
| Collaborators.MockCommandRunner.Run | main_test.go:64-71 | Records the launch with its path, arguments and environment, and returns the scripted error. |
| Basics.ContainsAt | main_test.go:212 | An occurrence at some offset makes the substring test true. |
| Basics.ContainsWitness | main_test.go:212 | A true substring test has an offset where the occurrence starts. |
| Scenarios.UsageScenario | main_test.go:193-216 | With only the program name, the error contains `Usage:`, and no fetch, launch or log happens. |
| Scenarios.WithMocksScenario | main_test.go:221-309 | One JSON secret: no error, one fetch of `db-creds`, and one launch of `/usr/bin/env` with no arguments. The environment contains `DB_USER=admin` and `DB_PASSWORD=secure123`. The log has four entries, beginning with the fetch and ending with success. |
| Scenarios.SecretManagerErrorScenario | main_test.go:311-349 | A failing store: the error contains `failed to get secret`, exactly one fetch of `some-secret` happens, and nothing is launched. |
| Scenarios.MultipleSecretsScenario | main_test.go:351-412 | Two secrets: fetched in argument order, then one launch of `/bin/echo test` whose environment holds all four pairs. |
| Scenarios.CommandErrorScenario | main_test.go:414-454 | A failing runner: the error contains `Command execution error`, and an error-level "Command execution failed" entry is logged. |

## Left out

- `JSONLogger`, `NewJSONLogger` and `logJSON` (main.go:30-58, 235-238): these write JSON lines to stdout. Output is I/O and is not modelled; the model records log entries in `MockLogger`.
- `AWSSecretManager` and `NewAWSSecretManager` (main.go:66-105): these call the AWS SDK over the network. Fetches are modelled by `MockSecretManager`'s table and scripted error.
- `DefaultCommandRunner` and `NewCommandRunner` (main.go:113-137): these start a real process wired to the standard streams. The model records the launch in `MockCommandRunner`.
- `NewApplication`, `run` and `main` (main.go:148-155, 241-251): this is wiring of the real collaborators and `os.Args`, plus the process exit code.
- The `Logger`, `SecretManager` and `CommandRunner` interfaces (main.go:25-27, 61-63, 108-110) are not modelled as abstract types. `Application` holds the three recording classes directly, so no other implementation can be plugged in.
- The JSON grammar and `json.Unmarshal` are not re-implemented. Decoding is the parameter `unmarshal`, constrained only by `UnmarshalLaws`.
- SecretDecoding.ObjectDecodesToItself: the test's concrete text `{"key1":"value1","key2":"value2"}` is not decoded. The lemma assumes what `unmarshal` returns for it.
- Scenarios.WithMocksScenario: the test's JSON text is not decoded; the scenario requires what `unmarshal` returns for it.
- Scenarios.MultipleSecretsScenario: the tests' two JSON texts are not decoded; the scenario requires what `unmarshal` returns for each.
- The branch at main.go:193-195 (`failed to parse secret as JSON`) is not modelled. `parseSecretJSON` always returns a nil error, so that branch cannot be reached, and `RunError` has no variant for it.
- `os.Environ()` is the parameter `environ`. When a name appears more than once in `Cmd.Env`, Go's `os/exec` keeps only its last value; that handling happens inside the left-out `DefaultCommandRunner` (main.go:129-137), and the model states it only through `EnvLookup` (the last entry wins). The model does not describe how the child itself looks names up in its raw environment.
- Launcher.Application.FetchSecret: the order of the "Fetching" entry relative to the `GetSecret` call is not stated. Each test double keeps its own list, as in main_test.go, so the model has no record of how log entries and fetches interleave.
- Launcher.Application.Launch: the order of the "Executing command" and outcome entries relative to the runner call is not stated. The log entries and the launches are kept in separate lists, so the model has no record of how they interleave.
- Go strings are byte strings, but the model's `string` is a sequence of characters. Nothing modelled depends on the difference, because `--key`, `=` and the error texts are ASCII. However, an argument, secret or environment entry that is not valid UTF-8 cannot be represented.
- Environment.SecretsOverrideInherited: requires that no secret key contains `=`, and so do Environment.LookupAfterEntry and Environment.EntriesLookup. For such a key the child would read the entry under a shorter name, and the lemma does not say what it sees then.
- The order of Go's map iteration is not fixed. The model states only that the logged keys and the appended entries enumerate the map, each key exactly once, in some order, so no particular order is claimed.
- The `data` argument of log calls is an `interface{}` in the source. The model uses one `LogData` variant per call site instead.
- `%w` error wrapping is modelled by its text only. `errors.Is`/`errors.As` unwrapping is not modelled.
- `TestLogJSON` (main_test.go:135-191) tests the left-out `JSONLogger`.
