# metaflow-sandbox: the orchestration core in Dafny

metaflow-sandbox runs a Metaflow step inside a remote sandbox (Daytona, E2B and
other backends). This project models its provider-agnostic orchestration layer
and proves properties of the model. The layer has three parts.

- **The executor** (`SandboxExecutor`). It reads the debug and staging
  settings, parses `METAFLOW_SANDBOX_UPLOADS` and adds the micromamba
  upload. It builds the sandbox environment in fixed layers: fixed
  entries, configuration, credentials, the caller's env, the R2 worker
  count and the `PATH` rewrite. It builds the run command. It then
  runs the create → stage → exec loop, which destroys the sandbox and
  retries after a hard `-1`. Finally `cleanup` and `wait` tear it down.
- **The `@sandbox` decorator** (`SandboxDecorator`). In `step_init` it merges
  the conda remote-command aliases, publishes the credential aliases,
  pins the runtime packages, keeps the credentials in `env` and
  refuses a local datastore. It uploads the code package once per run.
  In `runtime_step_cli` it redirects the step to `sandbox step`.
- **The `sandbox step` command**. It splits long input paths into 30 KiB
  environment variables that the sandbox's shell rejoins. It parses
  the `--env-var` items and layers the step environment. It gives the
  API keys their fallbacks and exports them to the launching process.

The modules, one per file:

| file | module | models |
|---|---|---|
| `wrappers.dfy` | `Wrappers` | `Option`, `Result`, `Outcome` |
| `text.dfy` | `Text` | the parts of Python's `str` the code uses: `lower` (ASCII), `strip`, `int`/`str`, `splitlines`, `in` |
| `shell.dfy` | `Shell` | `shlex.quote`, a POSIX shell word reader that shows a quoted word reads back as itself, and `shlex.split` in POSIX mode |
| `pydict.dfy` | `PyDict` | insertion-ordered `dict` as a sequence of pairs: `get`, `setdefault`, `dict.fromkeys` |
| `process.dfy` | `Process` | `os.environ` as a class with a `map` field, `.get`, Python truthiness, `a or b` |
| `sandbox.dfy` | `Sandbox` | the abstract backend: a class whose answers are fixed functions of how many calls came before, recording every call |
| `executor_rules.dfy` | `ExecutorRules` | the module-level helpers and the value-level rules of `SandboxExecutor` |
| `launch.dfy` | `Launch` | the specification of `launch`: the plan, one attempt, retries, the failed and passed states, `cleanup`, `wait` |
| `sandbox_executor.dfy` | `Executor` | class `SandboxExecutor`, with its fields updated in place by `Launch`, `Cleanup` and `Wait` |
| `decorator.dfy` | `Decorator` | `sandbox_decorator.py`: the module helpers, the decorator class, conda modules, step decorators, the datastore, `cli_args` |
| `cli.dfy` | `Cli` | the data shaping of `step` in `sandbox_cli.py` |

Things outside the modelled code are parameters:

- `os.environ`, `config_values()` and `SERVICE_INTERNAL_URL` form the host.
- `json.loads` is passed in as its decoded value.
- The micromamba probe and auto-download are a probe record.
- `os.path.isfile` is a predicate `present`.
- `_is_hard_minus_one` is a predicate `hard`.
- The backend is the scripted `Backend` class.
- `sys.executable` and the step's `@environment` vars are plain arguments.

## Model

| member | source | states |
|---|---|---|
| ExecutorRules.EnvFlag | src/metaflow_extensions/sandbox/plugins/sandbox_executor.py:69-70 | a flag is on exactly when the variable is set and its lower-cased value is one of `1`, `true`, `yes`, `on` |
| ExecutorRules.EnvFlagIgnoresCase | src/metaflow_extensions/sandbox/plugins/sandbox_executor.py:69-70 | a flag reads the same whatever the letter case of its value |
| ExecutorRules.ReadDebugSettings | src/metaflow_extensions/sandbox/plugins/sandbox_executor.py:73-89 | the sandbox is kept exactly when a dump target exists; script and env targets agree; a target is non-empty and neither starts nor ends with whitespace; unset means off |
| ExecutorRules.DebugOffWords | src/metaflow_extensions/sandbox/plugins/sandbox_executor.py:82-89 | a blank value, or `0`/`false`/`no`/`off` in any case and with any surrounding whitespace, disables debugging: no keep, no dumps |
| ExecutorRules.DebugOnWords | src/metaflow_extensions/sandbox/plugins/sandbox_executor.py:82-87 | `1`/`true`/`yes`/`on` in any case and with any surrounding whitespace keeps the sandbox and dumps script and env to `/tmp/metaflow-sandbox-debug` |
| ExecutorRules.DebugPathVerbatim | src/metaflow_extensions/sandbox/plugins/sandbox_executor.py:82-88 | a stripped value that is neither an on- nor an off-word is used as the dump path for both targets, with the sandbox kept |
| ExecutorRules.IsCloudflareR2Endpoint | src/metaflow_extensions/sandbox/plugins/sandbox_executor.py:101-102 | an endpoint is R2 exactly when it is given and `cloudflarestorage.com` occurs at some index of its lower-cased text; no endpoint is never R2 |
| ExecutorRules.R2EndpointDetected | src/metaflow_extensions/sandbox/plugins/sandbox_executor.py:101-102 | any endpoint containing cloudflarestorage.com, in any letter case, is R2 |
| ExecutorRules.SkipAwsSessionToken | src/metaflow_extensions/sandbox/plugins/sandbox_executor.py:92-98 | the session token is skipped exactly for an R2 endpoint without the forwarding flag |
| ExecutorRules.ModeString | src/metaflow_extensions/sandbox/plugins/sandbox_executor.py:248-250 | a mode is accepted exactly when it is null, a string or an integer (bool included), and is None only for null |
| ExecutorRules.EntryToSpec | src/metaflow_extensions/sandbox/plugins/sandbox_executor.py:232-253 | an entry is accepted exactly when it is an object with non-empty string local and remote and a valid mode; the spec carries those values; a non-object gives its own error |
| ExecutorRules.SpecsOfMeaning | src/metaflow_extensions/sandbox/plugins/sandbox_executor.py:231-254 | the list parses exactly when every entry does, giving one spec per entry in order; otherwise the error is that of the first bad entry |
| ExecutorRules.UploadSpecsOf | src/metaflow_extensions/sandbox/plugins/sandbox_executor.py:216-254 | an unset or empty variable gives no uploads; every spec has non-empty paths and no `optional`; a decoded value that is not a list is an error |
| ExecutorRules.ParseUploadSpecs | src/metaflow_extensions/sandbox/plugins/sandbox_executor.py:216-254 | the appending loop computes `UploadSpecsOf` |
| ExecutorRules.SpecsErrExtends | src/metaflow_extensions/sandbox/plugins/sandbox_executor.py:231-249 | an error among the first entries is the error of the whole list |
| ExecutorRules.LocateMicromamba | src/metaflow_extensions/sandbox/plugins/sandbox_executor.py:269-283 | a located binary is non-empty and compatible; a download error means nothing was located; a configured compatible path wins |
| ExecutorRules.ResolveStagedUploads | src/metaflow_extensions/sandbox/plugins/sandbox_executor.py:257-308 | staging off returns the uploads unchanged with False; it fails exactly when forced with no compatible binary; not forced and nothing found returns the uploads with False; with staging not off and a binary found it returns True and appends exactly one spec unless one already targets the staging path; the appended spec is the found binary, mode `0755`, optional unless forced |
| ExecutorRules.StageOkIff | src/metaflow_extensions/sandbox/plugins/sandbox_executor.py:314-338 | staging succeeds exactly when every spec lands or is optional |
| ExecutorRules.StageOkContents | src/metaflow_extensions/sandbox/plugins/sandbox_executor.py:313-341 | successful staging uploads exactly the specs that land, in order, and returns their chmod lines |
| ExecutorRules.StageErrFirst | src/metaflow_extensions/sandbox/plugins/sandbox_executor.py:321-338 | failed staging reports the first required spec that did not land; every spec before it landed or was optional |
| ExecutorRules.StageLands | src/metaflow_extensions/sandbox/plugins/sandbox_executor.py:328-340 | a spec that lands is uploaded and adds its chmod line |
| ExecutorRules.StageSkips | src/metaflow_extensions/sandbox/plugins/sandbox_executor.py:321-332 | an optional spec that does not land is skipped |
| ExecutorRules.StageStops | src/metaflow_extensions/sandbox/plugins/sandbox_executor.py:324-338 | a required spec that does not land ends staging with its error |
| ExecutorRules.StageErrExtends | src/metaflow_extensions/sandbox/plugins/sandbox_executor.py:314-338 | an error while staging a prefix is the error for the whole list |
| ExecutorRules.LandedMembers | src/metaflow_extensions/sandbox/plugins/sandbox_executor.py:314-338 | the uploaded specs are exactly the input specs that land |
| ExecutorRules.ChmodWords | src/metaflow_extensions/sandbox/plugins/sandbox_executor.py:339-340 | a chmod line reaches the shell as exactly three words: `chmod`, the mode and the remote path, both quoted |
| ExecutorRules.ChmodLinesFromSpecs | src/metaflow_extensions/sandbox/plugins/sandbox_executor.py:339-341 | every chmod line sets the mode of an uploaded spec that has a non-empty mode |
| ExecutorRules.CopyConfig | src/metaflow_extensions/sandbox/plugins/sandbox_executor.py:384-393 | the configuration loop computes `ApplyConfig`, copying the forwarded keys in order |
| ExecutorRules.CopyCredentials | src/metaflow_extensions/sandbox/plugins/sandbox_executor.py:395-401 | the credential loop computes `ApplyCredentials`, copying each set credential except a skipped session token |
| ExecutorRules.BuildEnv | src/metaflow_extensions/sandbox/plugins/sandbox_executor.py:348-420 | the step-by-step map updates give `SandboxEnv`, whose layers the lemmas below describe |
| ExecutorRules.ConfigLayer | src/metaflow_extensions/sandbox/plugins/sandbox_executor.py:384-393 | a forwarded configuration key holds its last configured value |
| ExecutorRules.CredentialLayer | src/metaflow_extensions/sandbox/plugins/sandbox_executor.py:395-401 | a forwarded credential holds the launching process's value |
| ExecutorRules.LayeredLookup | src/metaflow_extensions/sandbox/plugins/sandbox_executor.py:359-404 | each key of the layered environment comes from the latest layer that has it |
| ExecutorRules.LateLayersKeep | src/metaflow_extensions/sandbox/plugins/sandbox_executor.py:406-418 | the worker-count default and the PATH rewrite change no other key |
| ExecutorRules.SandboxEnvWins | src/metaflow_extensions/sandbox/plugins/sandbox_executor.py:403-404 | the caller's `sandbox_env` overrides every earlier entry; only PATH is rewritten after it |
| ExecutorRules.SessionTokenRule | src/metaflow_extensions/sandbox/plugins/sandbox_executor.py:395-401 | AWS_SESSION_TOKEN reaches the sandbox exactly when the process has a non-empty one and the endpoint is not R2 without the forwarding flag |
| ExecutorRules.LayeredEndpoint | src/metaflow_extensions/sandbox/plugins/sandbox_executor.py:407-408 | the endpoint the R2 test reads is the `sandbox_env` value when non-empty, else a non-empty configured one, else the launching process's |
| ExecutorRules.WorkerCountRule | src/metaflow_extensions/sandbox/plugins/sandbox_executor.py:406-412 | a worker count from `sandbox_env` or the configuration is kept; otherwise it is set exactly for an R2 endpoint (wherever that endpoint was set), to the R2 setting or `8` |
| ExecutorRules.PathRule | src/metaflow_extensions/sandbox/plugins/sandbox_executor.py:414-418 | with a prepend path, PATH is that path, a colon, then the sandbox's PATH, else the process's, else the default |
| ExecutorRules.WorkloadMarker | src/metaflow_extensions/sandbox/plugins/sandbox_executor.py:369-370 | unless `sandbox_env` overrides them, METAFLOW_SANDBOX_WORKLOAD is `1` and METAFLOW_SANDBOX_BACKEND is the backend's name |
| ExecutorRules.ReplaceAllAbsent | src/metaflow_extensions/sandbox/plugins/sandbox_executor.py:178-183 | a package command without `mkdir metaflow && cd metaflow` passes unchanged |
| ExecutorRules.ReplaceAllFront | src/metaflow_extensions/sandbox/plugins/sandbox_executor.py:178-183 | an occurrence at the front is rewritten to the `mf_sandbox` directory, and the rest is processed after it |
| ExecutorRules.ShlexPassEscaped | src/metaflow_extensions/sandbox/plugins/sandbox_executor.py:204-207 | text escaped for a double-quoted shell word comes back verbatim as the last word of `shlex.split('bash -c "..."')` |
| ExecutorRules.ShlexPassPlain | src/metaflow_extensions/sandbox/plugins/sandbox_executor.py:207 | a script without backslashes or double quotes is not changed by the `shlex` pass |
| ExecutorRules.ShlexPassBareQuoteSplits | src/metaflow_extensions/sandbox/plugins/sandbox_executor.py:207 | for any escaped `x` and `y`, the script `x" "y` is not an error: the quoting closes at the bare `"`, the text splits, and only `y` is kept |
| ExecutorRules.ShlexPassBareQuote | src/metaflow_extensions/sandbox/plugins/sandbox_executor.py:207 | example: for the script `a" "b` only `b` is kept |
| Shell.SplitBashC | src/metaflow_extensions/sandbox/plugins/sandbox_executor.py:207 | `shlex.split` of `bash -c "<escaped x>"` is exactly the words `bash`, `-c` and `x` |
| Shell.SplitBashCPair | src/metaflow_extensions/sandbox/plugins/sandbox_executor.py:207 | `shlex.split` of `bash -c "<escaped x>" "<escaped y>"` is exactly the words `bash`, `-c`, `x` and `y` |
| Shell.SplitBareQuote | src/metaflow_extensions/sandbox/plugins/sandbox_executor.py:207 | example: `shlex.split` of `bash -c "a" "b"` is the four words `bash`, `-c`, `a`, `b` |
| ExecutorRules.ScriptSkeleton | src/metaflow_extensions/sandbox/plugins/sandbox_executor.py:185-202 | the script starts with `true && mkdir -p`, the logs directory and the mflog export, and ends with `; exit $c` |
| ExecutorRules.CommandScriptRoundTrip | src/metaflow_extensions/sandbox/plugins/sandbox_executor.py:199-209 | a skeleton escaped the way Metaflow escapes its commands comes back verbatim from the `shlex` pass |
| ExecutorRules.HandleAssignmentReadsBack | src/metaflow_extensions/sandbox/plugins/sandbox_executor.py:503 | the shell reads the export back as `METAFLOW_SANDBOX_ID=<handle>`, whatever characters the handle holds |
| ExecutorRules.RunCommandExportsHandle | src/metaflow_extensions/sandbox/plugins/sandbox_executor.py:492-505 | the run command first exports the handle as one shell word and ends with the step script unchanged |
| ExecutorRules.RunCommandWithoutSetup | src/metaflow_extensions/sandbox/plugins/sandbox_executor.py:497-505 | with nothing staged and no PATH change, the export leads straight into the script |
| ExecutorRules.RetryFrom | src/metaflow_extensions/sandbox/plugins/sandbox_executor.py:478-547 | from attempt k the loop makes between 1 and the remaining attempts, stopping after the first result that is not a hard -1 |
| ExecutorRules.RetryAttemptsUnique | src/metaflow_extensions/sandbox/plugins/sandbox_executor.py:545-547 | the attempt count is the only one consistent with the stopping rule |
| ExecutorRules.RetryAttemptsExceed | src/metaflow_extensions/sandbox/plugins/sandbox_executor.py:545-547 | attempts that all ended in a hard -1 before the last allowed one are followed by another |
| ExecutorRules.AllHardExhaustsBudget | src/metaflow_extensions/sandbox/plugins/sandbox_executor.py:473-547 | infrastructure failures on every attempt use the whole budget and no more |
| ExecutorRules.RecoversAfterTwoHardFailures | src/metaflow_extensions/sandbox/plugins/sandbox_executor.py:473-547 | example: two hard -1 results and then a success, with two retries allowed, make three attempts and keep the third result |
| ExecutorRules.AttemptBudget | src/metaflow_extensions/sandbox/plugins/sandbox_executor.py:473-474 | the budget is at least 1, and an unparsable retry count is an error |
| ExecutorRules.AttemptBudgetFromRetries | src/metaflow_extensions/sandbox/plugins/sandbox_executor.py:473-474 | a decimal retry count r allows `max(1, r + 1)` attempts |
| ExecutorRules.DefaultAttemptBudget | src/metaflow_extensions/sandbox/plugins/sandbox_executor.py:473-474 | with the variable unset, two attempts are allowed |
| Launch.PlanLaunch | src/metaflow_extensions/sandbox/plugins/sandbox_executor.py:455-474 | the plan exists exactly when the uploads parse, staging resolves and the budget parses; its config holds the built env, the image (default `python:3.11-slim`), the resources and the timeout; the staged list and the PATH switch are those staging resolved, and the attempt count is the budget |
| Launch.UploadRecordsInOrder | src/metaflow_extensions/sandbox/plugins/sandbox_executor.py:314-329 | one upload record per landed spec, in order, naming the sandbox and both paths |
| Launch.RecordsGrow | src/metaflow_extensions/sandbox/plugins/sandbox_executor.py:314-329 | uploading one more spec adds its record after the others |
| Launch.FirstNotSetUpMeaning | src/metaflow_extensions/sandbox/plugins/sandbox_executor.py:478-482 | every attempt before the first one that fails to set up did set up |
| Launch.FirstNotSetUpIs | src/metaflow_extensions/sandbox/plugins/sandbox_executor.py:478-482 | an attempt that fails to set up, after attempts that all did, is the first such attempt |
| Launch.Attempt | src/metaflow_extensions/sandbox/plugins/sandbox_executor.py:479-543 | one attempt adds one create and one exec, and destroys nothing |
| Launch.Retried | src/metaflow_extensions/sandbox/plugins/sandbox_executor.py:478-552 | k retried attempts make k creates and k execs, and destroy k sandboxes |
| Launch.HandlesInOrder | src/metaflow_extensions/sandbox/plugins/sandbox_executor.py:479 | handle j in the list is the one attempt j was given |
| Launch.RetriedDestroysOwnSandboxes | src/metaflow_extensions/sandbox/plugins/sandbox_executor.py:548-552 | each retried attempt destroys exactly the sandbox it created, in order |
| Launch.RetriedDestroysOne | src/metaflow_extensions/sandbox/plugins/sandbox_executor.py:550-552 | a retried attempt adds its own sandbox, and nothing else, to the destroyed list |
| Launch.FailureMessageReportsCode | src/metaflow_extensions/sandbox/plugins/sandbox_executor.py:596-600 | the exit code can be read back from the failure message, and the sandbox named at its end, `<unknown>` when none |
| Launch.WaitEcho | src/metaflow_extensions/sandbox/plugins/sandbox_executor.py:583-600 | `wait` echoes the output lines only when nothing was streamed, then the failure message exactly for a non-zero code |
| Launch.RetryStep | src/metaflow_extensions/sandbox/plugins/sandbox_executor.py:545-552 | destroying the sandbox of a set-up attempt that hit a hard -1 makes one more retried attempt |
| Launch.AttemptsPass | src/metaflow_extensions/sandbox/plugins/sandbox_executor.py:544-547 | a loop that stops after a usable result, or after the last attempt, has passed |
| Launch.AttemptsFail | src/metaflow_extensions/sandbox/plugins/sandbox_executor.py:479-482 | a loop that stops at an attempt that failed to set up has failed with its error |
| Launch.PassedAttempts | src/metaflow_extensions/sandbox/plugins/sandbox_executor.py:473-557 | a passing loop made exactly the attempts the retry rule allows; it kept the last result and sandbox, which did not end in a hard -1 unless the budget ran out, and destroyed every earlier sandbox in order |
| Launch.TornDown | src/metaflow_extensions/sandbox/plugins/sandbox_executor.py:559-569 | with debug-keep on nothing changes; otherwise the current sandbox is destroyed once and forgotten |
| Launch.CleanupIdempotent | src/metaflow_extensions/sandbox/plugins/sandbox_executor.py:559-569 | a second `cleanup` destroys nothing |
| Launch.PassThenCleanupDestroysAll | src/metaflow_extensions/sandbox/plugins/sandbox_executor.py:478-569 | a passing launch followed by `cleanup` has destroyed every sandbox it created, each once and in creation order |
| Sandbox.Backend.Create | src/metaflow_extensions/sandbox/plugins/sandbox_executor.py:479 | `create` returns the scripted handle (or raises) and records the config |
| Sandbox.Backend.Upload | src/metaflow_extensions/sandbox/plugins/sandbox_executor.py:329 | `upload` raises as scripted and records only uploads that happened |
| Sandbox.Backend.ExecScriptStreaming | src/metaflow_extensions/sandbox/plugins/sandbox_executor.py:537-543 | `exec_script_streaming` returns the scripted result whether or not listeners are attached, and records the script |
| Sandbox.Backend.Destroy | src/metaflow_extensions/sandbox/plugins/sandbox_executor.py:550-551 | `destroy` records the handle and never raises |
| Executor.SandboxExecutor.constructor | src/metaflow_extensions/sandbox/plugins/sandbox_executor.py:125-139 | no sandbox, no result, no backend, nothing streamed |
| Executor.SandboxExecutor.StageUploads | src/metaflow_extensions/sandbox/plugins/sandbox_executor.py:310-341 | the loop uploads exactly what `Stage` says and returns its chmod lines or its error; only uploads are added to the backend's record |
| Executor.SandboxExecutor.UploadOne | src/metaflow_extensions/sandbox/plugins/sandbox_executor.py:315-338 | one spec lands exactly when its file exists and its upload does not raise, and only then is it recorded |
| Executor.SandboxExecutor.AttemptOnce | src/metaflow_extensions/sandbox/plugins/sandbox_executor.py:479-543 | an attempt that sets up leaves the `Attempt` record and the scripted result; one that does not leaves the failed-attempt state |
| Executor.SandboxExecutor.AttemptStep | src/metaflow_extensions/sandbox/plugins/sandbox_executor.py:478-552 | one pass either finishes the loop as `AttemptsDone` says or leaves one more retried attempt |
| Executor.SandboxExecutor.DiscardForRetry | src/metaflow_extensions/sandbox/plugins/sandbox_executor.py:548-552 | destroys the sandbox of a hard -1 attempt and clears the handle |
| Executor.SandboxExecutor.RunAttempts | src/metaflow_extensions/sandbox/plugins/sandbox_executor.py:478-557 | the attempt loop ends in the state `AttemptsDone` describes: passed exactly when every allowed attempt set up, else failed at the first that did not |
| Executor.SandboxExecutor.Launch | src/metaflow_extensions/sandbox/plugins/sandbox_executor.py:426-557 | an unknown backend changes nothing; otherwise a rejected command or a failed plan stops early, else the attempt loop runs with the plan |
| Executor.SandboxExecutor.Prepare | src/metaflow_extensions/sandbox/plugins/sandbox_executor.py:455-474 | computes `PlanLaunch` |
| Executor.SandboxExecutor.Cleanup | src/metaflow_extensions/sandbox/plugins/sandbox_executor.py:559-569 | leaves the state `TornDown` describes, and never fails |
| Executor.SandboxExecutor.Wait | src/metaflow_extensions/sandbox/plugins/sandbox_executor.py:571-602 | with no result it fails and changes nothing; otherwise it echoes `WaitEcho`, cleans up, and reports the exit code exactly when it is non-zero |
| Shell.QuoteReadsBack | src/metaflow_extensions/sandbox/plugins/sandbox_executor.py:340 | the shell reads back a `shlex.quote`d string as that string, and the word ends where the quoting ends |
| Shell.QuotedWords | src/metaflow_extensions/sandbox/plugins/sandbox_executor.py:340 | the words of a quoted string followed by more text are the string, then the words of the rest |
| Text.IntRoundTrip | src/metaflow_extensions/sandbox/plugins/sandbox_cli.py:181 | `int(str(i)) == i` for every integer |
| Text.SplitLinesRejoin | src/metaflow_extensions/sandbox/plugins/sandbox_executor.py:584-589 | for `\n`-separated output, the echoed lines lose only their terminators |
| PyDict.GetFinds | src/metaflow_extensions/sandbox/plugins/sandbox_decorator.py:128 | in a dict, `get` finds a key exactly when it is present, with its value |
| PyDict.SetDefaultGet | src/metaflow_extensions/sandbox/plugins/sandbox_decorator.py:143-167 | `setdefault` never overwrites: an existing key keeps its value, a new key gets the default, other keys are unchanged |
| PyDict.SetDefaultDistinct | src/metaflow_extensions/sandbox/plugins/sandbox_decorator.py:143-167 | `setdefault` keeps keys distinct |
| PyDict.DedupeMeaning | src/metaflow_extensions/sandbox/plugins/sandbox_decorator.py:73 | `dict.fromkeys` keeps every element once and adds none |
| PyDict.DedupeAppend | src/metaflow_extensions/sandbox/plugins/sandbox_decorator.py:73 | deduplicating `a + b` gives the distinct elements of `a`, then what `b` adds |
| Process.Or | src/metaflow_extensions/sandbox/plugins/sandbox_decorator.py:131 | `a or b` is true exactly when either is true, and is `a` when `a` is |
| Process.Environ.Put | src/metaflow_extensions/sandbox/plugins/sandbox_decorator.py:133 | assigning `os.environ[name]` changes that key only |
| Decorator.SandboxDefaultBackend | src/metaflow_extensions/sandbox/plugins/sandbox_decorator.py:35 | bare `@sandbox` runs on the backend METAFLOW_SANDBOX_BACKEND named at import, and on `daytona` when it was unset |
| Decorator.TargetPlatformChoice | src/metaflow_extensions/sandbox/plugins/sandbox_decorator.py:101-103 | METAFLOW_SANDBOX_TARGET_PLATFORM wins; without it the platform is `linux-aarch64` exactly for an ARM machine name, in any case, and `linux-64` otherwise |
| Decorator.SandboxDecorator.constructor | src/metaflow_extensions/sandbox/plugins/sandbox_decorator.py:35-47 | the default backend and the initial credentials are both taken from the environment at import |
| Decorator.TargetPlatformIgnoresCase | src/metaflow_extensions/sandbox/plugins/sandbox_decorator.py:54-58 | the platform does not depend on the machine name's letter case, and is `linux-aarch64` or `linux-64` |
| Decorator.InitialAuthEnv | src/metaflow_extensions/sandbox/plugins/sandbox_decorator.py:45-47 | holds exactly the backend credentials set and non-empty at import, with their values |
| Decorator.SetDefaultsGet | src/metaflow_extensions/sandbox/plugins/sandbox_decorator.py:228-238 | after several `setdefault`s a key keeps its own value, or else takes the first value offered |
| Decorator.TruthyPairsGet | src/metaflow_extensions/sandbox/plugins/sandbox_decorator.py:229-232 | among distinct candidates, the value kept for a key is its own candidate when that is true |
| Decorator.MergeAliasesKeepsOrder | src/metaflow_extensions/sandbox/plugins/sandbox_decorator.py:72-74 | the merged tuple holds the existing entries first, in order, then each missing alias in order, with no duplicates |
| Decorator.MergeAliasesIdempotent | src/metaflow_extensions/sandbox/plugins/sandbox_decorator.py:72-74 | merging a second time changes nothing |
| Decorator.CondaModule.constructor | src/metaflow_extensions/sandbox/plugins/sandbox_decorator.py:72 | a module holding its current `CONDA_REMOTE_COMMANDS` |
| Decorator.EnsureCondaRemoteCommandAliases | src/metaflow_extensions/sandbox/plugins/sandbox_decorator.py:61-74 | each conda module that is imported gets the merged aliases; the rest are skipped |
| Decorator.AliasesOnlyWhenUnset | src/metaflow_extensions/sandbox/plugins/sandbox_decorator.py:130-133 | an alias is written only when it is unset and its key has a value, now or at import; nothing else changes |
| Decorator.WriteAuthAliases | src/metaflow_extensions/sandbox/plugins/sandbox_decorator.py:130-133 | the loop writes `os.environ` as `PublishAliases` says |
| Decorator.FirstNamed | src/metaflow_extensions/sandbox/plugins/sandbox_decorator.py:135-136 | None exactly when no decorator has the name, otherwise the first one that has it |
| Decorator.PinsKeepUserVersions | src/metaflow_extensions/sandbox/plugins/sandbox_decorator.py:140-160 | a version the user gave is kept; otherwise a pinned package gets the pinned version; other packages are untouched |
| Decorator.PinInto | src/metaflow_extensions/sandbox/plugins/sandbox_decorator.py:142-149 | the loop and the last `setdefault` add the pins in order |
| Decorator.PinRuntime | src/metaflow_extensions/sandbox/plugins/sandbox_decorator.py:135-160 | with a known backend, `@pypi` is pinned if present, else `@conda`'s pip packages; nothing is added for an unknown backend, and no other decorator changes |
| Decorator.ShorthandBackend | src/metaflow_extensions/sandbox/plugins/sandbox_decorator.py:320-337 | `@daytona` and `@e2b` at their defaults run on their own backend; bare `@sandbox` runs on the default |
| Decorator.UserEnvNeverOverwrites | src/metaflow_extensions/sandbox/plugins/sandbox_decorator.py:228-238 | user env entries are never overwritten; a credential or alias is added only when unset by the user and it has a value |
| Decorator.AuthCandidateValue | src/metaflow_extensions/sandbox/plugins/sandbox_decorator.py:229-232 | a credential reaches the user env with its current value, or else its value at import |
| Decorator.EnvVarItems | src/metaflow_extensions/sandbox/plugins/sandbox_decorator.py:239-242 | one `KEY=VALUE` item per entry |
| Decorator.SaveOnceIdempotent | src/metaflow_extensions/sandbox/plugins/sandbox_decorator.py:311-317 | a second save, whatever the datastore would answer, changes nothing, and the first sets the url |
| Decorator.Datastore.SaveData | src/metaflow_extensions/sandbox/plugins/sandbox_decorator.py:312-314 | `save_data` answers as scripted and records the blob |
| Decorator.PackageState.SaveOnce | src/metaflow_extensions/sandbox/plugins/sandbox_decorator.py:303-317 | the blob is uploaded and url, sha and metadata are set only while no url is recorded |
| Decorator.StepCliRedirects | src/metaflow_extensions/sandbox/plugins/sandbox_decorator.py:216-243 | a redirected step runs `sandbox step` from the current interpreter, with the package fields appended and every attribute but `env` as an option; it gets `--env-var` exactly when the user env is non-empty |
| Decorator.StepCliStaysLocal | src/metaflow_extensions/sandbox/plugins/sandbox_decorator.py:213-216 | inside a sandbox workload, or once user retries are spent, `cli_args` is left alone |
| Decorator.SetDefaultsFrom | src/metaflow_extensions/sandbox/plugins/sandbox_decorator.py:229-238 | the loop `setdefault`s each true candidate in order |
| Decorator.CollectUserEnv | src/metaflow_extensions/sandbox/plugins/sandbox_decorator.py:228-238 | the user env is the user's entries, then the credentials and aliases as defaults |
| Decorator.SandboxDecorator.StepInit | src/metaflow_extensions/sandbox/plugins/sandbox_decorator.py:111-176 | conda aliases are merged, the backend is chosen, the aliases published, the runtime pinned and set credentials kept in `env`; a local datastore is refused |
| Decorator.SandboxDecorator.SettleAttributes | src/metaflow_extensions/sandbox/plugins/sandbox_decorator.py:121-133 | the conda, backend, `env`, alias and credential updates of `step_init` |
| Decorator.SandboxDecorator.KeepAuthEnv | src/metaflow_extensions/sandbox/plugins/sandbox_decorator.py:164-167 | each set credential is kept in `env` as a default, so a user value wins |
| Decorator.SandboxDecorator.RuntimeTaskCreated | src/metaflow_extensions/sandbox/plugins/sandbox_decorator.py:185-196 | the package is saved once, and only for a task that is not cloned |
| Decorator.SandboxDecorator.RuntimeStepCli | src/metaflow_extensions/sandbox/plugins/sandbox_decorator.py:198-243 | `cli_args` becomes what `StepCli` describes |
| Cli.SplitVars | src/metaflow_extensions/sandbox/plugins/sandbox_cli.py:162-167 | one variable per 30 KiB chunk |
| Cli.ChunkCountBounds | src/metaflow_extensions/sandbox/plugins/sandbox_cli.py:163-166 | the chunk count is the least number of 30 KiB chunks covering the string, and 0 only for the empty string |
| Cli.SplitVarsRejoin | src/metaflow_extensions/sandbox/plugins/sandbox_cli.py:162-167 | the chunks, in key order, rejoin to the input paths; there are none only for the empty string |
| Cli.SplitVarsSizes | src/metaflow_extensions/sandbox/plugins/sandbox_cli.py:163-166 | each chunk is non-empty and at most 30 KiB, and every chunk but the last is exactly 30 KiB |
| Cli.SplitVarsKeys | src/metaflow_extensions/sandbox/plugins/sandbox_cli.py:165 | the keys are `METAFLOW_INPUT_PATHS_0` onward, in order, and never collide |
| Cli.ExpandRefs | src/metaflow_extensions/sandbox/plugins/sandbox_cli.py:168 | the shell expands the `${...}` references to the referenced values, joined in order |
| Cli.InputPathsRoundTrip | src/metaflow_extensions/sandbox/plugins/sandbox_cli.py:160-168 | the rewritten `--input-paths`, expanded in the sandbox with the split variables set, gives back the original input paths |
| Cli.PartitionRejoin | src/metaflow_extensions/sandbox/plugins/sandbox_cli.py:194 | the key is everything before the first `=`; with an `=`, key, `=` and value rejoin to the item |
| Cli.PartitionJoin | src/metaflow_extensions/sandbox/plugins/sandbox_cli.py:194 | an item printed from a key without `=` splits back into that key and value |
| Cli.Parsed | src/metaflow_extensions/sandbox/plugins/sandbox_cli.py:193-194 | one parsed pair per item |
| Cli.EnvVarLastWins | src/metaflow_extensions/sandbox/plugins/sandbox_cli.py:192-196 | a key named by some item holds the value of the last item that names it |
| Cli.EnvVarUnnamed | src/metaflow_extensions/sandbox/plugins/sandbox_cli.py:195 | items with an empty key are ignored; a key no item names keeps its earlier value |
| Cli.ParsedEnvVarItems | src/metaflow_extensions/sandbox/plugins/sandbox_cli.py:192-196 | the items the decorator prints parse back into the same pairs |
| Cli.AssignDict | src/metaflow_extensions/sandbox/plugins/sandbox_cli.py:193-196 | assigning the pairs of a dict with non-empty keys lays that dict over `env` |
| Cli.EnvVarItemsRoundTrip | src/metaflow_extensions/sandbox/plugins/sandbox_cli.py:192-196 | parsing the decorator's `--env-var` items gives back its user env, laid over the step env |
| Cli.EnvLayering | src/metaflow_extensions/sandbox/plugins/sandbox_cli.py:185-196 | a key no `--env-var` item names takes the highest of flow file name, `@environment` vars and split vars that has it; an item naming it overrides them all |
| Cli.ApiKeyFallback | src/metaflow_extensions/sandbox/plugins/sandbox_cli.py:198-201 | both API keys end up present; a non-empty value is kept, otherwise the `METAFLOW_` variable or the empty string is used; other keys are untouched |
| Cli.ExportOnlyNonEmpty | src/metaflow_extensions/sandbox/plugins/sandbox_cli.py:205-208 | exactly the backend keys with a non-empty value are exported, with that value; the rest of the process env is unchanged |
| Cli.TopParams | src/metaflow_extensions/sandbox/plugins/sandbox_cli.py:152-156 | the metadata option is forced to `local` for the service provider; nothing else changes |
| Cli.TaskSpecRetryCount | src/metaflow_extensions/sandbox/plugins/sandbox_cli.py:174-182 | the retry count in the task spec is a string that reads back as the same integer |
| Cli.Step | src/metaflow_extensions/sandbox/plugins/sandbox_cli.py:148-208 | the top params, the rewritten input paths, the task spec and the step env are as the functions above describe, and the process env gets the exported keys |
| Cli.BuildStepEnv | src/metaflow_extensions/sandbox/plugins/sandbox_cli.py:185-201 | the successive `env` updates give `StepEnv` |
| Cli.AssignEnvVars | src/metaflow_extensions/sandbox/plugins/sandbox_cli.py:192-196 | the `--env-var` loop computes `ApplyEnvVars` |
| Cli.ExportAuthKeys | src/metaflow_extensions/sandbox/plugins/sandbox_cli.py:205-208 | the export loop writes `os.environ` as `ExportAuth` says |

## Left out

- Debug dumps: the script and env dump files, `time.time()`, `os.path.isdir` and `json.dump` (sandbox_executor.py:507-524) are file I/O. The debug setting itself is modelled.
- The `stager` and `installer` hooks of `SandboxExecutor` (sandbox_executor.py:171-172, 188-189, 485-490) are not modelled. The `step` command never passes them, so they are always None.
- The mflog export, `get_package_commands`, `bootstrap_commands`, `bash_capture_logs` and `BASH_SAVE_LOGS` come from Metaflow. They are string inputs to the script skeleton.
- The `shlex.split('bash -c "..."')` pass is modelled as POSIX-mode `shlex` with whitespace splitting and no comment characters, which is what `shlex.split` uses. Where `shlex` raises (quoting left open, or a trailing backslash) the launch fails before any sandbox is created; the source raises there too.
- `_is_hard_minus_one` lives in another package. It is an uninterpreted predicate on results.
- The `on_log` callbacks and line buffering of streamed output are not modelled. Only whether output was streamed is kept.
- `exec_script_streaming` raising is not modelled; the scripted backend always answers. `create` failing is modelled.
- The `last_result is None` check (sandbox_executor.py:554-555) cannot fire, because the budget is at least 1 and every attempt that gets past staging produces a result.
- `task_pre_step` and `task_finished` (sandbox_decorator.py:245-301) are metadata registration and sync, which is I/O.
- `_replay_task_metadata_to_service`, `_sync_metadata`, Click option handling, `sys.exit` and `traceback` in the `step` command are I/O plumbing. `wait` reports the exit code instead of exiting.
- `runtime_init` (sandbox_decorator.py:178-183) only stores the flow and package. The package is passed to `RuntimeTaskCreated` directly.
- `platform.machine()` and `import_module` are parameters. A conda module that fails to import is a null entry.
- Decorator.SandboxDecorator.StepInit: requires the `env` attribute to be absent or a dict. Another value (such as `env=None`) makes the Python code fail on `setdefault` (sandbox_decorator.py:167) only when some backend credential is set in the process environment; with none set, `step_init` passes and `runtime_step_cli` treats the value as empty through `or {}` (line 228). That case is outside the model.
- Decorator.SandboxDecorator.StepInit: pins after the credential loop rather than before it. The two touch disjoint state, so the final state is the same.
- Decorator.BackendOf: a non-string `backend` attribute is treated as absent.
- Decorator.PinRuntime: an absent or None `packages`/`pip_packages` dict is treated as empty.
- Cli.EnvVarItemsRoundTrip: requires keys without `=` and non-empty keys. A key holding `=` would split elsewhere, as in the source.
- `dict_to_cli_options` and the `step_cli` string are not modelled. The step's options are kept as a map.
- The `@environment` decorator lookup on the graph node is a parameter holding its vars.
- Cli.Expand: models only strings made of `${NAME}` references, which is all the rewritten `--input-paths` contains.
- Text.Lower: `str.lower()` is modelled for ASCII letters only. All names compared in the code are ASCII.
- Text.ParseInt: `int()` is modelled for ASCII decimal digits only. Python also accepts other Unicode decimal digits (such as `٣`), so such a value of `METAFLOW_SANDBOX_MAX_INFRA_RETRIES` is reported by the model as unparsable where Python reads a number.
- Backend adapters (Daytona, E2B, Boxlite) and the registry live in another package. `get_backend` is a parameter that is null for an unknown name.
