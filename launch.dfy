/**
 * What one launch does to the backend.
 */
module Launch {
  import opened Wrappers
  import opened Text
  import opened Sandbox
  import opened ExecutorRules

  // ---------------------------------------------------------------------
  // What one launch asks of the backend
  // ---------------------------------------------------------------------

  /** The step script, code package and `@sandbox` settings `launch` receives. */
  datatype LaunchRequest = LaunchRequest(
    command: CommandParts,
    pkg: CodePackage,
    image: Option<string>,
    cpu: int,
    memoryMb: int,
    gpu: Option<string>,
    timeout: int,
    env: map<string, string>,
    streaming: bool)

  /** What `launch` settles before the first attempt. */
  datatype LaunchPlan = LaunchPlan(staged: seq<UploadSpec>, prependBinDir: bool, config: SandboxConfig, attempts: nat)

  function StagingPrepend(prependBinDir: bool): Option<string> {
    if prependBinDir then Some(StagingBinDir) else None
  }

  /**
   * Upload specs, micromamba staging, the environment, the image (default
   * `python:3.11-slim`) and the attempt budget, or the first error among them.
   */
  function PlanLaunch(backendName: string, req: LaunchRequest, host: Host, decoded: Option<Json>,
                      probe: MicromambaProbe): (r: Result<LaunchPlan, Error>)
    ensures r.Ok? <==> && UploadSpecsOf(host.environ, decoded).Ok?
                       && ResolveStagedUploads(host.environ, UploadSpecsOf(host.environ, decoded).value, probe).Ok?
                       && AttemptBudget(host.environ).Ok?
    ensures r.Ok? ==> && r.value.attempts >= 1
                      && r.value.config.env == SandboxEnv(req.pkg, backendName, host, req.env,
                                                          StagingPrepend(r.value.prependBinDir))
                      && r.value.config.image == (if req.image.Some? && req.image.value != "" then req.image.value
                                                  else DefaultImage)
                      && r.value.config.resources == Resources(req.cpu, req.memoryMb, req.gpu)
                      && r.value.config.timeout == req.timeout
                      && r.value.attempts == AttemptBudget(host.environ).value
                      && (r.value.staged, r.value.prependBinDir)
                         == ResolveStagedUploads(host.environ, UploadSpecsOf(host.environ, decoded).value, probe).value
  {
    var uploads :- UploadSpecsOf(host.environ, decoded);
    var resolved :- ResolveStagedUploads(host.environ, uploads, probe);
    var env := SandboxEnv(req.pkg, backendName, host, req.env, StagingPrepend(resolved.1));
    var image := if req.image.Some? && req.image.value != "" then req.image.value else DefaultImage;
    var config := SandboxConfig(image, env, Resources(req.cpu, req.memoryMb, req.gpu), req.timeout);
    var attempts :- AttemptBudget(host.environ);
    Ok(LaunchPlan(resolved.0, resolved.1, config, attempts))
  }

  /** Whether `upload` raises for one file, seen from inside the sandbox `handle`. */
  function UploadFails(b: Backend, handle: string): (string, string) -> bool {
    b.uploadRaises(handle)
  }

  /** The backend's upload records for the specs that landed in `handle`. */
  function UploadRecords(handle: string, specs: seq<UploadSpec>): seq<(string, string, string)>
    decreases |specs|
  {
    if specs == [] then []
    else
      var u := specs[|specs| - 1];
      UploadRecords(handle, specs[..|specs| - 1]) + [(handle, u.local, u.remote)]
  }

  /** One record per spec, in order, naming the sandbox and the spec's two paths. */
  lemma {:induction false} UploadRecordsInOrder(handle: string, specs: seq<UploadSpec>)
    ensures |UploadRecords(handle, specs)| == |specs|
    ensures forall i :: 0 <= i < |specs| ==> UploadRecords(handle, specs)[i] == (handle, specs[i].local, specs[i].remote)
    decreases |specs|
  {
    if specs != [] {
      var init := specs[..|specs| - 1];
      UploadRecordsInOrder(handle, init);
      assert forall i :: 0 <= i < |init| ==> specs[i] == init[i];
    }
  }

  /** Uploading one more spec adds its record after the others. */
  lemma {:induction false} RecordsGrow(before: seq<(string, string, string)>, handle: string, landed: seq<UploadSpec>,
                                       u: UploadSpec)
    ensures before + UploadRecords(handle, landed + [u])
            == (before + UploadRecords(handle, landed)) + [(handle, u.local, u.remote)]
  {
    assert (landed + [u])[..|landed|] == landed;
    Associative(before, UploadRecords(handle, landed), [(handle, u.local, u.remote)]);
  }

  /** The handle of the sandbox created by attempt `j` of a launch that began after `c0` creations. */
  function HandleAt(b: Backend, c0: nat, j: nat): string {
    b.provision(c0 + j).GetOr("")
  }

  /**
   * What an attempt does inside the sandbox `h` it was given: `stage(h)`
   * uploads the staged specs into it, and `run(h, chmods)` is the script
   * executed there once they are in place.
   */
  datatype Steps = Steps(stage: string -> Result<Staged, Error>, run: (string, seq<string>) -> string)

  /**
   * The steps of `launch`: staging uploads the plan's specs, with the local
   * files `present` and the backend's upload failures, and the script is
   * the step command behind the handle export and setup prefix.
   */
  function StepsOf(b: Backend, plan: LaunchPlan, present: string -> bool, command: string): Steps {
    Steps(h => Stage(plan.staged, present, UploadFails(b, h)),
          (h, chmods) => RunCommand(h, plan.prependBinDir, chmods, command))
  }

  /** Staging in the sandbox of attempt `j`. */
  function StageAt(b: Backend, c0: nat, j: nat, steps: Steps): Result<Staged, Error> {
    steps.stage(HandleAt(b, c0, j))
  }

  /** Attempt `j` gets a sandbox and every required upload into it. */
  predicate SetsUp(b: Backend, c0: nat, j: nat, steps: Steps) {
    b.provision(c0 + j).Some? && StageAt(b, c0, j, steps).Ok?
  }

  /** The first `k` attempts all set up. */
  predicate SetUpFirst(b: Backend, c0: nat, k: nat, steps: Steps) {
    k == 0 || (SetUpFirst(b, c0, k - 1, steps) && SetsUp(b, c0, k - 1, steps))
  }

  lemma {:induction false} SetUpFirstMeaning(b: Backend, c0: nat, k: nat, steps: Steps)
    ensures SetUpFirst(b, c0, k, steps) <==> forall j :: 0 <= j < k ==> SetsUp(b, c0, j, steps)
  {
    if k > 0 {
      SetUpFirstMeaning(b, c0, k - 1, steps);
    }
  }

  /** The first of attempts `j` .. `n - 1` that does not set up, or `n` when they all do. */
  function FirstNotSetUpFrom(b: Backend, c0: nat, j: nat, n: nat, steps: Steps): nat
    decreases n - j
  {
    if j >= n then n
    else if SetsUp(b, c0, j, steps) then FirstNotSetUpFrom(b, c0, j + 1, n, steps)
    else j
  }

  /** The first of the `n` attempts that does not set up, or `n` when they all do. */
  function FirstNotSetUp(b: Backend, c0: nat, n: nat, steps: Steps): nat {
    FirstNotSetUpFrom(b, c0, 0, n, steps)
  }

  /** An attempt that does not set up after attempts that all did is the first that does not. */
  lemma {:induction false} FirstNotSetUpIs(b: Backend, c0: nat, n: nat, k: nat, steps: Steps)
    requires k < n && SetUpFirst(b, c0, k, steps) && !SetsUp(b, c0, k, steps)
    ensures FirstNotSetUp(b, c0, n, steps) == k
  {
    SetUpFirstMeaning(b, c0, k, steps);
    FirstNotSetUpFromIs(b, c0, 0, n, k, steps);
  }

  lemma {:induction false} FirstNotSetUpFromIs(b: Backend, c0: nat, j: nat, n: nat, k: nat, steps: Steps)
    requires j <= k < n && !SetsUp(b, c0, k, steps)
    requires forall i :: j <= i < k ==> SetsUp(b, c0, i, steps)
    ensures FirstNotSetUpFrom(b, c0, j, n, steps) == k
    decreases k - j
  {
    if j < k {
      FirstNotSetUpFromIs(b, c0, j + 1, n, k, steps);
    }
  }

  /** Before the first attempt that does not set up, every attempt does. */
  lemma {:induction false} FirstNotSetUpMeaning(b: Backend, c0: nat, n: nat, steps: Steps)
    ensures var k := FirstNotSetUp(b, c0, n, steps);
            && k <= n && SetUpFirst(b, c0, k, steps) && (k < n ==> !SetsUp(b, c0, k, steps))
  {
    FirstNotSetUpFromMeaning(b, c0, 0, n, steps);
  }

  lemma {:induction false} FirstNotSetUpFromMeaning(b: Backend, c0: nat, j: nat, n: nat, steps: Steps)
    requires j <= n && SetUpFirst(b, c0, j, steps)
    ensures var k := FirstNotSetUpFrom(b, c0, j, n, steps);
            && j <= k <= n && SetUpFirst(b, c0, k, steps) && (k < n ==> !SetsUp(b, c0, k, steps))
    decreases n - j
  {
    if j < n && SetsUp(b, c0, j, steps) {
      FirstNotSetUpFromMeaning(b, c0, j + 1, n, steps);
    }
  }

  /** The backend's record after attempt `j` creates, stages and runs (when it sets up). */
  function Attempt(log: BackendLog, b: Backend, c0: nat, j: nat, plan: LaunchPlan, steps: Steps): (r: BackendLog)
    ensures r.creates == log.creates + 1 && r.execs == log.execs + 1 && r.destroyed == log.destroyed
  {
    var h := HandleAt(b, c0, j);
    var st := match StageAt(b, c0, j, steps) case Ok(st) => st case Err(_) => Staged([], []);
    log.(creates := log.creates + 1, execs := log.execs + 1,
         configs := log.configs + [plan.config],
         uploaded := log.uploaded + UploadRecords(h, st.uploaded),
         scripts := log.scripts + [(h, steps.run(h, st.chmods))])
  }

  /** The backend's record after `k` attempts that each ran and were then destroyed for a retry. */
  function Retried(log: BackendLog, b: Backend, c0: nat, k: nat, plan: LaunchPlan, steps: Steps): (r: BackendLog)
    ensures r.creates == log.creates + k && r.execs == log.execs + k
    ensures |r.destroyed| == |log.destroyed| + k
  {
    if k == 0 then log
    else
      var a := Attempt(Retried(log, b, c0, k - 1, plan, steps), b, c0, k - 1, plan, steps);
      a.(destroyed := a.destroyed + [HandleAt(b, c0, k - 1)])
  }

  /** The handles of the sandboxes created by the first `k` attempts, in order. */
  function Handles(b: Backend, c0: nat, k: nat): seq<string>
  {
    if k == 0 then [] else Handles(b, c0, k - 1) + [HandleAt(b, c0, k - 1)]
  }

  /** Handle `j` in the list is the one attempt `j` was given. */
  lemma {:induction false} HandlesInOrder(b: Backend, c0: nat, k: nat)
    ensures var hs := Handles(b, c0, k);
            |hs| == k && forall j :: 0 <= j < k ==> hs[j] == HandleAt(b, c0, j)
  {
    if k > 0 {
      HandlesInOrder(b, c0, k - 1);
    }
  }

  /** Every attempt that is retried destroys exactly the sandbox it created, in order. */
  lemma {:induction false} RetriedDestroysOwnSandboxes(log: BackendLog, b: Backend, c0: nat, k: nat,
                                                       plan: LaunchPlan, steps: Steps)
    ensures Retried(log, b, c0, k, plan, steps).destroyed == log.destroyed + Handles(b, c0, k)
    decreases k
  {
    if k == 0 {
      assert log.destroyed + [] == log.destroyed;
    } else {
      RetriedDestroysOwnSandboxes(log, b, c0, k - 1, plan, steps);
      RetriedDestroysNext(log, b, c0, k, plan, steps);
    }
  }

  /** The inductive step of `RetriedDestroysOwnSandboxes`. */
  lemma {:induction false} RetriedDestroysNext(log: BackendLog, b: Backend, c0: nat, k: nat,
                            plan: LaunchPlan, steps: Steps)
    requires k > 0
    requires Retried(log, b, c0, k - 1, plan, steps).destroyed == log.destroyed + Handles(b, c0, k - 1)
    ensures Retried(log, b, c0, k, plan, steps).destroyed == log.destroyed + Handles(b, c0, k)
  {
    var prev, hs, h := Retried(log, b, c0, k - 1, plan, steps).destroyed, Handles(b, c0, k - 1),
                       HandleAt(b, c0, k - 1);
    RetriedDestroysOne(log, b, c0, k, plan, steps);
    AppendedInOrder(Retried(log, b, c0, k, plan, steps).destroyed, prev, log.destroyed,
                    hs, h, Handles(b, c0, k));
  }

  lemma {:induction false} AppendedInOrder(r: seq<string>, prev: seq<string>, base: seq<string>, hs: seq<string>, h: string,
                        all: seq<string>)
    requires r == prev + [h] && prev == base + hs && all == hs + [h]
    ensures r == base + all
  {
    Associative(base, hs, [h]);
  }

  /** Attempt `k - 1`, once retried, adds its own sandbox and nothing else to the destroyed handles. */
  lemma {:induction false} RetriedDestroysOne(log: BackendLog, b: Backend, c0: nat, k: nat,
                           plan: LaunchPlan, steps: Steps)
    requires k > 0
    ensures Retried(log, b, c0, k, plan, steps).destroyed
            == Retried(log, b, c0, k - 1, plan, steps).destroyed + [HandleAt(b, c0, k - 1)]
  {
  }

  /** The last line `wait` echoes when the step failed. */
  function FailureMessage(code: int, handle: Option<string>): string {
    "Sandbox task finished with exit code " + IntToDecimal(code) + ". sandbox_id="
      + (if handle.Some? && handle.value != "" then handle.value else "<unknown>")
  }

  /** The exit code can be read back from the failure message, and the sandbox named at its end, `<unknown>` when none. */
  lemma {:induction false} FailureMessageReportsCode(code: int, handle: Option<string>)
    ensures var m := FailureMessage(code, handle);
            var d := IntToDecimal(code);
            && 37 + |d| <= |m|
            && ParseInt(m[37..37 + |d|]) == Some(code)
            && (handle.Some? && handle.value != "" ==> m[|m| - |handle.value|..] == handle.value)
            && (!(handle.Some? && handle.value != "") ==> m[|m| - 9..] == "<unknown>")
  {
    var d := IntToDecimal(code);
    var tail := ". sandbox_id=" + (if handle.Some? && handle.value != "" then handle.value else "<unknown>");
    var m := FailureMessage(code, handle);
    assert m == "Sandbox task finished with exit code " + d + tail;
    assert m[37..37 + |d|] == d;
    IntRoundTrip(code);
  }

  /**
   * The lines `wait` echoes to stderr: the captured output unless it was
   * already streamed, then the failure message for a non-zero exit code.
   */
  function WaitEcho(res: ExecResult, streamed: bool, handle: Option<string>): (lines: seq<string>)
    ensures |lines| == (if streamed then 0 else |SplitLines(res.stdout)| + |SplitLines(res.stderr)|)
                       + (if res.exitCode != 0 then 1 else 0)
    ensures !streamed ==> SplitLines(res.stdout) + SplitLines(res.stderr) <= lines
    ensures res.exitCode != 0 ==> lines[|lines| - 1] == FailureMessage(res.exitCode, handle)
    ensures res.exitCode == 0 && (streamed || (res.stdout == [] && res.stderr == [])) ==> lines == []
  {
    (if streamed then [] else SplitLines(res.stdout) + SplitLines(res.stderr))
      + (if res.exitCode != 0 then [FailureMessage(res.exitCode, handle)] else [])
  }

  /** What `wait` reports: the echoed lines and the process exit status, if it exits. */
  datatype WaitReport = WaitReport(echoed: seq<string>, exitStatus: Option<int>)

  /** The executor's fields and its backend's record at one moment. */
  datatype ExecutorState = ExecutorState(log: BackendLog, sandboxId: Option<string>, result: Option<ExecResult>,
                                         logStreamed: bool)

  /** The state after `n - 1` attempts that were retried and an n-th whose sandbox and result are kept. */
  function PassedState(b: Backend, s0: ExecutorState, n: nat, plan: LaunchPlan, streaming: bool,
                       steps: Steps): ExecutorState
    requires n >= 1
  {
    var c0, k := s0.log.creates, n - 1;
    ExecutorState(Attempt(Retried(s0.log, b, c0, k, plan, steps), b, c0, k, plan, steps),
                  Some(HandleAt(b, c0, k)), Some(b.respond(s0.log.execs + k)), streaming)
  }

  /**
   * Attempt `k`, begun with the backend record `before` and the handle
   * `id0`, did not set up: `error` is its error, its sandbox (if one was
   * created) is kept for cleanup, some uploads may have landed, and nothing
   * ran in it.
   */
  ghost predicate FailedAttempt(b: Backend, c0: nat, k: nat, plan: LaunchPlan, steps: Steps,
                                before: BackendLog, id0: Option<string>, after: ExecutorState, error: Error)
  {
    && !SetsUp(b, c0, k, steps)
    && error == (if b.provision(c0 + k).None? then ProvisionFailed else StageAt(b, c0, k, steps).error)
    && after.log.creates == before.creates + 1 && after.log.execs == before.execs
    && after.log.configs == before.configs + [plan.config] && before.uploaded <= after.log.uploaded
    && after.log.scripts == before.scripts && after.log.destroyed == before.destroyed
    && after.sandboxId == (if b.provision(c0 + k).Some? then Some(HandleAt(b, c0, k)) else id0)
  }

  /** Attempt `k` after `s0` is the first that does not set up, and the state `s` is what it leaves. */
  ghost predicate FailedAt(b: Backend, s0: ExecutorState, s: ExecutorState, k: nat, plan: LaunchPlan,
                           steps: Steps, error: Error)
  {
    var c0 := s0.log.creates;
    && SetUpFirst(b, c0, k, steps)
    && FailedAttempt(b, c0, k, plan, steps, Retried(s0.log, b, c0, k, plan, steps),
                     if k == 0 then s0.sandboxId else None, s, error)
    && s.result == s0.result && s.logStreamed == s0.logStreamed
  }

  /**
   * What the attempt loop of `launch` promises: with `n` the attempts the
   * retry rule allows, it passes exactly when each of them sets up its
   * sandbox; passing, the last attempt's sandbox and result are kept;
   * failing, the first attempt that did not set up is one of the n, and
   * the state is what it left.
   */
  ghost predicate AttemptsDone(b: Backend, s0: ExecutorState, s: ExecutorState, plan: LaunchPlan,
                               streaming: bool, steps: Steps, hard: ExecResult -> bool, outcome: Outcome<Error>)
    requires plan.attempts >= 1
  {
    var n := RetryAttempts(b.respond, s0.log.execs, plan.attempts, hard);
    && (outcome.Pass? <==> SetUpFirst(b, s0.log.creates, n, steps))
    && (outcome.Pass? ==> s == PassedState(b, s0, n, plan, streaming, steps))
    && (outcome.Fail? ==> && FirstNotSetUp(b, s0.log.creates, n, steps) < n
                          && FailedAt(b, s0, s, FirstNotSetUp(b, s0.log.creates, n, steps), plan,
                                      steps, outcome.error))
  }

  /**
   * The state `s` after `k` attempts that each set up, ran into a hard -1
   * and were destroyed for a retry.
   */
  ghost predicate Retrying(b: Backend, s0: ExecutorState, s: ExecutorState, k: nat, plan: LaunchPlan,
                           steps: Steps, hard: ExecResult -> bool)
  {
    var c0 := s0.log.creates;
    && SetUpFirst(b, c0, k, steps)
    && (forall i :: s0.log.execs <= i < s0.log.execs + k ==> hard(b.respond(i)))
    && s.log == Retried(s0.log, b, c0, k, plan, steps)
    && s.sandboxId == (if k == 0 then s0.sandboxId else None)
    && s.result == s0.result && s.logStreamed == s0.logStreamed
  }

  /** Destroying the sandbox of a set-up attempt that hit a hard -1 makes one more retried attempt. */
  lemma {:induction false} RetryStep(b: Backend, s0: ExecutorState, sk: ExecutorState, k: nat, plan: LaunchPlan,
                  steps: Steps, hard: ExecResult -> bool, ran: BackendLog, res: ExecResult, handle: string,
                  s: ExecutorState)
    requires Retrying(b, s0, sk, k, plan, steps, hard)
    requires SetsUp(b, s0.log.creates, k, steps) && ran == Attempt(sk.log, b, s0.log.creates, k, plan, steps)
    requires res == b.respond(sk.log.execs) && hard(res) && handle == HandleAt(b, s0.log.creates, k)
    requires s == ExecutorState(ran.(destroyed := ran.destroyed + [handle]), None, sk.result, sk.logStreamed)
    ensures Retrying(b, s0, s, k + 1, plan, steps, hard)
  {
    var c0 := s0.log.creates;
    assert sk.log == Retried(s0.log, b, c0, k, plan, steps);
    assert s.log == Retried(s0.log, b, c0, k + 1, plan, steps);
    assert SetUpFirst(b, c0, k + 1, steps);
    assert sk.log.execs == s0.log.execs + k;
  }

  /** The state after the n-th attempt, which ran and whose sandbox and result are kept. */
  lemma {:induction false} PassedStateAfter(b: Backend, s0: ExecutorState, before: BackendLog, n: nat, plan: LaunchPlan,
                                            streaming: bool, steps: Steps, ran: BackendLog,
                                            res: ExecResult, handle: string, s: ExecutorState)
    requires n >= 1 && before == Retried(s0.log, b, s0.log.creates, n - 1, plan, steps)
    requires ran == Attempt(before, b, s0.log.creates, n - 1, plan, steps)
    requires res == b.respond(s0.log.execs + (n - 1)) && handle == HandleAt(b, s0.log.creates, n - 1)
    requires s == ExecutorState(ran, Some(handle), Some(res), streaming)
    ensures s == PassedState(b, s0, n, plan, streaming, steps)
  {
  }

  /** A loop that stops after a set-up attempt with a usable result (or the last one) has passed. */
  lemma {:induction false} AttemptsPass(b: Backend, s0: ExecutorState, sk: ExecutorState, k: nat, plan: LaunchPlan,
                     streaming: bool, steps: Steps, hard: ExecResult -> bool, ran: BackendLog,
                     res: ExecResult, handle: string, s: ExecutorState)
    requires k < plan.attempts
    requires Retrying(b, s0, sk, k, plan, steps, hard)
    requires SetsUp(b, s0.log.creates, k, steps) && ran == Attempt(sk.log, b, s0.log.creates, k, plan, steps)
    requires res == b.respond(sk.log.execs) && (!hard(res) || k == plan.attempts - 1)
    requires handle == HandleAt(b, s0.log.creates, k)
    requires s == ExecutorState(ran, Some(handle), Some(res), streaming)
    ensures AttemptsDone(b, s0, s, plan, streaming, steps, hard, Pass)
  {
    var c0, e0 := s0.log.creates, s0.log.execs;
    var n := RetryAttempts(b.respond, e0, plan.attempts, hard);
    assert sk.log == Retried(s0.log, b, c0, k, plan, steps);
    assert n == k + 1 by {
      assert res == b.respond(e0 + k);
      RetryAttemptsUnique(b.respond, e0, plan.attempts, hard, k + 1);
    }
    assert n - 1 == k;
    PassedStateAfter(b, s0, sk.log, n, plan, streaming, steps, ran, res, handle, s);
    assert SetUpFirst(b, c0, k + 1, steps);
    PassDone(b, s0, s, plan, streaming, steps, hard, n);
  }

  lemma {:induction false} PassDone(b: Backend, s0: ExecutorState, s: ExecutorState, plan: LaunchPlan,
                 streaming: bool, steps: Steps, hard: ExecResult -> bool, n: nat)
    requires plan.attempts >= 1 && n >= 1 && n == RetryAttempts(b.respond, s0.log.execs, plan.attempts, hard)
    requires SetUpFirst(b, s0.log.creates, n, steps)
    requires s == PassedState(b, s0, n, plan, streaming, steps)
    ensures AttemptsDone(b, s0, s, plan, streaming, steps, hard, Pass)
  {
  }

  /** A loop that stops at the first attempt that does not set up has failed with its error. */
  lemma {:induction false} AttemptsFail(b: Backend, s0: ExecutorState, sk: ExecutorState, s: ExecutorState, k: nat, plan: LaunchPlan,
                     streaming: bool, steps: Steps, hard: ExecResult -> bool, error: Error)
    requires k < plan.attempts
    requires Retrying(b, s0, sk, k, plan, steps, hard)
    requires FailedAttempt(b, s0.log.creates, k, plan, steps, sk.log, sk.sandboxId, s, error)
    requires s.result == sk.result && s.logStreamed == sk.logStreamed
    ensures AttemptsDone(b, s0, s, plan, streaming, steps, hard, Fail(error))
  {
    var c0 := s0.log.creates;
    var n := RetryAttempts(b.respond, s0.log.execs, plan.attempts, hard);
    RetryAttemptsExceed(b.respond, s0.log.execs, plan.attempts, hard, k);
    FirstNotSetUpIs(b, c0, n, k, steps);
    assert FailedAt(b, s0, s, k, plan, steps, error);
    assert !SetUpFirst(b, c0, n, steps) by {
      SetUpFirstMeaning(b, c0, n, steps);
    }
  }

  /**
   * What `launch` promises once the backend is known: a command the `shlex`
   * pass rejects or a failed preparation changes nothing further; otherwise
   * the attempt loop runs with the prepared plan.
   */
  ghost predicate Launched(b: Backend, s0: ExecutorState, s: ExecutorState, backendName: string, req: LaunchRequest,
                           host: Host, decoded: Option<Json>, probe: MicromambaProbe, present: string -> bool,
                           hard: ExecResult -> bool, outcome: Outcome<Error>)
  {
    match BuildCommand(req.command)
    case None => outcome == Fail(CommandUnbalanced) && s == s0
    case Some(command) =>
      match PlanLaunch(backendName, req, host, decoded, probe)
      case Err(e) => outcome == Fail(e) && s == s0
      case Ok(plan) => AttemptsDone(b, s0, s, plan, req.streaming, StepsOf(b, plan, present, command), hard, outcome)
  }

  /**
   * A passing loop made `n` attempts, `n` being what the retry rule allows:
   * it keeps the n-th result and sandbox, which ended without a hard -1
   * unless the budget ran out, and destroyed the sandboxes of all the
   * attempts before it, in order.
   */
  lemma {:induction false} PassedAttempts(b: Backend, s0: ExecutorState, s: ExecutorState, plan: LaunchPlan,
                       streaming: bool, steps: Steps, hard: ExecResult -> bool, n: nat)
    requires plan.attempts >= 1
    requires AttemptsDone(b, s0, s, plan, streaming, steps, hard, Pass)
    requires n == RetryAttempts(b.respond, s0.log.execs, plan.attempts, hard)
    ensures && n >= 1 && s.log.creates == s0.log.creates + n && s.log.execs == s0.log.execs + n
            && s.result == Some(b.respond(s0.log.execs + n - 1))
            && (!hard(s.result.value) || n == plan.attempts)
            && s.sandboxId == Some(HandleAt(b, s0.log.creates, n - 1))
            && s.log.destroyed == s0.log.destroyed + Handles(b, s0.log.creates, n - 1)
            && s.logStreamed == streaming
  {
    PassedStateFields(b, s0, n, plan, streaming, steps);
  }

  lemma {:induction false} PassedStateFields(b: Backend, s0: ExecutorState, n: nat, plan: LaunchPlan,
                                            streaming: bool, steps: Steps)
    requires n >= 1
    ensures var p := PassedState(b, s0, n, plan, streaming, steps);
            && p.log.creates == s0.log.creates + n && p.log.execs == s0.log.execs + n
            && p.result == Some(b.respond(s0.log.execs + n - 1))
            && p.sandboxId == Some(HandleAt(b, s0.log.creates, n - 1))
            && p.log.destroyed == s0.log.destroyed + Handles(b, s0.log.creates, n - 1)
            && p.logStreamed == streaming
  {
    var c0, k := s0.log.creates, n - 1;
    var before := Retried(s0.log, b, c0, k, plan, steps);
    var after := Attempt(before, b, c0, k, plan, steps);
    assert PassedState(b, s0, n, plan, streaming, steps).log == after;
    RetriedDestroysOwnSandboxes(s0.log, b, c0, k, plan, steps);
    assert after.destroyed == before.destroyed;
  }

  /** Whether `cleanup` destroys the sandbox: it is not kept for debugging, has a handle, and a backend exists. */
  predicate Destroys(environ: map<string, string>, sandboxId: Option<string>, hasBackend: bool) {
    !ReadDebugSettings(environ).keepSandbox && sandboxId.Some? && sandboxId.value != "" && hasBackend
  }

  /** The state `cleanup` leaves, with a backend present. */
  function TornDown(environ: map<string, string>, s: ExecutorState): (t: ExecutorState)
    ensures t.result == s.result && t.logStreamed == s.logStreamed
    ensures t.log.creates == s.log.creates && t.log.execs == s.log.execs && t.log.scripts == s.log.scripts
    ensures Destroys(environ, s.sandboxId, true) ==>
              t.sandboxId.None? && t.log.destroyed == s.log.destroyed + [s.sandboxId.value]
    ensures !Destroys(environ, s.sandboxId, true) ==> t == s
  {
    if Destroys(environ, s.sandboxId, true) then
      s.(log := s.log.(destroyed := s.log.destroyed + [s.sandboxId.value]), sandboxId := None)
    else s
  }

  /** A second `cleanup` destroys nothing: the handle is forgotten once its sandbox is destroyed. */
  lemma {:induction false} CleanupIdempotent(environ: map<string, string>, s: ExecutorState)
    ensures TornDown(environ, TornDown(environ, s)) == TornDown(environ, s)
  {
  }

  /**
   * A passing launch followed by `cleanup` has destroyed every sandbox it
   * created, each once and in order of creation.
   */
  lemma {:induction false} PassThenCleanupDestroysAll(b: Backend, s0: ExecutorState, s: ExecutorState, plan: LaunchPlan,
                                   streaming: bool, steps: Steps,
                                   hard: ExecResult -> bool, environ: map<string, string>, n: nat)
    requires plan.attempts >= 1
    requires AttemptsDone(b, s0, s, plan, streaming, steps, hard, Pass)
    requires n == RetryAttempts(b.respond, s0.log.execs, plan.attempts, hard)
    requires !ReadDebugSettings(environ).keepSandbox
    requires HandleAt(b, s0.log.creates, n - 1) != ""
    ensures TornDown(environ, s).log.creates == s0.log.creates + n
    ensures TornDown(environ, s).log.destroyed == s0.log.destroyed + Handles(b, s0.log.creates, n)
    ensures TornDown(environ, s).sandboxId.None?
  {
    PassedAttempts(b, s0, s, plan, streaming, steps, hard, n);
    CleanupAfterPass(b, s0.log, s, n, environ);
  }

  lemma {:induction false} CleanupAfterPass(b: Backend, log0: BackendLog, s: ExecutorState, n: nat, environ: map<string, string>)
    requires n >= 1 && !ReadDebugSettings(environ).keepSandbox
    requires s.sandboxId == Some(HandleAt(b, log0.creates, n - 1)) && HandleAt(b, log0.creates, n - 1) != ""
    requires s.log.creates == log0.creates + n
    requires s.log.destroyed == log0.destroyed + Handles(b, log0.creates, n - 1)
    ensures TornDown(environ, s).log.creates == log0.creates + n
    ensures TornDown(environ, s).log.destroyed == log0.destroyed + Handles(b, log0.creates, n)
    ensures TornDown(environ, s).sandboxId.None?
  {
    assert Handles(b, log0.creates, n) == Handles(b, log0.creates, n - 1) + [HandleAt(b, log0.creates, n - 1)];
  }


}
