/** The executor object. */
module Executor {
  import opened Wrappers
  import opened Text
  import opened Sandbox
  import opened ExecutorRules
  import opened Launch

  class SandboxExecutor {
    const backendName: string
    var sandboxId: Option<string>
    var result: Option<ExecResult>
    var backend: Backend?
    var logStreamed: bool

    constructor (backendName: string)
      ensures this.backendName == backendName
      ensures sandboxId.None? && result.None? && backend == null && !logStreamed
    {
      this.backendName := backendName;
      sandboxId, result, backend, logStreamed := None, None, null, false;
    }

    function StateWith(b: Backend): ExecutorState
      reads this, b
    {
      ExecutorState(b.Log(), sandboxId, result, logStreamed)
    }

    /**
     * `_stage_uploads`: uploads the specs in order into `handle` and returns
     * the chmod lines, or the error for the first required upload that does
     * not land, having uploaded what landed before it.
     */
    method StageUploads(handle: string, uploads: seq<UploadSpec>, present: string -> bool)
      returns (r: Result<seq<string>, Error>)
      requires backend != null
      modifies backend
      ensures var plan := Stage(uploads, present, UploadFails(backend, handle));
              && (r.Ok? <==> plan.Ok?)
              && (r.Ok? ==> && r.value == plan.value.chmods
                            && backend.uploaded == old(backend.uploaded) + UploadRecords(handle, plan.value.uploaded))
              && (r.Err? ==> r.error == plan.error)
      ensures r.Err? ==> exists k :: && 0 <= k < |uploads|
                                     && Stage(uploads[..k], present, UploadFails(backend, handle)).Ok?
                                     && backend.uploaded == old(backend.uploaded) + UploadRecords(handle,
                                          Stage(uploads[..k], present, UploadFails(backend, handle)).value.uploaded)
      ensures old(backend.uploaded) <= backend.uploaded
      ensures backend.creates == old(backend.creates) && backend.execs == old(backend.execs)
      ensures backend.configs == old(backend.configs) && backend.scripts == old(backend.scripts)
      ensures backend.destroyed == old(backend.destroyed)
    {
      var b := backend;
      ghost var fails := UploadFails(b, handle);
      var chmods: seq<string> := [];
      ghost var landed: seq<UploadSpec> := [];
      var i := 0;
      while i < |uploads|
        invariant 0 <= i <= |uploads| && backend == b
        invariant Stage(uploads[..i], present, fails) == Ok(Staged(landed, chmods))
        invariant b.uploaded == old(b.uploaded) + UploadRecords(handle, landed)
        invariant b.creates == old(b.creates) && b.execs == old(b.execs) && b.configs == old(b.configs)
        invariant b.scripts == old(b.scripts) && b.destroyed == old(b.destroyed)
      {
        var u := uploads[i];
        var landedNow := UploadOne(handle, u, present);
        if !landedNow {
          if IsOptional(u) {
            StageSkips(uploads, i, present, fails, Staged(landed, chmods));
            i := i + 1;
            continue;
          }
          StageStops(uploads, i, present, fails);
          return Err(UploadError(u, present));
        }
        StageLands(uploads, i, present, fails, landed, chmods);
        RecordsGrow(old(b.uploaded), handle, landed, u);
        chmods := chmods + ChmodFor(u);
        landed := landed + [u];
        i := i + 1;
      }
      assert uploads[..|uploads|] == uploads;
      return Ok(chmods);
    }

    /**
     * One spec of `_stage_uploads`: a missing local file is not uploaded;
     * otherwise the upload is tried. Reports whether the spec landed.
     */
    method UploadOne(handle: string, u: UploadSpec, present: string -> bool) returns (landed: bool)
      requires backend != null
      modifies backend
      ensures landed == Lands(u, present, UploadFails(backend, handle))
      ensures backend.uploaded == old(backend.uploaded) + (if landed then [(handle, u.local, u.remote)] else [])
      ensures backend.creates == old(backend.creates) && backend.execs == old(backend.execs)
      ensures backend.configs == old(backend.configs) && backend.scripts == old(backend.scripts)
      ensures backend.destroyed == old(backend.destroyed)
    {
      if !present(u.local) {
        return false;
      }
      var raised := backend.Upload(handle, u.local, u.remote);
      return !raised;
    }

    /** Attempt `k` of a launch that began after `c0` creations: create a sandbox, stage into it, run the command. */
    method AttemptOnce(b: Backend, plan: LaunchPlan, ghost c0: nat, ghost k: nat, command: string,
                       timeout: int, streaming: bool, present: string -> bool)
      returns (r: Result<ExecResult, Error>)
      requires backend == b && b.creates == c0 + k
      modifies this, b
      ensures backend == b && result == old(result) && logStreamed == old(logStreamed)
      ensures r.Ok? ==> && SetsUp(b, c0, k, StepsOf(b, plan, present, command))
                        && b.Log() == Attempt(old(b.Log()), b, c0, k, plan, StepsOf(b, plan, present, command))
                        && r.value == b.respond(old(b.execs))
                        && sandboxId == Some(HandleAt(b, c0, k))
      ensures r.Err? ==> FailedAttempt(b, c0, k, plan, StepsOf(b, plan, present, command), old(b.Log()),
                                       old(sandboxId), StateWith(b), r.error)
    {
      var created := b.Create(plan.config);
      if created.None? {
        return Err(ProvisionFailed);
      }
      var handle := created.value;
      assert handle == HandleAt(b, c0, k);
      sandboxId := Some(handle);
      r := StageAndRun(b, handle, plan, command, timeout, streaming, present);
    }

    /**
     * The part of an attempt inside the sandbox `handle`: stage the uploads
     * (when there are any), then run the step script, streaming or not.
     */
    method StageAndRun(b: Backend, handle: string, plan: LaunchPlan, command: string, timeout: int, streaming: bool,
                       present: string -> bool)
      returns (r: Result<ExecResult, Error>)
      requires backend == b
      modifies b
      ensures var st := Stage(plan.staged, present, UploadFails(b, handle));
              && (r.Ok? <==> st.Ok?)
              && b.creates == old(b.creates) && b.configs == old(b.configs) && b.destroyed == old(b.destroyed)
              && (r.Ok? ==> && r.value == b.respond(old(b.execs)) && b.execs == old(b.execs) + 1
                            && b.uploaded == old(b.uploaded) + UploadRecords(handle, st.value.uploaded)
                            && b.scripts == old(b.scripts)
                                            + [(handle, RunCommand(handle, plan.prependBinDir, st.value.chmods, command))])
              && (r.Err? ==> && r.error == st.error && b.execs == old(b.execs) && b.scripts == old(b.scripts)
                             && old(b.uploaded) <= b.uploaded)
    {
      var chmods: seq<string> := [];
      if |plan.staged| > 0 {
        var st := StageUploads(handle, plan.staged, present);
        if st.Err? {
          return Err(st.error);
        }
        chmods := st.value;
      } else {
        assert b.uploaded == old(b.uploaded) + UploadRecords(handle, []);
      }
      var script := RunCommand(handle, plan.prependBinDir, chmods, command);
      var res := b.ExecScriptStreaming(handle, script, timeout, streaming);
      return Ok(res);
    }

    /**
     * One pass of the loop of `launch`: attempt `k`; stop with the outcome,
     * or destroy the sandbox after a hard -1 so that the next attempt runs.
     */
    method AttemptStep(b: Backend, ghost s0: ExecutorState, k: nat, plan: LaunchPlan, command: string, timeout: int,
                       streaming: bool, present: string -> bool, hard: ExecResult -> bool, ghost steps: Steps)
      returns (outcome: Option<Outcome<Error>>)
      requires backend == b && k < plan.attempts && steps == StepsOf(b, plan, present, command)
      requires Retrying(b, s0, StateWith(b), k, plan, steps, hard)
      modifies this, b
      ensures backend == b
      ensures outcome.Some? ==> AttemptsDone(b, s0, StateWith(b), plan, streaming, steps, hard, outcome.value)
      ensures outcome.None? ==> k + 1 < plan.attempts && Retrying(b, s0, StateWith(b), k + 1, plan, steps, hard)
    {
      ghost var sk := StateWith(b);
      var r := AttemptOnce(b, plan, s0.log.creates, k, command, timeout, streaming, present);
      outcome := AfterAttempt(b, s0, sk, k, plan, streaming, hard, steps, r);
    }

    /**
     * The rest of one pass, once attempt `k` has returned `r`: stop with the
     * failure, keep a usable result (or the last one), or discard the
     * sandbox for a retry.
     */
    method AfterAttempt(b: Backend, ghost s0: ExecutorState, ghost sk: ExecutorState, k: nat, plan: LaunchPlan,
                        streaming: bool, hard: ExecResult -> bool, ghost steps: Steps, r: Result<ExecResult, Error>)
      returns (outcome: Option<Outcome<Error>>)
      requires backend == b && k < plan.attempts
      requires Retrying(b, s0, sk, k, plan, steps, hard)
      requires result == sk.result && logStreamed == sk.logStreamed
      requires r.Ok? ==> && SetsUp(b, s0.log.creates, k, steps)
                         && b.Log() == Attempt(sk.log, b, s0.log.creates, k, plan, steps)
                         && r.value == b.respond(sk.log.execs)
                         && sandboxId == Some(HandleAt(b, s0.log.creates, k))
      requires r.Err? ==> FailedAttempt(b, s0.log.creates, k, plan, steps, sk.log, sk.sandboxId, StateWith(b), r.error)
      modifies this, b
      ensures backend == b
      ensures outcome.Some? ==> AttemptsDone(b, s0, StateWith(b), plan, streaming, steps, hard, outcome.value)
      ensures outcome.None? ==> k + 1 < plan.attempts && Retrying(b, s0, StateWith(b), k + 1, plan, steps, hard)
    {
      if r.Err? {
        AttemptsFail(b, s0, sk, StateWith(b), k, plan, streaming, steps, hard, r.error);
        return Some(Fail(r.error));
      }
      if !hard(r.value) || k == plan.attempts - 1 {
        result := Some(r.value);
        logStreamed := streaming;
        AttemptsPass(b, s0, sk, k, plan, streaming, steps, hard, b.Log(), r.value, sandboxId.value, StateWith(b));
        return Some(Pass);
      }
      DiscardForRetry(b, s0, sk, k, plan, steps, hard, r.value);
      return None;
    }

    /** The attempt set up but ended with a hard -1 and attempts remain: destroy its sandbox. */
    method DiscardForRetry(b: Backend, ghost s0: ExecutorState, ghost sk: ExecutorState, k: nat, plan: LaunchPlan,
                           ghost steps: Steps, hard: ExecResult -> bool, res: ExecResult)
      requires backend == b && k + 1 < plan.attempts
      requires Retrying(b, s0, sk, k, plan, steps, hard) && SetsUp(b, s0.log.creates, k, steps)
      requires b.Log() == Attempt(sk.log, b, s0.log.creates, k, plan, steps)
      requires res == b.respond(sk.log.execs) && hard(res)
      requires sandboxId == Some(HandleAt(b, s0.log.creates, k))
      requires result == sk.result && logStreamed == sk.logStreamed
      modifies this, b
      ensures backend == b
      ensures Retrying(b, s0, StateWith(b), k + 1, plan, steps, hard)
    {
      ghost var ran := b.Log();
      var handle := sandboxId.value;
      b.Destroy(handle);
      sandboxId := None;
      RetryStep(b, s0, sk, k, plan, steps, hard, ran, res, handle, StateWith(b));
    }

    /** The loop of `launch`: attempt, and retry after a hard -1 while attempts remain. */
    method RunAttempts(b: Backend, plan: LaunchPlan, command: string, timeout: int, streaming: bool,
                       present: string -> bool, hard: ExecResult -> bool)
      returns (outcome: Outcome<Error>)
      requires backend == b && plan.attempts >= 1
      modifies this, b
      ensures backend == b
      ensures AttemptsDone(b, old(StateWith(b)), StateWith(b), plan, streaming, StepsOf(b, plan, present, command), hard,
                           outcome)
    {
      ghost var s0 := StateWith(b);
      ghost var steps := StepsOf(b, plan, present, command);
      var attempt := 0;
      while true
        invariant 0 <= attempt < plan.attempts && backend == b
        invariant Retrying(b, s0, StateWith(b), attempt, plan, steps, hard)
        decreases plan.attempts - attempt
      {
        var step := AttemptStep(b, s0, attempt, plan, command, timeout, streaming, present, hard, steps);
        if step.Some? {
          return step.value;
        }
        attempt := attempt + 1;
      }
    }

    /**
     * `launch`: look up the backend, build the step command, settle the
     * uploads, environment, image and attempt budget, then run the attempt
     * loop, keeping the last result and whether its output was streamed.
     */
    method Launch(b: Backend?, req: LaunchRequest, host: Host, decoded: Option<Json>, probe: MicromambaProbe,
                  present: string -> bool, hard: ExecResult -> bool)
      returns (outcome: Outcome<Error>)
      modifies this, b
      ensures b == null ==> && outcome == Fail(UnknownBackend(backendName))
                            && backend == old(backend) && sandboxId == old(sandboxId)
                            && result == old(result) && logStreamed == old(logStreamed)
      ensures b != null ==> && backend == b
                            && Launched(b, old(StateWith(b)), StateWith(b), backendName, req, host, decoded, probe,
                                        present, hard, outcome)
    {
      if b == null {
        return Fail(UnknownBackend(backendName));
      }
      backend := b;
      var command := BuildCommand(req.command);
      if command.None? {
        return Fail(CommandUnbalanced);
      }
      var plan := Prepare(req, host, decoded, probe);
      if plan.Err? {
        return Fail(plan.error);
      }
      outcome := RunAttempts(b, plan.value, command.value, req.timeout, req.streaming, present, hard);
    }

    /**
     * The preparation part of `launch`: the upload specs, micromamba staging,
     * the sandbox environment, the image and the attempt budget, stopping at
     * the first error.
     */
    method Prepare(req: LaunchRequest, host: Host, decoded: Option<Json>, probe: MicromambaProbe)
      returns (r: Result<LaunchPlan, Error>)
      ensures r == PlanLaunch(backendName, req, host, decoded, probe)
    {
      var specs := ParseUploadSpecs(host.environ, decoded);
      if specs.Err? {
        return Err(specs.error);
      }
      var resolved := ResolveStagedUploads(host.environ, specs.value, probe);
      if resolved.Err? {
        return Err(resolved.error);
      }
      var env := BuildEnv(req.pkg, backendName, host, req.env, StagingPrepend(resolved.value.1));
      var image := if req.image.Some? && req.image.value != "" then req.image.value else DefaultImage;
      var config := SandboxConfig(image, env, Resources(req.cpu, req.memoryMb, req.gpu), req.timeout);
      var attempts := AttemptBudget(host.environ);
      if attempts.Err? {
        return Err(attempts.error);
      }
      return Ok(LaunchPlan(resolved.value.0, resolved.value.1, config, attempts.value));
    }

    /** `cleanup`: unless kept for debugging, destroy the current sandbox and forget its handle. */
    method Cleanup(environ: map<string, string>)
      modifies this, backend
      ensures backend == old(backend) && result == old(result) && logStreamed == old(logStreamed)
      ensures backend == null ==> sandboxId == old(sandboxId)
      ensures backend != null ==> StateWith(backend) == TornDown(environ, old(StateWith(backend)))
    {
      var debug := ReadDebugSettings(environ);
      if debug.keepSandbox {
        return;
      }
      if sandboxId.Some? && sandboxId.value != "" && backend != null {
        backend.Destroy(sandboxId.value);
        sandboxId := None;
      }
    }

    /**
     * `wait`: echo the captured output unless it was streamed, clean up, and
     * report a non-zero exit code, which the process then exits with.
     */
    method Wait(environ: map<string, string>) returns (r: Result<WaitReport, Error>)
      modifies this, backend
      ensures backend == old(backend) && result == old(result) && logStreamed == old(logStreamed)
      ensures old(result).None? ==> r == Err(NoResult) && sandboxId == old(sandboxId)
                                    && (backend != null ==> backend.Log() == old(backend.Log()))
      ensures old(result).Some? ==>
                && r.Ok?
                && r.value.echoed == WaitEcho(old(result).value, old(logStreamed), old(sandboxId))
                && r.value.exitStatus == (if old(result).value.exitCode != 0 then Some(old(result).value.exitCode)
                                          else None)
                && (backend == null ==> sandboxId == old(sandboxId))
                && (backend != null ==> StateWith(backend) == TornDown(environ, old(StateWith(backend))))
    {
      if result.None? {
        return Err(NoResult);
      }
      var res := result.value;
      var lines: seq<string> := [];
      if !logStreamed {
        lines := SplitLines(res.stdout) + SplitLines(res.stderr);
      }
      var handle := sandboxId;
      Cleanup(environ);
      var status: Option<int> := None;
      if res.exitCode != 0 {
        lines := lines + [FailureMessage(res.exitCode, handle)];
        status := Some(res.exitCode);
      }
      return Ok(WaitReport(lines, status));
    }
  }
}
