/**
 * The values the orchestrator exchanges with a sandbox backend, and the
 * backend itself as an abstract interface. The adapters (Daytona, E2B,
 * Boxlite) are external; here a backend is a scripted object whose answers
 * are fixed functions of how many calls of each kind came before, and which
 * records what was asked of it.
 */
module Sandbox {
  import opened Wrappers

  datatype Resources = Resources(cpu: int, memoryMb: int, gpu: Option<string>)

  datatype SandboxConfig = SandboxConfig(
    image: string,
    env: map<string, string>,
    resources: Resources,
    timeout: int)

  /** Exit code -1 is the providers' "exit code unknown" sentinel. */
  datatype ExecResult = ExecResult(exitCode: int, stdout: string, stderr: string) {
    predicate Ok() {
      exitCode == 0
    }
  }

  /** Everything a backend has recorded. */
  datatype BackendLog = BackendLog(
    creates: nat,
    execs: nat,
    configs: seq<SandboxConfig>,
    uploaded: seq<(string, string, string)>,
    scripts: seq<(string, string)>,
    destroyed: seq<string>)

  class Backend {
    /** Answer to the n-th `create`: the new sandbox's handle, or None when provisioning is refused. */
    const provision: nat -> Option<string>
    /** Answer to the n-th `exec_script_streaming`. */
    const respond: nat -> ExecResult
    /** Whether `upload(handle, local, remote)` raises, per sandbox handle. */
    const uploadRaises: string -> (string, string) -> bool

    var creates: nat
    var execs: nat
    var configs: seq<SandboxConfig>
    /** Successful uploads: (handle, local path, remote path). */
    var uploaded: seq<(string, string, string)>
    /** Scripts run: (handle, script). */
    var scripts: seq<(string, string)>
    /** Handles passed to `destroy`, in order. */
    var destroyed: seq<string>

    function Log(): BackendLog
      reads this
    {
      BackendLog(creates, execs, configs, uploaded, scripts, destroyed)
    }

    constructor (provision: nat -> Option<string>, respond: nat -> ExecResult,
                 uploadRaises: string -> (string, string) -> bool)
      ensures this.provision == provision && this.respond == respond
      ensures this.uploadRaises == uploadRaises
      ensures creates == 0 && execs == 0
      ensures configs == [] && uploaded == [] && scripts == [] && destroyed == []
    {
      this.provision := provision;
      this.respond := respond;
      this.uploadRaises := uploadRaises;
      creates, execs := 0, 0;
      configs, uploaded, scripts, destroyed := [], [], [], [];
    }

    method Create(config: SandboxConfig) returns (handle: Option<string>)
      modifies this
      ensures handle == provision(old(creates))
      ensures creates == old(creates) + 1 && configs == old(configs) + [config]
      ensures execs == old(execs) && uploaded == old(uploaded)
      ensures scripts == old(scripts) && destroyed == old(destroyed)
    {
      handle := provision(creates);
      creates := creates + 1;
      configs := configs + [config];
    }

    method Upload(handle: string, local: string, remote: string) returns (raised: bool)
      modifies this
      ensures raised == uploadRaises(handle)(local, remote)
      ensures uploaded == if raised then old(uploaded) else old(uploaded) + [(handle, local, remote)]
      ensures creates == old(creates) && execs == old(execs) && configs == old(configs)
      ensures scripts == old(scripts) && destroyed == old(destroyed)
    {
      raised := uploadRaises(handle)(local, remote);
      if !raised {
        uploaded := uploaded + [(handle, local, remote)];
      }
    }

    /** Whether listeners are attached does not change the result (streaming fallback equivalence). */
    method ExecScriptStreaming(handle: string, script: string, timeout: int, streaming: bool)
      returns (result: ExecResult)
      modifies this
      ensures result == respond(old(execs))
      ensures execs == old(execs) + 1 && scripts == old(scripts) + [(handle, script)]
      ensures creates == old(creates) && configs == old(configs)
      ensures uploaded == old(uploaded) && destroyed == old(destroyed)
    {
      result := respond(execs);
      execs := execs + 1;
      scripts := scripts + [(handle, script)];
    }

    /** Never raises, also for an unknown or already destroyed handle. */
    method Destroy(handle: string)
      modifies this
      ensures destroyed == old(destroyed) + [handle]
      ensures creates == old(creates) && execs == old(execs) && configs == old(configs)
      ensures uploaded == old(uploaded) && scripts == old(scripts)
    {
      destroyed := destroyed + [handle];
    }
  }
}
