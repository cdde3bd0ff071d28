/**
 * The `@sandbox` step decorator (with its `@daytona` and `@e2b` shorthands):
 * what `step_init` does to the process environment, the conda extension and
 * the other decorators of the step; how `runtime_step_cli` redirects the
 * step to `sandbox step`; and the code package uploaded once per run.
 */
module Decorator {
  import opened Wrappers
  import opened Text
  import opened PyDict
  import opened Process

  // ---------------------------------------------------------------------
  // Constants
  // ---------------------------------------------------------------------

  const WorkloadVar := "METAFLOW_SANDBOX_WORKLOAD"
  const BackendVar := "METAFLOW_SANDBOX_BACKEND"
  const TargetPlatformVar := "METAFLOW_SANDBOX_TARGET_PLATFORM"

  /** The commands the conda extension must treat as remote. */
  const RemoteCommandAliases: seq<string> := ["sandbox", "daytona", "e2b"]

  /** Backend credentials carried from the launching process into `sandbox step`. */
  const BackendAuthVars: seq<string> := ["DAYTONA_API_KEY", "DAYTONA_API_URL", "E2B_API_KEY"]

  /** Each backend key and the `METAFLOW_`-prefixed name it is also published under. */
  const AuthAliases: seq<(string, string)> :=
    [("DAYTONA_API_KEY", "METAFLOW_DAYTONA_API_KEY"), ("E2B_API_KEY", "METAFLOW_E2B_API_KEY")]

  /** Packages every sandboxed step gets. */
  const SandboxRuntimePins: seq<(string, string)> := [("requests", ">=2.21.0")]

  /** The SDK package a backend needs in the step's environment, if the backend is known. */
  function BackendRuntimePin(backend: string): Option<(string, string)> {
    if backend == "daytona" then Some(("daytona", ">=0.1"))
    else if backend == "e2b" then Some(("e2b-code-interpreter", ">=1.0"))
    else None
  }

  /** `_DEFAULT_BACKEND`, read from the environment when the module is imported. */
  function DefaultBackend(environ: map<string, string>): string {
    Lookup(environ, BackendVar).GetOr("daytona")
  }

  /**
   * Bare `@sandbox` runs on the backend named by METAFLOW_SANDBOX_BACKEND at
   * import, and on Daytona when that was unset.
   */
  lemma {:induction false} SandboxDefaultBackend(environ: map<string, string>)
    ensures BackendVar !in environ ==> BackendOf(Defaults("sandbox"), DefaultBackend(environ)) == "daytona"
    ensures BackendVar in environ ==> BackendOf(Defaults("sandbox"), DefaultBackend(environ)) == environ[BackendVar]
  {
    ShorthandBackend("sandbox", DefaultBackend(environ));
  }

  /** `_default_target_platform`: the conda platform for the machine name. */
  function DefaultTargetPlatform(machine: string): string {
    var m := Lower(machine);
    if m == "aarch64" || m == "arm64" then "linux-aarch64" else "linux-64"
  }

  /** The platform is the same whatever the case of the machine name. */
  lemma {:induction false} TargetPlatformIgnoresCase(machine: string)
    ensures DefaultTargetPlatform(Lower(machine)) == DefaultTargetPlatform(machine)
    ensures DefaultTargetPlatform(machine) in {"linux-aarch64", "linux-64"}
  {
    LowerIdempotent(machine);
  }

  /** `target_platform`: the environment's choice, or the machine's default. */
  function TargetPlatform(environ: map<string, string>, machine: string): string {
    Lookup(environ, TargetPlatformVar).GetOr(DefaultTargetPlatform(machine))
  }

  /**
   * METAFLOW_SANDBOX_TARGET_PLATFORM wins; without it the platform is
   * `linux-aarch64` exactly for an ARM machine, in any case, and `linux-64`
   * otherwise.
   */
  lemma {:induction false} TargetPlatformChoice(environ: map<string, string>, machine: string)
    ensures TargetPlatformVar in environ ==> TargetPlatform(environ, machine) == environ[TargetPlatformVar]
    ensures TargetPlatformVar !in environ ==>
              && TargetPlatform(environ, machine) in {"linux-aarch64", "linux-64"}
              && (TargetPlatform(environ, machine) == "linux-aarch64" <==> Lower(machine) in {"aarch64", "arm64"})
  {
    TargetPlatformIgnoresCase(machine);
  }

  /**
   * `_INITIAL_BACKEND_AUTH_ENV`: the backend credentials that were set and
   * non-empty when the module was imported.
   */
  function InitialAuthEnv(environ: map<string, string>): (m: map<string, string>)
    ensures forall k :: k in m <==> k in BackendAuthVars && Truthy(Lookup(environ, k))
    ensures forall k :: k in m ==> k in environ && m[k] == environ[k]
  {
    map k | k in BackendAuthVars && k in environ && environ[k] != "" :: environ[k]
  }

  // ---------------------------------------------------------------------
  // `setdefault` of several entries
  // ---------------------------------------------------------------------

  /** The candidates that are true in Python, with their values. */
  function TruthyPairs(kvs: seq<(string, Option<string>)>): seq<(string, string)>
  {
    if kvs == [] then []
    else
      var kept := TruthyPairs(kvs[..|kvs| - 1]);
      var last := kvs[|kvs| - 1];
      if Truthy(last.1) then kept + [(last.0, last.1.value)] else kept
  }

  /** `d.setdefault(k, v)` for each entry of `kvs`, in order. */
  function SetDefaults(d: seq<(string, string)>, kvs: seq<(string, string)>): seq<(string, string)>
  {
    if kvs == [] then d else SetDefault(SetDefaults(d, kvs[..|kvs| - 1]), kvs[|kvs| - 1].0, kvs[|kvs| - 1].1)
  }

  /** After several `setdefault`s a key keeps its own value, or else takes the first one offered. */
  lemma {:induction false} SetDefaultsGet(d: seq<(string, string)>, kvs: seq<(string, string)>, k: string)
    ensures Get(SetDefaults(d, kvs), k) == if Get(d, k).Some? then Get(d, k) else Get(kvs, k)
    decreases |kvs|
  {
    if kvs != [] {
      var init, last := kvs[..|kvs| - 1], kvs[|kvs| - 1];
      SetDefaultsGet(d, init, k);
      SetDefaultGet(SetDefaults(d, init), last.0, last.1, k);
      assert kvs == init + [last];
      GetAppend(init, last.0, last.1, k);
    }
  }

  lemma {:induction false} SetDefaultsDistinct(d: seq<(string, string)>, kvs: seq<(string, string)>)
    requires DistinctKeys(d)
    ensures DistinctKeys(SetDefaults(d, kvs))
    decreases |kvs|
  {
    if kvs != [] {
      SetDefaultsDistinct(d, kvs[..|kvs| - 1]);
      SetDefaultDistinct(SetDefaults(d, kvs[..|kvs| - 1]), kvs[|kvs| - 1].0, kvs[|kvs| - 1].1);
    }
  }

  /** Among candidates with distinct keys, the value kept for a key is its own candidate, if true. */
  lemma {:induction false} TruthyPairsGet(kvs: seq<(string, Option<string>)>, k: string)
    requires forall i, j :: 0 <= i < j < |kvs| ==> kvs[i].0 != kvs[j].0
    ensures Get(TruthyPairs(kvs), k)
            == if exists i :: 0 <= i < |kvs| && kvs[i].0 == k && Truthy(kvs[i].1)
               then Some(Candidate(kvs, k)) else None
    decreases |kvs|
  {
    if kvs != [] {
      var init, last := kvs[..|kvs| - 1], kvs[|kvs| - 1];
      TruthyPairsGet(init, k);
      if Truthy(last.1) {
        GetAppend(TruthyPairs(init), last.0, last.1.value, k);
      }
      CandidateSnoc(kvs, k);
    }
  }

  /** The value offered for `k` by the last candidate with that key (the only one, when keys are distinct). */
  function Candidate(kvs: seq<(string, Option<string>)>, k: string): string
  {
    if kvs == [] then ""
    else if kvs[|kvs| - 1].0 == k then kvs[|kvs| - 1].1.GetOr("")
    else Candidate(kvs[..|kvs| - 1], k)
  }

  lemma {:induction false} CandidateSnoc(kvs: seq<(string, Option<string>)>, k: string)
    requires kvs != []
    requires forall i, j :: 0 <= i < j < |kvs| ==> kvs[i].0 != kvs[j].0
    ensures var init := kvs[..|kvs| - 1];
            && ((exists i :: 0 <= i < |kvs| && kvs[i].0 == k && Truthy(kvs[i].1))
                <==> (exists i :: 0 <= i < |init| && init[i].0 == k && Truthy(init[i].1))
                     || (kvs[|kvs| - 1].0 == k && Truthy(kvs[|kvs| - 1].1)))
            && (kvs[|kvs| - 1].0 != k ==> Candidate(kvs, k) == Candidate(init, k))
            && (kvs[|kvs| - 1].0 == k ==> forall i :: 0 <= i < |init| ==> init[i].0 != k)
  {
    var init := kvs[..|kvs| - 1];
    assert forall i :: 0 <= i < |init| ==> init[i] == kvs[i];
  }

  // ---------------------------------------------------------------------
  // `_ensure_conda_remote_command_aliases`
  // ---------------------------------------------------------------------

  /** `tuple(dict.fromkeys([*current, *aliases]))`. */
  function MergeAliases(current: seq<string>): seq<string> {
    Dedupe(current + RemoteCommandAliases)
  }

  /**
   * The merged tuple holds the existing entries first, in order, then each
   * alias that was missing, in the aliases' order, and no entry twice.
   */
  lemma {:induction false} MergeAliasesKeepsOrder(current: seq<string>)
    ensures MergeAliases(current) == Dedupe(current) + NewIn(current, RemoteCommandAliases)
    ensures NoDups(current) ==> MergeAliases(current) == current + NewIn(current, RemoteCommandAliases)
    ensures NoDups(MergeAliases(current))
    ensures forall x :: x in MergeAliases(current) <==> x in current || x in RemoteCommandAliases
  {
    DedupeAppend(current, RemoteCommandAliases);
    DedupeMeaning(current + RemoteCommandAliases);
    if NoDups(current) {
      DedupeDistinct(current);
    }
  }

  /** Merging a second time changes nothing, so every `step_init` may call it. */
  lemma {:induction false} MergeAliasesIdempotent(current: seq<string>)
    ensures MergeAliases(MergeAliases(current)) == MergeAliases(current)
  {
    var merged := MergeAliases(current);
    MergeAliasesKeepsOrder(current);
    MergeAliasesKeepsOrder(merged);
    NewInNothing(merged, RemoteCommandAliases);
    assert merged + [] == merged;
  }

  /** A conda extension module that could be imported, with its `CONDA_REMOTE_COMMANDS`. */
  class CondaModule {
    var remoteCommands: seq<string>

    constructor (remoteCommands: seq<string>)
      ensures this.remoteCommands == remoteCommands
    {
      this.remoteCommands := remoteCommands;
    }
  }

  /**
   * `_ensure_conda_remote_command_aliases`: for each of the two conda
   * modules that imports (`null` for one that does not), merge the aliases
   * into its remote commands.
   */
  method EnsureCondaRemoteCommandAliases(modules: seq<CondaModule?>)
    requires forall i, j :: 0 <= i < j < |modules| && modules[i] != null ==> modules[i] != modules[j]
    modifies set m: CondaModule | m in modules
    ensures forall i :: 0 <= i < |modules| && modules[i] != null ==>
              modules[i].remoteCommands == MergeAliases(old(modules[i].remoteCommands))
  {
    for i := 0 to |modules|
      invariant forall j :: 0 <= j < i && modules[j] != null ==>
                  modules[j].remoteCommands == MergeAliases(old(modules[j].remoteCommands))
      invariant forall j :: i <= j < |modules| && modules[j] != null ==>
                  modules[j].remoteCommands == old(modules[j].remoteCommands)
    {
      var m := modules[i];
      if m == null {
        continue;
      }
      m.remoteCommands := MergeAliases(m.remoteCommands);
    }
  }

  // ---------------------------------------------------------------------
  // `step_init`: credential aliases in the process environment
  // ---------------------------------------------------------------------

  /** One pass of the alias loop: publish the key under `dst` unless `dst` is already set. */
  function PublishAlias(environ: map<string, string>, initial: map<string, string>, alias: (string, string))
    : map<string, string>
  {
    var val := Or(Lookup(environ, alias.0), Lookup(initial, alias.0));
    if Truthy(val) && !Truthy(Lookup(environ, alias.1)) then environ[alias.1 := val.value] else environ
  }

  /** The alias loop over `aliases`, in order. */
  function PublishAliases(environ: map<string, string>, initial: map<string, string>, aliases: seq<(string, string)>)
    : map<string, string>
  {
    if aliases == [] then environ
    else PublishAlias(PublishAliases(environ, initial, aliases[..|aliases| - 1]), initial, aliases[|aliases| - 1])
  }

  /**
   * An alias is written only when it is unset and its key has a value, now
   * or at import; nothing else in the environment changes.
   */
  lemma {:induction false} AliasesOnlyWhenUnset(environ: map<string, string>, initial: map<string, string>, k: string)
    ensures var r := PublishAliases(environ, initial, AuthAliases);
            && (k !in {"METAFLOW_DAYTONA_API_KEY", "METAFLOW_E2B_API_KEY"} ==> Lookup(r, k) == Lookup(environ, k))
            && (forall a :: a in AuthAliases && a.1 == k ==>
                  var val := Or(Lookup(environ, a.0), Lookup(initial, a.0));
                  Lookup(r, k) == if Truthy(val) && !Truthy(Lookup(environ, k)) then val else Lookup(environ, k))
  {
    var one := AuthAliases[..1];
    assert one[..|one| - 1] == [] && one[|one| - 1] == AuthAliases[0];
    assert AuthAliases[..|AuthAliases| - 1] == one;
    assert PublishAliases(environ, initial, one) == PublishAlias(environ, initial, AuthAliases[0]);
  }

  /** The alias loop of `step_init`, writing `os.environ`. */
  method WriteAuthAliases(env: Environ, initial: map<string, string>)
    modifies env
    ensures env.vars == PublishAliases(old(env.vars), initial, AuthAliases)
  {
    for i := 0 to |AuthAliases|
      invariant env.vars == PublishAliases(old(env.vars), initial, AuthAliases[..i])
    {
      var src, dst := AuthAliases[i].0, AuthAliases[i].1;
      var val := Or(Lookup(env.vars, src), Lookup(initial, src));
      assert AuthAliases[..i + 1][..i] == AuthAliases[..i];
      if Truthy(val) && !Truthy(Lookup(env.vars, dst)) {
        env.Put(dst, val.value);
      }
    }
    assert AuthAliases[..|AuthAliases|] == AuthAliases;
  }

  // ---------------------------------------------------------------------
  // `step_init`: runtime pins on `@pypi` or `@conda`
  // ---------------------------------------------------------------------

  /** Another decorator of the same step, with its package dicts. */
  class StepDecorator {
    const name: string
    /** `attributes["packages"]` of `@pypi` (an absent dict is the empty one). */
    var packages: seq<(string, string)>
    /** `attributes["pip_packages"]` of `@conda` (an absent dict is the empty one). */
    var pipPackages: seq<(string, string)>

    constructor (name: string, packages: seq<(string, string)>, pipPackages: seq<(string, string)>)
      ensures this.name == name && this.packages == packages && this.pipPackages == pipPackages
    {
      this.name := name;
      this.packages := packages;
      this.pipPackages := pipPackages;
    }
  }

  /** `next((d for d in decorators if d.name == name), None)`. */
  function FirstNamed(decorators: seq<StepDecorator>, name: string): (r: Option<StepDecorator>)
    ensures r.None? <==> forall d :: d in decorators ==> d.name != name
    ensures r.Some? ==> exists i :: && 0 <= i < |decorators| && decorators[i] == r.value && r.value.name == name
                                    && forall j :: 0 <= j < i ==> decorators[j].name != name
  {
    if decorators == [] then None
    else if decorators[0].name == name then Some(decorators[0])
    else
      var r := FirstNamed(decorators[1..], name);
      assert forall d :: d in decorators[1..] ==> d in decorators;
      assert r.Some? ==> exists i :: 0 <= i < |decorators[1..]| && decorators[1..][i] == r.value
                                     && forall j :: 0 <= j < i ==> decorators[1..][j].name != name;
      r
  }

  /** The pins added for `backend`: the sandbox's own, then the backend SDK. */
  function RuntimePins(pin: (string, string)): seq<(string, string)> {
    SandboxRuntimePins + [pin]
  }

  /**
   * A version the user gave is kept; otherwise a pinned package gets the
   * pinned version; other packages are untouched.
   */
  lemma {:induction false} PinsKeepUserVersions(packages: seq<(string, string)>, pin: (string, string), k: string)
    requires pin.0 != "requests"
    ensures var r := SetDefaults(packages, RuntimePins(pin));
            Get(r, k) == if Get(packages, k).Some? then Get(packages, k)
                         else if k == "requests" then Some(">=2.21.0")
                         else if k == pin.0 then Some(pin.1)
                         else None
  {
    var pins := RuntimePins(pin);
    SetDefaultsGet(packages, pins, k);
    assert pins == [("requests", ">=2.21.0"), pin];
    assert pins[1..] == [pin] && pins[1..][1..] == [];
    assert Get(pins[1..], k) == if k == pin.0 then Some(pin.1) else None;
  }

  /** Adds the pins to one package dict, in order, as the `for` loop and the last `setdefault` do. */
  method PinInto(packages: seq<(string, string)>, pin: (string, string)) returns (r: seq<(string, string)>)
    ensures r == SetDefaults(packages, RuntimePins(pin))
  {
    r := packages;
    var pins := RuntimePins(pin);
    for i := 0 to |pins|
      invariant r == SetDefaults(packages, pins[..i])
    {
      assert pins[..i + 1][..i] == pins[..i];
      r := SetDefault(r, pins[i].0, pins[i].1);
    }
    assert pins[..|pins|] == pins;
  }

  /**
   * What the pin part of `step_init` leaves: with a known backend, `@pypi`
   * gets the pins if present, else `@conda` gets them as pip packages;
   * nothing is added for an unknown backend, and no other decorator changes.
   */
  twostate predicate PinnedRuntime(decorators: seq<StepDecorator>, backend: string)
    reads set d: StepDecorator | d in decorators
  {
    var pin, pypi, conda := BackendRuntimePin(backend), FirstNamed(decorators, "pypi"),
                            FirstNamed(decorators, "conda");
    && (pin.Some? && pypi.Some? ==>
          && pypi.value.packages == SetDefaults(old(pypi.value.packages), RuntimePins(pin.value))
          && forall d :: d in decorators && d != pypi.value ==> d.packages == old(d.packages))
    && (pin.Some? && pypi.None? && conda.Some? ==>
          conda.value.pipPackages == SetDefaults(old(conda.value.pipPackages), RuntimePins(pin.value)))
    && (pin.None? || pypi.Some? ==> forall d :: d in decorators ==> d.pipPackages == old(d.pipPackages))
    && (pin.None? || pypi.None? ==> forall d :: d in decorators ==> d.packages == old(d.packages))
    && (pin.Some? && pypi.None? && conda.Some? ==>
          forall d :: d in decorators && d != conda.value ==> d.pipPackages == old(d.pipPackages))
    && (pin.None? || (pypi.None? && conda.None?) ==>
          forall d :: d in decorators ==> d.pipPackages == old(d.pipPackages))
  }

  /** The pin part of `step_init`. */
  method PinRuntime(decorators: seq<StepDecorator>, backend: string)
    modifies set d: StepDecorator | d in decorators
    ensures PinnedRuntime(decorators, backend)
  {
    var pin := BackendRuntimePin(backend);
    var pypi := FirstNamed(decorators, "pypi");
    var conda := FirstNamed(decorators, "conda");
    if pin.Some? && pypi.Some? {
      var d := pypi.value;
      d.packages := PinInto(d.packages, pin.value);
    } else if pin.Some? && conda.Some? {
      var d := conda.value;
      d.pipPackages := PinInto(d.pipPackages, pin.value);
    }
  }

  // ---------------------------------------------------------------------
  // Attributes and the decorator object
  // ---------------------------------------------------------------------

  /** An attribute value: the CLI-serialisable kinds, a list (for `env-var`), or the `env` dict. */
  datatype Attr = AttrNone | AttrText(text: string) | AttrNum(num: int) | AttrList(items: seq<string>)
                | AttrEnv(entries: seq<(string, string)>)

  /** `defaults` of `@sandbox`; the `@daytona` and `@e2b` shorthands only fix the backend. */
  function Defaults(name: string): map<string, Attr> {
    var base := map["backend" := AttrNone, "cpu" := AttrNum(1), "memory" := AttrNum(1024), "gpu" := AttrNone,
                    "image" := AttrNone, "timeout" := AttrNum(600), "executable" := AttrNone, "env" := AttrEnv([])];
    if name == "daytona" || name == "e2b" then base["backend" := AttrText(name)] else base
  }

  /**
   * A shorthand left at its defaults runs on its own backend, and is
   * `@sandbox` with that backend; bare `@sandbox` runs on the default one.
   */
  lemma {:induction false} ShorthandBackend(name: string, default: string)
    ensures name == "daytona" || name == "e2b" ==>
              && BackendOf(Defaults(name), default) == name
              && Defaults(name) == Defaults("sandbox")["backend" := AttrText(name)]
    ensures name == "sandbox" ==> BackendOf(Defaults(name), default) == default
  {
  }

  /** The `env` attribute is absent or a dict, as `step_init` needs. */
  predicate EnvIsDict(attributes: map<string, Attr>) {
    "env" !in attributes || attributes["env"].AttrEnv?
  }

  /** `dict(attributes.get("env") or {})`: the user's env entries. */
  function EnvEntries(attributes: map<string, Attr>): seq<(string, string)> {
    if "env" in attributes && attributes["env"].AttrEnv? then attributes["env"].entries else []
  }

  /** `attributes.get("backend") or default`. */
  function BackendOf(attributes: map<string, Attr>, default: string): string {
    if "backend" in attributes && attributes["backend"].AttrText? && attributes["backend"].text != ""
    then attributes["backend"].text else default
  }

  /** The credentials `step_init` keeps in the `env` attribute: each one set in the process environment. */
  function AuthInEnviron(environ: map<string, string>): seq<(string, Option<string>)> {
    seq(|BackendAuthVars|, i requires 0 <= i < |BackendAuthVars| => (BackendAuthVars[i], Lookup(environ, BackendAuthVars[i])))
  }

  /** The credentials `runtime_step_cli` passes on: set now, or at import. */
  function AuthCandidates(environ: map<string, string>, initial: map<string, string>)
    : seq<(string, Option<string>)>
  {
    seq(|BackendAuthVars|, i requires 0 <= i < |BackendAuthVars| =>
      (BackendAuthVars[i], Or(Lookup(environ, BackendAuthVars[i]), Lookup(initial, BackendAuthVars[i]))))
  }

  /** The aliases `runtime_step_cli` passes on: the alias itself, else the key it stands for. */
  function AliasCandidates(environ: map<string, string>, initial: map<string, string>)
    : seq<(string, Option<string>)>
  {
    seq(|AuthAliases|, i requires 0 <= i < |AuthAliases| =>
      (AuthAliases[i].1,
       Or(Lookup(environ, AuthAliases[i].1), Or(Lookup(environ, AuthAliases[i].0), Lookup(initial, AuthAliases[i].0)))))
  }

  /** The user env `runtime_step_cli` serialises: the user's entries, then credentials and aliases as defaults. */
  function UserEnv(attributes: map<string, Attr>, environ: map<string, string>, initial: map<string, string>)
    : seq<(string, string)>
  {
    SetDefaults(SetDefaults(EnvEntries(attributes), TruthyPairs(AuthCandidates(environ, initial))),
                TruthyPairs(AliasCandidates(environ, initial)))
  }

  /**
   * User env entries are never overwritten by credentials or aliases; a
   * credential or alias is added only when the user did not set it and it
   * has a value.
   */
  lemma {:induction false} UserEnvNeverOverwrites(attributes: map<string, Attr>, environ: map<string, string>,
                                                  initial: map<string, string>, k: string)
    ensures var user := EnvEntries(attributes);
            var auth := TruthyPairs(AuthCandidates(environ, initial));
            var aliases := TruthyPairs(AliasCandidates(environ, initial));
            Get(UserEnv(attributes, environ, initial), k)
              == if Get(user, k).Some? then Get(user, k) else if Get(auth, k).Some? then Get(auth, k)
                 else Get(aliases, k)
  {
    var user := EnvEntries(attributes);
    var auth := TruthyPairs(AuthCandidates(environ, initial));
    SetDefaultsGet(SetDefaults(user, auth), TruthyPairs(AliasCandidates(environ, initial)), k);
    SetDefaultsGet(user, auth, k);
  }

  /** A credential reaches the user env with its value now, or else at import, when that is not empty. */
  lemma {:induction false} AuthCandidateValue(environ: map<string, string>, initial: map<string, string>, i: nat)
    requires i < |BackendAuthVars|
    ensures var k := BackendAuthVars[i];
            var v := Or(Lookup(environ, k), Lookup(initial, k));
            Get(TruthyPairs(AuthCandidates(environ, initial)), k) == if Truthy(v) then v else None
  {
    var cands := AuthCandidates(environ, initial);
    var k := BackendAuthVars[i];
    TruthyPairsGet(cands, k);
    CandidateAt(cands, i);
  }

  /** The candidate offered for the key at index `i`, with keys distinct. */
  lemma {:induction false} CandidateAt(kvs: seq<(string, Option<string>)>, i: nat)
    requires i < |kvs|
    requires forall a, b :: 0 <= a < b < |kvs| ==> kvs[a].0 != kvs[b].0
    ensures Candidate(kvs, kvs[i].0) == kvs[i].1.GetOr("")
    ensures (exists j :: 0 <= j < |kvs| && kvs[j].0 == kvs[i].0 && Truthy(kvs[j].1)) <==> Truthy(kvs[i].1)
    decreases |kvs|
  {
    var init := kvs[..|kvs| - 1];
    if i < |kvs| - 1 {
      assert forall j :: 0 <= j < |init| ==> init[j] == kvs[j];
      CandidateAt(init, i);
    }
  }

  /** `f"{k}={v}"` for each entry, in order: the `--env-var` items. */
  function EnvVarItems(d: seq<(string, string)>): (items: seq<string>)
    ensures |items| == |d|
  {
    seq(|d|, i requires 0 <= i < |d| => d[i].0 + "=" + d[i].1)
  }

  /** The code package fields shared by every `@sandbox`-family decorator. */
  datatype PackageInfo = PackageInfo(metadata: Option<string>, sha: Option<string>, url: Option<string>)

  /** The state after `_save_package_once` with the datastore's `answer` (url, sha) for the blob. */
  function SavedOnce(info: PackageInfo, answer: (string, string), metadata: string): PackageInfo {
    if info.url.None? then PackageInfo(Some(metadata), Some(answer.1), Some(answer.0)) else info
  }

  /** Saving again, with whatever the datastore would answer, changes nothing. */
  lemma {:induction false} SaveOnceIdempotent(info: PackageInfo, first: (string, string), m1: string,
                                              later: (string, string), m2: string)
    ensures SavedOnce(SavedOnce(info, first, m1), later, m2) == SavedOnce(info, first, m1)
    ensures SavedOnce(info, first, m1).url.Some?
  {
  }

  /** The flow's datastore: its kind and the url and sha `save_data` answers for the n-th blob. */
  class Datastore {
    const kind: string
    const answers: nat -> (string, string)
    var saved: seq<string>

    constructor (kind: string, answers: nat -> (string, string))
      ensures this.kind == kind && this.answers == answers && saved == []
    {
      this.kind := kind;
      this.answers := answers;
      saved := [];
    }

    method SaveData(blob: string) returns (url: string, sha: string)
      modifies this
      ensures (url, sha) == answers(|old(saved)|) && saved == old(saved) + [blob]
    {
      url, sha := answers(|saved|).0, answers(|saved|).1;
      saved := saved + [blob];
    }
  }

  /** The code package built for the run. */
  datatype CodePackage = CodePackage(blob: string, metadata: string)

  /** The class-level fields `package_metadata`, `package_sha`, `package_url` of `SandboxDecorator`. */
  class PackageState {
    var metadata: Option<string>
    var sha: Option<string>
    var url: Option<string>

    constructor ()
      ensures metadata.None? && sha.None? && url.None?
    {
      metadata, sha, url := None, None, None;
    }

    function Info(): PackageInfo
      reads this
    {
      PackageInfo(metadata, sha, url)
    }

    /** `_save_package_once`: upload the blob only while no url is recorded. */
    method SaveOnce(store: Datastore, pkg: CodePackage)
      modifies this, store
      ensures Info() == SavedOnce(old(Info()), store.answers(|old(store.saved)|), pkg.metadata)
      ensures store.saved == if old(url).None? then old(store.saved) + [pkg.blob] else old(store.saved)
    {
      if url == None {
        var u, s := store.SaveData(pkg.blob);
        url, sha, metadata := Some(u), Some(s), Some(pkg.metadata);
      }
    }
  }

  /** The part of `cli_args` that `runtime_step_cli` changes. */
  datatype CliState = CliState(commands: seq<string>, commandArgs: seq<Option<string>>,
                               commandOptions: map<string, Attr>, entrypoint: seq<string>)

  class CliArgs {
    var commands: seq<string>
    var commandArgs: seq<Option<string>>
    var commandOptions: map<string, Attr>
    var entrypoint: seq<string>

    constructor (c: CliState)
      ensures State() == c
    {
      commands, commandArgs, commandOptions, entrypoint := c.commands, c.commandArgs, c.commandOptions, c.entrypoint;
    }

    function State(): CliState
      reads this
    {
      CliState(commands, commandArgs, commandOptions, entrypoint)
    }
  }

  /** Every attribute except the `env` dict, which cannot be a CLI option. */
  function OptionAttributes(attributes: map<string, Attr>): map<string, Attr> {
    map k | k in attributes && k != "env" :: attributes[k]
  }

  /** Whether `runtime_step_cli` redirects the step: not already inside a sandbox, and user retries remain. */
  predicate Redirects(environ: map<string, string>, retryCount: int, maxUserCodeRetries: int) {
    !Truthy(Lookup(environ, WorkloadVar)) && retryCount <= maxUserCodeRetries
  }

  /** What `runtime_step_cli` makes of `cli_args`. */
  function StepCli(c: CliState, attributes: map<string, Attr>, pkg: PackageInfo, environ: map<string, string>,
                   initial: map<string, string>, retryCount: int, maxUserCodeRetries: int, executable: string)
    : CliState
    requires Redirects(environ, retryCount, maxUserCodeRetries) ==> |c.entrypoint| > 0
  {
    if !Redirects(environ, retryCount, maxUserCodeRetries) then c
    else
      var userEnv := UserEnv(attributes, environ, initial);
      var options := c.commandOptions + OptionAttributes(attributes);
      CliState(["sandbox", "step"], c.commandArgs + [pkg.metadata, pkg.sha, pkg.url],
               if |userEnv| > 0 then options["env-var" := AttrList(EnvVarItems(userEnv))] else options,
               c.entrypoint[0 := executable])
  }

  /**
   * Redirected, the step runs `sandbox step` from the current interpreter
   * with the package fields appended, every attribute but `env` as an
   * option, and `--env-var` exactly when the user env is not empty.
   */
  lemma {:induction false} StepCliRedirects(c: CliState, attributes: map<string, Attr>, pkg: PackageInfo,
                                            environ: map<string, string>, initial: map<string, string>,
                                            retryCount: int, maxUserCodeRetries: int, executable: string, k: string)
    requires Redirects(environ, retryCount, maxUserCodeRetries) && |c.entrypoint| > 0
    ensures var r := StepCli(c, attributes, pkg, environ, initial, retryCount, maxUserCodeRetries, executable);
            var userEnv := UserEnv(attributes, environ, initial);
            && r.commands == ["sandbox", "step"]
            && r.commandArgs == c.commandArgs + [pkg.metadata, pkg.sha, pkg.url]
            && r.entrypoint[0] == executable && r.entrypoint[1..] == c.entrypoint[1..]
            && ("env-var" in r.commandOptions && |userEnv| > 0 ==>
                  r.commandOptions["env-var"] == AttrList(EnvVarItems(userEnv)))
            && (|userEnv| == 0 ==> r.commandOptions == c.commandOptions + OptionAttributes(attributes))
            && ("env-var" in r.commandOptions
                <==> (|userEnv| > 0 || "env-var" in c.commandOptions || "env-var" in attributes))
            && (k != "env-var" && k != "env" && k in attributes ==> r.commandOptions[k] == attributes[k])
            && (k != "env-var" && k !in attributes ==>
                  (k in r.commandOptions <==> k in c.commandOptions)
                  && (k in c.commandOptions ==> r.commandOptions[k] == c.commandOptions[k]))
  {
  }

  /** Inside a sandbox workload, or once user retries are spent, `cli_args` is left alone. */
  lemma {:induction false} StepCliStaysLocal(c: CliState, attributes: map<string, Attr>, pkg: PackageInfo,
                                             environ: map<string, string>, initial: map<string, string>,
                                             retryCount: int, maxUserCodeRetries: int, executable: string)
    requires Truthy(Lookup(environ, WorkloadVar)) || retryCount > maxUserCodeRetries
    ensures StepCli(c, attributes, pkg, environ, initial, retryCount, maxUserCodeRetries, executable) == c
  {
  }

  /** The `for` loop that `setdefault`s each candidate that is true, in order. */
  method SetDefaultsFrom(d: seq<(string, string)>, cands: seq<(string, Option<string>)>)
    returns (r: seq<(string, string)>)
    ensures r == SetDefaults(d, TruthyPairs(cands))
  {
    r := d;
    for i := 0 to |cands|
      invariant r == SetDefaults(d, TruthyPairs(cands[..i]))
    {
      var prefix, next := cands[..i], cands[i];
      assert cands[..i + 1] == prefix + [next];
      assert (prefix + [next])[..i] == prefix;
      var kept := TruthyPairs(prefix);
      if Truthy(next.1) {
        assert (kept + [(next.0, next.1.value)])[..|kept|] == kept;
        r := SetDefault(r, next.0, next.1.value);
      }
    }
    assert cands[..|cands|] == cands;
  }

  /** `user_env` of `runtime_step_cli`: the user's entries, then the credential and alias `setdefault` loops. */
  method CollectUserEnv(attributes: map<string, Attr>, environ: map<string, string>, initial: map<string, string>)
    returns (userEnv: seq<(string, string)>)
    ensures userEnv == UserEnv(attributes, environ, initial)
  {
    userEnv := EnvEntries(attributes);
    userEnv := SetDefaultsFrom(userEnv, AuthCandidates(environ, initial));
    userEnv := SetDefaultsFrom(userEnv, AliasCandidates(environ, initial));
  }

  /** What `step_init` can reject. */
  datatype DecoratorError = LocalDatastore(decorator: string)

  /** One `@sandbox`, `@daytona` or `@e2b` on a step. */
  class SandboxDecorator {
    /** `sandbox`, `daytona` or `e2b`. */
    const name: string
    /** `_DEFAULT_BACKEND`. */
    const defaultBackend: string
    /** `_INITIAL_BACKEND_AUTH_ENV`. */
    const initialAuth: map<string, string>
    /** The class-level package fields, one object for the whole family. */
    const shared: PackageState
    var attributes: map<string, Attr>
    var backendName: string
    var stepName: string

    /** `importEnviron` is the process environment when the module was imported. */
    constructor (name: string, attributes: map<string, Attr>, importEnviron: map<string, string>,
                 shared: PackageState)
      ensures this.name == name && this.attributes == attributes
      ensures defaultBackend == DefaultBackend(importEnviron) && initialAuth == InitialAuthEnv(importEnviron)
      ensures this.shared == shared
    {
      this.name := name;
      this.attributes := attributes;
      defaultBackend := DefaultBackend(importEnviron);
      initialAuth := InitialAuthEnv(importEnviron);
      this.shared := shared;
      backendName, stepName := "", "";
    }

    /**
     * `step_init`: merge the conda aliases, settle the backend name, make
     * sure `env` exists, publish credential aliases, pin the runtime
     * packages, keep the credentials in `env`, and refuse a local datastore.
     */
    method StepInit(modules: seq<CondaModule?>, stepName: string, decorators: seq<StepDecorator>,
                    store: Datastore, env: Environ)
      returns (outcome: Outcome<DecoratorError>)
      requires EnvIsDict(attributes)
      requires forall i, j :: 0 <= i < j < |modules| && modules[i] != null ==> modules[i] != modules[j]
      modifies this, env, set m: CondaModule | m in modules, set d: StepDecorator | d in decorators
      ensures forall i :: 0 <= i < |modules| && modules[i] != null ==>
                modules[i].remoteCommands == MergeAliases(old(modules[i].remoteCommands))
      ensures backendName == BackendOf(old(attributes), defaultBackend) && this.stepName == stepName
      ensures env.vars == PublishAliases(old(env.vars), initialAuth, AuthAliases)
      ensures PinnedRuntime(decorators, backendName)
      ensures attributes == old(attributes)["env" := AttrEnv(SetDefaults(EnvEntries(old(attributes)),
                                                     TruthyPairs(AuthInEnviron(env.vars))))]
      ensures outcome == if store.kind == "local" then Fail(LocalDatastore(name)) else Pass
    {
      // The pins touch only the other decorators, and the rest of `step_init`
      // never reads them, so pinning after the credential loop leaves the
      // same state as pinning before it.
      SettleAttributes(modules, stepName, env);
      PinRuntime(decorators, backendName);
      outcome := if store.kind == "local" then Fail(LocalDatastore(name)) else Pass;
    }

    /** The part of `step_init` that updates the conda modules, `os.environ` and the attributes. */
    method SettleAttributes(modules: seq<CondaModule?>, stepName: string, env: Environ)
      requires EnvIsDict(attributes)
      requires forall i, j :: 0 <= i < j < |modules| && modules[i] != null ==> modules[i] != modules[j]
      modifies this, env, set m: CondaModule | m in modules
      ensures forall i :: 0 <= i < |modules| && modules[i] != null ==>
                modules[i].remoteCommands == MergeAliases(old(modules[i].remoteCommands))
      ensures backendName == BackendOf(old(attributes), defaultBackend) && this.stepName == stepName
      ensures env.vars == PublishAliases(old(env.vars), initialAuth, AuthAliases)
      ensures attributes == old(attributes)["env" := AttrEnv(SetDefaults(EnvEntries(old(attributes)),
                                                     TruthyPairs(AuthInEnviron(env.vars))))]
    {
      EnsureCondaRemoteCommandAliases(modules);
      backendName := BackendOf(attributes, defaultBackend);
      this.stepName := stepName;
      if "env" !in attributes {
        attributes := attributes["env" := AttrEnv([])];
      }
      WriteAuthAliases(env, initialAuth);
      KeepAuthEnv(env.vars);
    }

    /** The loop of `step_init` that keeps each set credential in `attributes["env"]`, as a default. */
    method KeepAuthEnv(environ: map<string, string>)
      requires "env" in attributes && attributes["env"].AttrEnv?
      modifies this
      ensures attributes == old(attributes)["env" := AttrEnv(SetDefaults(EnvEntries(old(attributes)),
                                                     TruthyPairs(AuthInEnviron(environ))))]
      ensures backendName == old(backendName) && stepName == old(stepName)
    {
      var entries := SetDefaultsFrom(attributes["env"].entries, AuthInEnviron(environ));
      attributes := attributes["env" := AttrEnv(entries)];
    }

    /** `runtime_task_created`: save the code package, unless the task is cloned. */
    method RuntimeTaskCreated(isCloned: bool, store: Datastore, pkg: CodePackage)
      modifies shared, store
      ensures shared.Info() == if isCloned then old(shared.Info())
                               else SavedOnce(old(shared.Info()), store.answers(|old(store.saved)|), pkg.metadata)
      ensures store.saved == if isCloned || old(shared.url).Some? then old(store.saved)
                             else old(store.saved) + [pkg.blob]
    {
      if !isCloned {
        shared.SaveOnce(store, pkg);
      }
    }

    /** `runtime_step_cli`: redirect the step to `sandbox step` when it should run in a sandbox. */
    method RuntimeStepCli(args: CliArgs, retryCount: int, maxUserCodeRetries: int, environ: map<string, string>,
                          executable: string)
      requires Redirects(environ, retryCount, maxUserCodeRetries) ==> |args.entrypoint| > 0
      modifies args
      ensures args.State() == StepCli(old(args.State()), attributes, shared.Info(), environ, initialAuth,
                                      retryCount, maxUserCodeRetries, executable)
    {
      if Truthy(Lookup(environ, WorkloadVar)) {
        return;
      }
      if retryCount <= maxUserCodeRetries {
        args.commands := ["sandbox", "step"];
        args.commandArgs := args.commandArgs + [shared.metadata];
        args.commandArgs := args.commandArgs + [shared.sha];
        args.commandArgs := args.commandArgs + [shared.url];
        args.commandOptions := args.commandOptions + OptionAttributes(attributes);
        var userEnv := CollectUserEnv(attributes, environ, initialAuth);
        if |userEnv| > 0 {
          args.commandOptions := args.commandOptions["env-var" := AttrList(EnvVarItems(userEnv))];
        }
        args.entrypoint := args.entrypoint[0 := executable];
      }
    }
  }
}
