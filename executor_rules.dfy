/**
 * The sandbox executor of `sandbox_executor.py`: the debug and endpoint
 * switches read from the process environment, the upload-spec list and its
 * staging, the sandbox environment map, the command prefix, and the
 * create / stage / exec / recreate loop with its teardown.
 *
 * The process environment is a `map` parameter; the backend is a
 * `Sandbox.Backend`; JSON decoding, `shutil.which`, micromamba detection and
 * download, `os.path.isfile` and `_is_hard_minus_one` are oracles passed in.
 */
module ExecutorRules {
  import opened Wrappers
  import opened Text
  import Shell
  import opened Sandbox
  import opened Process

  const StagingBinDir := "/tmp/metaflow-sandbox/bin"
  const MicromambaRemote := "/tmp/metaflow-sandbox/bin/micromamba"
  const DefaultDebugDir := "/tmp/metaflow-sandbox-debug"
  const DefaultImage := "python:3.11-slim"
  const DefaultPath := "/usr/local/sbin:/usr/local/bin:/usr/sbin:/usr/bin:/sbin:/bin"
  const LogsDir := "$PWD/.logs"

  const SessionToken := "AWS_SESSION_TOKEN"
  const WorkerCount := "METAFLOW_S3_WORKER_COUNT"
  const EndpointVar := "METAFLOW_S3_ENDPOINT_URL"
  const WorkloadVar := "METAFLOW_SANDBOX_WORKLOAD"
  const BackendVar := "METAFLOW_SANDBOX_BACKEND"

  /** Cloud credentials copied from the launching process into the sandbox. */
  const ForwardedCredentialVars: seq<string> := [
    "AWS_ACCESS_KEY_ID", "AWS_SECRET_ACCESS_KEY", "AWS_SESSION_TOKEN", "AWS_DEFAULT_REGION",
    "GOOGLE_APPLICATION_CREDENTIALS", "CLOUDSDK_CONFIG",
    "AZURE_STORAGE_CONNECTION_STRING", "AZURE_STORAGE_KEY",
    "DAYTONA_API_KEY", "E2B_API_KEY"]

  // ---------------------------------------------------------------------
  // Switches read from the process environment
  // ---------------------------------------------------------------------

  /** `os.environ.get(name, default)`. */
  function Getenv(environ: map<string, string>, name: string, default: string): string {
    if name in environ then environ[name] else default
  }

  predicate IsOnWord(s: string) {
    s == "1" || s == "true" || s == "yes" || s == "on"
  }

  predicate IsOffWord(s: string) {
    s == "0" || s == "false" || s == "no" || s == "off"
  }

  /** `_env_flag`: the variable is one of the on-words, ignoring ASCII case. */
  function EnvFlag(environ: map<string, string>, name: string): (b: bool)
    ensures b <==> name in environ && Lower(environ[name]) in {"1", "true", "yes", "on"}
  {
    IsOnWord(Lower(Getenv(environ, name, "")))
  }

  /** Setting a flag variable to any case variant of a value gives the same answer. */
  lemma {:induction false} EnvFlagIgnoresCase(environ: map<string, string>, name: string, value: string)
    ensures EnvFlag(environ[name := value], name) == EnvFlag(environ[name := Lower(value)], name)
  {
    LowerIdempotent(value);
  }

  datatype DebugSettings = DebugSettings(keepSandbox: bool, dumpScript: Option<string>, dumpEnv: Option<string>)

  /** `_debug_settings`: METAFLOW_SANDBOX_DEBUG, stripped, classified as off, on or a dump path. */
  function ReadDebugSettings(environ: map<string, string>): (d: DebugSettings)
    ensures d.keepSandbox <==> d.dumpScript.Some?
    ensures d.dumpScript == d.dumpEnv
    ensures d.dumpScript.Some? ==> var p := d.dumpScript.value;
              p != "" && !IsSpace(p[0]) && !IsSpace(p[|p| - 1])
    ensures "METAFLOW_SANDBOX_DEBUG" !in environ ==> !d.keepSandbox
  {
    ClassifyDebug(Strip(Getenv(environ, "METAFLOW_SANDBOX_DEBUG", "")))
  }

  /** The stripped setting: blank or an off-word, an on-word, or else a dump path. */
  function ClassifyDebug(cfg: string): (d: DebugSettings)
    requires cfg != [] ==> !IsSpace(cfg[0]) && !IsSpace(cfg[|cfg| - 1])
    ensures d.keepSandbox <==> d.dumpScript.Some?
    ensures d.dumpScript == d.dumpEnv
    ensures d.dumpScript.Some? ==> var p := d.dumpScript.value;
              p != "" && !IsSpace(p[0]) && !IsSpace(p[|p| - 1])
    ensures cfg == "" ==> !d.keepSandbox
  {
    if cfg == "" || IsOffWord(Lower(cfg)) then DebugSettings(false, None, None)
    else if IsOnWord(Lower(cfg)) then
      assert DefaultDebugDir[0] == '/' && DefaultDebugDir[|DefaultDebugDir| - 1] == 'g';
      DebugSettings(true, Some(DefaultDebugDir), Some(DefaultDebugDir))
    else DebugSettings(true, Some(cfg), Some(cfg))
  }

  /** A value that is neither an on- nor an off-word is taken, stripped, as the dump path. */
  lemma {:induction false} DebugPathVerbatim(environ: map<string, string>, path: string)
    requires path != [] && !IsSpace(path[0]) && !IsSpace(path[|path| - 1])
    requires !IsOnWord(Lower(path)) && !IsOffWord(Lower(path))
    requires Getenv(environ, "METAFLOW_SANDBOX_DEBUG", "") == path
    ensures ReadDebugSettings(environ) == DebugSettings(true, Some(path), Some(path))
  {
    StripUnpadded(path);
  }

  /** A blank value, or an off-word in any case and with any padding, disables debugging. */
  lemma {:induction false} DebugOffWords(environ: map<string, string>, pre: string, word: string, post: string)
    requires AllSpace(pre) && AllSpace(post)
    requires word == "" || IsOffWord(Lower(word))
    requires Getenv(environ, "METAFLOW_SANDBOX_DEBUG", "") == pre + word + post
    ensures ReadDebugSettings(environ) == DebugSettings(false, None, None)
  {
    if word != "" {
      WordUnpadded(word);
    }
    StripPadded(pre, word, post);
  }

  /** An on-word in any case and with any padding keeps the sandbox and dumps to the default directory. */
  lemma {:induction false} DebugOnWords(environ: map<string, string>, pre: string, word: string, post: string)
    requires AllSpace(pre) && AllSpace(post)
    requires IsOnWord(Lower(word))
    requires Getenv(environ, "METAFLOW_SANDBOX_DEBUG", "") == pre + word + post
    ensures ReadDebugSettings(environ) == DebugSettings(true, Some(DefaultDebugDir), Some(DefaultDebugDir))
  {
    WordUnpadded(word);
    StripPadded(pre, word, post);
  }

  /** An on- or off-word, whatever its case, neither starts nor ends with whitespace. */
  lemma {:induction false} WordUnpadded(word: string)
    requires IsOnWord(Lower(word)) || IsOffWord(Lower(word))
    ensures word != [] && !IsSpace(word[0]) && !IsSpace(word[|word| - 1])
  {
    var l := Lower(word);
    assert l[0] == LowerChar(word[0]) && l[|l| - 1] == LowerChar(word[|word| - 1]);
  }

  /** `_is_cloudflare_r2_endpoint`: the endpoint names cloudflarestorage.com, in any case. */
  function IsCloudflareR2Endpoint(endpoint: Option<string>): (b: bool)
    ensures b <==> endpoint.Some? && exists i: nat :: OccursAt(Lower(endpoint.value), "cloudflarestorage.com", i)
  {
    match endpoint
    case None => false
    case Some(e) =>
      ContainsIff(Lower(e), "cloudflarestorage.com");
      Contains(Lower(e), "cloudflarestorage.com")
  }

  /** Any host under cloudflarestorage.com is recognised, whatever its letter case. */
  lemma {:induction false} R2EndpointDetected(pre: string, host: string, post: string)
    requires Lower(host) == "cloudflarestorage.com"
    ensures IsCloudflareR2Endpoint(Some(pre + host + post))
  {
    LowerConcat(pre + host, post);
    LowerConcat(pre, host);
    var l := Lower(pre + host + post);
    assert l == Lower(pre) + "cloudflarestorage.com" + Lower(post);
    assert l[|pre|..|pre| + 21] == "cloudflarestorage.com";
    ContainsAt(l, "cloudflarestorage.com", |pre|);
  }

  /** `_skip_aws_session_token_for_endpoint`. */
  function SkipAwsSessionToken(environ: map<string, string>): (b: bool)
    ensures b <==> IsCloudflareR2Endpoint(Lookup(environ, EndpointVar))
                   && !EnvFlag(environ, "METAFLOW_SANDBOX_FORWARD_AWS_SESSION_TOKEN")
  {
    var endpoint := Lower(Getenv(environ, EndpointVar, ""));
    if endpoint == "" then false
    else if Contains(endpoint, "cloudflarestorage.com") then
      !EnvFlag(environ, "METAFLOW_SANDBOX_FORWARD_AWS_SESSION_TOKEN")
    else false
  }

  // ---------------------------------------------------------------------
  // Upload specs (METAFLOW_SANDBOX_UPLOADS)
  // ---------------------------------------------------------------------

  /** A decoded JSON value; integral numbers decode to `JInt`, the others to `JFloat`. */
  datatype Json =
    | JNull
    | JBool(b: bool)
    | JInt(n: int)
    | JFloat(literal: string)
    | JString(text: string)
    | JArray(items: seq<Json>)
    | JObject(fields: map<string, Json>)

  datatype UploadSpec = UploadSpec(local: string, remote: string, mode: Option<string>, optional: Option<string>)

  datatype Error =
    | UnknownBackend(name: string)
    | UploadsNotJson
    | UploadsNotList
    | UploadEntryNotObject
    | UploadLocalInvalid
    | UploadRemoteInvalid
    | UploadModeInvalid
    | MicromambaUnavailable(downloadError: Option<string>)
    | UploadFileMissing(path: string)
    | UploadFailed(local: string, remote: string)
    | ProvisionFailed
    | InfraRetriesNotInt(text: string)
    | CommandUnbalanced
    | NoResult

  /** `item.get(key)`: an absent key reads as null. */
  function Field(fields: map<string, Json>, key: string): Json {
    if key in fields then fields[key] else JNull
  }

  predicate IsNonEmptyString(j: Json) {
    j.JString? && j.text != ""
  }

  /** `str(mode)` for a mode that is null, a string or an integer (a bool is an integer). */
  function ModeString(j: Json): (r: Result<Option<string>, Error>)
    ensures r.Ok? <==> j.JNull? || j.JString? || j.JInt? || j.JBool?
    ensures r.Ok? ==> (r.value.None? <==> j.JNull?)
  {
    match j
    case JNull => Ok(None)
    case JString(s) => Ok(Some(s))
    case JInt(n) => Ok(Some(IntToDecimal(n)))
    case JBool(b) => Ok(Some(if b then "True" else "False"))
    case _ => Err(UploadModeInvalid)
  }

  /** One entry of the upload list, checked in the order local, remote, mode. */
  function EntryToSpec(item: Json): (r: Result<UploadSpec, Error>)
    ensures r.Ok? <==> item.JObject? && IsNonEmptyString(Field(item.fields, "local"))
                       && IsNonEmptyString(Field(item.fields, "remote"))
                       && ModeString(Field(item.fields, "mode")).Ok?
    ensures r.Ok? ==> && Field(item.fields, "local") == JString(r.value.local)
                      && Field(item.fields, "remote") == JString(r.value.remote)
                      && r.value.mode == ModeString(Field(item.fields, "mode")).value
                      && r.value.optional.None?
    ensures !item.JObject? ==> r == Err(UploadEntryNotObject)
  {
    if !item.JObject? then Err(UploadEntryNotObject)
    else
      var local := Field(item.fields, "local");
      var remote := Field(item.fields, "remote");
      if !IsNonEmptyString(local) then Err(UploadLocalInvalid)
      else if !IsNonEmptyString(remote) then Err(UploadRemoteInvalid)
      else match ModeString(Field(item.fields, "mode"))
        case Err(e) => Err(e)
        case Ok(mode) => Ok(UploadSpec(local.text, remote.text, mode, None))
  }

  /** The specs of a decoded list, built entry by entry; the first bad entry's error wins. */
  function SpecsOf(items: seq<Json>): Result<seq<UploadSpec>, Error>
    decreases |items|
  {
    if items == [] then Ok([])
    else
      match SpecsOf(items[..|items| - 1])
      case Err(e) => Err(e)
      case Ok(specs) =>
        match EntryToSpec(items[|items| - 1])
        case Err(e) => Err(e)
        case Ok(s) => Ok(specs + [s])
  }

  /** One spec per entry, in order; or the error of the first entry that is not a valid upload. */
  lemma {:induction false} SpecsOfMeaning(items: seq<Json>)
    ensures SpecsOf(items).Ok? <==> forall i :: 0 <= i < |items| ==> EntryToSpec(items[i]).Ok?
    ensures SpecsOf(items).Ok? ==> && |SpecsOf(items).value| == |items|
                                   && forall i :: 0 <= i < |items| ==> EntryToSpec(items[i]) == Ok(SpecsOf(items).value[i])
    ensures SpecsOf(items).Err? ==> exists k :: && 0 <= k < |items|
                                                && EntryToSpec(items[k]) == Err(SpecsOf(items).error)
                                                && forall i :: 0 <= i < k ==> EntryToSpec(items[i]).Ok?
  {
    SpecsOfOk(items);
    SpecsOfErr(items);
  }

  /** The success half of `SpecsOfMeaning`. */
  lemma {:induction false} SpecsOfOk(items: seq<Json>)
    ensures SpecsOf(items).Ok? <==> forall i :: 0 <= i < |items| ==> EntryToSpec(items[i]).Ok?
    ensures SpecsOf(items).Ok? ==> && |SpecsOf(items).value| == |items|
                                   && forall i :: 0 <= i < |items| ==> EntryToSpec(items[i]) == Ok(SpecsOf(items).value[i])
    decreases |items|
  {
    if items != [] {
      var n := |items| - 1;
      var init := items[..n];
      SpecsOfOk(init);
      assert forall i :: 0 <= i < n ==> items[i] == init[i];
      match SpecsOf(init)
      case Err(e) =>
      case Ok(specs) =>
        match EntryToSpec(items[n])
        case Err(e) =>
        case Ok(x) =>
          var r := specs + [x];
          assert SpecsOf(items) == Ok(r);
          assert forall i :: 0 <= i < n ==> r[i] == specs[i];
    }
  }

  /** The error half of `SpecsOfMeaning`: the error is that of the first bad entry. */
  lemma {:induction false} SpecsOfErr(items: seq<Json>)
    ensures SpecsOf(items).Err? ==> exists k :: && 0 <= k < |items|
                                                && EntryToSpec(items[k]) == Err(SpecsOf(items).error)
                                                && forall i :: 0 <= i < k ==> EntryToSpec(items[i]).Ok?
    decreases |items|
  {
    if items != [] {
      var n := |items| - 1;
      var init := items[..n];
      SpecsOfErr(init);
      assert forall i :: 0 <= i < n ==> items[i] == init[i];
      match SpecsOf(init)
      case Err(e) =>
        var k :| 0 <= k < n && EntryToSpec(init[k]) == Err(e) && forall i :: 0 <= i < k ==> EntryToSpec(init[i]).Ok?;
        assert EntryToSpec(items[k]) == Err(e);
      case Ok(specs) =>
        SpecsOfOk(init);
        match EntryToSpec(items[n])
        case Err(e) =>
          assert EntryToSpec(items[n]) == Err(SpecsOf(items).error);
        case Ok(x) =>
    }
  }

  /** `_parse_upload_specs`; `decoded` is what `json.loads` made of the variable (None: not JSON). */
  function UploadSpecsOf(environ: map<string, string>, decoded: Option<Json>): (r: Result<seq<UploadSpec>, Error>)
    ensures Getenv(environ, "METAFLOW_SANDBOX_UPLOADS", "") == "" ==> r == Ok([])
    ensures r.Ok? ==> forall s :: s in r.value ==> s.local != "" && s.remote != "" && s.optional.None?
    ensures Getenv(environ, "METAFLOW_SANDBOX_UPLOADS", "") != "" && decoded.Some? && !decoded.value.JArray?
            ==> r == Err(UploadsNotList)
  {
    if Getenv(environ, "METAFLOW_SANDBOX_UPLOADS", "") == "" then Ok([])
    else match decoded
      case None => Err(UploadsNotJson)
      case Some(JArray(items)) => SpecsOfMeaning(items); SpecsOf(items)
      case Some(_) => Err(UploadsNotList)
  }

  /** The loop of `_parse_upload_specs`, appending one spec per entry. */
  method ParseUploadSpecs(environ: map<string, string>, decoded: Option<Json>)
    returns (r: Result<seq<UploadSpec>, Error>)
    ensures r == UploadSpecsOf(environ, decoded)
  {
    if Getenv(environ, "METAFLOW_SANDBOX_UPLOADS", "") == "" {
      return Ok([]);
    }
    if decoded.None? {
      return Err(UploadsNotJson);
    }
    if !decoded.value.JArray? {
      return Err(UploadsNotList);
    }
    var items := decoded.value.items;
    var specs: seq<UploadSpec> := [];
    var i := 0;
    while i < |items|
      invariant 0 <= i <= |items|
      invariant SpecsOf(items[..i]) == Ok(specs)
    {
      assert items[..i + 1][..i] == items[..i];
      var entry := EntryToSpec(items[i]);
      if entry.Err? {
        SpecsErrExtends(items, i + 1);
        return Err(entry.error);
      }
      specs := specs + [entry.value];
      i := i + 1;
    }
    assert items[..|items|] == items;
    return Ok(specs);
  }

  /** An error in a prefix of the entries is the error of the whole list. */
  lemma {:induction false} SpecsErrExtends(items: seq<Json>, n: nat)
    requires n <= |items| && SpecsOf(items[..n]).Err?
    ensures SpecsOf(items) == SpecsOf(items[..n])
    decreases |items| - n
  {
    if n < |items| {
      var m := n + 1;
      assert items[..m][..n] == items[..n];
      SpecsErrExtends(items, m);
    } else {
      assert items[..n] == items;
    }
  }

  // ---------------------------------------------------------------------
  // Micromamba staging decision
  // ---------------------------------------------------------------------

  datatype DownloadOutcome = Downloaded(path: Option<string>) | DownloadRaised(message: string)

  /**
   * The filesystem and foreign calls `_resolve_staged_uploads` makes:
   * `shutil.which("micromamba")`, `is_compatible_linux_micromamba` and
   * `auto_download_micromamba`.
   */
  datatype MicromambaProbe = MicromambaProbe(
    onPath: Option<string>,
    isCompatible: string -> bool,
    download: DownloadOutcome)

  datatype Located = Located(path: Option<string>, downloadError: Option<string>)

  /** The configured or discovered binary if compatible, else the auto-downloaded one if compatible. */
  function LocateMicromamba(environ: map<string, string>, probe: MicromambaProbe): (l: Located)
    ensures l.path.Some? ==> l.path.value != "" && probe.isCompatible(l.path.value)
    ensures l.downloadError.Some? ==> l.path.None?
    ensures Getenv(environ, "METAFLOW_SANDBOX_MICROMAMBA_PATH", "") != ""
            && probe.isCompatible(environ["METAFLOW_SANDBOX_MICROMAMBA_PATH"])
            ==> l.path == Some(environ["METAFLOW_SANDBOX_MICROMAMBA_PATH"])
  {
    var configured := Getenv(environ, "METAFLOW_SANDBOX_MICROMAMBA_PATH", "");
    var candidate := if configured != "" then Some(configured) else probe.onPath;
    if candidate.Some? && candidate.value != "" && probe.isCompatible(candidate.value) then
      Located(candidate, None)
    else
      match probe.download
      case Downloaded(p) =>
        if p.Some? && p.value != "" && probe.isCompatible(p.value) then Located(p, None)
        else Located(None, None)
      case DownloadRaised(msg) => Located(None, Some(msg))
  }

  function StageSetting(environ: map<string, string>): string {
    Lower(Getenv(environ, "METAFLOW_SANDBOX_STAGE_MICROMAMBA", ""))
  }

  predicate TargetsMicromamba(uploads: seq<UploadSpec>) {
    exists i :: 0 <= i < |uploads| && uploads[i].remote == MicromambaRemote
  }

  /**
   * `_resolve_staged_uploads` after parsing: the upload list, extended by a
   * micromamba upload when staging applies, and whether the staging bin
   * directory goes in front of PATH.
   */
  function ResolveStagedUploads(environ: map<string, string>, uploads: seq<UploadSpec>, probe: MicromambaProbe)
    : (r: Result<(seq<UploadSpec>, bool), Error>)
    ensures IsOffWord(StageSetting(environ)) ==> r == Ok((uploads, false))
    ensures (!IsOffWord(StageSetting(environ)) && !IsOnWord(StageSetting(environ))
             && LocateMicromamba(environ, probe).path.None?) ==> r == Ok((uploads, false))
    ensures !IsOffWord(StageSetting(environ)) && LocateMicromamba(environ, probe).path.Some? ==>
              && r.Ok? && r.value.1
              && (if TargetsMicromamba(uploads) then r.value.0 == uploads else |r.value.0| == |uploads| + 1)
    ensures r.Err? <==> IsOnWord(StageSetting(environ)) && LocateMicromamba(environ, probe).path.None?
    ensures r.Err? ==> r.error == MicromambaUnavailable(LocateMicromamba(environ, probe).downloadError)
    ensures r.Ok? ==> uploads <= r.value.0 && |r.value.0| <= |uploads| + 1
    ensures r.Ok? && (!r.value.1 || TargetsMicromamba(uploads)) ==> r.value.0 == uploads
    ensures r.Ok? && r.value.0 != uploads ==>
              LocateMicromamba(environ, probe).path.Some? &&
              var m := r.value.0[|uploads|];
              && r.value.1
              && m.local == LocateMicromamba(environ, probe).path.value
              && m.remote == MicromambaRemote && m.mode == Some("0755")
              && m.optional == (if IsOnWord(StageSetting(environ)) then None else Some("1"))
  {
    var setting := StageSetting(environ);
    if IsOffWord(setting) then Ok((uploads, false))
    else
      var force := IsOnWord(setting);
      var found := LocateMicromamba(environ, probe);
      if found.path.None? then
        if force then Err(MicromambaUnavailable(found.downloadError)) else Ok((uploads, false))
      else if TargetsMicromamba(uploads) then Ok((uploads, true))
      else
        var spec := UploadSpec(found.path.value, MicromambaRemote, Some("0755"),
                               if force then None else Some("1"));
        Ok((uploads + [spec], true))
  }

  // ---------------------------------------------------------------------
  // Staging uploads into a sandbox
  // ---------------------------------------------------------------------

  /** `optional` is compared case-sensitively with the on-words. */
  predicate IsOptional(u: UploadSpec) {
    u.optional.Some? && IsOnWord(u.optional.value)
  }

  /** The local file exists and its upload does not raise. */
  predicate Lands(u: UploadSpec, present: string -> bool, fails: (string, string) -> bool) {
    present(u.local) && !fails(u.local, u.remote)
  }

  function UploadError(u: UploadSpec, present: string -> bool): Error {
    if !present(u.local) then UploadFileMissing(u.local) else UploadFailed(u.local, u.remote)
  }

  function ChmodCommand(mode: string, remote: string): string {
    "chmod " + Shell.Quote(mode) + " " + Shell.Quote(remote)
  }

  /** The chmod line for one uploaded spec, when it has a non-empty mode. */
  function ChmodFor(u: UploadSpec): seq<string> {
    if u.mode.Some? && u.mode.value != "" then [ChmodCommand(u.mode.value, u.remote)] else []
  }

  /** The chmod lines for uploaded specs that have a non-empty mode, in order. */
  function ChmodLines(specs: seq<UploadSpec>): seq<string>
    decreases |specs|
  {
    if specs == [] then []
    else
      var u := specs[|specs| - 1];
      ChmodLines(specs[..|specs| - 1]) + ChmodFor(u)
  }

  /** The specs that land, in order. */
  function Landed(uploads: seq<UploadSpec>, present: string -> bool, fails: (string, string) -> bool)
    : (r: seq<UploadSpec>)
    decreases |uploads|
  {
    if uploads == [] then []
    else
      var u := uploads[|uploads| - 1];
      Landed(uploads[..|uploads| - 1], present, fails) + (if Lands(u, present, fails) then [u] else [])
  }

  datatype Staged = Staged(uploaded: seq<UploadSpec>, chmods: seq<string>)

  /** The outcome of `_stage_uploads`, one spec at a time in input order. */
  function Stage(uploads: seq<UploadSpec>, present: string -> bool, fails: (string, string) -> bool)
    : Result<Staged, Error>
    decreases |uploads|
  {
    if uploads == [] then Ok(Staged([], []))
    else
      var u := uploads[|uploads| - 1];
      match Stage(uploads[..|uploads| - 1], present, fails)
      case Err(e) => Err(e)
      case Ok(st) =>
        if Lands(u, present, fails) then
          Ok(Staged(st.uploaded + [u], st.chmods + ChmodFor(u)))
        else if IsOptional(u) then Ok(st)
        else Err(UploadError(u, present))
  }

  /** Staging succeeds exactly when every upload lands or is optional. */
  lemma {:induction false} StageOkIff(uploads: seq<UploadSpec>, present: string -> bool,
                                      fails: (string, string) -> bool)
    ensures Stage(uploads, present, fails).Ok?
            <==> forall i :: 0 <= i < |uploads| ==> IsOptional(uploads[i]) || Lands(uploads[i], present, fails)
    decreases |uploads|
  {
    if uploads != [] {
      var n := |uploads| - 1;
      var init := uploads[..n];
      var u := uploads[n];
      StageOkIff(init, present, fails);
      assert forall i :: 0 <= i < n ==> uploads[i] == init[i];
      assert Stage(uploads, present, fails).Ok?
             <==> Stage(init, present, fails).Ok? && (IsOptional(u) || Lands(u, present, fails));
    }
  }

  /** Staging that succeeds uploads exactly the specs that land and returns their chmod lines. */
  lemma {:induction false} StageOkContents(uploads: seq<UploadSpec>, present: string -> bool,
                                           fails: (string, string) -> bool)
    requires Stage(uploads, present, fails).Ok?
    ensures Stage(uploads, present, fails).value.uploaded == Landed(uploads, present, fails)
    ensures Stage(uploads, present, fails).value.chmods == ChmodLines(Landed(uploads, present, fails))
    decreases |uploads|
  {
    if uploads != [] {
      var n := |uploads| - 1;
      var init := uploads[..n];
      var u := uploads[n];
      StageOkContents(init, present, fails);
      var st := Stage(init, present, fails).value;
      if Lands(u, present, fails) {
        assert (st.uploaded + [u])[..|st.uploaded|] == st.uploaded;
      }
    }
  }

  /**
   * Staging that fails reports the first required upload that did not land;
   * every spec before it landed or was optional.
   */
  lemma {:induction false} StageErrFirst(uploads: seq<UploadSpec>, present: string -> bool,
                                         fails: (string, string) -> bool)
    requires Stage(uploads, present, fails).Err?
    ensures exists k :: && 0 <= k < |uploads|
                        && !IsOptional(uploads[k]) && !Lands(uploads[k], present, fails)
                        && Stage(uploads, present, fails).error == UploadError(uploads[k], present)
                        && forall i :: 0 <= i < k ==> IsOptional(uploads[i]) || Lands(uploads[i], present, fails)
    decreases |uploads|
  {
    var n := |uploads| - 1;
    var init := uploads[..n];
    assert forall i :: 0 <= i < n ==> uploads[i] == init[i];
    if Stage(init, present, fails).Err? {
      StageErrFirst(init, present, fails);
      var k :| && 0 <= k < n && !IsOptional(init[k]) && !Lands(init[k], present, fails)
               && Stage(init, present, fails).error == UploadError(init[k], present)
               && forall i :: 0 <= i < k ==> IsOptional(init[i]) || Lands(init[i], present, fails);
      assert uploads[k] == init[k];
    } else {
      StageOkIff(init, present, fails);
    }
  }

  /** A spec that lands is uploaded and adds its chmod line. */
  lemma {:induction false} StageLands(uploads: seq<UploadSpec>, i: nat, present: string -> bool, fails: (string, string) -> bool,
                   landed: seq<UploadSpec>, chmods: seq<string>)
    requires i < |uploads| && Stage(uploads[..i], present, fails) == Ok(Staged(landed, chmods))
    requires Lands(uploads[i], present, fails)
    ensures Stage(uploads[..i + 1], present, fails) == Ok(Staged(landed + [uploads[i]], chmods + ChmodFor(uploads[i])))
  {
    assert uploads[..i + 1][..i] == uploads[..i];
  }

  /** An optional spec that does not land is skipped. */
  lemma {:induction false} StageSkips(uploads: seq<UploadSpec>, i: nat, present: string -> bool, fails: (string, string) -> bool,
                   staged: Staged)
    requires i < |uploads| && Stage(uploads[..i], present, fails) == Ok(staged)
    requires !Lands(uploads[i], present, fails) && IsOptional(uploads[i])
    ensures Stage(uploads[..i + 1], present, fails) == Ok(staged)
  {
    assert uploads[..i + 1][..i] == uploads[..i];
  }

  /** A required spec that does not land ends staging with its error. */
  lemma {:induction false} StageStops(uploads: seq<UploadSpec>, i: nat, present: string -> bool, fails: (string, string) -> bool)
    requires i < |uploads| && Stage(uploads[..i], present, fails).Ok?
    requires !Lands(uploads[i], present, fails) && !IsOptional(uploads[i])
    ensures Stage(uploads, present, fails) == Err(UploadError(uploads[i], present))
  {
    assert uploads[..i + 1][..i] == uploads[..i];
    StageErrExtends(uploads, i + 1, present, fails);
  }

  /** An error in staging a prefix is the error of staging the whole list. */
  lemma {:induction false} StageErrExtends(uploads: seq<UploadSpec>, n: nat,
                                           present: string -> bool, fails: (string, string) -> bool)
    requires n <= |uploads| && Stage(uploads[..n], present, fails).Err?
    ensures Stage(uploads, present, fails) == Stage(uploads[..n], present, fails)
    decreases |uploads| - n
  {
    if n < |uploads| {
      assert uploads[..n + 1][..n] == uploads[..n];
      StageErrExtends(uploads, n + 1, present, fails);
    } else {
      assert uploads[..n] == uploads;
    }
  }

  /** The landed specs are exactly the input specs that land. */
  lemma {:induction false} LandedMembers(uploads: seq<UploadSpec>, present: string -> bool,
                                         fails: (string, string) -> bool, u: UploadSpec)
    ensures u in Landed(uploads, present, fails) <==> u in uploads && Lands(u, present, fails)
    decreases |uploads|
  {
    if uploads != [] {
      var init := uploads[..|uploads| - 1];
      LandedMembers(init, present, fails, u);
      assert uploads == init + [uploads[|uploads| - 1]];
    }
  }

  /** A chmod line reaches the shell as exactly the three words `chmod`, mode, path. */
  lemma {:induction false} ChmodWords(mode: string, remote: string)
    ensures Shell.Words(ChmodCommand(mode, remote)) == Some(["chmod", mode, remote])
  {
    assert Shell.AllSafe("chmod");
    assert Shell.Quote("chmod") == "chmod";
    assert ChmodCommand(mode, remote) == Shell.QuoteArgs(["chmod", mode, remote]) by {
      assert ["chmod", mode, remote][1..] == [mode, remote];
      assert [mode, remote][1..] == [remote];
      assert Shell.QuoteArgs([remote]) == Shell.Quote(remote);
      assert Shell.QuoteArgs([mode, remote]) == Shell.Quote(mode) + " " + Shell.Quote(remote);
    }
    Shell.QuoteArgsWords(["chmod", mode, remote]);
  }

  /** Every chmod line sets the mode of an uploaded spec that has a mode. */
  lemma {:induction false} ChmodLinesFromSpecs(specs: seq<UploadSpec>, line: string)
    requires line in ChmodLines(specs)
    ensures exists u :: u in specs && u.mode.Some? && u.mode.value != ""
                        && Shell.Words(line) == Some(["chmod", u.mode.value, u.remote])
    decreases |specs|
  {
    var init := specs[..|specs| - 1];
    var u := specs[|specs| - 1];
    if line in ChmodLines(init) {
      ChmodLinesFromSpecs(init, line);
      var w :| w in init && w.mode.Some? && w.mode.value != ""
               && Shell.Words(line) == Some(["chmod", w.mode.value, w.remote]);
      assert w in specs;
    } else {
      ChmodWords(u.mode.value, u.remote);
    }
  }

  // ---------------------------------------------------------------------
  // The sandbox environment (`_build_env`)
  // ---------------------------------------------------------------------

  /** What `_build_env` reads from the launching process and from Metaflow's configuration. */
  datatype Host = Host(
    environ: map<string, string>,
    defaultMetadata: string,
    serviceInternalUrl: Option<string>,
    username: string,
    configValues: seq<(string, string)>)

  datatype CodePackage = CodePackage(metadata: string, sha: string, url: string, datastoreType: string)

  /** Configuration keys copied into the sandbox. */
  predicate IsForwardedConfigKey(k: string) {
    || StartsWith(k, "METAFLOW_DATASTORE_SYSROOT_") || StartsWith(k, "METAFLOW_DATATOOLS_")
    || StartsWith(k, "METAFLOW_S3") || StartsWith(k, "METAFLOW_CARD_S3")
    || StartsWith(k, "METAFLOW_CONDA") || StartsWith(k, "METAFLOW_SERVICE")
  }

  /** The fixed entries, the backend API keys and the service URL. */
  function BaseEnv(pkg: CodePackage, backendName: string, host: Host): map<string, string> {
    var core := map[
      "METAFLOW_CODE_METADATA" := pkg.metadata,
      "METAFLOW_CODE_SHA" := pkg.sha,
      "METAFLOW_CODE_URL" := pkg.url,
      "METAFLOW_CODE_DS" := pkg.datastoreType,
      "METAFLOW_USER" := host.username,
      "METAFLOW_DEFAULT_DATASTORE" := pkg.datastoreType,
      "METAFLOW_DEFAULT_METADATA" := if host.defaultMetadata == "service" then "local" else host.defaultMetadata,
      WorkloadVar := "1",
      BackendVar := backendName];
    var daytona := Getenv(host.environ, "DAYTONA_API_KEY", "");
    var e2b := Getenv(host.environ, "E2B_API_KEY", "");
    var withDaytona := if daytona != "" then core["METAFLOW_DAYTONA_API_KEY" := daytona] else core;
    var withE2b := if e2b != "" then withDaytona["METAFLOW_E2B_API_KEY" := e2b] else withDaytona;
    if host.serviceInternalUrl.Some? && host.serviceInternalUrl.value != "" then
      withE2b["METAFLOW_SERVICE_URL" := host.serviceInternalUrl.value]
    else withE2b
  }

  /** The value of the last pair with key `k`. */
  function LastValue(kvs: seq<(string, string)>, k: string): Option<string>
    decreases |kvs|
  {
    if kvs == [] then None
    else if kvs[|kvs| - 1].0 == k then Some(kvs[|kvs| - 1].1)
    else LastValue(kvs[..|kvs| - 1], k)
  }

  /** Copy the forwarded configuration pairs, in order. */
  function ApplyConfig(env: map<string, string>, kvs: seq<(string, string)>): map<string, string>
    decreases |kvs|
  {
    if kvs == [] then env
    else
      var prev := ApplyConfig(env, kvs[..|kvs| - 1]);
      var (k, v) := kvs[|kvs| - 1];
      if IsForwardedConfigKey(k) then prev[k := v] else prev
  }

  /** A credential is copied when set and non-empty, except a session token the endpoint rules out. */
  predicate Forwards(environ: map<string, string>, k: string, skipSessionToken: bool) {
    Getenv(environ, k, "") != "" && !(k == SessionToken && skipSessionToken)
  }

  function ApplyCredentials(env: map<string, string>, environ: map<string, string>,
                            vars: seq<string>, skipSessionToken: bool): map<string, string>
    decreases |vars|
  {
    if vars == [] then env
    else
      var prev := ApplyCredentials(env, environ, vars[..|vars| - 1], skipSessionToken);
      var k := vars[|vars| - 1];
      if Forwards(environ, k, skipSessionToken) then prev[k := environ[k]] else prev
  }

  /** Everything up to and including the caller's `sandbox_env`. */
  function LayeredEnv(pkg: CodePackage, backendName: string, host: Host, sandboxEnv: map<string, string>)
    : map<string, string>
  {
    var configured := ApplyConfig(BaseEnv(pkg, backendName, host), host.configValues);
    ApplyCredentials(configured, host.environ, ForwardedCredentialVars, SkipAwsSessionToken(host.environ))
      + sandboxEnv
  }

  /** The S3 endpoint: the sandbox's own when non-empty, else the launching process's. */
  function S3Endpoint(env: map<string, string>, environ: map<string, string>): Option<string> {
    if EndpointVar in env && env[EndpointVar] != "" then Some(env[EndpointVar]) else Lookup(environ, EndpointVar)
  }

  function WithWorkerCount(env: map<string, string>, environ: map<string, string>): map<string, string> {
    if WorkerCount !in env && IsCloudflareR2Endpoint(S3Endpoint(env, environ)) then
      env[WorkerCount := Getenv(environ, "METAFLOW_SANDBOX_R2_WORKER_COUNT", "8")]
    else env
  }

  predicate PrependsPath(prependPath: Option<string>) {
    prependPath.Some? && prependPath.value != ""
  }

  function WithPath(env: map<string, string>, environ: map<string, string>, prependPath: Option<string>)
    : map<string, string>
  {
    if PrependsPath(prependPath) then
      var basePath := if "PATH" in env && env["PATH"] != "" then env["PATH"] else Getenv(environ, "PATH", DefaultPath);
      env["PATH" := prependPath.value + ":" + basePath]
    else env
  }

  /** The environment `_build_env` hands to the sandbox. */
  function SandboxEnv(pkg: CodePackage, backendName: string, host: Host,
                      sandboxEnv: map<string, string>, prependPath: Option<string>): map<string, string>
  {
    WithPath(WithWorkerCount(LayeredEnv(pkg, backendName, host, sandboxEnv), host.environ), host.environ, prependPath)
  }

  /** The configuration loop of `_build_env`. */
  method CopyConfig(env0: map<string, string>, kvs: seq<(string, string)>) returns (env: map<string, string>)
    ensures env == ApplyConfig(env0, kvs)
  {
    env := env0;
    for i := 0 to |kvs|
      invariant env == ApplyConfig(env0, kvs[..i])
    {
      assert kvs[..i + 1][..i] == kvs[..i];
      var (k, v) := kvs[i];
      if IsForwardedConfigKey(k) {
        env := env[k := v];
      }
    }
    assert kvs[..|kvs|] == kvs;
  }

  /** The credential loop of `_build_env`. */
  method CopyCredentials(env0: map<string, string>, environ: map<string, string>,
                         vars: seq<string>, skip: bool) returns (env: map<string, string>)
    ensures env == ApplyCredentials(env0, environ, vars, skip)
  {
    env := env0;
    for i := 0 to |vars|
      invariant env == ApplyCredentials(env0, environ, vars[..i], skip)
    {
      assert vars[..i + 1][..i] == vars[..i];
      var k := vars[i];
      var val := Lookup(environ, k);
      if val.Some? && val.value != "" {
        if !(k == SessionToken && skip) {
          env := env[k := val.value];
        }
      }
    }
    assert vars[..|vars|] == vars;
  }

  /** `_build_env`, updating the map step by step. */
  method BuildEnv(pkg: CodePackage, backendName: string, host: Host,
                  sandboxEnv: map<string, string>, prependPath: Option<string>)
    returns (env: map<string, string>)
    ensures env == SandboxEnv(pkg, backendName, host, sandboxEnv, prependPath)
  {
    env := BaseEnv(pkg, backendName, host);
    env := CopyConfig(env, host.configValues);
    env := CopyCredentials(env, host.environ, ForwardedCredentialVars, SkipAwsSessionToken(host.environ));
    env := env + sandboxEnv;
    env := WithWorkerCount(env, host.environ);
    env := WithPath(env, host.environ, prependPath);
  }

  /** After the configuration layer a forwarded key holds its last configured value. */
  lemma {:induction false} ConfigLayer(env: map<string, string>, kvs: seq<(string, string)>, k: string)
    ensures Lookup(ApplyConfig(env, kvs), k)
            == if IsForwardedConfigKey(k) && LastValue(kvs, k).Some? then LastValue(kvs, k) else Lookup(env, k)
    decreases |kvs|
  {
    if kvs != [] {
      ConfigLayer(env, kvs[..|kvs| - 1], k);
    }
  }

  /** After the credential layer a forwarded credential holds the launching process's value. */
  lemma {:induction false} CredentialLayer(env: map<string, string>, environ: map<string, string>,
                                           vars: seq<string>, skip: bool, k: string)
    ensures Lookup(ApplyCredentials(env, environ, vars, skip), k)
            == if k in vars && Forwards(environ, k, skip) then Some(environ[k]) else Lookup(env, k)
    decreases |vars|
  {
    if vars != [] {
      var init := vars[..|vars| - 1];
      CredentialLayer(env, environ, init, skip, k);
      assert vars == init + [vars[|vars| - 1]];
    }
  }

  /** The entries `_build_env` starts from; all of them are METAFLOW_ names outside METAFLOW_S3. */
  const BaseEnvKeys: set<string> := {
    "METAFLOW_CODE_METADATA", "METAFLOW_CODE_SHA", "METAFLOW_CODE_URL", "METAFLOW_CODE_DS",
    "METAFLOW_USER", "METAFLOW_DEFAULT_DATASTORE", "METAFLOW_DEFAULT_METADATA", WorkloadVar,
    BackendVar, "METAFLOW_DAYTONA_API_KEY", "METAFLOW_E2B_API_KEY", "METAFLOW_SERVICE_URL"}

  lemma {:induction false} BaseEnvDomain(pkg: CodePackage, backendName: string, host: Host)
    ensures BaseEnv(pkg, backendName, host).Keys <= BaseEnvKeys
    ensures Lookup(BaseEnv(pkg, backendName, host), WorkloadVar) == Some("1")
    ensures Lookup(BaseEnv(pkg, backendName, host), BackendVar) == Some(backendName)
  {
  }

  lemma {:induction false} NotCredential(k: string)
    requires k != [] && (k[0] == 'M' || k[0] == 'P')
    ensures k !in ForwardedCredentialVars
  {
    assert forall i :: 0 <= i < |ForwardedCredentialVars| ==> ForwardedCredentialVars[i][0] != k[0];
  }

  lemma {:induction false} NotBaseKey(k: string)
    requires (k != [] && k[0] != 'M') || (|k| >= 11 && k[9] == 'S' && k[10] == '3')
    ensures k !in BaseEnvKeys
  {
  }

  lemma {:induction false} NotConfigKey(k: string)
    requires (k != [] && k[0] != 'M') || (|k| >= 11 && k[9] == 'S' && k[10] == 'A')
    ensures !IsForwardedConfigKey(k)
  {
    if |k| >= 11 && k[9] == 'S' && k[10] == 'A' {
      assert "METAFLOW_DATASTORE_SYSROOT_"[9] == 'D' && "METAFLOW_DATATOOLS_"[9] == 'D';
      assert "METAFLOW_S3"[10] == '3' && "METAFLOW_SERVICE"[10] == 'E';
      assert "METAFLOW_CARD_S3"[9] == 'C' && "METAFLOW_CONDA"[9] == 'C';
    }
  }

  /** Names that are neither starting entries nor configuration keys nor credentials. */
  lemma {:induction false} LateKeys()
    ensures WorkerCount !in BaseEnvKeys && EndpointVar !in BaseEnvKeys
    ensures "PATH" !in BaseEnvKeys && SessionToken !in BaseEnvKeys
    ensures WorkerCount !in ForwardedCredentialVars && EndpointVar !in ForwardedCredentialVars
    ensures "PATH" !in ForwardedCredentialVars && WorkloadVar !in ForwardedCredentialVars
    ensures !IsForwardedConfigKey("PATH") && !IsForwardedConfigKey(SessionToken)
    ensures !IsForwardedConfigKey(WorkloadVar)
    ensures SessionToken in ForwardedCredentialVars
  {
    NotBaseKey(WorkerCount);
    NotBaseKey(EndpointVar);
    NotBaseKey("PATH");
    NotBaseKey(SessionToken);
    NotCredential(WorkerCount);
    NotCredential(EndpointVar);
    NotCredential("PATH");
    NotCredential(WorkloadVar);
    NotConfigKey("PATH");
    NotConfigKey(SessionToken);
    NotConfigKey(WorkloadVar);
    assert ForwardedCredentialVars[2] == SessionToken;
  }

  /** Where each key of the layered environment comes from, latest layer first. */
  lemma {:induction false} LayeredLookup(pkg: CodePackage, backendName: string, host: Host, sandboxEnv: map<string, string>, k: string)
    ensures Lookup(LayeredEnv(pkg, backendName, host, sandboxEnv), k)
            == if k in sandboxEnv then Some(sandboxEnv[k])
               else if k in ForwardedCredentialVars && Forwards(host.environ, k, SkipAwsSessionToken(host.environ))
               then Some(host.environ[k])
               else if IsForwardedConfigKey(k) && LastValue(host.configValues, k).Some? then LastValue(host.configValues, k)
               else Lookup(BaseEnv(pkg, backendName, host), k)
  {
    var base := BaseEnv(pkg, backendName, host);
    ConfigLayer(base, host.configValues, k);
    CredentialLayer(ApplyConfig(base, host.configValues), host.environ, ForwardedCredentialVars,
                    SkipAwsSessionToken(host.environ), k);
  }

  /** The worker-count default and the PATH rewrite touch no other key. */
  lemma {:induction false} LateLayersKeep(layered: map<string, string>, environ: map<string, string>, prependPath: Option<string>, k: string)
    requires (k != WorkerCount || k in layered) && k != "PATH"
    ensures Lookup(WithPath(WithWorkerCount(layered, environ), environ, prependPath), k) == Lookup(layered, k)
  {
  }

  /** The caller's `sandbox_env` overrides every earlier entry; only PATH is rewritten after it. */
  lemma {:induction false} SandboxEnvWins(pkg: CodePackage, backendName: string, host: Host,
                       sandboxEnv: map<string, string>, prependPath: Option<string>, k: string)
    requires k in sandboxEnv && !(k == "PATH" && PrependsPath(prependPath))
    ensures Lookup(SandboxEnv(pkg, backendName, host, sandboxEnv, prependPath), k) == Some(sandboxEnv[k])
  {
    var layered := LayeredEnv(pkg, backendName, host, sandboxEnv);
    if k != "PATH" {
      LateLayersKeep(layered, host.environ, prependPath, k);
    }
  }

  /**
   * AWS_SESSION_TOKEN reaches the sandbox exactly when the launching process
   * has a non-empty one and the endpoint is not Cloudflare R2 without the
   * forwarding flag.
   */
  lemma {:induction false} SessionTokenRule(pkg: CodePackage, backendName: string, host: Host,
                         sandboxEnv: map<string, string>, prependPath: Option<string>)
    requires SessionToken !in sandboxEnv
    ensures Lookup(SandboxEnv(pkg, backendName, host, sandboxEnv, prependPath), SessionToken)
            == if Getenv(host.environ, SessionToken, "") != "" && !SkipAwsSessionToken(host.environ)
               then Some(host.environ[SessionToken]) else None
  {
    var layered := LayeredEnv(pkg, backendName, host, sandboxEnv);
    LateKeys();
    LayeredLookup(pkg, backendName, host, sandboxEnv, SessionToken);
    BaseEnvDomain(pkg, backendName, host);
    LateLayersKeep(layered, host.environ, prependPath, SessionToken);
  }

  /**
   * The endpoint the worker-count rule reads: the caller's `sandbox_env`
   * value when non-empty, else a non-empty one forwarded from the
   * configuration, else the launching process's.
   */
  lemma {:induction false} LayeredEndpoint(pkg: CodePackage, backendName: string, host: Host,
                                           sandboxEnv: map<string, string>)
    ensures S3Endpoint(LayeredEnv(pkg, backendName, host, sandboxEnv), host.environ)
            == if EndpointVar in sandboxEnv && sandboxEnv[EndpointVar] != "" then Some(sandboxEnv[EndpointVar])
               else if EndpointVar !in sandboxEnv && LastValue(host.configValues, EndpointVar).Some?
                       && LastValue(host.configValues, EndpointVar).value != ""
               then LastValue(host.configValues, EndpointVar)
               else Lookup(host.environ, EndpointVar)
  {
    LateKeys();
    BaseEnvDomain(pkg, backendName, host);
    assert EndpointVar[..11] == "METAFLOW_S3";
    assert IsForwardedConfigKey(EndpointVar);
    LayeredLookup(pkg, backendName, host, sandboxEnv, EndpointVar);
  }

  /**
   * A worker count from `sandbox_env` or the configuration is kept;
   * otherwise METAFLOW_S3_WORKER_COUNT is set exactly for an R2 endpoint
   * (see `LayeredEndpoint`), to METAFLOW_SANDBOX_R2_WORKER_COUNT or 8.
   */
  lemma {:induction false} WorkerCountRule(pkg: CodePackage, backendName: string, host: Host,
                        sandboxEnv: map<string, string>, prependPath: Option<string>)
    ensures Lookup(SandboxEnv(pkg, backendName, host, sandboxEnv, prependPath), WorkerCount)
            == if WorkerCount in sandboxEnv then Some(sandboxEnv[WorkerCount])
               else if LastValue(host.configValues, WorkerCount).Some? then LastValue(host.configValues, WorkerCount)
               else if IsCloudflareR2Endpoint(S3Endpoint(LayeredEnv(pkg, backendName, host, sandboxEnv), host.environ))
               then Some(Getenv(host.environ, "METAFLOW_SANDBOX_R2_WORKER_COUNT", "8")) else None
  {
    LateKeys();
    BaseEnvDomain(pkg, backendName, host);
    assert WorkerCount[..11] == "METAFLOW_S3";
    assert IsForwardedConfigKey(WorkerCount);
    LayeredLookup(pkg, backendName, host, sandboxEnv, WorkerCount);
  }

  /** With a prepend path, PATH is that path, a colon, then the sandbox's or the process's PATH or the default. */
  lemma {:induction false} PathRule(pkg: CodePackage, backendName: string, host: Host,
                 sandboxEnv: map<string, string>, prependPath: Option<string>)
    requires PrependsPath(prependPath)
    ensures Lookup(SandboxEnv(pkg, backendName, host, sandboxEnv, prependPath), "PATH")
            == Some(prependPath.value + ":"
                    + if "PATH" in sandboxEnv && sandboxEnv["PATH"] != "" then sandboxEnv["PATH"]
                      else Getenv(host.environ, "PATH", DefaultPath))
  {
    var layered := LayeredEnv(pkg, backendName, host, sandboxEnv);
    LateKeys();
    BaseEnvDomain(pkg, backendName, host);
    LayeredLookup(pkg, backendName, host, sandboxEnv, "PATH");
  }

  /**
   * Unless the caller overrides them, the sandbox is marked as a workload, so
   * the step does not redirect again, and names the backend it runs on.
   */
  lemma {:induction false} WorkloadMarker(pkg: CodePackage, backendName: string, host: Host,
                       sandboxEnv: map<string, string>, prependPath: Option<string>)
    ensures WorkloadVar !in sandboxEnv ==>
              Lookup(SandboxEnv(pkg, backendName, host, sandboxEnv, prependPath), WorkloadVar) == Some("1")
    ensures BackendVar !in sandboxEnv ==>
              Lookup(SandboxEnv(pkg, backendName, host, sandboxEnv, prependPath), BackendVar) == Some(backendName)
  {
    BaseEnvDomain(pkg, backendName, host);
    if WorkloadVar !in sandboxEnv {
      LateKeys();
      BaseEntryKept(pkg, backendName, host, sandboxEnv, prependPath, WorkloadVar);
    }
    if BackendVar !in sandboxEnv {
      BackendVarKept(pkg, backendName, host, sandboxEnv, prependPath);
    }
  }

  lemma {:induction false} BackendVarKept(pkg: CodePackage, backendName: string, host: Host,
                                          sandboxEnv: map<string, string>, prependPath: Option<string>)
    requires BackendVar !in sandboxEnv
    ensures Lookup(SandboxEnv(pkg, backendName, host, sandboxEnv, prependPath), BackendVar)
            == Lookup(BaseEnv(pkg, backendName, host), BackendVar)
  {
    NotCredential(BackendVar);
    NotConfigKey(BackendVar);
    BaseEntryKept(pkg, backendName, host, sandboxEnv, prependPath, BackendVar);
  }

  /** A starting entry that is neither forwarded nor rewritten later reaches the sandbox unless the caller overrides it. */
  lemma {:induction false} BaseEntryKept(pkg: CodePackage, backendName: string, host: Host,
                                         sandboxEnv: map<string, string>, prependPath: Option<string>, k: string)
    requires k !in sandboxEnv && k !in ForwardedCredentialVars && !IsForwardedConfigKey(k)
    requires k != WorkerCount && k != "PATH"
    ensures Lookup(SandboxEnv(pkg, backendName, host, sandboxEnv, prependPath), k) == Lookup(BaseEnv(pkg, backendName, host), k)
  {
    var layered := LayeredEnv(pkg, backendName, host, sandboxEnv);
    LayeredLookup(pkg, backendName, host, sandboxEnv, k);
    LateLayersKeep(layered, host.environ, prependPath, k);
  }

  // ---------------------------------------------------------------------
  // The step script (`_command`)
  // ---------------------------------------------------------------------

  const OldPackageDir := "mkdir metaflow && cd metaflow"
  const NewPackageDir := "mkdir mf_sandbox && cd mf_sandbox"

  /** Python's `str.replace(pat, rep)`: every non-overlapping occurrence, left to right. */
  function ReplaceAll(s: string, pat: string, rep: string): string
    requires pat != []
    decreases |s|
  {
    if |s| < |pat| then s
    else if s[..|pat|] == pat then rep + ReplaceAll(s[|pat|..], pat, rep)
    else [s[0]] + ReplaceAll(s[1..], pat, rep)
  }

  /** A command without the pattern passes through unchanged. */
  lemma {:induction false} ReplaceAllAbsent(s: string, pat: string, rep: string)
    requires pat != [] && !Contains(s, pat)
    ensures ReplaceAll(s, pat, rep) == s
    decreases |s|
  {
    if |s| >= |pat| {
      assert !StartsWith(s, pat);
      ReplaceAllAbsent(s[1..], pat, rep);
      assert [s[0]] + s[1..] == s;
    }
  }

  /** An occurrence of the pattern at the front is rewritten, and the rest is processed after it. */
  lemma {:induction false} ReplaceAllFront(pat: string, rep: string, rest: string)
    requires pat != []
    ensures ReplaceAll(pat + rest, pat, rep) == rep + ReplaceAll(rest, pat, rep)
  {
    var s := pat + rest;
    assert s[..|pat|] == pat && s[|pat|..] == rest;
  }

  /**
   * The `shlex` pass of `_command`: `shlex.split('bash -c "<script>"')[-1]`.
   * A bare `"` in the script closes the quoting early and the rest goes on as
   * further words, of which only the last is kept; None where `shlex` raises
   * (quoting left open, or a trailing backslash).
   */
  function ShlexPass(script: string): Option<string> {
    match Shell.Split("bash -c \"" + script + "\"")
    case None => None
    case Some(ws) => if ws == [] then None else Some(ws[|ws| - 1])
  }

  /** Text escaped for a double-quoted word comes back verbatim from the `shlex` pass. */
  lemma {:induction false} ShlexPassEscaped(s: string)
    ensures ShlexPass(Shell.EscapeDouble(s)) == Some(s)
  {
    Shell.SplitBashC(s);
  }

  lemma {:induction false} EscapePlain(s: string)
    requires forall k :: 0 <= k < |s| ==> s[k] != '\\' && s[k] != '"'
    ensures Shell.EscapeDouble(s) == s
    decreases |s|
  {
    if s != [] {
      EscapePlain(s[1..]);
      assert [s[0]] + s[1..] == s;
    }
  }

  /** A script with no backslash and no double quote is not changed by the `shlex` pass. */
  lemma {:induction false} ShlexPassPlain(s: string)
    requires forall k :: 0 <= k < |s| ==> s[k] != '\\' && s[k] != '"'
    ensures ShlexPass(s) == Some(s)
  {
    EscapePlain(s);
    ShlexPassEscaped(s);
  }

  /**
   * A bare `"` between two escaped pieces is not an error: the script splits
   * there and only the piece after the quote is run.
   */
  lemma {:induction false} ShlexPassBareQuoteSplits(x: string, y: string)
    ensures ShlexPass(Shell.EscapeDouble(x) + "\" \"" + Shell.EscapeDouble(y)) == Some(y)
  {
    var script := Shell.EscapeDouble(x) + "\" \"" + Shell.EscapeDouble(y);
    assert "bash -c \"" + script + "\""
           == "bash -c \"" + Shell.EscapeDouble(x) + "\" \"" + Shell.EscapeDouble(y) + "\"";
    Shell.SplitBashCPair(x, y);
  }

  /** Example beside `ShlexPassBareQuoteSplits`: for the script `a" "b` only the last word, `b`, is run. */
  lemma {:induction false} ShlexPassBareQuote()
    ensures ShlexPass("a\" \"b") == Some("b")
  {
    var script := "bash -c \"" + "a\" \"b" + "\"";
    assert script == "bash -c \"a\" \"b\"";
    Shell.SplitBareQuote(script);
  }

  /**
   * The script `_command` builds, before and after the `shlex` pass. The
   * mflog export, the package and bootstrap commands, the log-capture
   * wrapper and the log-saving command come from Metaflow and are inputs;
   * the package directory is renamed only when Metaflow's own package
   * commands are used (`renamePackageDir`).
   */
  function ScriptSkeleton(mflogExpr: string, initCmds: seq<string>, renamePackageDir: bool,
                          bootstrapCmds: seq<string>, stepCmds: seq<string>,
                          captureLogs: string -> string, saveLogs: string): (script: string)
    ensures StartsWith(script, "true && mkdir -p " + LogsDir + " && " + mflogExpr + " && ")
    ensures |script| >= 9 && script[|script| - 9..] == "; exit $c"
  {
    var init := if renamePackageDir
                then seq(|initCmds|, i requires 0 <= i < |initCmds| => ReplaceAll(initCmds[i], OldPackageDir, NewPackageDir))
                else initCmds;
    var prefix := "true && mkdir -p " + LogsDir + " && " + mflogExpr + " && ";
    var script := prefix + Join(init, " && ") + " && " + captureLogs(Join(bootstrapCmds + stepCmds, " && "))
                  + "; c=$?; " + saveLogs + "; exit $c";
    assert script[..|prefix|] == prefix;
    script
  }

  function CommandScript(mflogExpr: string, initCmds: seq<string>, renamePackageDir: bool,
                         bootstrapCmds: seq<string>, stepCmds: seq<string>,
                         captureLogs: string -> string, saveLogs: string): Option<string>
  {
    ShlexPass(ScriptSkeleton(mflogExpr, initCmds, renamePackageDir, bootstrapCmds, stepCmds,
                             captureLogs, saveLogs))
  }

  /** What Metaflow contributes to the step command; see `ScriptSkeleton`. */
  datatype CommandParts = CommandParts(
    mflogExpr: string,
    initCmds: seq<string>,
    renamePackageDir: bool,
    bootstrapCmds: seq<string>,
    stepCmds: seq<string>,
    captureLogs: string -> string,
    saveLogs: string)

  /** `_command`: None when the `shlex` pass raises (quoting left open or a trailing backslash). */
  function BuildCommand(parts: CommandParts): Option<string> {
    CommandScript(parts.mflogExpr, parts.initCmds, parts.renamePackageDir, parts.bootstrapCmds, parts.stepCmds,
                  parts.captureLogs, parts.saveLogs)
  }

  /** A skeleton escaped the way Metaflow escapes its commands comes back verbatim from the `shlex` pass. */
  lemma {:induction false} CommandScriptRoundTrip(mflogExpr: string, initCmds: seq<string>, renamePackageDir: bool,
                               bootstrapCmds: seq<string>, stepCmds: seq<string>,
                               captureLogs: string -> string, saveLogs: string, intended: string)
    requires ScriptSkeleton(mflogExpr, initCmds, renamePackageDir, bootstrapCmds, stepCmds, captureLogs, saveLogs)
             == Shell.EscapeDouble(intended)
    ensures CommandScript(mflogExpr, initCmds, renamePackageDir, bootstrapCmds, stepCmds, captureLogs, saveLogs)
            == Some(intended)
  {
    ShlexPassEscaped(intended);
  }

  // ---------------------------------------------------------------------
  // The command run in each attempt
  // ---------------------------------------------------------------------

  function PathExport(): (s: string)
    ensures s == "export PATH=/tmp/metaflow-sandbox/bin:$PATH"
  {
    StagingBinDirSafe();
    assert Shell.Quote(StagingBinDir) == StagingBinDir;
    "export PATH=" + Shell.Quote(StagingBinDir) + ":$PATH"
  }

  /** `shlex.quote` leaves the staging directory bare. */
  lemma {:induction false} StagingBinDirSafe()
    ensures Shell.AllSafe(StagingBinDir)
  {
    assert Shell.AllSafe("/tmp/");
    assert Shell.AllSafe("metaflow-");
    assert Shell.AllSafe("sandbox");
    assert Shell.AllSafe("/bin");
    Shell.AllSafeAppend("/tmp/", "metaflow-");
    Shell.AllSafeAppend("/tmp/" + "metaflow-", "sandbox");
    Shell.AllSafeAppend("/tmp/" + "metaflow-" + "sandbox", "/bin");
    assert StagingBinDir == "/tmp/" + "metaflow-" + "sandbox" + "/bin";
  }

  /** The PATH export (when the bin directory is prepended) and the chmod lines, each followed by ` && `. */
  function SetupPrefix(prependBinDir: bool, chmods: seq<string>): string {
    var parts := (if prependBinDir then [PathExport()] else []) + chmods;
    var joined := Join(parts, " && ");
    if joined != "" then joined + " && " else ""
  }

  /** The shell word that exports the sandbox handle. */
  function HandleAssignment(handle: string): string {
    "METAFLOW_SANDBOX_ID=" + Shell.Quote(handle)
  }

  function RunCommand(handle: string, prependBinDir: bool, chmods: seq<string>, command: string): string {
    "export " + HandleAssignment(handle) + " && " + SetupPrefix(prependBinDir, chmods) + command
  }

  /** The shell reads the assignment back as `METAFLOW_SANDBOX_ID=<handle>` whatever characters the handle holds. */
  lemma {:induction false} HandleAssignmentReadsBack(handle: string, rest: string)
    requires Shell.EndsWord(rest)
    ensures Shell.ReadWord(HandleAssignment(handle) + rest)
            == Some(("METAFLOW_SANDBOX_ID=" + handle, |HandleAssignment(handle)|))
  {
    var name, q := "METAFLOW_SANDBOX_ID=", Shell.Quote(handle);
    assert Shell.AllSafe(name);
    Shell.QuoteReadsBack(handle, rest);
    Shell.SafePrefixReads(name, q + rest, handle, |q|);
    assert HandleAssignment(handle) + rest == name + (q + rest);
  }

  /**
   * The run command first exports the sandbox handle, as one shell word
   * holding exactly that handle, and it ends with the step script unchanged.
   */
  lemma {:induction false} RunCommandExportsHandle(handle: string, prependBinDir: bool, chmods: seq<string>, command: string)
    ensures var s := RunCommand(handle, prependBinDir, chmods, command);
            && StartsWith(s, "export ")
            && Shell.ReadWord(s[7..])
               == Some(("METAFLOW_SANDBOX_ID=" + handle, |HandleAssignment(handle)|))
            && |command| <= |s| && s[|s| - |command|..] == command
  {
    var w, setup := HandleAssignment(handle), SetupPrefix(prependBinDir, chmods);
    var rest := " && " + setup + command;
    var front := "export " + w + " && " + setup;
    Associative("export " + w, " && ", setup);
    Associative("export " + w, " && " + setup, command);
    Associative("export ", w, rest);
    assert RunCommand(handle, prependBinDir, chmods, command) == front + command == "export " + (w + rest);
    Pieces("export ", w + rest);
    Pieces(front, command);
    HandleAssignmentReadsBack(handle, rest);
  }

  /** With nothing staged and no PATH change, the handle export leads straight into the script. */
  lemma {:induction false} RunCommandWithoutSetup(handle: string, command: string)
    ensures RunCommand(handle, false, [], command) == "export " + HandleAssignment(handle) + " && " + command
  {
    assert Join([], " && ") == "";
  }

  // ---------------------------------------------------------------------
  // Infrastructure retries
  // ---------------------------------------------------------------------

  /**
   * The number of attempts the launch loop makes from attempt `k` on, when
   * the j-th execution answers `respond(base + j)`: it stops after the first
   * attempt whose result is not a hard -1, or after the last allowed attempt.
   */
  function RetryFrom(respond: nat -> ExecResult, base: nat, attempts: nat, hard: ExecResult -> bool, k: nat)
    : (n: nat)
    requires k < attempts
    ensures k < n <= attempts
    ensures forall i :: base + k <= i < base + n - 1 ==> hard(respond(i))
    ensures n < attempts ==> !hard(respond(base + n - 1))
    decreases attempts - k
  {
    if !hard(respond(base + k)) || k == attempts - 1 then k + 1
    else RetryFrom(respond, base, attempts, hard, k + 1)
  }

  function RetryAttempts(respond: nat -> ExecResult, base: nat, attempts: nat, hard: ExecResult -> bool): (n: nat)
    requires attempts >= 1
    ensures 1 <= n <= attempts
    ensures forall i :: base <= i < base + n - 1 ==> hard(respond(i))
    ensures n < attempts ==> !hard(respond(base + n - 1))
  {
    RetryFrom(respond, base, attempts, hard, 0)
  }

  /** The attempt count is the only one consistent with the loop's stopping rule. */
  lemma {:induction false} RetryAttemptsUnique(respond: nat -> ExecResult, base: nat, attempts: nat, hard: ExecResult -> bool, m: nat)
    requires 1 <= m <= attempts
    requires forall i :: base <= i < base + m - 1 ==> hard(respond(i))
    requires !hard(respond(base + m - 1)) || m == attempts
    ensures RetryAttempts(respond, base, attempts, hard) == m
  {
    var n := RetryAttempts(respond, base, attempts, hard);
    // The last attempt of each count is the witness that the other count stops too early or too late.
    var lastOfN, lastOfM := respond(base + n - 1), respond(base + m - 1);
  }

  /** Attempts that all ended in a hard -1 before the last allowed one are followed by another. */
  lemma {:induction false} RetryAttemptsExceed(respond: nat -> ExecResult, base: nat, attempts: nat, hard: ExecResult -> bool, k: nat)
    requires k < attempts
    requires forall i :: base <= i < base + k ==> hard(respond(i))
    ensures RetryAttempts(respond, base, attempts, hard) > k
  {
    var n := RetryAttempts(respond, base, attempts, hard);
    var last := respond(base + n - 1);
  }

  /** Infrastructure failures on every attempt use up the whole budget, and no more. */
  lemma {:induction false} AllHardExhaustsBudget(respond: nat -> ExecResult, base: nat, attempts: nat, hard: ExecResult -> bool)
    requires attempts >= 1
    requires forall i :: base <= i < base + attempts ==> hard(respond(i))
    ensures RetryAttempts(respond, base, attempts, hard) == attempts
  {
    RetryAttemptsExceed(respond, base, attempts, hard, attempts - 1);
  }

  /**
   * Example (one concrete run, beside the general `RetryFrom`): two hard -1
   * results followed by a success, with two infrastructure retries allowed:
   * three sandboxes are created and the third result is kept.
   */
  lemma {:induction false} RecoversAfterTwoHardFailures(hard: ExecResult -> bool)
    requires hard(ExecResult(-1, "", "")) && !hard(ExecResult(0, "ok\n", ""))
    ensures var respond := (i: nat) => if i < 2 then ExecResult(-1, "", "") else ExecResult(0, "ok\n", "");
            && RetryAttempts(respond, 0, 3, hard) == 3
            && respond(RetryAttempts(respond, 0, 3, hard) - 1).Ok()
  {
    var respond := (i: nat) => if i < 2 then ExecResult(-1, "", "") else ExecResult(0, "ok\n", "");
    RetryAttemptsUnique(respond, 0, 3, hard, 3);
  }

  /** `max(1, int(METAFLOW_SANDBOX_MAX_INFRA_RETRIES) + 1)`, the retry count defaulting to 1. */
  function AttemptBudget(environ: map<string, string>): (r: Result<nat, Error>)
    ensures r.Ok? ==> r.value >= 1
    ensures var text := Getenv(environ, "METAFLOW_SANDBOX_MAX_INFRA_RETRIES", "1");
            && (r.Ok? <==> ParseInt(text).Some?)
            && (r.Err? ==> r.error == InfraRetriesNotInt(text))
  {
    var text := Getenv(environ, "METAFLOW_SANDBOX_MAX_INFRA_RETRIES", "1");
    match ParseInt(text)
    case None => Err(InfraRetriesNotInt(text))
    case Some(n) => Ok(if n + 1 < 1 then 1 else n + 1)
  }

  /** A retry count written in decimal allows that many re-creations after the first attempt; a negative one, none. */
  lemma {:induction false} AttemptBudgetFromRetries(environ: map<string, string>, n: int)
    requires Getenv(environ, "METAFLOW_SANDBOX_MAX_INFRA_RETRIES", "1") == IntToDecimal(n)
    ensures AttemptBudget(environ) == Ok(if n < 0 then 1 else n + 1)
  {
    IntRoundTrip(n);
  }

  lemma {:induction false} DefaultAttemptBudget(environ: map<string, string>)
    requires "METAFLOW_SANDBOX_MAX_INFRA_RETRIES" !in environ
    ensures AttemptBudget(environ) == Ok(2)
  {
    assert IntToDecimal(1) == "1";
    AttemptBudgetFromRetries(environ, 1);
  }

}
