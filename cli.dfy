/**
 * The data shaping done by the `sandbox step` command before it hands the
 * step to the executor: long input paths split into environment variables,
 * the `--env-var` items parsed, the step's environment layered, backend API
 * keys given their fallbacks and exported to the launching process.
 */
module Cli {
  import opened Wrappers
  import opened Text
  import opened PyDict
  import opened Process
  import Decorator

  // ---------------------------------------------------------------------
  // Splitting `input_paths` into environment variables
  // ---------------------------------------------------------------------

  /** The largest chunk of `input_paths` put in one variable: 30 KiB, `30 * 1024`. */
  const MaxChunk: nat := 30720

  const InputPathsPrefix := "METAFLOW_INPUT_PATHS_"

  /** The variable holding chunk `j`. */
  function ChunkKey(j: nat): string {
    InputPathsPrefix + NatToDecimal(j)
  }

  /** `len(range(0, n, MaxChunk))`. */
  function ChunkCount(n: nat): nat {
    (n + MaxChunk - 1) / MaxChunk
  }

  function Min(a: int, b: int): int {
    if a <= b then a else b
  }

  /**
   * `split_vars`: for each `i` in `range(0, len(s), MaxChunk)`, the key for
   * `i // MaxChunk` and the slice `s[i:i + MaxChunk]`.
   */
  function SplitVars(s: string): (d: seq<(string, string)>)
    ensures |d| == ChunkCount(|s|)
  {
    seq(ChunkCount(|s|), j requires 0 <= j < ChunkCount(|s|) =>
      (ChunkKey(j), s[j * MaxChunk..Min((j + 1) * MaxChunk, |s|)]))
  }

  /** The chunks as a list, in key order. */
  function Chunks(d: seq<(string, string)>): seq<string> {
    seq(|d|, j requires 0 <= j < |d| => d[j].1)
  }

  /** `ChunkCount(n)` is the least number of 30 KiB chunks that cover `n` characters. */
  lemma {:induction false} ChunkCountBounds(n: nat)
    ensures ChunkCount(n) * MaxChunk >= n
    ensures ChunkCount(n) > 0 ==> (ChunkCount(n) - 1) * MaxChunk < n
    ensures ChunkCount(n) == 0 <==> n == 0
  {
  }

  /** Chunks `j..` rejoin to the rest of the string from chunk `j`'s start. */
  lemma {:induction false} ChunksRejoinFrom(s: string, j: nat)
    requires j <= ChunkCount(|s|)
    ensures Concat(Chunks(SplitVars(s))[j..]) == if j == ChunkCount(|s|) then "" else s[j * MaxChunk..]
    decreases ChunkCount(|s|) - j
  {
    var cs := Chunks(SplitVars(s));
    var n := ChunkCount(|s|);
    ChunkCountBounds(|s|);
    if j == n {
      assert cs[j..] == [];
    } else {
      ChunksRejoinFrom(s, j + 1);
      assert cs[j..][1..] == cs[j + 1..];
      var stop := Min((j + 1) * MaxChunk, |s|);
      assert cs[j] == s[j * MaxChunk..stop];
      if j + 1 == n {
        assert stop == |s|;
        assert s[j * MaxChunk..] == s[j * MaxChunk..stop];
      } else {
        assert stop == (j + 1) * MaxChunk;
        assert s[j * MaxChunk..] == s[j * MaxChunk..stop] + s[stop..];
      }
    }
  }

  /** The chunks, in key order, rejoin to the original string; there are none only for the empty string. */
  lemma {:induction false} SplitVarsRejoin(s: string)
    ensures Concat(Chunks(SplitVars(s))) == s
    ensures s == "" <==> SplitVars(s) == []
  {
    ChunkCountBounds(|s|);
    ChunksRejoinFrom(s, 0);
    assert Chunks(SplitVars(s))[0..] == Chunks(SplitVars(s));
  }

  /** Each chunk holds at most 30 KiB, and every one but the last exactly 30 KiB. */
  lemma {:induction false} SplitVarsSizes(s: string, j: nat)
    requires j < |SplitVars(s)|
    ensures 0 < |SplitVars(s)[j].1| <= MaxChunk
    ensures j < |SplitVars(s)| - 1 ==> |SplitVars(s)[j].1| == MaxChunk
  {
    var n := ChunkCount(|s|);
    ChunkCountBounds(|s|);
    assert j * MaxChunk <= (n - 1) * MaxChunk < |s|;
    assert SplitVars(s)[j].1 == s[j * MaxChunk..Min((j + 1) * MaxChunk, |s|)];
    if j < n - 1 {
      assert (j + 1) * MaxChunk <= (n - 1) * MaxChunk;
    }
  }

  /** The keys are `METAFLOW_INPUT_PATHS_0` onwards, in order, so no two collide. */
  lemma {:induction false} SplitVarsKeys(s: string)
    ensures forall j :: 0 <= j < |SplitVars(s)| ==> SplitVars(s)[j].0 == ChunkKey(j)
    ensures DistinctKeys(SplitVars(s))
  {
    var d := SplitVars(s);
    forall i, j | 0 <= i < j < |d|
      ensures d[i].0 != d[j].0
    {
      if d[i].0 == d[j].0 {
        assert NatToDecimal(i) == d[i].0[|InputPathsPrefix|..];
        assert NatToDecimal(j) == d[j].0[|InputPathsPrefix|..];
        DecimalInjective(i, j);
      }
    }
  }

  /** `"".join(f"${{{k}}}" for k in names)`. */
  function Refs(names: seq<string>): string {
    if names == [] then "" else "${" + names[0] + "}" + Refs(names[1..])
  }

  /** The rewritten `--input-paths`: one reference per split variable, in key order. */
  function InputPathRefs(d: seq<(string, string)>): string {
    Refs(Keys(d))
  }

  /** The index of the first `c` in `s`, or `|s|` when there is none. */
  function IndexOf(s: string, c: char): (i: nat)
    ensures i <= |s|
    ensures i < |s| ==> s[i] == c
    ensures forall k :: 0 <= k < i ==> s[k] != c
  {
    if s == [] then 0 else if s[0] == c then 0 else 1 + IndexOf(s[1..], c)
  }

  /** In `p + [c] + rest` with no `c` in `p`, the first `c` is the one after `p`. */
  lemma {:induction false} IndexOfAfter(p: string, c: char, rest: string)
    requires c !in p
    ensures IndexOf(p + [c] + rest, c) == |p|
  {
    var s := p + [c] + rest;
    assert s[|p|] == c;
    assert forall k :: 0 <= k < |p| ==> s[k] == p[k];
  }

  /**
   * How the shell inside the sandbox expands a string made only of
   * `${NAME}` references; None for anything else or an unset name.
   */
  function Expand(t: string, env: map<string, string>): Option<string>
    decreases |t|
  {
    if t == "" then Some("")
    else if |t| < 2 || t[0] != '$' || t[1] != '{' then None
    else
      var close := IndexOf(t[2..], '}');
      if close == |t| - 2 || t[2..2 + close] !in env then None
      else
        match Expand(t[3 + close..], env)
        case None => None
        case Some(rest) => Some(env[t[2..2 + close]] + rest)
  }

  lemma {:induction false} ExpandOne(name: string, rest: string, env: map<string, string>)
    requires '}' !in name && name in env
    ensures Expand("${" + name + "}" + rest, env)
            == match Expand(rest, env) case None => None case Some(r) => Some(env[name] + r)
  {
    var t := "${" + name + "}" + rest;
    assert t[2..] == name + "}" + rest;
    IndexOfAfter(name, '}', rest);
    assert t[2..2 + |name|] == name;
    assert t[3 + |name|..] == rest;
  }

  /** Expanding a list of references gives the referenced values, joined in order. */
  lemma {:induction false} ExpandRefs(names: seq<string>, env: map<string, string>)
    requires forall j :: 0 <= j < |names| ==> '}' !in names[j] && names[j] in env
    ensures Expand(Refs(names), env) == Some(Concat(seq(|names|, j requires 0 <= j < |names| => env[names[j]])))
    decreases |names|
  {
    if names != [] {
      var vals := seq(|names|, j requires 0 <= j < |names| => env[names[j]]);
      var rest := Refs(names[1..]);
      ExpandRefs(names[1..], env);
      assert vals[1..] == seq(|names[1..]|, j requires 0 <= j < |names[1..]| => env[names[1..][j]]);
      assert Expand(rest, env) == Some(Concat(vals[1..]));
      assert Refs(names) == "${" + names[0] + "}" + rest;
      ExpandOne(names[0], rest, env);
      assert Concat(vals) == env[names[0]] + Concat(vals[1..]);
    }
  }

  lemma {:induction false} ChunkKeyNoBrace(j: nat)
    ensures '}' !in ChunkKey(j)
  {
    var key := ChunkKey(j);
    assert forall k :: 0 <= k < |InputPathsPrefix| ==> key[k] == InputPathsPrefix[k] != '}';
    assert forall k :: |InputPathsPrefix| <= k < |key| ==> key[k] == NatToDecimal(j)[k - |InputPathsPrefix|];
  }

  /**
   * The rewritten `--input-paths`, expanded in the sandbox with the split
   * variables in its environment, gives back the original input paths.
   */
  lemma {:induction false} InputPathsRoundTrip(s: string)
    ensures Expand(InputPathRefs(SplitVars(s)), ToMap(SplitVars(s))) == Some(s)
  {
    var d := SplitVars(s);
    var env := ToMap(d);
    SplitVarsKeys(s);
    forall j | 0 <= j < |d|
      ensures '}' !in d[j].0 && d[j].0 in env && env[d[j].0] == d[j].1
    {
      ChunkKeyNoBrace(j);
      ToMapGet(d, d[j].0);
      GetFinds(d, d[j].0);
    }
    var names := Keys(d);
    ExpandRefs(names, env);
    assert seq(|names|, j requires 0 <= j < |names| => env[names[j]]) == Chunks(d);
    SplitVarsRejoin(s);
  }

  // ---------------------------------------------------------------------
  // `--env-var KEY=VALUE` items
  // ---------------------------------------------------------------------

  /** `item.partition("=")` without the separator. */
  function Partition(item: string): (string, string) {
    var i := IndexOf(item, '=');
    if i == |item| then (item, "") else (item[..i], item[i + 1..])
  }

  /** The key is everything before the first `=`; with an `=`, key, `=` and value rejoin to the item. */
  lemma {:induction false} PartitionRejoin(item: string)
    ensures '=' !in Partition(item).0
    ensures '=' in item ==> Partition(item).0 + "=" + Partition(item).1 == item
    ensures '=' !in item ==> Partition(item) == (item, "")
  {
    var i := IndexOf(item, '=');
    if i < |item| {
      assert item == item[..i] + "=" + item[i + 1..];
    }
  }

  /** An item printed as `KEY=VALUE` from a key without `=` splits back into that key and value. */
  lemma {:induction false} PartitionJoin(key: string, value: string)
    requires '=' !in key
    ensures Partition(key + "=" + value) == (key, value)
  {
    var item := key + "=" + value;
    IndexOfAfter(key, '=', value);
    assert item[..|key|] == key && item[|key| + 1..] == value;
  }

  /** Each `--env-var` item split at its first `=`. */
  function Parsed(items: seq<string>): (kvs: seq<(string, string)>)
    ensures |kvs| == |items|
  {
    seq(|items|, i requires 0 <= i < |items| => Partition(items[i]))
  }

  /** `env[key] = value` for each parsed item with a non-empty key, in order. */
  function Assign(env: map<string, string>, kvs: seq<(string, string)>): map<string, string>
  {
    if kvs == [] then env
    else
      var e := Assign(env, kvs[..|kvs| - 1]);
      var kv := kvs[|kvs| - 1];
      if kv.0 != "" then e[kv.0 := kv.1] else e
  }

  /** The `--env-var` loop of `step`. */
  function ApplyEnvVars(env: map<string, string>, items: seq<string>): map<string, string> {
    Assign(env, Parsed(items))
  }

  /** A key named by some item holds the value of the last item that names it. */
  lemma {:induction false} EnvVarLastWins(env: map<string, string>, kvs: seq<(string, string)>, i: nat, key: string)
    requires i < |kvs| && kvs[i].0 == key != ""
    requires forall j :: i < j < |kvs| ==> kvs[j].0 != key
    ensures Lookup(Assign(env, kvs), key) == Some(kvs[i].1)
    decreases |kvs|
  {
    var n := |kvs| - 1;
    var init, last := kvs[..n], kvs[n];
    var e := Assign(env, init);
    assert Assign(env, kvs) == if last.0 != "" then e[last.0 := last.1] else e;
    if i < n {
      assert forall j :: i < j < n ==> init[j] == kvs[j];
      EnvVarLastWins(env, init, i, key);
    }
  }

  /** Items with an empty key are ignored, and a key no item names keeps its earlier value. */
  lemma {:induction false} EnvVarUnnamed(env: map<string, string>, kvs: seq<(string, string)>, key: string)
    requires key == "" || forall i :: 0 <= i < |kvs| ==> kvs[i].0 != key
    ensures Lookup(Assign(env, kvs), key) == Lookup(env, key)
    decreases |kvs|
  {
    if kvs != [] {
      var n := |kvs| - 1;
      var init, last := kvs[..n], kvs[n];
      var e := Assign(env, init);
      assert Assign(env, kvs) == if last.0 != "" then e[last.0 := last.1] else e;
      assert forall i :: 0 <= i < n ==> init[i] == kvs[i];
      EnvVarUnnamed(env, init, key);
    }
  }

  /** The items the decorator prints, `KEY=VALUE` with keys free of `=`, parse back into the same pairs. */
  lemma {:induction false} ParsedEnvVarItems(d: seq<(string, string)>)
    requires forall j :: 0 <= j < |d| ==> '=' !in d[j].0
    ensures Parsed(Decorator.EnvVarItems(d)) == d
  {
    var items := Decorator.EnvVarItems(d);
    forall j | 0 <= j < |d|
      ensures Parsed(items)[j] == d[j]
    {
      PartitionJoin(d[j].0, d[j].1);
    }
  }

  /** Assigning the pairs of a dict with non-empty keys lays that dict over `env`. */
  lemma {:induction false} AssignDict(env: map<string, string>, d: seq<(string, string)>)
    requires forall j :: 0 <= j < |d| ==> d[j].0 != ""
    ensures Assign(env, d) == env + ToMap(d)
    decreases |d|
  {
    if d == [] {
      assert env + map[] == env;
    } else {
      var init, last := d[..|d| - 1], d[|d| - 1];
      AssignDict(env, init);
      assert (env + ToMap(init))[last.0 := last.1] == env + ToMap(init)[last.0 := last.1];
    }
  }

  /**
   * Parsing the items the decorator prints for a user env gives back that
   * env, as long as no key is empty or holds `=`.
   */
  lemma {:induction false} EnvVarItemsRoundTrip(env: map<string, string>, d: seq<(string, string)>)
    requires forall j :: 0 <= j < |d| ==> d[j].0 != "" && '=' !in d[j].0
    ensures ApplyEnvVars(env, Decorator.EnvVarItems(d)) == env + ToMap(d)
  {
    ParsedEnvVarItems(d);
    AssignDict(env, d);
  }

  // ---------------------------------------------------------------------
  // The step's environment
  // ---------------------------------------------------------------------

  const FlowFilenameVar := "METAFLOW_FLOW_FILENAME"

  /**
   * The env layers in order: the flow file name, the vars of the step's
   * first `@environment` decorator, the split input paths, then the
   * `--env-var` items.
   */
  function LayeredEnv(flowFile: string, environmentVars: Option<map<string, string>>, inputPaths: string,
                      items: seq<string>): map<string, string>
  {
    var base := map[FlowFilenameVar := flowFile];
    var withDeco := if environmentVars.Some? then base + environmentVars.value else base;
    var withSplit := if inputPaths != "" then withDeco + ToMap(SplitVars(inputPaths)) else withDeco;
    ApplyEnvVars(withSplit, items)
  }

  /** What a key holds before the `--env-var` items: each layer overrides the ones before it. */
  function BelowUser(flowFile: string, environmentVars: Option<map<string, string>>, inputPaths: string, key: string)
    : Option<string>
  {
    var split := ToMap(SplitVars(inputPaths));
    if inputPaths != "" && key in split then Some(split[key])
    else if environmentVars.Some? && key in environmentVars.value then Some(environmentVars.value[key])
    else if key == FlowFilenameVar then Some(flowFile)
    else None
  }

  /**
   * A key no `--env-var` item names takes the value of the highest layer
   * that has it; an item naming it overrides every layer.
   */
  lemma {:induction false} EnvLayering(flowFile: string, environmentVars: Option<map<string, string>>,
                                       inputPaths: string, items: seq<string>, key: string)
    ensures var kvs := Parsed(items);
            (key == "" || forall i :: 0 <= i < |kvs| ==> kvs[i].0 != key)
            ==> Lookup(LayeredEnv(flowFile, environmentVars, inputPaths, items), key)
                == BelowUser(flowFile, environmentVars, inputPaths, key)
    ensures var kvs := Parsed(items);
            forall i :: 0 <= i < |kvs| && kvs[i].0 == key != "" && (forall j :: i < j < |kvs| ==> kvs[j].0 != key)
                        ==> Lookup(LayeredEnv(flowFile, environmentVars, inputPaths, items), key) == Some(kvs[i].1)
  {
    var base := map[FlowFilenameVar := flowFile];
    var withDeco := if environmentVars.Some? then base + environmentVars.value else base;
    var withSplit := if inputPaths != "" then withDeco + ToMap(SplitVars(inputPaths)) else withDeco;
    var kvs := Parsed(items);
    if key == "" || forall i :: 0 <= i < |kvs| ==> kvs[i].0 != key {
      EnvVarUnnamed(withSplit, kvs, key);
    }
    forall i | 0 <= i < |kvs| && kvs[i].0 == key != "" && (forall j :: i < j < |kvs| ==> kvs[j].0 != key)
      ensures Lookup(LayeredEnv(flowFile, environmentVars, inputPaths, items), key) == Some(kvs[i].1)
    {
      EnvVarLastWins(withSplit, kvs, i, key);
    }
  }

  const DaytonaKey := "DAYTONA_API_KEY"
  const E2bKey := "E2B_API_KEY"

  /** The backend keys exported to the launching process. */
  const AuthKeys: seq<string> := ["DAYTONA_API_KEY", "DAYTONA_API_URL", "E2B_API_KEY"]

  /** A missing or empty API key takes the `METAFLOW_`-prefixed variable, or the empty string. */
  function FallBack(env: map<string, string>, environ: map<string, string>, key: string): map<string, string> {
    if Truthy(Lookup(env, key)) then env else env[key := Lookup(environ, "METAFLOW_" + key).GetOr("")]
  }

  function WithApiKeyFallback(env: map<string, string>, environ: map<string, string>): map<string, string> {
    FallBack(FallBack(env, environ, DaytonaKey), environ, E2bKey)
  }

  /**
   * Both API keys end up present; each keeps a non-empty value and
   * otherwise takes its `METAFLOW_` variable; other keys are untouched.
   */
  lemma {:induction false} ApiKeyFallback(env: map<string, string>, environ: map<string, string>, key: string)
    ensures var r := WithApiKeyFallback(env, environ);
            && DaytonaKey in r && E2bKey in r
            && (key in {DaytonaKey, E2bKey} ==>
                  r[key] == if Truthy(Lookup(env, key)) then env[key] else Lookup(environ, "METAFLOW_" + key).GetOr(""))
            && (key !in {DaytonaKey, E2bKey} ==> Lookup(r, key) == Lookup(env, key))
  {
    assert DaytonaKey != E2bKey;
  }

  /** The environment handed to the executor. */
  function StepEnv(flowFile: string, environmentVars: Option<map<string, string>>, inputPaths: string,
                   items: seq<string>, environ: map<string, string>): map<string, string>
  {
    WithApiKeyFallback(LayeredEnv(flowFile, environmentVars, inputPaths, items), environ)
  }

  /** `os.environ[key] = value` for each backend key whose value in the step env is not empty. */
  function ExportAuth(environ: map<string, string>, env: map<string, string>, keys: seq<string>): map<string, string>
  {
    if keys == [] then environ
    else
      var e := ExportAuth(environ, env, keys[..|keys| - 1]);
      var key := keys[|keys| - 1];
      if Truthy(Lookup(env, key)) then e[key := env[key]] else e
  }

  /** Exactly the backend keys with a non-empty value are exported, with that value. */
  lemma {:induction false} ExportOnlyNonEmpty(environ: map<string, string>, env: map<string, string>,
                                              keys: seq<string>, key: string)
    ensures Lookup(ExportAuth(environ, env, keys), key)
            == if key in keys && Truthy(Lookup(env, key)) then Lookup(env, key) else Lookup(environ, key)
    decreases |keys|
  {
    if keys != [] {
      var init := keys[..|keys| - 1];
      ExportOnlyNonEmpty(environ, env, init, key);
      assert keys == init + [keys[|keys| - 1]];
    }
  }

  // ---------------------------------------------------------------------
  // Top-level parameters and the task spec
  // ---------------------------------------------------------------------

  /** `top_params`: the metadata provider is forced to `local` when it is `service`. */
  function TopParams(params: map<string, string>, metadataType: string): (r: map<string, string>)
    ensures metadataType == "service" ==> "metadata" in r && r["metadata"] == "local"
    ensures metadataType != "service" ==> r == params
    ensures forall k :: k != "metadata" ==> Lookup(r, k) == Lookup(params, k)
  {
    if metadataType == "service" then params["metadata" := "local"] else params
  }

  /** `task_spec`: the task's identity, with the retry count as a decimal string. */
  function TaskSpec(flowName: string, stepName: string, runId: string, taskId: string, retryCount: int)
    : map<string, string>
  {
    map["flow_name" := flowName, "step_name" := stepName, "run_id" := runId, "task_id" := taskId,
        "retry_count" := IntToDecimal(retryCount)]
  }

  /** The retry count in the task spec reads back as the same integer. */
  lemma {:induction false} TaskSpecRetryCount(flowName: string, stepName: string, runId: string, taskId: string,
                                              retryCount: int)
    ensures "retry_count" in TaskSpec(flowName, stepName, runId, taskId, retryCount)
    ensures ParseInt(TaskSpec(flowName, stepName, runId, taskId, retryCount)["retry_count"]) == Some(retryCount)
  {
    IntRoundTrip(retryCount);
  }

  // ---------------------------------------------------------------------
  // The `step` command's data shaping
  // ---------------------------------------------------------------------

  /** What `step` hands to the executor, besides the package fields and resources. */
  datatype StepInput = StepInput(topParams: map<string, string>, inputPathsArg: string,
                                 taskSpec: map<string, string>, env: map<string, string>)

  /**
   * The body of `step` up to the executor's `launch`: split the input
   * paths, layer the env, fall back for the API keys and export the
   * backend keys to the launching process.
   */
  method Step(proc: Environ, params: map<string, string>, metadataType: string, flowName: string,
              flowFile: string, stepName: string, runId: string, taskId: string, retryCount: int,
              inputPaths: string, environmentVars: Option<map<string, string>>, envVarItems: seq<string>)
    returns (r: StepInput)
    modifies proc
    ensures r.topParams == TopParams(params, metadataType)
    ensures r.inputPathsArg == if inputPaths != "" then InputPathRefs(SplitVars(inputPaths)) else inputPaths
    ensures r.taskSpec == TaskSpec(flowName, stepName, runId, taskId, retryCount)
    ensures r.env == StepEnv(flowFile, environmentVars, inputPaths, envVarItems, old(proc.vars))
    ensures proc.vars == ExportAuth(old(proc.vars), r.env, AuthKeys)
  {
    var topParams := params;
    if metadataType == "service" {
      topParams := topParams["metadata" := "local"];
    }
    var inputPathsArg := inputPaths;
    var splitVars: seq<(string, string)> := [];
    if inputPaths != "" {
      splitVars := SplitVars(inputPaths);
      inputPathsArg := InputPathRefs(splitVars);
    }
    var taskSpec := TaskSpec(flowName, stepName, runId, taskId, retryCount);
    var env := BuildStepEnv(flowFile, environmentVars, inputPaths, splitVars, envVarItems, proc.vars);
    ExportAuthKeys(proc, env);
    r := StepInput(topParams, inputPathsArg, taskSpec, env);
  }

  /** The successive updates of `env` in `step`. */
  method BuildStepEnv(flowFile: string, environmentVars: Option<map<string, string>>, inputPaths: string,
                      splitVars: seq<(string, string)>, items: seq<string>, environ: map<string, string>)
    returns (env: map<string, string>)
    requires inputPaths != "" ==> splitVars == SplitVars(inputPaths)
    ensures env == StepEnv(flowFile, environmentVars, inputPaths, items, environ)
  {
    env := map[FlowFilenameVar := flowFile];
    if environmentVars.Some? {
      env := env + environmentVars.value;
    }
    if inputPaths != "" {
      env := env + ToMap(splitVars);
    }
    env := AssignEnvVars(env, items);
    assert env == LayeredEnv(flowFile, environmentVars, inputPaths, items);
    assert "METAFLOW_" + DaytonaKey == "METAFLOW_DAYTONA_API_KEY" && "METAFLOW_" + E2bKey == "METAFLOW_E2B_API_KEY";
    if !Truthy(Lookup(env, DaytonaKey)) {
      env := env[DaytonaKey := Lookup(environ, "METAFLOW_DAYTONA_API_KEY").GetOr("")];
    }
    if !Truthy(Lookup(env, E2bKey)) {
      env := env[E2bKey := Lookup(environ, "METAFLOW_E2B_API_KEY").GetOr("")];
    }
  }

  /** The `--env-var` loop of `step`. */
  method AssignEnvVars(env0: map<string, string>, items: seq<string>) returns (env: map<string, string>)
    ensures env == ApplyEnvVars(env0, items)
  {
    env := env0;
    for i := 0 to |items|
      invariant env == Assign(env0, Parsed(items[..i]))
    {
      var kv := Partition(items[i]);
      ghost var next := Parsed(items[..i + 1]);
      assert next[..i] == Parsed(items[..i]) && next[i] == kv;
      if kv.0 != "" {
        env := env[kv.0 := kv.1];
      }
    }
    assert items[..|items|] == items;
  }

  /** The export loop of `step`, writing `os.environ`. */
  method ExportAuthKeys(proc: Environ, env: map<string, string>)
    modifies proc
    ensures proc.vars == ExportAuth(old(proc.vars), env, AuthKeys)
  {
    for i := 0 to |AuthKeys|
      invariant proc.vars == ExportAuth(old(proc.vars), env, AuthKeys[..i])
    {
      assert AuthKeys[..i + 1][..i] == AuthKeys[..i];
      var value := Lookup(env, AuthKeys[i]);
      if Truthy(value) {
        proc.Put(AuthKeys[i], value.value);
      }
    }
    assert AuthKeys[..|AuthKeys|] == AuthKeys;
  }
}
