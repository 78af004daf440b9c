/** The central configuration: built-in defaults, one configuration file merged over them
    recursively, then the Vertex project and location filled in from the environment where
    the configuration has none. Configuration values are JSON documents. */
module Config {
  import opened Wrappers
  import opened PyText
  import opened JsonValue

  type Dict = map<string, Json>

  /** The files searched, in order, when no configuration path is given. */
  const DEFAULT_CONFIG_PATHS: seq<string> := ["config.json", "config.yaml", "config.yml"]

  const DEFAULT_LOCATION: string := "us-central1"

  /** `str(e)` of the AttributeError raised when `vertex` is not a dict; the exact text
      (which names the value's type) is not modelled. */
  const VERTEX_NOT_A_DICT: string := "object has no attribute 'setdefault'"

  /** The two environment variables the configuration reads; `None` when unset. The
      defaults read them when the module is imported, the overrides when `load_config` runs,
      so a model of one call takes two snapshots. */
  datatype Env = Env(projectId: Option<string>, location: Option<string>)

  /** `os.environ.get(name)` is truthy. */
  predicate IsSet(v: Option<string>) { v.Some? && v.value != "" }

  // ---------------------------------------------------------------------------
  // Defaults
  // ---------------------------------------------------------------------------

  function Generation(temperature: real): Json {
    JObj(map["max_output_tokens" := JNum(8192.0), "temperature" := JNum(temperature), "top_p" := JNum(1.0)])
  }

  /** The default `paths` section. */
  const DEFAULT_PATHS: Dict := map[
    "base_output_dir" := JStr("output"),
    "narrative_schema_dir" := JStr("output/narrative_schema"),
    "screenplay_dir" := JStr("output/screenplay"),
    "storyboard_text_dir" := JStr("output/storyboard_text"),
    "projects_state_dir" := JStr("output/projects")]

  /** `_DEFAULTS`, as built from the environment at import time. */
  function Defaults(importEnv: Env): (d: Dict)
    ensures d.Keys == {"vertex", "paths", "styles"}
    ensures d["vertex"].JObj? && "project" in d["vertex"].fields && "location" in d["vertex"].fields
    ensures d["vertex"].fields["location"] ==
      JStr(if importEnv.location.Some? then importEnv.location.value else DEFAULT_LOCATION)
    ensures d["paths"] == JObj(DEFAULT_PATHS) && d["styles"] == JObj(map[])
  {
    map[
      "vertex" := JObj(map[
        "project" := (if importEnv.projectId.Some? then JStr(importEnv.projectId.value) else JNull),
        "location" := JStr(if importEnv.location.Some? then importEnv.location.value else DEFAULT_LOCATION),
        "models" := JObj(map[
          "narrative" := JStr("gemini-2.5-pro"),
          "screenplay" := JStr("gemini-2.5-flash"),
          "storyboard" := JStr("gemini-2.5-flash")]),
        "generation" := JObj(map[
          "narrative" := Generation(0.2),
          "screenplay" := Generation(0.7),
          "storyboard" := Generation(0.7)])]),
      "paths" := JObj(DEFAULT_PATHS),
      "styles" := JObj(map[])]
  }

  // ---------------------------------------------------------------------------
  // Recursive merge
  // ---------------------------------------------------------------------------

  /** Both values are dicts, so `_deep_merge` recurses into them. */
  predicate BothDicts(a: Dict, b: Dict, k: string) {
    k in a && k in b && a[k].JObj? && b[k].JObj?
  }

  /** `_deep_merge(a, b)`: the union of the keys; where both values are dicts they are merged
      recursively, otherwise the value from `b` wins, and keys only in `a` keep their value. */
  function DeepMerge(a: Dict, b: Dict): (r: Dict)
    ensures r.Keys == a.Keys + b.Keys
    ensures forall k | k in a && k !in b :: r[k] == a[k]
    ensures forall k | k in b && !BothDicts(a, b, k) :: r[k] == b[k]
    ensures forall k | BothDicts(a, b, k) :: r[k].JObj?
    decreases JObj(b)
  {
    map k | k in a.Keys + b.Keys ::
      if BothDicts(a, b, k) then JObj(DeepMerge(a[k].fields, b[k].fields))
      else if k in b then b[k]
      else a[k]
  }

  /** `_deep_merge` as written: a copy of `a`, then one assignment per key of `b`, recursing
      where both values are dicts. The keys of `b` are visited in no particular order; each
      key is assigned once, so the order does not matter. */
  method MergeInto(a: Dict, b: Dict) returns (out: Dict)
    ensures out == DeepMerge(a, b)
    decreases JObj(b)
  {
    out := a;
    var todo := b.Keys;
    while todo != {}
      invariant MergedSoFar(a, b, out, todo)
      decreases |todo|
    {
      var k :| k in todo;
      var v := b[k];
      if k in out && out[k].JObj? && v.JObj? {
        assert BothDicts(a, b, k);
        var sub := MergeInto(out[k].fields, v.fields);
        MergeStep(a, b, out, todo, k, JObj(sub));
        out := out[k := JObj(sub)];
      } else {
        MergeStep(a, b, out, todo, k, v);
        out := out[k := v];
      }
      todo := todo - {k};
    }
    MergeDone(a, b, out);
  }

  /** The loop invariant of `MergeInto`: the keys of `b` already visited hold their merged
      value, and the keys of `a` not yet visited still hold `a`'s. */
  ghost predicate MergedSoFar(a: Dict, b: Dict, out: Dict, todo: set<string>) {
    todo <= b.Keys
    && out.Keys == a.Keys + (b.Keys - todo)
    && (forall k | k in out && k !in todo :: out[k] == DeepMerge(a, b)[k])
    && (forall k | k in todo && k in a :: out[k] == a[k])
  }

  /** With every key of `b` visited, the copy is the merge. */
  lemma MergeDone(a: Dict, b: Dict, out: Dict)
    requires MergedSoFar(a, b, out, {})
    ensures out == DeepMerge(a, b)
  {
    assert out.Keys == DeepMerge(a, b).Keys;
  }

  /** Assigning the merged value of one more key keeps the invariant. */
  lemma MergeStep(a: Dict, b: Dict, out: Dict, todo: set<string>, k: string, v: Json)
    requires MergedSoFar(a, b, out, todo) && k in todo
    requires (BothDicts(a, b, k) && v == JObj(DeepMerge(a[k].fields, b[k].fields)))
          || (!BothDicts(a, b, k) && v == b[k])
    ensures MergedSoFar(a, b, out[k := v], todo - {k})
  {
    assert v == DeepMerge(a, b)[k];
  }

  /** Merging with nothing (`b` empty or `None`) gives a copy equal to `a`. */
  lemma MergeWithNothing(a: Dict)
    ensures DeepMerge(a, map[]) == a
  {
    assert DeepMerge(a, map[]).Keys == a.Keys;
  }

  /** Merging into nothing gives `b`. */
  lemma MergeIntoNothing(b: Dict)
    ensures DeepMerge(map[], b) == b
  {
    assert DeepMerge(map[], b).Keys == b.Keys;
  }

  /** Merging a configuration with itself changes nothing. */
  lemma {:induction false} MergeIdempotent(a: Dict)
    ensures DeepMerge(a, a) == a
    decreases JObj(a)
  {
    var r := DeepMerge(a, a);
    forall k | k in a ensures r[k] == a[k] {
      if a[k].JObj? {
        MergeIdempotent(a[k].fields);
      }
    }
  }

  /** Merging the same file twice is the same as merging it once: `b` already won everywhere
      it could. */
  lemma {:induction false} MergeAbsorbs(a: Dict, b: Dict)
    ensures DeepMerge(DeepMerge(a, b), b) == DeepMerge(a, b)
    decreases JObj(b)
  {
    var m := DeepMerge(a, b);
    var r := DeepMerge(m, b);
    forall k | k in m ensures r[k] == m[k] {
      if BothDicts(a, b, k) {
        MergeAbsorbs(a[k].fields, b[k].fields);
      } else if k in b && b[k].JObj? {
        MergeIdempotent(b[k].fields);
      }
    }
  }

  // ---------------------------------------------------------------------------
  // Loading a file
  // ---------------------------------------------------------------------------

  /** What reading an existing file gives: an exception (unreadable, malformed JSON or YAML),
      or the parsed value. */
  datatype FileRead = Unreadable | Parsed(value: Json)

  /** The file system as `load_config` sees it: the existing files and what reading each
      gives, and whether PyYAML could be imported. */
  datatype Files = Files(contents: map<string, FileRead>, yamlAvailable: bool)

  /** The dict `try_merge(path)` merges, or `None` when it returns False: the file is
      missing, its suffix is neither JSON nor YAML, it cannot be read or parsed, PyYAML is
      missing for a YAML file, or it does not hold a dict. An empty YAML document (or any
      falsy one) counts as `{}`. */
  function FileDict(fs: Files, path: string): (r: Option<Dict>)
    ensures r.Some? ==> path in fs.contents && fs.contents[path].Parsed?
  {
    if path !in fs.contents || fs.contents[path].Unreadable? then None
    else
      var v := fs.contents[path].value;
      var loaded :=
        if EndsWith(path, ".json") then Some(v)
        else if EndsWith(path, ".yaml") || EndsWith(path, ".yml") then
          (if !fs.yamlAvailable then None else if Truthy(v) then Some(v) else Some(JObj(map[])))
        else None;
      if loaded.Some? && loaded.value.JObj? then Some(loaded.value.fields) else None
  }

  /** The outcome of `try_merge`: whether it merged, and the configuration after it. */
  datatype Merge = Merge(merged: bool, cfg: Dict)

  function TryMerge(cfg: Dict, fs: Files, path: string): (m: Merge)
    ensures m.merged <==> FileDict(fs, path).Some?
    ensures m.merged ==> m.cfg == DeepMerge(cfg, FileDict(fs, path).value)
    ensures !m.merged ==> m.cfg == cfg
  {
    match FileDict(fs, path)
    case None => Merge(false, cfg)
    case Some(d) => Merge(true, DeepMerge(cfg, d))
  }

  /** The index of the first path whose file merges. */
  function FirstMerging(fs: Files, paths: seq<string>): (r: Option<nat>)
    ensures r.Some? ==> r.value < |paths| && FileDict(fs, paths[r.value]).Some?
    ensures r.Some? ==> forall j | 0 <= j < r.value :: FileDict(fs, paths[j]).None?
    ensures r.None? <==> forall j | 0 <= j < |paths| :: FileDict(fs, paths[j]).None?
    decreases |paths|
  {
    if paths == [] then None
    else if FileDict(fs, paths[0]).Some? then Some(0)
    else
      match FirstMerging(fs, paths[1..])
      case None => None
      case Some(i) => Some(i + 1)
  }

  /** The configuration after the file step of `load_config`: an explicit path is the only
      one tried; otherwise the first default path that merges is used. */
  function Resolved(base: Dict, fs: Files, configPath: string): Dict {
    if configPath != "" then TryMerge(base, fs, configPath).cfg
    else
      match FirstMerging(fs, DEFAULT_CONFIG_PATHS)
      case None => base
      case Some(i) => DeepMerge(base, FileDict(fs, DEFAULT_CONFIG_PATHS[i]).value)
  }

  // ---------------------------------------------------------------------------
  // Environment overrides
  // ---------------------------------------------------------------------------

  /** `cfg.setdefault("vertex", {}).setdefault(key, value)`: a missing `vertex` becomes a dict,
      a missing key is filled, an existing key is kept; a `vertex` that is not a dict raises. */
  function SetVertexDefault(cfg: Dict, key: string, value: string): (r: Result<Dict>)
    ensures r.Err? <==> "vertex" in cfg && !cfg["vertex"].JObj?
    ensures r.Ok? ==> "vertex" in r.value && r.value["vertex"].JObj? && key in r.value["vertex"].fields
    ensures r.Ok? ==> r.value.Keys == cfg.Keys + {"vertex"}
    ensures r.Ok? ==> forall k | k in cfg && k != "vertex" :: r.value[k] == cfg[k]
  {
    var vertex := if "vertex" in cfg then cfg["vertex"] else JObj(map[]);
    if !vertex.JObj? then Err(VERTEX_NOT_A_DICT)
    else if key in vertex.fields then Ok(cfg["vertex" := vertex])
    else Ok(cfg["vertex" := JObj(vertex.fields[key := JStr(value)])])
  }

  /** The two environment overrides, each applied only when its variable is set. */
  function ApplyEnv(cfg: Dict, env: Env): (r: Result<Dict>)
    ensures !IsSet(env.projectId) && !IsSet(env.location) ==> r == Ok(cfg)
    ensures r.Err? <==> (IsSet(env.projectId) || IsSet(env.location)) && "vertex" in cfg && !cfg["vertex"].JObj?
    ensures r.Ok? ==> forall k | k in cfg && k != "vertex" :: k in r.value && r.value[k] == cfg[k]
    ensures r.Ok? && (IsSet(env.projectId) || IsSet(env.location)) ==> "vertex" in r.value && r.value["vertex"].JObj?
  {
    var afterProject :=
      if IsSet(env.projectId) then SetVertexDefault(cfg, "project", env.projectId.value) else Ok(cfg);
    match afterProject
    case Err(e) => Err(e)
    case Ok(c) => if IsSet(env.location) then SetVertexDefault(c, "location", env.location.value) else Ok(c)
  }

  /** `setdefault` never overwrites: a key already in `vertex` keeps its value, and a missing
      one takes the environment's. */
  lemma SetVertexDefaultFillsOnly(cfg: Dict, key: string, value: string)
    requires "vertex" !in cfg || cfg["vertex"].JObj?
    ensures SetVertexDefault(cfg, key, value).Ok?
    ensures "vertex" in cfg && key in cfg["vertex"].fields ==>
      SetVertexDefault(cfg, key, value).value == cfg
    ensures !("vertex" in cfg && key in cfg["vertex"].fields) ==>
      SetVertexDefault(cfg, key, value).value["vertex"].fields[key] == JStr(value)
  {
  }

  /** `load_config` as written: a copy of the defaults, the file step (the explicit path
      alone, or the default paths until one merges), then the environment overrides. */
  method LoadConfig(configPath: string, fs: Files, importEnv: Env, callEnv: Env)
    returns (r: Result<Dict>)
    ensures r == ApplyEnv(Resolved(Defaults(importEnv), fs, configPath), callEnv)
  {
    var cfg := Defaults(importEnv);
    if configPath != "" {
      var m := TryMerge(cfg, fs, configPath);
      cfg := m.cfg;
    } else {
      var i := 0;
      while i < |DEFAULT_CONFIG_PATHS|
        invariant 0 <= i <= |DEFAULT_CONFIG_PATHS|
        invariant forall j | 0 <= j < i :: FileDict(fs, DEFAULT_CONFIG_PATHS[j]).None?
        invariant cfg == Defaults(importEnv)
      {
        var m := TryMerge(cfg, fs, DEFAULT_CONFIG_PATHS[i]);
        if m.merged {
          FirstMergingAt(fs, DEFAULT_CONFIG_PATHS, i);
          cfg := m.cfg;
          break;
        }
        i := i + 1;
      }
      if i == |DEFAULT_CONFIG_PATHS| {
        assert FirstMerging(fs, DEFAULT_CONFIG_PATHS).None?;
      }
    }
    r := ApplyEnv(cfg, callEnv);
  }

  /** The first path that merges is the one the search finds. */
  lemma FirstMergingAt(fs: Files, paths: seq<string>, i: nat)
    requires i < |paths| && FileDict(fs, paths[i]).Some?
    requires forall j | 0 <= j < i :: FileDict(fs, paths[j]).None?
    ensures FirstMerging(fs, paths) == Some(i)
  {
  }

  // ---------------------------------------------------------------------------
  // Properties of load_config
  // ---------------------------------------------------------------------------

  /** With an explicit path, no other file is consulted: two file systems that agree on that
      path give the same configuration. */
  lemma ExplicitPathAlone(configPath: string, fs1: Files, fs2: Files, base: Dict)
    requires configPath != ""
    requires FileDict(fs1, configPath) == FileDict(fs2, configPath)
    ensures Resolved(base, fs1, configPath) == Resolved(base, fs2, configPath)
  {
  }

  /** A file that is missing, malformed or not a dict leaves the defaults as they were. */
  lemma IgnoredFileKeepsDefaults(configPath: string, fs: Files, base: Dict)
    requires configPath != "" && FileDict(fs, configPath).None?
    ensures Resolved(base, fs, configPath) == base
  {
  }

  /** Without an explicit path, the search stops at the first default path that merges:
      what the later paths hold does not matter. */
  lemma SearchStopsAtFirst(fs: Files, base: Dict, i: nat)
    requires i < |DEFAULT_CONFIG_PATHS| && FileDict(fs, DEFAULT_CONFIG_PATHS[i]).Some?
    requires forall j | 0 <= j < i :: FileDict(fs, DEFAULT_CONFIG_PATHS[j]).None?
    ensures Resolved(base, fs, "") == DeepMerge(base, FileDict(fs, DEFAULT_CONFIG_PATHS[i]).value)
  {
    FirstMergingAt(fs, DEFAULT_CONFIG_PATHS, i);
  }

  /** When no default path merges, the in-code defaults are the result of the file step. */
  lemma NoFileKeepsDefaults(fs: Files, base: Dict)
    requires forall j | 0 <= j < |DEFAULT_CONFIG_PATHS| :: FileDict(fs, DEFAULT_CONFIG_PATHS[j]).None?
    ensures Resolved(base, fs, "") == base
  {
  }

  /** A falsy YAML document merges as `{}`, and so stops the search without changing
      anything, where a falsy JSON document is ignored. */
  lemma EmptyYamlMerges(fs: Files, path: string)
    requires path in fs.contents && fs.contents[path].Parsed? && !Truthy(fs.contents[path].value)
    requires fs.yamlAvailable && EndsWith(path, ".yml") && !EndsWith(path, ".json")
    ensures FileDict(fs, path) == Some(map[])
  {
  }

  /** The defaults always hold `vertex.project` and `vertex.location` (the project possibly
      `None`), so after any file whose `vertex`, if present, is a dict, the environment
      overrides change nothing. */
  lemma {:induction false} EnvOverridesAfterMergeChangeNothing(importEnv: Env, file: Dict, callEnv: Env)
    requires "vertex" !in file || file["vertex"].JObj?
    ensures ApplyEnv(DeepMerge(Defaults(importEnv), file), callEnv) == Ok(DeepMerge(Defaults(importEnv), file))
  {
    var d := Defaults(importEnv);
    var m := DeepMerge(d, file);
    assert m["vertex"].JObj?;
    assert "project" in m["vertex"].fields && "location" in m["vertex"].fields by {
      if "vertex" in file {
        assert BothDicts(d, file, "vertex");
        assert m["vertex"] == JObj(DeepMerge(d["vertex"].fields, file["vertex"].fields));
      }
    }
    assert m["vertex" := m["vertex"]] == m;
  }

  /** A file whose `vertex` is not a dict makes `load_config` raise when an override applies. */
  lemma NonDictVertexRaises(importEnv: Env, file: Dict, callEnv: Env)
    requires "vertex" in file && !file["vertex"].JObj?
    requires IsSet(callEnv.projectId) || IsSet(callEnv.location)
    ensures ApplyEnv(DeepMerge(Defaults(importEnv), file), callEnv).Err?
  {
  }

  // ---------------------------------------------------------------------------
  // get_path
  // ---------------------------------------------------------------------------

  /** The default for a path key, `""` for an unknown one. */
  function DefaultPath(key: string): Json {
    if key in DEFAULT_PATHS then DEFAULT_PATHS[key] else JStr("")
  }

  /** `get_path(cfg, key)`: the configured value if it is truthy, else the default for the
      key, else `""`. A `paths` value that is not a dict has no `get` and raises. */
  function GetPath(cfg: Dict, key: string): (r: Result<Json>)
    ensures r.Err? <==> "paths" in cfg && !cfg["paths"].JObj?
    ensures r.Ok? && "paths" in cfg && key in cfg["paths"].fields && Truthy(cfg["paths"].fields[key])
      ==> r.value == cfg["paths"].fields[key]
    ensures r.Ok? && !("paths" in cfg && key in cfg["paths"].fields && Truthy(cfg["paths"].fields[key]))
      ==> r.value == DefaultPath(key)
  {
    var paths := if "paths" in cfg then cfg["paths"] else JObj(map[]);
    if !paths.JObj? then Err("object has no attribute 'get'")
    else match Get(paths, key)
      case Some(v) => if Truthy(v) then Ok(v) else Ok(DefaultPath(key))
      case None => Ok(DefaultPath(key))
  }

  /** A directory from `get_path` as `os.makedirs` and `os.path.join` use it: a value that
      is not a string makes them raise. */
  function DirPath(cfg: Dict, key: string): (r: Result<string>)
    ensures r.Ok? <==> GetPath(cfg, key).Ok? && GetPath(cfg, key).value.JStr?
    ensures r.Ok? ==> JStr(r.value) == GetPath(cfg, key).value
  {
    match GetPath(cfg, key)
    case Err(e) => Err(e)
    case Ok(v) => if v.JStr? then Ok(v.s) else Err("expected str, bytes or os.PathLike object")
  }

  /** With the defaults alone, every known path key gives its default directory. */
  lemma DefaultsGiveDefaultPaths(importEnv: Env, key: string)
    requires key in DEFAULT_PATHS
    ensures GetPath(Defaults(importEnv), key) == Ok(DEFAULT_PATHS[key])
  {
  }
}
