/** The settings the three generation stages read from the configuration when they are
    constructed: the Vertex project and location, the model name and the generation
    parameters, each with a fallback of its own when the configuration lacks it. */
module Generators {
  import opened Wrappers
  import opened JsonValue
  import opened Config

  /** `str(e)` of the AttributeError raised by `.get` on a value that is not a dict; the
      exact text (which names the value's type) is not modelled. */
  const NO_GET: string := "object has no attribute 'get'"

  /** What a stage's constructor stores. */
  datatype Generator = Generator(cfg: Dict, project: Json, location: Json, modelName: Json, genCfg: Json)

  /** A stage's own fallbacks: the name under which it looks up its model and parameters, the
      model name and the temperature. */
  datatype Stage = Stage(key: string, defaultModel: string, defaultTemperature: real)

  const NARRATIVE_STAGE: Stage := Stage("narrative", "gemini-2.5-pro", 0.2)
  const SCREENPLAY_STAGE: Stage := Stage("screenplay", "gemini-2.5-flash", 0.7)
  const STORYBOARD_STAGE: Stage := Stage("storyboard", "gemini-2.5-flash", 0.7)

  /** Python's `v.get(key, default)`, which raises when `v` is not a dict. */
  function PyGet(v: Json, key: string, default: Json): (r: Result<Json>)
    ensures r.Err? <==> !v.JObj?
    ensures r.Ok? && key in v.fields ==> r.value == v.fields[key]
    ensures r.Ok? && key !in v.fields ==> r.value == default
  {
    if !v.JObj? then Err(NO_GET)
    else if key in v.fields then Ok(v.fields[key])
    else Ok(default)
  }

  /** The constructor of `NarrativeDeconstructor`, `ScreenplayGenerator` or
      `StoryboardGenerator`: `vertex` defaults to `{}`, the location to "us-central1", and the
      model and generation parameters to the stage's own. A `vertex`, `models` or
      `generation` value that is not a dict raises. */
  function NewGenerator(cfg: Dict, stage: Stage): (r: Result<Generator>)
    ensures r.Ok? ==> r.value.cfg == cfg
    ensures "vertex" in cfg && !cfg["vertex"].JObj? ==> r == Err(NO_GET)
    ensures "vertex" !in cfg ==>
              r.Ok? && r.value.project == JNull && r.value.location == JStr(DEFAULT_LOCATION)
              && r.value.modelName == JStr(stage.defaultModel) && r.value.genCfg == Generation(stage.defaultTemperature)
  {
    var v := if "vertex" in cfg then cfg["vertex"] else JObj(map[]);
    match PyGet(v, "project", JNull)
    case Err(e) => Err(e)
    case Ok(project) =>
      var location := PyGet(v, "location", JStr(DEFAULT_LOCATION)).value;
      match PyGet(v, "models", JObj(map[]))
      case Err(e) => Err(e)
      case Ok(models) =>
        match PyGet(models, stage.key, JStr(stage.defaultModel))
        case Err(e) => Err(e)
        case Ok(model) =>
          match PyGet(v, "generation", JObj(map[]))
          case Err(e) => Err(e)
          case Ok(generation) =>
            match PyGet(generation, stage.key, Generation(stage.defaultTemperature))
            case Err(e) => Err(e)
            case Ok(gen) => Ok(Generator(cfg, project, location, model, gen))
  }

  /** A section looked up by the constructor, and whether it is usable. */
  predicate DictOrAbsent(d: map<string, Json>, key: string) {
    key !in d || d[key].JObj?
  }

  /** The constructor raises exactly when `vertex`, or within it `models` or `generation`,
      is present but not a dict. */
  lemma NewGeneratorFails(cfg: Dict, stage: Stage)
    ensures NewGenerator(cfg, stage).Err? <==>
      !DictOrAbsent(cfg, "vertex")
      || (DictOrAbsent(cfg, "vertex") && "vertex" in cfg
          && (!DictOrAbsent(cfg["vertex"].fields, "models") || !DictOrAbsent(cfg["vertex"].fields, "generation")))
  {
  }

  /** Each setting falls back to the stage's own default when the configuration lacks it:
      no project, location "us-central1", the stage's model and parameters. */
  lemma FallbacksWhenMissing(stage: Stage)
    ensures NewGenerator(map[], stage)
      == Ok(Generator(map[], JNull, JStr(DEFAULT_LOCATION), JStr(stage.defaultModel),
                      Generation(stage.defaultTemperature)))
  {
  }

  /** Settings the configuration has are taken as they are, whatever their value. */
  lemma ConfiguredSettingsWin(cfg: Dict, stage: Stage, vertex: map<string, Json>)
    requires "vertex" in cfg && cfg["vertex"] == JObj(vertex)
    requires DictOrAbsent(vertex, "models") && DictOrAbsent(vertex, "generation")
    ensures NewGenerator(cfg, stage).Ok?
    ensures "project" in vertex ==> NewGenerator(cfg, stage).value.project == vertex["project"]
    ensures "location" in vertex ==> NewGenerator(cfg, stage).value.location == vertex["location"]
    ensures "models" in vertex && stage.key in vertex["models"].fields ==>
      NewGenerator(cfg, stage).value.modelName == vertex["models"].fields[stage.key]
    ensures "generation" in vertex && stage.key in vertex["generation"].fields ==>
      NewGenerator(cfg, stage).value.genCfg == vertex["generation"].fields[stage.key]
  {
  }

  /** The fallbacks in the constructors agree with the configuration's defaults: building a
      stage from the defaults gives the same model and parameters as building it from
      nothing. */
  lemma DefaultsAgree(importEnv: Env)
    ensures NewGenerator(Defaults(importEnv), NARRATIVE_STAGE).Ok?
    ensures NewGenerator(Defaults(importEnv), NARRATIVE_STAGE).value.modelName == JStr("gemini-2.5-pro")
    ensures NewGenerator(Defaults(importEnv), NARRATIVE_STAGE).value.genCfg == Generation(0.2)
    ensures NewGenerator(Defaults(importEnv), SCREENPLAY_STAGE).Ok?
    ensures NewGenerator(Defaults(importEnv), SCREENPLAY_STAGE).value.modelName == JStr("gemini-2.5-flash")
    ensures NewGenerator(Defaults(importEnv), SCREENPLAY_STAGE).value.genCfg == Generation(0.7)
    ensures NewGenerator(Defaults(importEnv), STORYBOARD_STAGE).Ok?
    ensures NewGenerator(Defaults(importEnv), STORYBOARD_STAGE).value.modelName == JStr("gemini-2.5-flash")
    ensures NewGenerator(Defaults(importEnv), STORYBOARD_STAGE).value.genCfg == Generation(0.7)
  {
  }
}
