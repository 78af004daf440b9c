/** The storyboard image script: the shots of a storyboard file, filtered by a requested
    scene and shot, each turned into an image from a prompt that names the characters and
    the setting of the shot as references. The image service is the set `failing` of
    images it fails to produce; files are given as what reading them yields. */
module StoryboardImages {
  import opened Wrappers
  import opened PyText
  import opened JsonValue
  import opened Effects
  import opened Shots
  import Utils

  /** `os.path.join("output", "visual_assets")`. */
  const VISUAL_ASSETS_DIR := "output/visual_assets"
  const REFERENCE := "as a reference for this shot.\n\n"

  /** Where the image of a shot is saved: the scene and shot numbers as written. */
  function ImagePath(scene: string, shot: string): string {
    PathJoin(VISUAL_ASSETS_DIR, "scene_" + scene + "_shot_" + shot + ".png")
  }

  /** `int(s)` on the digit groups a shot header yields never raises. */
  lemma ParsedNumberConverts(s: string)
    requires |s| >= 1 && AllDigits(s)
    ensures ParseInt(s) == Some(DigitsValue(s) as int)
  {
    assert IsDigit(s[0]) && IsDigit(s[|s| - 1]);
    StripOfTrimmed(s);
  }

  // ---------------------------------------------------------------------------
  // generate_storyboard_image: the prompt
  // ---------------------------------------------------------------------------

  /** `utils.resolve_style_prompt(style_profile)`: a profile that is not a string is never a
      key of the styles map, so it comes back unchanged. */
  function StylePrompt(profile: Json, cfg: Utils.JsonFile): Json {
    if profile.JStr? then Utils.ResolveStylePrompt(profile.s, cfg) else profile
  }

  function CharacterClause(characters: seq<string>): string {
    "Use the character portrait for '" + Join(", ", characters) + "' "
  }

  function SettingClause(setting: Json): string {
    "and the environment plate for '" + Display(setting) + "' "
  }

  /** The part of the prompt between the description and the style: the character clause
      when some character is in the shot, the setting clause when the scene has a setting,
      and the closing words when either is there. */
  function ReferenceClause(characters: seq<string>, setting: Json): string {
    (if characters != [] then CharacterClause(characters) else "")
    + (if Truthy(setting) then SettingClause(setting) else "")
    + (if characters != [] || Truthy(setting) then REFERENCE else "")
  }

  /** The closing words appear exactly when a clause does; the character clause comes
      first and the setting clause, when present, just before the closing words. */
  lemma ReferenceClauseShape(characters: seq<string>, setting: Json)
    ensures var r := ReferenceClause(characters, setting);
      (r == "" <==> characters == [] && !Truthy(setting))
      && (EndsWith(r, REFERENCE) <==> characters != [] || Truthy(setting))
      && (characters != [] ==> StartsWith(r, CharacterClause(characters)))
      && (Truthy(setting) ==> EndsWith(r, SettingClause(setting) + REFERENCE))
  {
    var r := ReferenceClause(characters, setting);
    var c := if characters != [] then CharacterClause(characters) else "";
    var s := if Truthy(setting) then SettingClause(setting) else "";
    if characters != [] || Truthy(setting) {
      assert r == c + s + REFERENCE;
      ConcatAffixes(c + s, REFERENCE);
      SeqAssoc(c, s, REFERENCE);
      ConcatAffixes(c, s + REFERENCE);
    }
  }

  function StyleLine(stylePrompt: Json): string {
    "Style: " + Display(stylePrompt)
  }

  /** The whole prompt. */
  function Prompt(description: string, characters: seq<string>, setting: Json, stylePrompt: Json): string {
    description + "\n\n" + ReferenceClause(characters, setting) + StyleLine(stylePrompt)
  }

  /** A prompt opens with the description and a blank line and always ends with the style. */
  lemma PromptShape(description: string, characters: seq<string>, setting: Json, stylePrompt: Json)
    ensures var p := Prompt(description, characters, setting, stylePrompt);
      StartsWith(p, description + "\n\n") && EndsWith(p, "Style: " + Display(stylePrompt))
      && (characters == [] && !Truthy(setting) ==> p == description + "\n\n" + StyleLine(stylePrompt))
  {
    var head := description + "\n\n";
    var mid := ReferenceClause(characters, setting);
    var tail := StyleLine(stylePrompt);
    ConcatAffixes(head + mid, tail);
    SeqAssoc(head, mid, tail);
    ConcatAffixes(head, mid + tail);
    if characters == [] && !Truthy(setting) {
      assert head + mid == head;
    }
  }

  /** The prompt built by repeated `+=`. */
  method AssemblePrompt(description: string, characters: seq<string>, setting: Json, stylePrompt: Json)
    returns (prompt: string)
    ensures prompt == Prompt(description, characters, setting, stylePrompt)
  {
    var head := description + "\n\n";
    ghost var c := if characters != [] then CharacterClause(characters) else "";
    ghost var sc := if Truthy(setting) then SettingClause(setting) else "";
    ghost var t := if characters != [] || Truthy(setting) then REFERENCE else "";
    prompt := head;
    if characters != [] {
      prompt := prompt + ("Use the character portrait for '" + Join(", ", characters) + "' ");
    }
    assert prompt == head + c;
    if Truthy(setting) {
      prompt := prompt + ("and the environment plate for '" + Display(setting) + "' ");
    }
    assert prompt == head + c + sc;
    if characters != [] || Truthy(setting) {
      prompt := prompt + "as a reference for this shot.\n\n";
    }
    assert prompt == head + c + sc + t;
    SeqAssoc(head, c, sc);
    SeqAssoc(head, c + sc, t);
    assert prompt == head + ReferenceClause(characters, setting);
    prompt := prompt + ("Style: " + Display(stylePrompt));
  }

  // ---------------------------------------------------------------------------
  // generate_storyboard_image
  // ---------------------------------------------------------------------------

  /** `narrative_schema or {}`. */
  function SchemaOrEmpty(schema: Json): Json {
    if Truthy(schema) then schema else JObj(map[])
  }

  /** `utils.get_characters_in_shot(shot_description, narrative_schema or {})`. */
  function Characters(description: string, schema: Json): Result<seq<string>> {
    Utils.GetCharactersInShot(description, SchemaOrEmpty(schema))
  }

  /** `utils.get_scene_setting(int(scene_number), narrative_schema or {})`. */
  function Setting(scene: string, schema: Json): Result<Json> {
    match ParseInt(scene)
    case None => Err("invalid literal for int()")
    case Some(n) => Utils.SceneSetting(n, SchemaOrEmpty(schema))
  }

  /** What one call does once the style prompt, the characters and the setting are looked
      up: nothing when a lookup raised or the service fails, otherwise the image from the
      assembled prompt. Every error is caught. */
  function ShotImage(description: string, scene: string, shot: string, stylePrompt: Json,
                     characters: Result<seq<string>>, setting: Result<Json>, failing: set<string>): seq<Action> {
    var path := ImagePath(scene, shot);
    if characters.Err? || setting.Err? || path in failing then []
    else [MakeDirs(VISUAL_ASSETS_DIR), GenerateImage(Prompt(description, characters.value, setting.value, stylePrompt), path)]
  }

  /** `generate_storyboard_image`: the saved path, or `None` after an error. */
  method GenerateStoryboardImage(description: string, scene: string, shot: string, style: Json,
                                 cfg: Utils.JsonFile, schema: Json, failing: set<string>)
    returns (saved: Option<string>, actions: seq<Action>)
    ensures actions == ShotImage(description, scene, shot, StylePrompt(style, cfg), Characters(description, schema),
                                 Setting(scene, schema), failing)
    ensures saved.Some? <==> actions != []
    ensures saved.Some? ==> saved.value == ImagePath(scene, shot)
  {
    var stylePrompt := StylePrompt(style, cfg);
    var lookupSchema := SchemaOrEmpty(schema);
    var characters := Utils.GetCharactersInShot(description, lookupSchema);
    if characters.Err? {
      return None, [];
    }
    var n := ParseInt(scene);
    if n.None? {
      return None, [];
    }
    var setting := Utils.GetSceneSetting(n.value, lookupSchema);
    if setting.Err? {
      return None, [];
    }
    var prompt := AssemblePrompt(description, characters.value, setting.value, stylePrompt);
    var path := ImagePath(scene, shot);
    if path in failing {
      return None, [];
    }
    actions := [MakeDirs(VISUAL_ASSETS_DIR), GenerateImage(prompt, path)];
    saved := Some(path);
  }

  /** The image the call saves is the one at the shot's path, from the prompt built from
      what the lookups found. */
  lemma ShotImageSaved(description: string, scene: string, shot: string, stylePrompt: Json,
                       characters: Result<seq<string>>, setting: Result<Json>, failing: set<string>,
                       prompt: string, path: string)
    ensures GenerateImage(prompt, path) in ShotImage(description, scene, shot, stylePrompt, characters, setting, failing)
      <==> characters.Ok? && setting.Ok? && path == ImagePath(scene, shot) && path !in failing
           && prompt == Prompt(description, characters.value, setting.value, stylePrompt)
  {
  }

  // ---------------------------------------------------------------------------
  // generate_storyboard_images
  // ---------------------------------------------------------------------------

  /** The shot is not skipped by the `--scene` and `--shot` filters; an absent filter lets
      every shot through. */
  predicate Selected(sh: Shot, sceneFilter: Option<int>, shotFilter: Option<int>) {
    (sceneFilter.None? || ParseInt(sh.scene) == Some(sceneFilter.value))
    && (shotFilter.None? || ParseInt(sh.shot) == Some(shotFilter.value))
  }

  /** For a parsed shot the filters compare the numbers the header spells. */
  lemma SelectedByNumber(sh: Shot, sceneFilter: Option<int>, shotFilter: Option<int>)
    requires WellFormed(sh)
    ensures Selected(sh, sceneFilter, shotFilter) <==>
      (sceneFilter.None? || DigitsValue(sh.scene) == sceneFilter.value)
      && (shotFilter.None? || DigitsValue(sh.shot) == shotFilter.value)
  {
    ParsedNumberConverts(sh.scene);
    ParsedNumberConverts(sh.shot);
  }

  function ImageRound(sceneFilter: Option<int>, shotFilter: Option<int>, style: Json, cfg: Utils.JsonFile,
                      schema: Json, failing: set<string>): (nat, Shot) -> seq<Action> {
    (i: nat, sh: Shot) =>
      if Selected(sh, sceneFilter, shotFilter)
      then
        var description := Strip(sh.description);
        ShotImage(description, sh.scene, sh.shot, StylePrompt(style, cfg), Characters(description, schema),
                  Setting(sh.scene, schema), failing)
      else []
  }

  /** The loop over the parsed shots. */
  function Images(shots: seq<Shot>, sceneFilter: Option<int>, shotFilter: Option<int>, style: Json,
                  cfg: Utils.JsonFile, schema: Json, failing: set<string>): seq<Action> {
    Rounds(shots, ImageRound(sceneFilter, shotFilter, style, cfg, schema, failing))
  }

  /** One round of the loop over the shots: the two filters that `continue`, then the
      image of the stripped description. */
  method ImageStep(ghost i: nat, sh: Shot, sceneFilter: Option<int>, shotFilter: Option<int>, style: Json,
                   cfg: Utils.JsonFile, schema: Json, failing: set<string>)
    returns (image: seq<Action>)
    ensures image == ImageRound(sceneFilter, shotFilter, style, cfg, schema, failing)(i, sh)
  {
    if sceneFilter.Some? && ParseInt(sh.scene) != Some(sceneFilter.value) {
      return [];
    }
    if shotFilter.Some? && ParseInt(sh.shot) != Some(shotFilter.value) {
      return [];
    }
    var _, actions := GenerateStoryboardImage(Strip(sh.description), sh.scene, sh.shot, style, cfg, schema, failing);
    image := actions;
  }

  /** `for scene_number, shot_number, shot_description in shots`. */
  method GenerateImages(shots: seq<Shot>, sceneFilter: Option<int>, shotFilter: Option<int>, style: Json,
                        cfg: Utils.JsonFile, schema: Json, failing: set<string>)
    returns (actions: seq<Action>)
    ensures actions == Images(shots, sceneFilter, shotFilter, style, cfg, schema, failing)
  {
    ghost var body := ImageRound(sceneFilter, shotFilter, style, cfg, schema, failing);
    actions := [];
    var i := 0;
    while i < |shots|
      invariant 0 <= i <= |shots|
      invariant actions == Rounds(shots[..i], body)
    {
      RoundsSnoc(shots, i, body);
      var image := ImageStep(i, shots[i], sceneFilter, shotFilter, style, cfg, schema, failing);
      assert image == body(i, shots[i]);
      actions := actions + image;
      i := i + 1;
    }
    AllRounds(shots, body);
  }

  /** The shot `sh` yields the image `path` from `prompt`: it passes the filters, its
      characters and setting can be looked up, the service does not fail, and the prompt is
      assembled from its stripped description. */
  predicate IsShotImage(sh: Shot, sceneFilter: Option<int>, shotFilter: Option<int>, style: Json,
                        cfg: Utils.JsonFile, schema: Json, failing: set<string>, prompt: string, path: string) {
    var description := Strip(sh.description);
    var characters := Characters(description, schema);
    var setting := Setting(sh.scene, schema);
    Selected(sh, sceneFilter, shotFilter) && characters.Ok? && setting.Ok?
    && path == ImagePath(sh.scene, sh.shot) && path !in failing
    && prompt == Prompt(description, characters.value, setting.value, StylePrompt(style, cfg))
  }

  lemma ShotImageContent(i: nat, sh: Shot, sceneFilter: Option<int>, shotFilter: Option<int>, style: Json,
                         cfg: Utils.JsonFile, schema: Json, failing: set<string>, prompt: string, path: string)
    ensures GenerateImage(prompt, path) in ImageRound(sceneFilter, shotFilter, style, cfg, schema, failing)(i, sh)
      <==> IsShotImage(sh, sceneFilter, shotFilter, style, cfg, schema, failing, prompt, path)
  {
    var description := Strip(sh.description);
    ShotImageSaved(description, sh.scene, sh.shot, StylePrompt(style, cfg), Characters(description, schema),
                   Setting(sh.scene, schema), failing, prompt, path);
  }

  /** An image is generated exactly for the shots that pass the filters and whose
      generation does not fail, each from its own prompt and at its own path. */
  lemma ImagesOnlyForSelectedShots(shots: seq<Shot>, sceneFilter: Option<int>, shotFilter: Option<int>,
                                   style: Json, cfg: Utils.JsonFile, schema: Json, failing: set<string>,
                                   prompt: string, path: string)
    ensures GenerateImage(prompt, path) in Images(shots, sceneFilter, shotFilter, style, cfg, schema, failing)
      <==> exists i :: 0 <= i < |shots|
             && IsShotImage(shots[i], sceneFilter, shotFilter, style, cfg, schema, failing, prompt, path)
  {
    var body := ImageRound(sceneFilter, shotFilter, style, cfg, schema, failing);
    RoundsMembership(shots, body, GenerateImage(prompt, path));
    forall i | 0 <= i < |shots|
      ensures GenerateImage(prompt, path) in body(i, shots[i])
        <==> IsShotImage(shots[i], sceneFilter, shotFilter, style, cfg, schema, failing, prompt, path)
    {
      ShotImageContent(i, shots[i], sceneFilter, shotFilter, style, cfg, schema, failing, prompt, path);
    }
  }

  /** Every image is drawn from a selected shot's stripped description and ends with the
      style prompt. */
  lemma PromptsFromStrippedDescriptions(shots: seq<Shot>, sceneFilter: Option<int>, shotFilter: Option<int>,
                                        style: Json, cfg: Utils.JsonFile, schema: Json, failing: set<string>,
                                        prompt: string, path: string)
    requires GenerateImage(prompt, path) in Images(shots, sceneFilter, shotFilter, style, cfg, schema, failing)
    ensures exists i :: (0 <= i < |shots| && Selected(shots[i], sceneFilter, shotFilter)
                         && path == ImagePath(shots[i].scene, shots[i].shot)
                         && StartsWith(prompt, Strip(shots[i].description) + "\n\n"))
    ensures EndsWith(prompt, StyleLine(StylePrompt(style, cfg)))
  {
    ImagesOnlyForSelectedShots(shots, sceneFilter, shotFilter, style, cfg, schema, failing, prompt, path);
    var i :| 0 <= i < |shots| && IsShotImage(shots[i], sceneFilter, shotFilter, style, cfg, schema, failing, prompt, path);
    var description := Strip(shots[i].description);
    PromptShape(description, Characters(description, schema).value, Setting(shots[i].scene, schema).value,
                StylePrompt(style, cfg));
  }

  /** What one run of the script does: the images, the settings document the style
      resolution asks to save, and whether an error escapes. */
  datatype Outcome = Outcome(actions: seq<Action>, savedSettings: Option<map<string, Json>>, raised: bool)

  /** `generate_storyboard_images`. `storyboard` is the storyboard file's text, `None` when
      it does not exist; `schemaFile` names the schema (`""` for none) and `schema` is what
      loading it gives; `settings` and `cfg` are the project settings and the configuration
      file. */
  function Run(storyboard: Option<string>, schemaFile: string, schema: Utils.JsonFile, cliStyle: string,
               legacyStyle: string, settings: Utils.JsonFile, cfg: Utils.JsonFile, sceneFilter: Option<int>,
               shotFilter: Option<int>, failing: set<string>): (r: Outcome)
    ensures storyboard.None? ==> r == Outcome([], None, false)
    ensures r.raised <==> storyboard.Some? && schemaFile != "" && schema.Unloadable?
    ensures r.raised ==> r.actions == [] && r.savedSettings.None?
  {
    if storyboard.None? || (schemaFile != "" && schema.Missing?) then Outcome([], None, false)
    else if schemaFile != "" && schema.Unloadable? then Outcome([], None, true)
    else
      var loaded := if schemaFile != "" then schema.value else JObj(map[]);
      var style := Utils.ChooseStyle(cliStyle, legacyStyle, settings, Utils.DEFAULT_STYLE);
      Outcome(Images(Utils.ParseStoryboardShots(storyboard.value), sceneFilter, shotFilter, style, cfg, loaded, failing),
              Utils.PersistedSettings(settings, style), false)
  }

  method GenerateStoryboardImages(storyboard: Option<string>, schemaFile: string, schema: Utils.JsonFile,
                                  cliStyle: string, legacyStyle: string, settings: Utils.JsonFile,
                                  cfg: Utils.JsonFile, sceneFilter: Option<int>, shotFilter: Option<int>,
                                  failing: set<string>)
    returns (outcome: Outcome)
    ensures outcome == Run(storyboard, schemaFile, schema, cliStyle, legacyStyle, settings, cfg, sceneFilter,
                           shotFilter, failing)
  {
    if storyboard.None? {
      return Outcome([], None, false);
    }
    var loaded: Json := JObj(map[]);
    if schemaFile != "" {
      if schema.Missing? {
        return Outcome([], None, false);
      }
      if schema.Unloadable? {
        return Outcome([], None, true);
      }
      loaded := schema.value;
    }
    var style, saved := Utils.ResolveStyleProfile(cliStyle, legacyStyle, settings, Utils.DEFAULT_STYLE, true);
    var shots := Utils.ParseStoryboardShots(storyboard.value);
    var actions := GenerateImages(shots, sceneFilter, shotFilter, style, cfg, loaded, failing);
    outcome := Outcome(actions, saved, false);
  }

  /** A missing storyboard, or a schema that is named but missing, ends the run before any
      image and before the style profile is saved. */
  lemma MissingInputsDoNothing(storyboard: Option<string>, schemaFile: string, schema: Utils.JsonFile,
                               cliStyle: string, legacyStyle: string, settings: Utils.JsonFile,
                               cfg: Utils.JsonFile, sceneFilter: Option<int>, shotFilter: Option<int>,
                               failing: set<string>)
    requires storyboard.None? || (schemaFile != "" && schema.Missing?)
    ensures Run(storyboard, schemaFile, schema, cliStyle, legacyStyle, settings, cfg, sceneFilter, shotFilter,
                failing) == Outcome([], None, false)
  {
  }

  /** Failures of the image service and of the schema lookups are swallowed: the only error
      that escapes is a named schema that cannot be loaded. */
  lemma OnlyUnloadableSchemaRaises(storyboard: Option<string>, schemaFile: string, schema: Utils.JsonFile,
                                   cliStyle: string, legacyStyle: string, settings: Utils.JsonFile,
                                   cfg: Utils.JsonFile, sceneFilter: Option<int>, shotFilter: Option<int>,
                                   failing: set<string>)
    ensures Run(storyboard, schemaFile, schema, cliStyle, legacyStyle, settings, cfg, sceneFilter, shotFilter,
                failing).raised
      <==> storyboard.Some? && schemaFile != "" && schema.Unloadable?
  {
  }
}
