/** The shared helpers of the stage scripts: choosing and persisting the style profile,
    mapping it to a style prompt, parsing storyboard shots, and looking up the characters of
    a shot and the setting of a scene in a narrative schema. Files are given as what reading
    them yields. */
module Utils {
  import opened Wrappers
  import opened PyText
  import opened JsonValue
  import opened Shots

  /** What loading a JSON file gives: the file does not exist, loading it raises (unreadable
      or not JSON), or its parsed contents. */
  datatype JsonFile = Missing | Unloadable | Loaded(value: Json)

  const DEFAULT_STYLE := "photorealistic"

  // ---------------------------------------------------------------------------
  // resolve_style_profile
  // ---------------------------------------------------------------------------

  /** `settings.get("style_profile") or settings.get("style")` on the settings file, `None`
      when it is missing, cannot be loaded or is not a dict. */
  function SettingsStyle(settings: JsonFile): Json {
    if settings.Loaded? && settings.value.JObj? then
      var profile := GetOr(settings.value, "style_profile", JNull);
      if Truthy(profile) then profile else GetOr(settings.value, "style", JNull)
    else JNull
  }

  /** The style profile `resolve_style_profile` returns. `""` stands for `None`. */
  function ChooseStyle(cliStyle: string, legacyStyle: string, settings: JsonFile, default: string): (r: Json)
    ensures cliStyle != "" ==> r == JStr(cliStyle)
    ensures cliStyle == "" && legacyStyle != "" ==> r == JStr(legacyStyle)
    ensures r in {JStr(cliStyle), JStr(legacyStyle), SettingsStyle(settings), JStr(default)}
    ensures default != "" ==> Truthy(r)
  {
    if cliStyle != "" then JStr(cliStyle)
    else if legacyStyle != "" then JStr(legacyStyle)
    else
      var fromFile := SettingsStyle(settings);
      if Truthy(fromFile) then fromFile else JStr(default)
  }

  /** The document `save_json` is asked to write when persisting: the settings loaded again
      (`{}` when missing, unloadable or falsy) with both style keys set; `None` when the
      loaded value is not a dict, so that setting a key raises and is ignored. */
  function PersistedSettings(settings: JsonFile, style: Json): Option<map<string, Json>> {
    var existing := if settings.Loaded? && Truthy(settings.value) then settings.value else JObj(map[]);
    if existing.JObj? then Some(existing.fields["style_profile" := style]["style" := style]) else None
  }

  /** `resolve_style_profile`: the chosen profile, and the settings document written when
      `persist` is set. Whether the write itself succeeds does not matter: a failure is
      caught and ignored. */
  method ResolveStyleProfile(cliStyle: string, legacyStyle: string, settings: JsonFile, default: string,
                             persist: bool)
    returns (style: Json, saved: Option<map<string, Json>>)
    ensures style == ChooseStyle(cliStyle, legacyStyle, settings, default)
    ensures saved == (if persist then PersistedSettings(settings, style) else None)
  {
    style := JNull;
    if cliStyle != "" {
      style := JStr(cliStyle);
    } else if legacyStyle != "" {
      style := JStr(legacyStyle);
    } else if settings.Loaded? {
      if settings.value.JObj? {
        style := GetOr(settings.value, "style_profile", JNull);
        if !Truthy(style) {
          style := GetOr(settings.value, "style", JNull);
        }
      }
    }
    if !Truthy(style) {
      style := JStr(default);
    }
    saved := None;
    if persist {
      var existing: Json := JObj(map[]);
      if settings.Loaded? && Truthy(settings.value) {
        existing := settings.value;
      }
      if existing.JObj? {
        var fields := existing.fields;
        fields := fields["style_profile" := style];
        fields := fields["style" := style];
        saved := Some(fields);
      }
    }
  }

  /** The order of precedence: the command-line profile, the legacy `--style`, the settings
      file's `style_profile`, its `style`, and the default; empty values count as absent. */
  lemma StylePrecedence(cliStyle: string, legacyStyle: string, settings: JsonFile, default: string)
    ensures var r := ChooseStyle(cliStyle, legacyStyle, settings, default);
      (cliStyle != "" ==> r == JStr(cliStyle))
      && (cliStyle == "" && legacyStyle != "" ==> r == JStr(legacyStyle))
      && (cliStyle == "" && legacyStyle == "" && settings.Loaded? && settings.value.JObj?
          && Truthy(GetOr(settings.value, "style_profile", JNull))
          ==> r == settings.value.fields["style_profile"])
      && (cliStyle == "" && legacyStyle == "" && settings.Loaded? && settings.value.JObj?
          && !Truthy(GetOr(settings.value, "style_profile", JNull))
          && Truthy(GetOr(settings.value, "style", JNull))
          ==> r == settings.value.fields["style"])
      && (cliStyle == "" && legacyStyle == "" && !Truthy(SettingsStyle(settings)) ==> r == JStr(default))
      && (default != "" ==> Truthy(r))
  {
  }

  /** A settings file that is missing, cannot be loaded or is not a dict leaves the choice
      to the arguments and the default. */
  lemma UnusableSettingsIgnored(cliStyle: string, legacyStyle: string, settings: JsonFile, default: string)
    requires !settings.Loaded? || !settings.value.JObj?
    ensures ChooseStyle(cliStyle, legacyStyle, settings, default)
      == ChooseStyle(cliStyle, legacyStyle, Missing, default)
  {
  }

  /** Persisting sets both style keys to the returned profile and keeps every other key of
      the settings dict; missing, unloadable and falsy settings are replaced by the two keys
      alone. */
  lemma PersistKeepsOtherSettings(settings: JsonFile, style: Json)
    ensures var saved := PersistedSettings(settings, style);
      (saved.Some? ==> saved.value["style_profile"] == style && saved.value["style"] == style)
      && (settings.Loaded? && settings.value.JObj? ==>
            saved.Some?
            && saved.value.Keys == settings.value.fields.Keys + {"style_profile", "style"}
            && forall k | k in settings.value.fields && k != "style_profile" && k != "style" ::
                 saved.value[k] == settings.value.fields[k])
      && (!settings.Loaded? || !Truthy(settings.value) ==>
            saved == Some(map["style_profile" := style, "style" := style]))
      && (settings.Loaded? && Truthy(settings.value) && !settings.value.JObj? ==> saved.None?)
  {
  }

  // ---------------------------------------------------------------------------
  // resolve_style_prompt
  // ---------------------------------------------------------------------------

  /** `resolve_style_prompt`: the prompt mapped to the profile under `styles` in the
      configuration file when it is truthy, otherwise the profile itself; any error while
      loading or looking it up also gives the profile. */
  function ResolveStylePrompt(profile: string, cfg: JsonFile): (r: Json)
    ensures r == JStr(profile) || Truthy(r)
  {
    if cfg.Loaded? then
      var styles := if cfg.value.JObj? then GetOr(cfg.value, "styles", JObj(map[])) else JObj(map[]);
      if styles.JObj? then
        var mapped := GetOr(styles, profile, JNull);
        if Truthy(mapped) then mapped else JStr(profile)
      else JStr(profile)
    else JStr(profile)
  }

  /** The mapped prompt is used exactly when the configuration maps the profile to a truthy
      value; a missing or broken configuration gives the profile. */
  lemma StylePromptMapping(profile: string, cfg: JsonFile)
    ensures var mapped := if cfg.Loaded? then GetOr(GetOr(cfg.value, "styles", JNull), profile, JNull) else JNull;
      (Truthy(mapped) ==> ResolveStylePrompt(profile, cfg) == mapped)
      && (!Truthy(mapped) ==> ResolveStylePrompt(profile, cfg) == JStr(profile))
    ensures !cfg.Loaded? ==> ResolveStylePrompt(profile, cfg) == JStr(profile)
  {
  }

  // ---------------------------------------------------------------------------
  // parse_storyboard_shots
  // ---------------------------------------------------------------------------

  /** `parse_storyboard_shots`: the single-spaced shot headers, each with its description. */
  function ParseStoryboardShots(content: string): (r: seq<Shot>)
    ensures forall k | 0 <= k < |r| :: WellFormed(r[k])
  {
    FoundShotsWellFormed(SingleSpaced, content);
    FindAll(SingleSpaced, content)
  }

  // ---------------------------------------------------------------------------
  // get_characters_in_shot
  // ---------------------------------------------------------------------------

  /** The elements `for c in schema.get("characters", [])` visits. A non-empty dict or
      string yields strings, whose `.get` raises; other non-lists are not iterable. */
  function CharacterEntries(schema: Json): Result<seq<Json>> {
    if !schema.JObj? then Err("'schema' has no attribute 'get'")
    else
      match Get(schema, "characters")
      case None => Ok([])
      case Some(v) =>
        if v.JArr? then Ok(v.items)
        else if v == JObj(map[]) || v == JStr("") then Ok([])
        else Err("character entry has no attribute 'get'")
  }

  /** What the comprehension's condition sees of one entry: its name when the entry is a
      dict and the name a string; anything else raises (`None in str`, a non-string left
      operand, or a missing `.get`). */
  function EntryName(c: Json): Result<string> {
    if !c.JObj? then Err("entry has no attribute 'get'")
    else
      match Get(c, "name")
      case Some(JStr(n)) => Ok(n)
      case _ => Err("'in <string>' requires string as left operand")
  }

  /** The comprehension over the entries, raising at the first entry that cannot be
      tested. */
  function MentionedNames(description: string, entries: seq<Json>): (r: Result<seq<string>>)
    ensures r.Ok? <==> forall k | 0 <= k < |entries| :: EntryName(entries[k]).Ok?
    ensures r.Ok? ==> forall k | 0 <= k < |r.value| :: Contains(description, r.value[k])
    ensures r.Ok? ==> IsSubsequence(r.value, AllNames(entries))
    ensures r.Ok? ==> forall k | 0 <= k < |entries| && Contains(description, EntryName(entries[k]).value) ::
      EntryName(entries[k]).value in r.value
    decreases |entries|
  {
    if entries == [] then Ok([])
    else
      match EntryName(entries[0])
      case Err(e) => Err(e)
      case Ok(n) =>
        assert forall k | 1 <= k < |entries| :: entries[k] == entries[1..][k - 1];
        match MentionedNames(description, entries[1..])
        case Err(e) => Err(e)
        case Ok(rest) =>
          SubsequenceCons(n, rest, AllNames(entries[1..]), Contains(description, n));
          if Contains(description, n) then Ok([n] + rest) else Ok(rest)
  }

  /** The names of the entries, where every entry has one. */
  function AllNames(entries: seq<Json>): seq<string>
    decreases |entries|
  {
    if entries == [] then []
    else (if EntryName(entries[0]).Ok? then [EntryName(entries[0]).value] else []) + AllNames(entries[1..])
  }

  /** `a` is `b` with some elements left out. */
  predicate IsSubsequence(a: seq<string>, b: seq<string>)
    decreases |b|
  {
    if a == [] then true
    else if b == [] then false
    else (a[0] == b[0] && IsSubsequence(a[1..], b[1..])) || IsSubsequence(a, b[1..])
  }

  lemma SubsequenceCons(n: string, rest: seq<string>, names: seq<string>, keep: bool)
    requires IsSubsequence(rest, names)
    ensures IsSubsequence(if keep then [n] + rest else rest, [n] + names)
  {
    var b := [n] + names;
    assert b[1..] == names;
    if keep {
      assert ([n] + rest)[1..] == rest;
    }
  }

  /** `get_characters_in_shot`: in schema order, the names of the listed characters that
      occur in the description. */
  function GetCharactersInShot(description: string, schema: Json): (r: Result<seq<string>>)
    ensures CharacterEntries(schema).Err? ==> r.Err?
    ensures r.Ok? ==> forall k | 0 <= k < |r.value| :: Contains(description, r.value[k])
    ensures r.Ok? ==> IsSubsequence(r.value, AllNames(CharacterEntries(schema).value))
  {
    match CharacterEntries(schema)
    case Err(e) => Err(e)
    case Ok(entries) => MentionedNames(description, entries)
  }

  // ---------------------------------------------------------------------------
  // get_scene_setting
  // ---------------------------------------------------------------------------

  /** Python's `v == n` for a JSON value and an integer: numbers compare by value, and
      `True`/`False` equal 1 and 0. */
  predicate EqualsInt(v: Json, n: int) {
    v == JNum(n as real) || (v.JBool? && (if v.b then 1 else 0) == n)
  }

  /** Whether the loop returns at this scene: a dict whose `scene_number` equals `n`. An
      entry that is not a dict raises inside the `try` and is skipped. */
  predicate SceneMatches(scene: Json, n: int) {
    scene.JObj? && EqualsInt(GetOr(scene, "scene_number", JNull), n)
  }

  /** `scene.get("setting", "") or ""`. */
  function SettingOf(scene: Json): Json {
    var v := GetOr(scene, "setting", JStr(""));
    if Truthy(v) then v else JStr("")
  }

  /** The elements `for scene in schema.get("scenes", [])` visits. The strings a dict or a
      string yields raise inside the `try` and are skipped, so they are left out here;
      other non-lists are not iterable and the error escapes. */
  function SceneEntries(schema: Json): Result<seq<Json>> {
    if !schema.JObj? then Err("'schema' has no attribute 'get'")
    else
      match Get(schema, "scenes")
      case None => Ok([])
      case Some(v) =>
        if v.JArr? then Ok(v.items)
        else if v.JObj? || v.JStr? then Ok([])
        else Err("object is not iterable")
  }

  /** The setting of the first scene numbered `n`, or `""`. */
  function FirstSetting(scenes: seq<Json>, n: int): (r: Json)
    ensures (forall i | 0 <= i < |scenes| :: !SceneMatches(scenes[i], n)) ==> r == JStr("")
    ensures forall i | 0 <= i < |scenes| && SceneMatches(scenes[i], n)
                     && (forall j | 0 <= j < i :: !SceneMatches(scenes[j], n)) :: r == SettingOf(scenes[i])
    ensures r == JStr("") || Truthy(r)
    decreases |scenes|
  {
    if scenes == [] then JStr("")
    else if SceneMatches(scenes[0], n) then SettingOf(scenes[0])
    else
      assert forall i | 1 <= i < |scenes| :: scenes[i] == scenes[1..][i - 1];
      FirstSetting(scenes[1..], n)
  }

  /** What `get_scene_setting` returns or raises. */
  function SceneSetting(n: int, schema: Json): Result<Json> {
    match SceneEntries(schema)
    case Err(e) => Err(e)
    case Ok(scenes) => Ok(FirstSetting(scenes, n))
  }

  /** `get_scene_setting`: the search loop with its early return. */
  method GetSceneSetting(n: int, schema: Json) returns (r: Result<Json>)
    ensures r == SceneSetting(n, schema)
  {
    var entries := SceneEntries(schema);
    if entries.Err? {
      return Err(entries.message);
    }
    var scenes := entries.value;
    var i := 0;
    while i < |scenes|
      invariant 0 <= i <= |scenes|
      invariant FirstSetting(scenes[i..], n) == FirstSetting(scenes, n)
    {
      assert scenes[i..][1..] == scenes[i + 1..];
      if SceneMatches(scenes[i], n) {
        return Ok(SettingOf(scenes[i]));
      }
      i := i + 1;
    }
    r := Ok(JStr(""));
  }
}
