/** The pipeline script under `src/`. Its narrative deconstruction and screenplay stages are
    those of the root-level script (`Pipeline.Deconstruct`, `Pipeline.ScreenplayAndStoryboard`).
    What differs is `generate_visual_assets`: a style preset looked up in the configuration,
    one portrait per character of the schema, one environment plate per distinct scene
    setting, and one storyboard image per paragraph; plate and image failures are swallowed,
    portrait failures are not. Video synthesis is a placeholder. */
module SrcPipeline {
  import opened Wrappers
  import opened PyText
  import opened JsonValue
  import opened Effects
  import Utils
  import Pipeline

  const PLATE_DEFAULT_STYLE := "3D cartoon animation, cinematic lighting"

  /** What `generate_visual_assets` did, and whether it ended by raising. */
  datatype Run = Run(actions: seq<Action>, raised: bool)

  // ---------------------------------------------------------------------------
  // The style preset
  // ---------------------------------------------------------------------------

  /** `style_prompt` after the preset lookup: `cfg.get("styles", {}).get(style)` when a style
      is given, and `None` when none is given or the lookup raises (the configuration file is
      missing or unreadable, or it or its `styles` entry is not a dict). */
  function StylePreset(style: string, cfg: Utils.JsonFile): Json {
    if style != "" && cfg.Loaded? && cfg.value.JObj? then
      var styles := GetOr(cfg.value, "styles", JObj(map[]));
      if styles.JObj? then GetOr(styles, style, JNull) else JNull
    else JNull
  }

  /** A preset is found exactly when a style is given and the configuration maps it under
      `styles`; every failure of the lookup gives `None`. */
  lemma StylePresetExactly(style: string, cfg: Utils.JsonFile)
    ensures var styles := if cfg.Loaded? then Get(cfg.value, "styles") else None;
      var found := style != "" && styles.Some? && Get(styles.value, style).Some?;
      (found ==> StylePreset(style, cfg) == Get(styles.value, style).value)
      && (!found ==> StylePreset(style, cfg) == JNull)
  {
  }

  /** The style text the calls receive: the preset rendered by an f-string when it is
      truthy, `""` (no style) otherwise. */
  function StyleText(preset: Json): string {
    if Truthy(preset) then Display(preset) else ""
  }

  // ---------------------------------------------------------------------------
  // Character portraits
  // ---------------------------------------------------------------------------

  /** The elements `for character in schema.get("Characters", [])` visits: a list's items
      or a string's characters; other values are not iterable. */
  function CharacterEntries(schema: Json): (r: Result<seq<Json>>)
    ensures var v := GetOr(schema, "Characters", JArr([]));
      r.Ok? <==> v.JArr? || v.JStr? || v == JObj(map[])
  {
    var v := GetOr(schema, "Characters", JArr([]));
    if v.JArr? then Ok(v.items)
    else if v.JStr? then Ok(seq(|v.s|, i requires 0 <= i < |v.s| => JStr([v.s[i]])))
    else if v == JObj(map[]) then Ok([])
    else Err("object is not iterable")
  }

  /** `name or str(character)` and `desc or ""`, where a dict supplies its `Name` and
      `Description`; a truthy name that is not a string raises at `.lower()`. */
  function CharacterFields(c: Json): Result<(string, string)> {
    var name := if c.JObj? then GetOr(c, "Name", JNull) else JNull;
    var desc := if c.JObj? then GetOr(c, "Description", JNull) else JNull;
    var shown := if Truthy(name) then name else JStr(Display(c));
    if shown.JStr? then Ok((shown.s, if Truthy(desc) then Display(desc) else ""))
    else Err("object has no attribute 'lower'")
  }

  /** A character that is not a dict, or a dict without a truthy name, is drawn under
      `str(character)`; a missing or falsy description becomes `""`, and a string name is
      used as it is. */
  lemma CharacterFallback(c: Json)
    ensures !c.JObj? ==> CharacterFields(c) == Ok((Display(c), ""))
    ensures c.JObj? && !Truthy(GetOr(c, "Name", JNull)) ==> CharacterFields(c).Ok? && CharacterFields(c).value.0 == Display(c)
    ensures c.JObj? && !Truthy(GetOr(c, "Description", JNull)) && CharacterFields(c).Ok? ==> CharacterFields(c).value.1 == ""
    ensures c.JObj? && GetOr(c, "Name", JNull).JStr? && GetOr(c, "Name", JNull).s != "" ==>
      CharacterFields(c).Ok? && CharacterFields(c).value.0 == GetOr(c, "Name", JNull).s
  {
  }

  /** Whether drawing this character raises: its fields raise, or the image service fails
      for its portrait. */
  predicate PortraitFails(c: Json, failing: set<string>) {
    CharacterFields(c).Err? || Pipeline.PortraitPath(CharacterFields(c).value.0) in failing
  }

  /** The portrait of a character whose drawing does not raise. */
  function CharacterPortrait(c: Json, preset: Json, failing: set<string>): seq<Action>
    requires !PortraitFails(c, failing)
  {
    var (name, desc) := CharacterFields(c).value;
    Pipeline.Portrait(name, desc, StyleText(preset))
  }

  /** One round of the character loop that does not raise. */
  function PortraitRound(preset: Json, failing: set<string>): (nat, Json) -> seq<Action> {
    (i: nat, c: Json) => if PortraitFails(c, failing) then [] else CharacterPortrait(c, preset, failing)
  }

  /** The position of the first character whose portrait fails, or the number of
      characters when none does. */
  function FirstFailure(chars: seq<Json>, failing: set<string>): (k: nat)
    ensures k <= |chars|
    ensures forall j | 0 <= j < k :: !PortraitFails(chars[j], failing)
    ensures k < |chars| ==> PortraitFails(chars[k], failing)
    decreases |chars|
  {
    if chars == [] then 0
    else if PortraitFails(chars[0], failing) then 0
    else
      var k := 1 + FirstFailure(chars[1..], failing);
      assert forall j | 1 <= j < k :: chars[j] == chars[1..][j - 1];
      k
  }

  /** Every character before position `i` is drawn without raising. */
  predicate PassesBefore(chars: seq<Json>, failing: set<string>, i: nat) {
    forall j | 0 <= j < i && j < |chars| :: !PortraitFails(chars[j], failing)
  }

  /** The first failure is the failing position that every earlier one passes. */
  lemma FirstFailureAt(chars: seq<Json>, failing: set<string>, i: nat)
    requires i < |chars| && PortraitFails(chars[i], failing) && PassesBefore(chars, failing, i)
    ensures FirstFailure(chars, failing) == i
  {
  }

  /** When every character passes there is no failure. */
  lemma NoFailure(chars: seq<Json>, failing: set<string>)
    requires PassesBefore(chars, failing, |chars|)
    ensures FirstFailure(chars, failing) == |chars|
  {
  }

  /** A passing character extends the passing prefix. */
  lemma PassingPrefix(chars: seq<Json>, failing: set<string>, i: nat)
    requires i < |chars| && !PortraitFails(chars[i], failing) && PassesBefore(chars, failing, i)
    ensures PassesBefore(chars, failing, i + 1)
  {
  }

  /** The loop over the characters: `generate_character_portrait` has no `try`, so the first
      failure ends the loop and the whole call. */
  function Portraits(chars: seq<Json>, preset: Json, failing: set<string>): Run {
    var k := FirstFailure(chars, failing);
    Run(Rounds(chars[..k], PortraitRound(preset, failing)), k < |chars|)
  }

  method CharacterPortraits(chars: seq<Json>, preset: Json, failing: set<string>) returns (run: Run)
    ensures run == Portraits(chars, preset, failing)
  {
    ghost var body := PortraitRound(preset, failing);
    var actions: seq<Action> := [];
    var i := 0;
    while i < |chars|
      invariant 0 <= i <= |chars|
      invariant PassesBefore(chars, failing, i)
      invariant actions == Rounds(chars[..i], body)
    {
      var fails := PortraitFails(chars[i], failing);
      if fails {
        FirstFailureAt(chars, failing, i);
        PortraitsUpTo(chars, preset, failing, i);
        return Run(actions, true);
      }
      PassingPrefix(chars, failing, i);
      var portrait := PortraitStep(i, chars[i], preset, failing);
      RoundsSnoc(chars, i, body);
      assert portrait == body(i, chars[i]);
      actions := actions + portrait;
      i := i + 1;
    }
    NoFailure(chars, failing);
    PortraitsUpTo(chars, preset, failing, i);
    run := Run(actions, false);
  }

  /** The loop's outcome once the first failure is known to be at `k`. */
  lemma PortraitsUpTo(chars: seq<Json>, preset: Json, failing: set<string>, k: nat)
    requires FirstFailure(chars, failing) == k
    ensures Portraits(chars, preset, failing) == Run(Rounds(chars[..k], PortraitRound(preset, failing)), k < |chars|)
  {
  }

  /** One character of the loop whose drawing does not raise. */
  method PortraitStep(ghost i: nat, c: Json, preset: Json, failing: set<string>) returns (portrait: seq<Action>)
    requires !PortraitFails(c, failing)
    ensures portrait == PortraitRound(preset, failing)(i, c)
  {
    var (name, desc) := CharacterFields(c).value;
    portrait := Pipeline.Portrait(name, desc, StyleText(preset));
  }

  /** The loop raises exactly when some character's portrait fails. */
  lemma PortraitsRaiseIffFailure(chars: seq<Json>, preset: Json, failing: set<string>)
    ensures Portraits(chars, preset, failing).raised <==> exists k :: 0 <= k < |chars| && PortraitFails(chars[k], failing)
  {
  }

  /** When the loop does not raise, every character has its portrait, drawn from its name
      and description with the preset's style. */
  lemma EveryCharacterPortrayed(chars: seq<Json>, preset: Json, failing: set<string>)
    requires !Portraits(chars, preset, failing).raised
    ensures forall k | 0 <= k < |chars| ::
      (!PortraitFails(chars[k], failing)
       && CharacterPortrait(chars[k], preset, failing)[1] in Portraits(chars, preset, failing).actions)
  {
    var body := PortraitRound(preset, failing);
    assert chars[..|chars|] == chars;
    forall k | 0 <= k < |chars|
      ensures CharacterPortrait(chars[k], preset, failing)[1] in Rounds(chars, body)
    {
      var image := CharacterPortrait(chars[k], preset, failing);
      assert body(k, chars[k]) == image;
      RoundsMembership(chars, body, image[1]);
    }
  }

  // ---------------------------------------------------------------------------
  // Environment plates
  // ---------------------------------------------------------------------------

  /** The scenes `for scene in schema.get("Scene_Breakdown", [])` visits: a list's items;
      an empty string or dict has none, and any other value raises. */
  function SceneEntries(schema: Json): Result<seq<Json>> {
    var v := GetOr(schema, "Scene_Breakdown", JArr([]));
    if v.JArr? then Ok(v.items)
    else if v == JStr("") || v == JObj(map[]) then Ok([])
    else Err("string indices must be integers")
  }

  /** `scene["Setting"]` as an element of a set: a missing key, a scene that is not a dict
      and an unhashable (list or dict) setting all raise. */
  function SettingOf(scene: Json): Result<Json> {
    if !scene.JObj? then Err("object is not subscriptable")
    else if "Setting" !in scene.fields then Err("KeyError: 'Setting'")
    else
      var v := scene.fields["Setting"];
      if v.JArr? || v.JObj? then Err("unhashable type") else Ok(v)
  }

  /** The settings of the scenes, in order, or the first error. */
  function Settings(scenes: seq<Json>): (r: Result<seq<Json>>)
    ensures r.Ok? <==> forall k | 0 <= k < |scenes| :: SettingOf(scenes[k]).Ok?
    ensures r.Ok? ==> |r.value| == |scenes| && forall k | 0 <= k < |scenes| :: r.value[k] == SettingOf(scenes[k]).value
    decreases |scenes|
  {
    if scenes == [] then Ok([])
    else
      assert forall k | 1 <= k < |scenes| :: scenes[k] == scenes[1..][k - 1];
      match SettingOf(scenes[0])
      case Err(e) => Err(e)
      case Ok(v) =>
        match Settings(scenes[1..])
        case Err(e) => Err(e)
        case Ok(rest) => Ok([v] + rest)
  }

  /** `set(scene["Setting"] for scene in ...)`. */
  function Locations(schema: Json): Result<set<Json>> {
    match SceneEntries(schema)
    case Err(e) => Err(e)
    case Ok(scenes) =>
      match Settings(scenes)
      case Err(e) => Err(e)
      case Ok(settings) => Ok(set k | 0 <= k < |settings| :: settings[k])
  }

  /** The locations are the settings of the scenes, each once. */
  lemma LocationsAreSettings(schema: Json, l: Json)
    requires Locations(schema).Ok?
    ensures SceneEntries(schema).Ok?
    ensures var scenes := SceneEntries(schema).value;
      l in Locations(schema).value <==> exists k :: 0 <= k < |scenes| && SettingOf(scenes[k]) == Ok(l)
  {
    var scenes := SceneEntries(schema).value;
    var settings := Settings(scenes).value;
    if exists k :: 0 <= k < |scenes| && SettingOf(scenes[k]) == Ok(l) {
      var k :| 0 <= k < |scenes| && SettingOf(scenes[k]) == Ok(l);
      assert settings[k] == l;
    }
  }

  /** The base style of a plate: the preset when it is truthy, else the plate default. */
  function PlateStyle(preset: Json): (r: string)
    ensures !Truthy(preset) ==> r == PLATE_DEFAULT_STYLE
  {
    if Truthy(preset) then Display(preset) else PLATE_DEFAULT_STYLE
  }

  function PlatePrompt(locationName: string, preset: Json): string {
    "An environment concept art plate for \"" + locationName + "\". Art style: " + PlateStyle(preset) + "."
  }

  /** `generate_environment_plate`: a setting that is not a string raises at `.lower()`,
      and that and any failure of the image service are caught, leaving nothing. */
  function Plate(location: Json, preset: Json, failing: set<string>): seq<Action> {
    if location.JStr? && Pipeline.PlatePath(location.s) !in failing then
      [MakeDirs(Pipeline.IMAGES_DIR), GenerateImage(PlatePrompt(location.s, preset), Pipeline.PlatePath(location.s))]
    else []
  }

  function PlateRound(preset: Json, failing: set<string>): (nat, Json) -> seq<Action> {
    (i: nat, location: Json) => Plate(location, preset, failing)
  }

  /** The plate loop over the locations in the order the set yields them. */
  function Plates(order: seq<Json>, preset: Json, failing: set<string>): seq<Action> {
    Rounds(order, PlateRound(preset, failing))
  }

  /** `order` lists the elements of `s`, each once. */
  ghost predicate Enumerates(order: seq<Json>, s: set<Json>) {
    (forall i, j | 0 <= i < j < |order| :: order[i] != order[j])
    && forall x :: x in order <==> x in s
  }

  /** The loop `for location_name in locations`, for a set whose iteration order Python
      leaves unspecified: the order taken is returned alongside. */
  method EnvironmentPlates(locations: set<Json>, preset: Json, failing: set<string>)
    returns (actions: seq<Action>, order: seq<Json>)
    ensures Enumerates(order, locations)
    ensures actions == Plates(order, preset, failing)
  {
    actions := [];
    order := [];
    var remaining := locations;
    while remaining != {}
      invariant remaining <= locations
      invariant forall i, j | 0 <= i < j < |order| :: order[i] != order[j]
      invariant forall x :: x in order <==> x in locations && x !in remaining
      invariant actions == Plates(order, preset, failing)
      decreases remaining
    {
      var location :| location in remaining;
      RoundsSnoc(order + [location], |order|, PlateRound(preset, failing));
      assert (order + [location])[..|order|] == order && (order + [location])[..|order| + 1] == order + [location];
      actions := actions + Plate(location, preset, failing);
      order := order + [location];
      remaining := remaining - {location};
    }
  }

  /** `location` is saved as `path` from `prompt`: it is a string, its plate path is not
      refused by the service, and the prompt is its plate prompt. */
  predicate IsPlate(location: Json, preset: Json, failing: set<string>, prompt: string, path: string) {
    location.JStr? && path == Pipeline.PlatePath(location.s) && path !in failing
    && prompt == PlatePrompt(location.s, preset)
  }

  /** A plate's image is the one `IsPlate` describes. */
  lemma PlateContent(location: Json, preset: Json, failing: set<string>, prompt: string, path: string)
    ensures GenerateImage(prompt, path) in Plate(location, preset, failing) <==> IsPlate(location, preset, failing, prompt, path)
  {
  }

  /** Every string location not refused by the image service gets its plate, and every
      plate is of such a location. */
  lemma PlatesPerLocation(order: seq<Json>, preset: Json, failing: set<string>, prompt: string, path: string)
    ensures GenerateImage(prompt, path) in Plates(order, preset, failing)
      <==> exists k :: 0 <= k < |order| && IsPlate(order[k], preset, failing, prompt, path)
  {
    var body := PlateRound(preset, failing);
    RoundsMembership(order, body, GenerateImage(prompt, path));
    forall k | 0 <= k < |order|
      ensures GenerateImage(prompt, path) in body(k, order[k]) <==> IsPlate(order[k], preset, failing, prompt, path)
    {
      PlateContent(order[k], preset, failing, prompt, path);
    }
  }

  // ---------------------------------------------------------------------------
  // Storyboard images
  // ---------------------------------------------------------------------------

  /** Paragraph `i` as the image of its scene and shot, the style appended when there is
      one; a failure of the image service is caught and leaves nothing. */
  function ShotImage(shot: string, i: nat, preset: Json, failing: set<string>): seq<Action> {
    var path := Pipeline.StoryboardImagePath(Pipeline.ShotNumber(i).0, Pipeline.ShotNumber(i).1);
    if path in failing then []
    else [MakeDirs(Pipeline.IMAGES_DIR), GenerateImage(Pipeline.WithStyle(shot, StyleText(preset)), path)]
  }

  function ShotRound(preset: Json, failing: set<string>): (nat, string) -> seq<Action> {
    (i: nat, shot: string) => ShotImage(shot, i, preset, failing)
  }

  /** The loop over the paragraphs. */
  function ShotImages(shots: seq<string>, preset: Json, failing: set<string>): seq<Action> {
    Rounds(shots, ShotRound(preset, failing))
  }

  /** `for i, shot in enumerate(shots)`: the numbering, the styled prompt and the image. */
  method StoryboardShotImages(shots: seq<string>, preset: Json, failing: set<string>) returns (actions: seq<Action>)
    ensures actions == ShotImages(shots, preset, failing)
  {
    actions := [];
    var i := 0;
    while i < |shots|
      invariant 0 <= i <= |shots|
      invariant actions == ShotImages(shots[..i], preset, failing)
    {
      RoundsSnoc(shots, i, ShotRound(preset, failing));
      var image := ShotImageStep(i, shots[i], preset, failing);
      actions := actions + image;
      i := i + 1;
    }
    assert shots[..i] == shots;
  }

  /** One paragraph of the loop: its numbers, its styled prompt and its image, if any. */
  method ShotImageStep(i: nat, shot: string, preset: Json, failing: set<string>) returns (image: seq<Action>)
    ensures image == ShotRound(preset, failing)(i, shot)
  {
    var sceneNumber := i / 10 + 1;
    var shotNumber := i % 10 + 1;
    var prompt := shot;
    var style := StyleText(preset);
    if style != "" {
      prompt := prompt + "\n\nStyle: " + style;
    }
    assert prompt == Pipeline.WithStyle(shot, style);
    assert (sceneNumber, shotNumber) == Pipeline.ShotNumber(i);
    var path := Pipeline.StoryboardImagePath(sceneNumber, shotNumber);
    image := [];
    if path !in failing {
      image := [MakeDirs(Pipeline.IMAGES_DIR), GenerateImage(prompt, path)];
    }
  }

  /** Paragraph `shot` at index `i` is saved as `path` from `prompt`: the path names its
      scene and shot, the service does not refuse it, and the prompt is the paragraph with
      the style appended only when a preset was found. */
  predicate IsShotImage(shot: string, i: nat, preset: Json, failing: set<string>, prompt: string, path: string) {
    path == Pipeline.StoryboardImagePath(i / 10 + 1, i % 10 + 1) && path !in failing
    && prompt == Pipeline.WithStyle(shot, StyleText(preset))
  }

  /** A paragraph's image is the one `IsShotImage` describes. */
  lemma ShotImageContent(shot: string, i: nat, preset: Json, failing: set<string>, prompt: string, path: string)
    ensures GenerateImage(prompt, path) in ShotImage(shot, i, preset, failing) <==> IsShotImage(shot, i, preset, failing, prompt, path)
  {
  }

  /** An image is saved exactly for each paragraph the image service does not refuse. */
  lemma ShotImagesPerParagraph(shots: seq<string>, preset: Json, failing: set<string>, prompt: string, path: string)
    ensures GenerateImage(prompt, path) in ShotImages(shots, preset, failing)
      <==> exists i :: 0 <= i < |shots| && IsShotImage(shots[i], i, preset, failing, prompt, path)
  {
    var body := ShotRound(preset, failing);
    RoundsMembership(shots, body, GenerateImage(prompt, path));
    forall i | 0 <= i < |shots|
      ensures GenerateImage(prompt, path) in body(i, shots[i]) <==> IsShotImage(shots[i], i, preset, failing, prompt, path)
    {
      ShotImageContent(shots[i], i, preset, failing, prompt, path);
    }
  }

  // ---------------------------------------------------------------------------
  // generate_visual_assets
  // ---------------------------------------------------------------------------

  /** `generate_visual_assets` on the storyboard text and the loaded schema, with `order`
      the iteration order of the set of locations and `failing` the images the service
      fails to produce. */
  function VisualAssets(storyboardText: string, schema: Json, style: string, cfg: Utils.JsonFile,
                        failing: set<string>, order: seq<Json>): (r: Run)
    ensures !schema.JObj? || Locations(schema).Err? || CharacterEntries(schema).Err? ==> r == Run([], true)
    ensures schema.JObj? && Locations(schema).Ok? && CharacterEntries(schema).Ok? ==>
              Portraits(CharacterEntries(schema).value, StylePreset(style, cfg), failing).actions <= r.actions
  {
    if !schema.JObj? || Locations(schema).Err? || CharacterEntries(schema).Err? then Run([], true)
    else
      var preset := StylePreset(style, cfg);
      var portraits := Portraits(CharacterEntries(schema).value, preset, failing);
      if portraits.raised then portraits
      else Run(portraits.actions + Plates(order, preset, failing)
                 + ShotImages(Split(Strip(storyboardText), "\n\n"), preset, failing), false)
  }

  /** `generate_visual_assets`. */
  method GenerateVisualAssets(storyboardText: string, schema: Json, style: string, cfg: Utils.JsonFile,
                              failing: set<string>)
    returns (run: Run, order: seq<Json>)
    ensures Locations(schema).Ok? && !run.raised ==> Enumerates(order, Locations(schema).value)
    ensures run == VisualAssets(storyboardText, schema, style, cfg, failing, order)
  {
    order := [];
    if !schema.JObj? {
      return Run([], true), order;
    }
    var locations := Locations(schema);
    if locations.Err? {
      return Run([], true), order;
    }
    var preset := StylePreset(style, cfg);
    var characters := CharacterEntries(schema);
    if characters.Err? {
      return Run([], true), order;
    }
    var portraits := CharacterPortraits(characters.value, preset, failing);
    if portraits.raised {
      return portraits, order;
    }
    var plates;
    plates, order := EnvironmentPlates(locations.value, preset, failing);
    var images := StoryboardShotImages(Split(Strip(storyboardText), "\n\n"), preset, failing);
    run := Run(portraits.actions + plates + images, false);
  }

  /** Plate and storyboard-image failures are swallowed: whether the call raises depends
      only on the schema and on which portraits fail. */
  lemma OnlyPortraitFailuresRaise(storyboardText: string, schema: Json, style: string, cfg: Utils.JsonFile,
                                  failing: set<string>, order: seq<Json>)
    ensures var run := VisualAssets(storyboardText, schema, style, cfg, failing, order);
      run.raised <==> !schema.JObj? || Locations(schema).Err? || CharacterEntries(schema).Err?
                      || exists k :: 0 <= k < |CharacterEntries(schema).value|
                                     && PortraitFails(CharacterEntries(schema).value[k], failing)
  {
    if schema.JObj? && Locations(schema).Ok? && CharacterEntries(schema).Ok? {
      PortraitsRaiseIffFailure(CharacterEntries(schema).value, StylePreset(style, cfg), failing);
    }
  }

  /** `synthesize_video_from_storyboard`, a placeholder: it always returns `None`. */
  function SynthesizeVideo(storyboardFile: string): (r: Option<string>)
    ensures r.None?
  {
    None
  }
}
