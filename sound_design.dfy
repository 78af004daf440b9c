/** The sound design stage script: for every scene of a narrative schema, an empty
    placeholder sound-effect file per keyword its summary mentions, numbered per scene. */
module SoundDesign {
  import opened Wrappers
  import opened PyText
  import opened JsonValue
  import opened Effects

  /** The keyword table, in the order the dict literal lists it: a keyword and the file
      named after its effect. */
  const KEYWORDS: seq<(string, string)> := [
    ("door", "door_creak.mp3"),
    ("footsteps", "footsteps.mp3"),
    ("car", "car_pass_by.mp3"),
    ("rain", "rain_loop.mp3"),
    ("explosion", "explosion.mp3"),
    ("wind", "wind_howl.mp3"),
    ("scream", "scream.mp3"),
    ("gunshot", "gunshot.mp3"),
    ("water", "water_splash.mp3"),
    ("fire", "fire_crackling.mp3")
  ]

  /** What the script did, and whether it stopped on an exception. */
  datatype Outcome = Outcome(actions: seq<Action>, failed: bool)

  /** `scene.get("summary", "").lower()`; `None` where that raises: a scene that is not a
      dict, or a summary that is not a string. */
  function SceneSummary(scene: Json): (r: Option<string>)
    ensures r.Some? ==> forall i | 0 <= i < |r.value| :: !IsUpperAscii(r.value[i])
    ensures r.Some? <==> scene.JObj? && GetOr(scene, "summary", JStr("")).JStr?
  {
    match GetOr(scene, "summary", JStr(""))
    case JStr(s) => if scene.JObj? then Some(Lower(s)) else None
    case _ => None
  }

  /** The effect files of the keywords found in `summary`, in table order. */
  function Matches(summary: string, kws: seq<(string, string)>): seq<string>
    decreases |kws|
  {
    if kws == [] then []
    else
      var last := kws[|kws| - 1];
      Matches(summary, kws[..|kws| - 1]) + (if Contains(summary, last.0) then [last.1] else [])
  }

  /** `os.path.join(output_dir, f"scene_{n:03d}_sfx_{k:03d}_{file}")`. */
  function SfxPath(outputDir: string, scene: nat, k: nat, file: string): string {
    PathJoin(outputDir, "scene_" + Pad3(scene) + "_sfx_" + Pad3(k) + "_" + file)
  }

  /** Writing an empty file per effect of a scene, the k-th of them numbered k. */
  function SceneWrites(outputDir: string, scene: nat, files: seq<string>): (r: seq<Action>)
    ensures |r| == |files|
    ensures forall k | 0 <= k < |files| :: r[k] == WriteFile(SfxPath(outputDir, scene, k + 1, files[k]), "")
    decreases |files|
  {
    if files == [] then []
    else
      var n := |files|;
      SceneWrites(outputDir, scene, files[..n - 1]) + [WriteFile(SfxPath(outputDir, scene, n, files[n - 1]), "")]
  }

  /** The scene loop over `scenes`, after `already`; it stops at the first scene whose
      summary raises. Scenes are numbered from 1. */
  function ScenesRun(outputDir: string, already: seq<Action>, scenes: seq<Json>): (r: Outcome)
    ensures already <= r.actions
    decreases |scenes|
  {
    if scenes == [] then Outcome(already, false)
    else
      var before := ScenesRun(outputDir, already, scenes[..|scenes| - 1]);
      if before.failed then before
      else
        match SceneSummary(scenes[|scenes| - 1])
        case None => Outcome(before.actions, true)
        case Some(summary) =>
          Outcome(before.actions + SceneWrites(outputDir, |scenes|, Matches(summary, KEYWORDS)), false)
  }

  /** `generate_sound_effects` on a parsed schema. A schema that is not a dict raises at
      `schema.get`; a truthy `scenes` that is not a list raises at the first scene, whether
      it cannot be iterated or yields values that have no `get`. */
  function Generate(schema: Json, outputDir: string): (r: Outcome)
    ensures !schema.JObj? ==> r == Outcome([], true)
    ensures r.actions != [] ==> r.actions[0] == MakeDirs(outputDir)
  {
    if !schema.JObj? then Outcome([], true)
    else
      var scenes := GetOr(schema, "scenes", JArr([]));
      if !Truthy(scenes) then Outcome([], false)
      else if !scenes.JArr? then Outcome([MakeDirs(outputDir)], true)
      else ScenesRun(outputDir, [MakeDirs(outputDir)], scenes.items)
  }

  // ---------------------------------------------------------------------------
  // The script's loops
  // ---------------------------------------------------------------------------

  /** The inner loop over the keyword table `kws`, with `found_sfx_count` counting
      matches. */
  method SceneEffects(outputDir: string, scene: nat, summary: string, kws: seq<(string, string)>)
    returns (writes: seq<Action>)
    ensures writes == SceneWrites(outputDir, scene, Matches(summary, kws))
  {
    writes := [];
    var found := 0;
    var j := 0;
    while j < |kws|
      invariant 0 <= j <= |kws|
      invariant found == |Matches(summary, kws[..j])|
      invariant writes == SceneWrites(outputDir, scene, Matches(summary, kws[..j]))
    {
      var (keyword, file) := kws[j];
      assert kws[..j + 1][..j] == kws[..j];
      ghost var files := Matches(summary, kws[..j]);
      if Contains(summary, keyword) {
        found := found + 1;
        assert Matches(summary, kws[..j + 1]) == files + [file];
        assert (files + [file])[..|files|] == files;
        writes := writes + [WriteFile(SfxPath(outputDir, scene, found, file), "")];
      }
      j := j + 1;
    }
    assert kws[..j] == kws;
  }

  /** `generate_sound_effects`. */
  method GenerateSoundEffects(schema: Json, outputDir: string) returns (out: Outcome)
    ensures out == Generate(schema, outputDir)
  {
    if !schema.JObj? {
      return Outcome([], true);
    }
    var scenes := GetOr(schema, "scenes", JArr([]));
    if !Truthy(scenes) {
      return Outcome([], false);
    }
    var actions := [MakeDirs(outputDir)];
    if !scenes.JArr? {
      return Outcome(actions, true);
    }
    var items := scenes.items;
    var i := 0;
    while i < |items|
      invariant 0 <= i <= |items|
      invariant ScenesRun(outputDir, [MakeDirs(outputDir)], items[..i]) == Outcome(actions, false)
    {
      assert items[..i + 1][..i] == items[..i];
      var summary := SceneSummary(items[i]);
      if summary.None? {
        assert ScenesRun(outputDir, [MakeDirs(outputDir)], items[..i + 1]) == Outcome(actions, true);
        assert ScenesRun(outputDir, [MakeDirs(outputDir)], items) == Outcome(actions, true) by {
          FailureIsFinal(outputDir, [MakeDirs(outputDir)], items, i + 1);
        }
        return Outcome(actions, true);
      }
      var writes := SceneEffects(outputDir, i + 1, summary.value, KEYWORDS);
      actions := actions + writes;
      i := i + 1;
    }
    assert items[..i] == items;
    out := Outcome(actions, false);
  }

  // ---------------------------------------------------------------------------
  // Properties
  // ---------------------------------------------------------------------------

  /** Once a scene has raised, later scenes change nothing. */
  lemma {:induction false} FailureIsFinal(outputDir: string, already: seq<Action>, scenes: seq<Json>, i: nat)
    requires i <= |scenes| && ScenesRun(outputDir, already, scenes[..i]).failed
    ensures ScenesRun(outputDir, already, scenes) == ScenesRun(outputDir, already, scenes[..i])
    decreases |scenes| - i
  {
    if i < |scenes| {
      assert scenes[..i + 1][..i] == scenes[..i];
      FailureIsFinal(outputDir, already, scenes, i + 1);
    } else {
      assert scenes[..i] == scenes;
    }
  }

  /** A keyword's file is among a summary's effects exactly when the summary contains the
      keyword. */
  lemma {:induction false} MatchesExactly(summary: string, kws: seq<(string, string)>, f: string)
    ensures f in Matches(summary, kws) <==> exists i :: 0 <= i < |kws| && kws[i].1 == f && Contains(summary, kws[i].0)
    decreases |kws|
  {
    if kws != [] {
      var init := kws[..|kws| - 1];
      MatchesExactly(summary, init, f);
      if exists i :: 0 <= i < |init| && init[i].1 == f && Contains(summary, init[i].0) {
        var i :| 0 <= i < |init| && init[i].1 == f && Contains(summary, init[i].0);
        assert kws[i] == init[i];
      }
      if exists i :: 0 <= i < |kws| && kws[i].1 == f && Contains(summary, kws[i].0) {
        var i :| 0 <= i < |kws| && kws[i].1 == f && Contains(summary, kws[i].0);
        if i < |init| {
          assert init[i] == kws[i];
        }
      }
    }
  }

  /** A scene has at most one effect per keyword. */
  lemma {:induction false} MatchesBounded(summary: string, kws: seq<(string, string)>)
    ensures |Matches(summary, kws)| <= |kws|
    decreases |kws|
  {
    if kws != [] {
      MatchesBounded(summary, kws[..|kws| - 1]);
    }
  }

  /** With no scenes (a missing, empty or false `scenes`), nothing is created, not even the
      output directory. */
  lemma NoScenesNoEffects(schema: Json, outputDir: string)
    requires schema.JObj? && !Truthy(GetOr(schema, "scenes", JArr([])))
    ensures Generate(schema, outputDir) == Outcome([], false)
  {
  }

  /** Every effect describes one write done by the script: the output directory is created
      first, and after it only empty files are written, each named after a scene numbered
      1..|scenes| and a per-scene count 1..|KEYWORDS|. */
  ghost predicate EffectFile(a: Action, outputDir: string, sceneCount: nat) {
    a.WriteFile? && a.content == ""
    && exists n: nat, k: nat, f: string :: 1 <= n <= sceneCount && 1 <= k <= |KEYWORDS|
         && a.path == SfxPath(outputDir, n, k, f)
  }

  lemma {:induction false} ScenesRunFiles(outputDir: string, scenes: seq<Json>)
    ensures var out := ScenesRun(outputDir, [MakeDirs(outputDir)], scenes);
      |out.actions| >= 1 && out.actions[0] == MakeDirs(outputDir)
      && forall j | 1 <= j < |out.actions| :: EffectFile(out.actions[j], outputDir, |scenes|)
    decreases |scenes|
  {
    if scenes != [] {
      var init := scenes[..|scenes| - 1];
      ScenesRunFiles(outputDir, init);
      var before := ScenesRun(outputDir, [MakeDirs(outputDir)], init);
      if !before.failed {
        var summary := SceneSummary(scenes[|scenes| - 1]);
        if summary.Some? {
          var files := Matches(summary.value, KEYWORDS);
          var w := SceneWrites(outputDir, |scenes|, files);
          MatchesBounded(summary.value, KEYWORDS);
          var all := before.actions + w;
          forall j | 1 <= j < |all| ensures EffectFile(all[j], outputDir, |scenes|) {
            if j < |before.actions| {
              assert EffectFile(before.actions[j], outputDir, |init|);
            } else {
              var k := j - |before.actions|;
              assert all[j] == WriteFile(SfxPath(outputDir, |scenes|, k + 1, files[k]), "");
            }
          }
        }
      }
    }
  }

  lemma SoundEffectFiles(schema: Json, outputDir: string)
    requires schema.JObj? && GetOr(schema, "scenes", JArr([])).JArr? && Truthy(GetOr(schema, "scenes", JArr([])))
    ensures var out := Generate(schema, outputDir);
      |out.actions| >= 1 && out.actions[0] == MakeDirs(outputDir)
      && forall j | 1 <= j < |out.actions| :: EffectFile(out.actions[j], outputDir, |GetOr(schema, "scenes", JArr([])).items|)
  {
    ScenesRunFiles(outputDir, GetOr(schema, "scenes", JArr([])).items);
  }

  /** The script stops on an exception exactly when some scene's summary raises. */
  lemma {:induction false} FailsIffBadScene(outputDir: string, already: seq<Action>, scenes: seq<Json>)
    ensures ScenesRun(outputDir, already, scenes).failed <==> exists i :: 0 <= i < |scenes| && SceneSummary(scenes[i]).None?
    decreases |scenes|
  {
    if scenes != [] {
      var init := scenes[..|scenes| - 1];
      FailsIffBadScene(outputDir, already, init);
      FailedStep(outputDir, already, scenes);
      BadSceneSnoc(scenes);
    }
  }

  /** One more scene fails the loop when the loop had failed or that scene's summary raises. */
  lemma FailedStep(outputDir: string, already: seq<Action>, scenes: seq<Json>)
    requires scenes != []
    ensures ScenesRun(outputDir, already, scenes).failed
      <==> ScenesRun(outputDir, already, scenes[..|scenes| - 1]).failed || SceneSummary(scenes[|scenes| - 1]).None?
  {
  }

  predicate HasBadScene(scenes: seq<Json>) {
    exists i :: 0 <= i < |scenes| && SceneSummary(scenes[i]).None?
  }

  lemma BadSceneSnoc(scenes: seq<Json>)
    requires scenes != []
    ensures HasBadScene(scenes) <==> HasBadScene(scenes[..|scenes| - 1]) || SceneSummary(scenes[|scenes| - 1]).None?
  {
    var init := scenes[..|scenes| - 1];
    if exists i :: 0 <= i < |scenes| && SceneSummary(scenes[i]).None? {
      var i :| 0 <= i < |scenes| && SceneSummary(scenes[i]).None?;
      if i < |init| {
        assert scenes[i] == init[i];
      }
    }
    if exists i :: 0 <= i < |init| && SceneSummary(init[i]).None? {
      var i :| 0 <= i < |init| && SceneSummary(init[i]).None?;
      assert scenes[i] == init[i];
    }
  }
}
