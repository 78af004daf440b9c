/** The root-level pipeline script: narrative deconstruction and screenplay generation around
    the generation service (its answers are parameters), the storyboard images numbered from
    paragraph positions, and video synthesis, which groups the storyboard's shots by scene,
    processes the scenes in ascending order and joins the scene videos into one film. */
module Pipeline {
  import opened Wrappers
  import opened PyText
  import opened Fences
  import opened Naming
  import opened Shots
  import opened Grouping
  import opened Effects
  import VideoSynthesis

  const IMAGES_DIR := "output/storyboard_images"
  const SCREENPLAY_DIR := "output/screenplay"
  const STORYBOARD_DIR := "output/storyboard_text"
  const DEFAULT_ART_STYLE := "3D cartoon animation, detailed, expressive"

  // ---------------------------------------------------------------------------
  // deconstruct_narrative and generate_screenplay_and_storyboard
  // ---------------------------------------------------------------------------

  /** Where `deconstruct_narrative` saves the schema of a story file. */
  function SchemaPath(storyFile: string): string {
    PathJoin(NARRATIVE_SCHEMA_DIR, SchemaFileName(storyFile))
  }

  /** `deconstruct_narrative` given the generated text (the streamed answer, concatenated):
      the fences are stripped and the schema is saved. */
  function Deconstruct(storyFile: string, response: string): (r: seq<Action>)
    ensures |r| == 2 && r[0] == MakeDirs(NARRATIVE_SCHEMA_DIR)
    ensures r[1] == WriteFile(PathJoin(NARRATIVE_SCHEMA_DIR, Stem(storyFile) + SCHEMA_SUFFIX + ".json"),
                              StripFences(response))
  {
    [MakeDirs(NARRATIVE_SCHEMA_DIR), WriteFile(SchemaPath(storyFile), StripFences(response))]
  }

  function ScreenplayPath(schemaFile: string): string {
    PathJoin(SCREENPLAY_DIR, ScreenplayFileName(ProjectNameFromSchema(schemaFile)))
  }

  function StoryboardPath(schemaFile: string): string {
    PathJoin(STORYBOARD_DIR, StoryboardFileName(ProjectNameFromSchema(schemaFile)))
  }

  /** `generate_screenplay_and_storyboard` given the two generated texts. */
  function ScreenplayAndStoryboard(schemaFile: string, screenplay: string, storyboard: string): (r: seq<Action>)
    ensures |r| == 4 && r[0] == MakeDirs(SCREENPLAY_DIR) && r[1] == MakeDirs(STORYBOARD_DIR)
    ensures r[2] == WriteFile(PathJoin(SCREENPLAY_DIR, ProjectNameFromSchema(schemaFile) + "_screenplay.txt"), screenplay)
    ensures r[3] == WriteFile(PathJoin(STORYBOARD_DIR, ProjectNameFromSchema(schemaFile) + "_storyboard.txt"), storyboard)
  {
    [MakeDirs(SCREENPLAY_DIR), MakeDirs(STORYBOARD_DIR),
     WriteFile(ScreenplayPath(schemaFile), screenplay), WriteFile(StoryboardPath(schemaFile), storyboard)]
  }

  /** A fenced answer is saved as the JSON inside the fence. */
  lemma SchemaSavedUnfenced(storyFile: string, body: string)
    ensures Deconstruct(storyFile, OPEN_FENCE + body + CLOSE_FENCE)[1] == WriteFile(SchemaPath(storyFile), body)
  {
    FencedRoundTrip(body);
  }

  /** The screenplay and storyboard of a story's schema are named after the story. */
  lemma StageNamesFollowStory(storyFile: string)
    requires !Contains(Stem(storyFile), SCHEMA_SUFFIX)
    ensures ScreenplayPath(SchemaPath(storyFile)) == PathJoin(SCREENPLAY_DIR, Stem(storyFile) + "_screenplay.txt")
    ensures StoryboardPath(SchemaPath(storyFile)) == PathJoin(STORYBOARD_DIR, Stem(storyFile) + "_storyboard.txt")
  {
    SchemaNameRoundTrip(NARRATIVE_SCHEMA_DIR, storyFile);
  }

  // ---------------------------------------------------------------------------
  // Portraits, plates and storyboard images
  // ---------------------------------------------------------------------------

  /** `name.lower().replace(' ', '_')`. */
  function AssetName(name: string): (r: string)
    ensures |r| == |name|
    ensures forall i | 0 <= i < |r| :: r[i] != ' ' && !IsUpperAscii(r[i])
  {
    ReplaceChar(Lower(name), ' ', '_')
  }

  /** `style_prompt or DEFAULT_ART_STYLE`. */
  function BaseStyle(style: string): (r: string)
    ensures r != ""
  {
    if style != "" then style else DEFAULT_ART_STYLE
  }

  function PortraitPrompt(name: string, description: string, style: string): string {
    "A full-body character concept art of " + name + ". Description: " + description
      + ". Art style: " + BaseStyle(style) + "."
  }

  function PortraitPath(name: string): string {
    PathJoin(IMAGES_DIR, "character_" + AssetName(name) + ".png")
  }

  /** `generate_character_portrait`. */
  function Portrait(name: string, description: string, style: string): seq<Action> {
    [MakeDirs(IMAGES_DIR), GenerateImage(PortraitPrompt(name, description, style), PortraitPath(name))]
  }

  function PlatePrompt(locationName: string, style: string): string {
    "A highly detailed background environment of " + locationName + ". Art style: " + BaseStyle(style) + "."
  }

  function PlatePath(locationName: string): string {
    PathJoin(IMAGES_DIR, "environment_" + AssetName(locationName) + ".png")
  }

  /** `generate_environment_plate`. */
  function Plate(locationName: string, style: string): seq<Action> {
    [MakeDirs(IMAGES_DIR), GenerateImage(PlatePrompt(locationName, style), PlatePath(locationName))]
  }

  /** Case and the choice between space and underscore do not tell two names apart: the
      names lower-case and differing only there share one image file. */
  lemma {:induction false} AssetNameCollisions(a: string, b: string)
    requires |a| == |b|
    requires forall i | 0 <= i < |a| ::
      (LowerChar(a[i]) == LowerChar(b[i]) || (a[i] in {' ', '_'} && b[i] in {' ', '_'}))
    ensures AssetName(a) == AssetName(b)
  {
    forall i | 0 <= i < |a| ensures AssetName(a)[i] == AssetName(b)[i] {
      assert Lower(a)[i] == LowerChar(a[i]) && Lower(b)[i] == LowerChar(b[i]);
    }
  }

  /** `prompt + f"\n\nStyle: {style_prompt}"` when a style is given. */
  function WithStyle(prompt: string, style: string): (r: string)
    ensures style == "" ==> r == prompt
    ensures style != "" ==> StartsWith(r, prompt) && EndsWith(r, "Style: " + style)
  {
    if style == "" then prompt
    else
      var r := prompt + "\n\nStyle: " + style;
      assert r == prompt + ("\n\n" + ("Style: " + style));
      r
  }

  /** `f"scene_{scene_number}_shot_{shot_number}.png"` under the images directory. */
  function StoryboardImagePath(scene: nat, shot: nat): string {
    VideoSynthesis.ImagePath(IMAGES_DIR, scene, NatToString(shot))
  }

  /** `generate_storyboard_image`. */
  function StoryboardImage(description: string, scene: nat, shot: nat, style: string): seq<Action> {
    [MakeDirs(IMAGES_DIR), GenerateImage(WithStyle(description, style), StoryboardImagePath(scene, shot))]
  }

  // ---------------------------------------------------------------------------
  // Paragraph numbering
  // ---------------------------------------------------------------------------

  /** Paragraph `i` is shot `i % 10 + 1` of scene `i // 10 + 1`. */
  function ShotNumber(i: nat): (nat, nat) {
    (i / 10 + 1, i % 10 + 1)
  }

  /** Shots run 1..10 within a scene, and the paragraph index can be read back off the pair,
      so no two paragraphs share a scene and shot. */
  lemma ShotNumberExact(i: nat)
    ensures 1 <= ShotNumber(i).0 && 1 <= ShotNumber(i).1 <= 10
    ensures i == (ShotNumber(i).0 - 1) * 10 + (ShotNumber(i).1 - 1)
  {
  }

  lemma ShotNumberInjective(i: nat, j: nat)
    requires ShotNumber(i) == ShotNumber(j)
    ensures i == j
  {
    ShotNumberExact(i);
    ShotNumberExact(j);
  }

  // ---------------------------------------------------------------------------
  // generate_visual_assets_from_storyboard
  // ---------------------------------------------------------------------------

  /** `storyboard_text.strip().split("\n\n")`. */
  function StoryboardParagraphs(storyboardText: string): seq<string> {
    Split(Strip(storyboardText), "\n\n")
  }

  /** Paragraph `i`, stripped and with the style appended, as the image of its scene and
      shot; the call passes no style of its own. */
  function ParagraphImage(shot: string, i: nat, style: string): seq<Action> {
    StoryboardImage(WithStyle(Strip(shot), style), ShotNumber(i).0, ShotNumber(i).1, "")
  }

  /** The loop over the paragraphs. */
  function VisualAssets(shots: seq<string>, style: string): (r: seq<Action>)
    ensures |r| == 2 * |shots|
    decreases |shots|
  {
    if shots == [] then []
    else
      var i := |shots| - 1;
      VisualAssets(shots[..i], style) + ParagraphImage(shots[i], i, style)
  }

  /** Whether the image request for paragraph `i` is refused. */
  predicate ImageRefused(i: nat, failing: set<string>) {
    StoryboardImagePath(ShotNumber(i).0, ShotNumber(i).1) in failing
  }

  /** The first paragraph from `i` on whose image request is refused, or `count`. */
  function FirstRefusedImage(i: nat, count: nat, failing: set<string>): (k: nat)
    requires i <= count
    ensures i <= k <= count
    ensures forall j | i <= j < k :: !ImageRefused(j, failing)
    ensures k < count ==> ImageRefused(k, failing)
    decreases count - i
  {
    if i == count then count
    else if ImageRefused(i, failing) then i
    else FirstRefusedImage(i + 1, count, failing)
  }

  /** The loop over the paragraphs when the image requests for the files in `failing` raise:
      the function has no `try`, so the first of them ends it, with the images before it. */
  function VisualAssetsRun(shots: seq<string>, style: string, failing: set<string>): Cut {
    var k := FirstRefusedImage(0, |shots|, failing);
    Cut(VisualAssets(shots[..k], style), k < |shots|)
  }

  /** One round of the loop: the numbering, the prompt and the image, or the exception of a
      refused request, which leaves nothing behind. */
  method ShotImage(shot: string, i: nat, style: string, failing: set<string>) returns (actions: seq<Action>, raised: bool)
    ensures raised == ImageRefused(i, failing)
    ensures actions == if raised then [] else ParagraphImage(shot, i, style)
  {
    var sceneNumber := i / 10 + 1;
    var shotNumber := i % 10 + 1;
    var prompt := Strip(shot);
    if style != "" {
      prompt := prompt + "\n\nStyle: " + style;
    }
    assert prompt == WithStyle(Strip(shot), style);
    assert (sceneNumber, shotNumber) == ShotNumber(i);
    if StoryboardImagePath(sceneNumber, shotNumber) in failing {
      return [], true;
    }
    actions := StoryboardImage(prompt, sceneNumber, shotNumber, "");
    raised := false;
  }

  /** `generate_visual_assets_from_storyboard` on the storyboard text. */
  method GenerateVisualAssets(storyboardText: string, style: string, failing: set<string>)
    returns (actions: seq<Action>, raised: bool)
    ensures Cut(actions, raised) == VisualAssetsRun(StoryboardParagraphs(storyboardText), style, failing)
  {
    actions, raised := ParagraphImages(StoryboardParagraphs(storyboardText), style, failing);
  }

  /** The loop over the paragraphs, until an image request is refused. */
  method ParagraphImages(shots: seq<string>, style: string, failing: set<string>)
    returns (actions: seq<Action>, raised: bool)
    ensures Cut(actions, raised) == VisualAssetsRun(shots, style, failing)
  {
    actions := [];
    var i := 0;
    while i < |shots|
      invariant 0 <= i <= |shots|
      invariant actions == VisualAssets(shots[..i], style)
      invariant NoneRefusedBefore(i, failing)
    {
      VisualAssetsSnoc(shots, i, style);
      var image, refused := ShotImage(shots[i], i, style, failing);
      if refused {
        RunRaisedAt(shots, style, failing, i);
        return actions, true;
      }
      NoneRefusedSnoc(i, failing);
      actions := actions + image;
      i := i + 1;
    }
    RunComplete(shots, style, failing, i);
    raised := false;
  }

  /** No paragraph before `i` has its image request refused. */
  predicate NoneRefusedBefore(i: nat, failing: set<string>) {
    forall j | 0 <= j < i :: !ImageRefused(j, failing)
  }

  lemma NoneRefusedSnoc(i: nat, failing: set<string>)
    requires NoneRefusedBefore(i, failing) && !ImageRefused(i, failing)
    ensures NoneRefusedBefore(i + 1, failing)
  {
  }

  /** A refusal at paragraph `i`, after none before it, ends the loop there. */
  lemma RunRaisedAt(shots: seq<string>, style: string, failing: set<string>, i: nat)
    requires i < |shots| && ImageRefused(i, failing)
    requires NoneRefusedBefore(i, failing)
    ensures VisualAssetsRun(shots, style, failing) == Cut(VisualAssets(shots[..i], style), true)
  {
    var k := FirstRefusedImage(0, |shots|, failing);
    assert k == i;
  }

  /** Without a refusal the loop does all paragraphs. */
  lemma RunComplete(shots: seq<string>, style: string, failing: set<string>, i: nat)
    requires i == |shots| && NoneRefusedBefore(i, failing)
    ensures VisualAssetsRun(shots, style, failing) == Cut(VisualAssets(shots[..i], style), false)
  {
    var k := FirstRefusedImage(0, |shots|, failing);
    assert k == |shots|;
  }

  /** One more paragraph adds its image at the end. */
  lemma VisualAssetsSnoc(shots: seq<string>, i: nat, style: string)
    requires i < |shots|
    ensures VisualAssets(shots[..i + 1], style) == VisualAssets(shots[..i], style) + ParagraphImage(shots[i], i, style)
  {
    assert shots[..i + 1][..i] == shots[..i] && shots[..i + 1][i] == shots[i];
  }

  lemma {:induction false} VisualAssetsLayout(shots: seq<string>, style: string)
    ensures |VisualAssets(shots, style)| == 2 * |shots|
    ensures forall i | 0 <= i < |shots| ::
      VisualAssets(shots, style)[2 * i] == ParagraphImage(shots[i], i, style)[0]
      && VisualAssets(shots, style)[2 * i + 1] == ParagraphImage(shots[i], i, style)[1]
    decreases |shots|
  {
    if shots != [] {
      var n := |shots| - 1;
      var init := shots[..n];
      VisualAssetsLayout(init, style);
      var before := VisualAssets(init, style);
      var image := ParagraphImage(shots[n], n, style);
      var all := before + image;
      assert VisualAssets(shots, style) == all;
      assert |image| == 2 && |before| == 2 * n;
      forall i | 0 <= i < |shots|
        ensures all[2 * i] == ParagraphImage(shots[i], i, style)[0]
        ensures all[2 * i + 1] == ParagraphImage(shots[i], i, style)[1]
      {
        if i < n {
          assert init[i] == shots[i];
          assert all[2 * i] == before[2 * i] && all[2 * i + 1] == before[2 * i + 1];
        } else {
          assert i == n && 2 * i == |before|;
          assert all[|before|] == image[0] && all[|before| + 1] == image[1];
        }
      }
    }
  }

  /** Every paragraph gets one image, in order, named after its scene and shot, from the
      stripped paragraph with the style appended once. */
  lemma VisualAssetsPerParagraph(shots: seq<string>, style: string)
    ensures |VisualAssets(shots, style)| == 2 * |shots|
    ensures forall i | 0 <= i < |shots| ::
      VisualAssets(shots, style)[2 * i] == MakeDirs(IMAGES_DIR)
      && VisualAssets(shots, style)[2 * i + 1]
         == GenerateImage(WithStyle(Strip(shots[i]), style), StoryboardImagePath(i / 10 + 1, i % 10 + 1))
  {
    VisualAssetsLayout(shots, style);
    var all := VisualAssets(shots, style);
    forall i | 0 <= i < |shots|
      ensures all[2 * i] == MakeDirs(IMAGES_DIR)
      ensures all[2 * i + 1] == GenerateImage(WithStyle(Strip(shots[i]), style), StoryboardImagePath(i / 10 + 1, i % 10 + 1))
    {
      var image := ParagraphImage(shots[i], i, style);
      assert all[2 * i] == image[0] && all[2 * i + 1] == image[1];
    }
  }

  /** The loop raises exactly when some paragraph's image request is refused; otherwise every
      paragraph gets its image, and when it raises the paragraphs before the refused one do. */
  lemma VisualAssetsRaiseIffRefused(shots: seq<string>, style: string, failing: set<string>)
    ensures var run := VisualAssetsRun(shots, style, failing);
      (run.raised <==> exists i :: 0 <= i < |shots| && ImageRefused(i, failing))
      && (!run.raised ==> run.actions == VisualAssets(shots, style))
      && (run.raised ==> exists k :: 0 <= k < |shots| && ImageRefused(k, failing)
                                     && run.actions == VisualAssets(shots[..k], style))
  {
    var k := FirstRefusedImage(0, |shots|, failing);
    var run := VisualAssetsRun(shots, style, failing);
    assert run == Cut(VisualAssets(shots[..k], style), k < |shots|);
    if k == |shots| {
      TakeAll(shots);
      assert forall i | 0 <= i < |shots| :: !ImageRefused(i, failing);
    } else {
      assert ImageRefused(k, failing);
    }
  }

  /** Even an empty storyboard yields one image, for scene 1, shot 1: `split` of an empty
      text gives one empty paragraph. */
  lemma EmptyStoryboardOneImage(style: string)
    ensures VisualAssets(StoryboardParagraphs(""), style)
      == [MakeDirs(IMAGES_DIR), GenerateImage(WithStyle("", style), StoryboardImagePath(1, 1))]
  {
    assert Strip("") == "";
    assert Find("", "\n\n").None?;
    var shots := StoryboardParagraphs("");
    assert shots == [""];
    assert shots[..0] == [];
    assert ShotNumber(0) == (1, 1);
    var prompt := WithStyle(Strip(""), style);
    assert prompt == WithStyle("", style);
    assert WithStyle(prompt, "") == prompt;
    assert ParagraphImage("", 0, style) == StoryboardImage(prompt, 1, 1, "");
    assert VisualAssets(shots, style) == VisualAssets([], style) + ParagraphImage("", 0, style);
  }

  // ---------------------------------------------------------------------------
  // synthesize_video_from_storyboard: shots per scene
  // ---------------------------------------------------------------------------

  /** `[p.strip() for p in parts]`. */
  function StripEach(parts: seq<string>): (r: seq<string>)
    ensures |r| == |parts| && forall k | 0 <= k < |parts| :: r[k] == Strip(parts[k])
  {
    seq(|parts|, k requires 0 <= k < |parts| => Strip(parts[k]))
  }

  /** `[p for p in xs if p]`, in order. */
  function NonEmpty(xs: seq<string>): (r: seq<string>)
    ensures forall k | 0 <= k < |r| :: r[k] != "" && r[k] in xs
    ensures forall x | x in xs && x != "" :: x in r
    decreases |xs|
  {
    if xs == [] then []
    else
      var rest := NonEmpty(xs[1..]);
      assert forall x | x in xs[1..] :: x in xs;
      assert xs == [xs[0]] + xs[1..];
      if xs[0] != "" then [xs[0]] + rest else rest
  }

  /** `[p.strip() for p in storyboard_text.split("\n\n") if p.strip()]`. */
  function Paragraphs(parts: seq<string>): seq<string> {
    NonEmpty(StripEach(parts))
  }

  /** The fallback keeps every non-blank paragraph, stripped, and nothing else. */
  lemma ParagraphsExactly(parts: seq<string>, x: string)
    ensures x in Paragraphs(parts) <==> x != "" && exists j :: 0 <= j < |parts| && x == Strip(parts[j])
  {
    var stripped := StripEach(parts);
    if x != "" && exists j :: 0 <= j < |parts| && x == Strip(parts[j]) {
      var j :| 0 <= j < |parts| && x == Strip(parts[j]);
      assert stripped[j] == x;
    }
  }

  /** The regex matches as `(int(scene), (int(shot), description.strip()))`. */
  function MatchPairs(matches: seq<Shot>): (r: seq<(nat, (nat, string))>)
    requires forall k | 0 <= k < |matches| :: WellFormed(matches[k])
    ensures |r| == |matches|
    ensures forall k | 0 <= k < |matches| :: r[k].1.1 == Strip(matches[k].description)
  {
    seq(|matches|, k requires 0 <= k < |matches| =>
      assert WellFormed(matches[k]);
      (DigitsValue(matches[k].scene), (DigitsValue(matches[k].shot), Strip(matches[k].description))))
  }

  /** The fallback: paragraph `i` as shot `i % 10 + 1` of scene `i // 10 + 1`. */
  function NumberedPairs(paragraphs: seq<string>): (r: seq<(nat, (nat, string))>)
    ensures |r| == |paragraphs|
    ensures forall k | 0 <= k < |paragraphs| :: r[k] == (ShotNumber(k).0, (ShotNumber(k).1, paragraphs[k]))
  {
    seq(|paragraphs|, k requires 0 <= k < |paragraphs| => (k / 10 + 1, (k % 10 + 1, paragraphs[k])))
  }

  /** What is appended to `shots_by_scene`, in order: the regex matches, or, when there are
      none, the numbered non-empty paragraphs. */
  function VideoShots(storyboardText: string): seq<(nat, (nat, string))> {
    var matches := FindAll(AnySpaced, storyboardText);
    FoundShotsWellFormed(AnySpaced, storyboardText);
    if matches != [] then MatchPairs(matches)
    else NumberedPairs(Paragraphs(Split(storyboardText, "\n\n")))
  }

  /** Python's `sorted` on distinct scene numbers, by insertion. */
  function InsertKey(x: nat, s: seq<nat>): (r: seq<nat>)
    ensures multiset(r) == multiset(s) + multiset{x}
    decreases |s|
  {
    if s == [] then [x]
    else if x <= s[0] then [x] + s
    else
      assert s == [s[0]] + s[1..];
      [s[0]] + InsertKey(x, s[1..])
  }

  function SortedKeys(keys: seq<nat>): (r: seq<nat>)
    ensures multiset(r) == multiset(keys)
    decreases |keys|
  {
    if keys == [] then []
    else
      assert keys == [keys[0]] + keys[1..];
      InsertKey(keys[0], SortedKeys(keys[1..]))
  }

  predicate Ascending(s: seq<nat>) {
    forall i, j | 0 <= i < j < |s| :: s[i] <= s[j]
  }

  /** Inserting a key no smaller than a bound keeps every key at or above the bound. */
  lemma InsertKeyBound(x: nat, s: seq<nat>, lo: nat)
    requires lo <= x && forall k | 0 <= k < |s| :: lo <= s[k]
    ensures forall k | 0 <= k < |InsertKey(x, s)| :: lo <= InsertKey(x, s)[k]
  {
    var r := InsertKey(x, s);
    forall k | 0 <= k < |r| ensures lo <= r[k] {
      assert r[k] in multiset(s) + multiset{x};
      if r[k] != x {
        assert r[k] in s;
      }
    }
  }

  lemma {:induction false} InsertKeyAscending(x: nat, s: seq<nat>)
    requires Ascending(s)
    ensures Ascending(InsertKey(x, s))
    decreases |s|
  {
    if s != [] && x > s[0] {
      var tail := s[1..];
      assert Ascending(tail) && forall k | 0 <= k < |tail| :: s[0] <= tail[k] by {
        assert forall k | 0 <= k < |tail| :: tail[k] == s[k + 1];
      }
      InsertKeyAscending(x, tail);
      InsertKeyBound(x, tail, s[0]);
      var rest := InsertKey(x, tail);
      var r := [s[0]] + rest;
      forall i, j | 0 <= i < j < |r| ensures r[i] <= r[j] {
        assert r[j] == rest[j - 1];
        if i > 0 {
          assert r[i] == rest[i - 1];
        }
      }
    }
  }

  /** The scenes come out in ascending order, each scene exactly as often as it came in. */
  lemma {:induction false} SortedKeysAscending(keys: seq<nat>)
    ensures Ascending(SortedKeys(keys)) && multiset(SortedKeys(keys)) == multiset(keys)
    decreases |keys|
  {
    if keys != [] {
      SortedKeysAscending(keys[1..]);
      InsertKeyAscending(keys[0], SortedKeys(keys[1..]));
    }
  }

  // ---------------------------------------------------------------------------
  // synthesize_video_from_storyboard: scenes, clips and the film
  // ---------------------------------------------------------------------------

  /** What `synthesize_video_from_storyboard` did, the path it returned, and whether it raised. */
  datatype Synthesis = Synthesis(actions: seq<Action>, film: Option<string>, raised: bool)

  function SceneVideoPath(scene: nat): string {
    PathJoin(VideoSynthesis.CLIP_DIR, "scene_" + Pad3(scene) + ".mp4")
  }

  /** The clip path for a shot: both numbers as `int`s, so `SHOT 1` and `SHOT 01` share it. */
  function ClipOf(scene: nat, shot: nat): string {
    VideoSynthesis.ClipPath(scene, NatToString(shot))
  }

  /** The clips generated for a scene's shots, one per shot whose image exists. */
  function SceneClipActions(scene: nat, shots: seq<(nat, string)>, onDisk: set<string>): seq<Action>
    decreases |shots|
  {
    if shots == [] then []
    else
      var (shot, d) := shots[|shots| - 1];
      SceneClipActions(scene, shots[..|shots| - 1], onDisk)
        + (if StoryboardImagePath(scene, shot) in onDisk
           then [GenerateClip(d, StoryboardImagePath(scene, shot), ClipOf(scene, shot))] else [])
  }

  /** `shot_video_paths` after the loop over a scene's shots. */
  function SceneClips(scene: nat, shots: seq<(nat, string)>, onDisk: set<string>): seq<string>
    decreases |shots|
  {
    if shots == [] then []
    else
      var (shot, _) := shots[|shots| - 1];
      SceneClips(scene, shots[..|shots| - 1], onDisk)
        + (if StoryboardImagePath(scene, shot) in onDisk then [ClipOf(scene, shot)] else [])
  }

  /** With clips, the concat step for the scene: the list `concat_scene_<n>.txt`, the scene
      video, and the removal of the clips and then of the list; without, nothing. */
  function SceneJoin(scene: nat, clips: seq<string>): (r: seq<Action>)
    ensures r == [] <==> clips == []
    ensures clips != [] ==>
              |r| == |clips| + 3
              && r[0] == WriteFile(VideoSynthesis.ConcatListPath(scene), ListFile(clips))
              && r[1] == ConcatVideos(VideoSynthesis.ConcatListPath(scene), SceneVideoPath(scene))
              && r[|r| - 1] == RemoveFile(VideoSynthesis.ConcatListPath(scene))
  {
    if clips == [] then []
    else
      ConcatStepShape(VideoSynthesis.ConcatListPath(scene), SceneVideoPath(scene), clips);
      ConcatStep(VideoSynthesis.ConcatListPath(scene), SceneVideoPath(scene), clips)
  }

  function SceneActions(scene: nat, shots: seq<(nat, string)>, onDisk: set<string>): seq<Action> {
    SceneClipActions(scene, shots, onDisk) + SceneJoin(scene, SceneClips(scene, shots, onDisk))
  }

  /** The loop over the scenes in `keys`: everything done, and `scene_video_paths`. */
  function ScenesActions(keys: seq<nat>, pairs: seq<(nat, (nat, string))>, onDisk: set<string>): seq<Action>
    decreases |keys|
  {
    if keys == [] then []
    else
      var k := keys[|keys| - 1];
      ScenesActions(keys[..|keys| - 1], pairs, onDisk) + SceneActions(k, Group(pairs, k), onDisk)
  }

  function SceneVideos(keys: seq<nat>, pairs: seq<(nat, (nat, string))>, onDisk: set<string>): seq<string>
    decreases |keys|
  {
    if keys == [] then []
    else
      var k := keys[|keys| - 1];
      SceneVideos(keys[..|keys| - 1], pairs, onDisk)
        + (if SceneClips(k, Group(pairs, k), onDisk) != [] then [SceneVideoPath(k)] else [])
  }

  const CONCAT_ALL := PathJoin(VideoSynthesis.CLIP_DIR, "concat_all.txt")
  const COMBINED := PathJoin(VideoSynthesis.CLIP_DIR, "combined_video.mp4")

  /** Joining the scene videos into the film, or nothing when there are none. */
  function FilmJoin(videos: seq<string>): (r: seq<Action>)
    ensures r == [] <==> videos == []
    ensures videos != [] ==>
              |r| == |videos| + 3
              && r[0] == WriteFile(CONCAT_ALL, ListFile(videos)) && r[1] == ConcatVideos(CONCAT_ALL, COMBINED)
              && r[|r| - 1] == RemoveFile(CONCAT_ALL)
  {
    if videos == [] then []
    else
      ConcatStepShape(CONCAT_ALL, COMBINED, videos);
      ConcatStep(CONCAT_ALL, COMBINED, videos)
  }

  /** `synthesize_video_from_storyboard` once the shots are collected, with `onDisk` the
      images that exist, when nothing raises. */
  function SynthesizeShots(pairs: seq<(nat, (nat, string))>, onDisk: set<string>): Synthesis {
    var keys := SortedKeys(KeyOrder(pairs));
    var videos := SceneVideos(keys, pairs, onDisk);
    Synthesis([MakeDirs(VideoSynthesis.CLIP_DIR)] + ScenesActions(keys, pairs, onDisk) + FilmJoin(videos),
              if videos == [] then None else Some(COMBINED), false)
  }

  /** The same when the clip requests for the files in `failing` fail. The function has no
      `try`, so the first exception ends it, with what was done before it and no film: a
      refused clip request, or the second `os.remove` of a clip that two shots of a scene
      share. */
  function SynthesisRun(pairs: seq<(nat, (nat, string))>, onDisk: set<string>, failing: set<string>): (r: Synthesis)
    ensures r.film == None || r.film == Some(COMBINED)
    ensures r.raised ==> r.film == None
    ensures r.actions <= SynthesizeShots(pairs, onDisk).actions
  {
    var plan := SynthesizeShots(pairs, onDisk);
    UntilRaisePrefix(plan.actions, failing, {});
    var cut := UntilRaise(plan.actions, failing, {});
    if cut.raised then Synthesis(cut.actions, None, true) else plan
  }

  /** `synthesize_video_from_storyboard` on the storyboard text. */
  function Synthesize(storyboardText: string, onDisk: set<string>, failing: set<string>): (r: Synthesis)
    ensures r.film == None || r.film == Some(COMBINED)
    ensures r.raised ==> r.film == None
    ensures r.actions <= SynthesizeShots(VideoShots(storyboardText), onDisk).actions
  {
    SynthesisRun(VideoShots(storyboardText), onDisk, failing)
  }

  /** The loop over one scene's shots, and the scene video made from its clips; a refused clip
      request, or the removal of a clip removed already, raises out of the scene. */
  method ProcessVideoScene(scene: nat, shots: seq<(nat, string)>, onDisk: set<string>, failing: set<string>)
    returns (actions: seq<Action>, clips: seq<string>, raised: bool)
    ensures Cut(actions, raised) == UntilRaise(SceneActions(scene, shots, onDisk), failing, {})
    ensures !raised ==> clips == SceneClips(scene, shots, onDisk)
  {
    actions, clips, raised := GenerateSceneClips(scene, shots, onDisk, failing);
    ghost var planned := SceneClipActions(scene, shots, onDisk);
    UntilRaiseAppend(planned, SceneJoin(scene, SceneClips(scene, shots, onDisk)), failing, {});
    if raised {
      return;
    }
    ClipActionsRemoveNothing(scene, shots, onDisk);
    RequestsRaise(planned, failing, {});
    SceneJoinRun(scene, shots, onDisk, failing, {});
    if clips != [] {
      SceneClipsApart(scene, shots, onDisk);
      var joined, joinRaised := ConcatFiles(VideoSynthesis.ConcatListPath(scene), SceneVideoPath(scene), clips, failing);
      actions := actions + joined;
      raised := joinRaised;
    } else {
      assert actions + [] == actions;
    }
  }

  /** The loop over one scene's shots: a clip for each shot whose image exists, until a clip
      request is refused. */
  method GenerateSceneClips(scene: nat, shots: seq<(nat, string)>, onDisk: set<string>, failing: set<string>)
    returns (actions: seq<Action>, clips: seq<string>, raised: bool)
    ensures Cut(actions, raised) == UntilRaise(SceneClipActions(scene, shots, onDisk), failing, {})
    ensures !raised ==> clips == SceneClips(scene, shots, onDisk)
  {
    actions := [];
    clips := [];
    raised := false;
    var i := 0;
    while i < |shots|
      invariant 0 <= i <= |shots|
      invariant actions == SceneClipActions(scene, shots[..i], onDisk)
      invariant UntilRaise(actions, failing, {}) == Cut(actions, false)
      invariant clips == SceneClips(scene, shots[..i], onDisk)
    {
      assert shots[..i + 1][..i] == shots[..i];
      var (shot, description) := shots[i];
      var image := StoryboardImagePath(scene, shot);
      if image in onDisk {
        var clip := ClipOf(scene, shot);
        var request := GenerateClip(description, image, clip);
        if clip in failing {
          SceneClipsRaiseAt(scene, shots, i, onDisk, failing);
          return actions, clips, true;
        }
        One(request, failing, Gone(actions, {}));
        CleanThen(actions, [request], failing, {});
        actions := actions + [request];
        clips := clips + [clip];
      }
      i := i + 1;
    }
    assert shots[..i] == shots;
  }

  /** `synthesize_video_from_storyboard`. */
  method SynthesizeVideo(storyboardText: string, onDisk: set<string>, failing: set<string>) returns (run: Synthesis)
    ensures run == Synthesize(storyboardText, onDisk, failing)
  {
    var pairs := VideoShots(storyboardText);
    run := SynthesizeFromShots(pairs, onDisk, failing);
  }

  /** Grouping the shots by scene, the loop over the sorted scenes, and the film. */
  method SynthesizeFromShots(pairs: seq<(nat, (nat, string))>, onDisk: set<string>, failing: set<string>)
    returns (run: Synthesis)
    ensures run == SynthesisRun(pairs, onDisk, failing)
  {
    var keyOrder, groups := GroupByKey(pairs);
    var keys := SortedKeys(keyOrder);
    assert forall k | k in keys :: k in multiset(keyOrder);
    var start := [MakeDirs(VideoSynthesis.CLIP_DIR)];
    SynthesisOutcome(pairs, onDisk, failing);
    var actions, videos, raised := ProcessVideoScenes(keys, pairs, groups, onDisk, failing);
    if raised {
      return Synthesis(start + actions, None, true);
    }
    PlanRun(pairs, onDisk, failing);
    if videos == [] {
      assert start + actions + FilmJoin(videos) == start + actions;
      return Synthesis(start + actions, None, false);
    }
    VideosApart(keys, pairs, onDisk);
    var joined, joinRaised := ConcatFiles(CONCAT_ALL, COMBINED, videos, failing);
    run := Synthesis(start + actions + joined, Some(COMBINED), joinRaised);
  }

  /** The loop over the sorted scenes, reading each scene's shots from `groups`, until one
      raises. */
  method ProcessVideoScenes(keys: seq<nat>, pairs: seq<(nat, (nat, string))>,
                            groups: map<nat, seq<(nat, string)>>, onDisk: set<string>, failing: set<string>)
    returns (actions: seq<Action>, videos: seq<string>, raised: bool)
    requires forall k | k in keys :: k in groups && groups[k] == Group(pairs, k)
    ensures Cut(actions, raised) == UntilRaise(ScenesActions(keys, pairs, onDisk), failing, {})
    ensures !raised ==> videos == SceneVideos(keys, pairs, onDisk)
  {
    actions := [];
    videos := [];
    raised := false;
    var j := 0;
    while j < |keys|
      invariant 0 <= j <= |keys|
      invariant actions == ScenesActions(keys[..j], pairs, onDisk)
      invariant UntilRaise(actions, failing, {}) == Cut(actions, false)
      invariant videos == SceneVideos(keys[..j], pairs, onDisk)
    {
      assert keys[..j + 1][..j] == keys[..j];
      var scene := keys[j];
      var sceneActions, clips, sceneRaised := ProcessVideoScene(scene, groups[scene], onDisk, failing);
      SceneStep(scene, Group(pairs, scene), onDisk, failing, Gone(actions, {}));
      if sceneRaised {
        ScenesRaiseWithin(keys, j, pairs, onDisk, failing, {});
        return actions + sceneActions, videos, true;
      }
      CleanThen(actions, sceneActions, failing, {});
      actions := actions + sceneActions;
      if clips != [] {
        videos := videos + [SceneVideoPath(scene)];
      }
      j := j + 1;
    }
    assert keys[..j] == keys;
  }

  // ---------------------------------------------------------------------------
  // How the scenes and the film run
  // ---------------------------------------------------------------------------

  /** The shots of a scene split anywhere: the clips of the first part, then of the rest. */
  lemma {:induction false} SceneClipActionsAppend(scene: nat, a: seq<(nat, string)>, b: seq<(nat, string)>, onDisk: set<string>)
    ensures SceneClipActions(scene, a + b, onDisk) == SceneClipActions(scene, a, onDisk) + SceneClipActions(scene, b, onDisk)
    decreases |b|
  {
    if b == [] {
      assert a + b == a;
    } else {
      var b' := b[..|b| - 1];
      assert (a + b)[..|a + b| - 1] == a + b' && (a + b)[|a + b| - 1] == b[|b| - 1];
      SceneClipActionsAppend(scene, a, b', onDisk);
      var (shot, d) := b[|b| - 1];
      var last := if StoryboardImagePath(scene, shot) in onDisk
        then [GenerateClip(d, StoryboardImagePath(scene, shot), ClipOf(scene, shot))] else [];
      SeqAssoc(SceneClipActions(scene, a, onDisk), SceneClipActions(scene, b', onDisk), last);
    }
  }

  /** A refused clip request for shot `i` ends the scene's loop just before it. */
  lemma SceneClipsRaiseAt(scene: nat, shots: seq<(nat, string)>, i: nat, onDisk: set<string>, failing: set<string>)
    requires i < |shots| && StoryboardImagePath(scene, shots[i].0) in onDisk && ClipOf(scene, shots[i].0) in failing
    requires UntilRaise(SceneClipActions(scene, shots[..i], onDisk), failing, {}) == Cut(SceneClipActions(scene, shots[..i], onDisk), false)
    ensures UntilRaise(SceneClipActions(scene, shots, onDisk), failing, {}) == Cut(SceneClipActions(scene, shots[..i], onDisk), true)
  {
    var (shot, d) := shots[i];
    var request := GenerateClip(d, StoryboardImagePath(scene, shot), ClipOf(scene, shot));
    assert shots[..i + 1][..i] == shots[..i] && shots[..i + 1][i] == shots[i];
    assert SceneClipActions(scene, shots[..i + 1], onDisk) == SceneClipActions(scene, shots[..i], onDisk) + [request];
    SceneClipActionsAppend(scene, shots[..i + 1], shots[i + 1..], onDisk);
    SplitAt(shots, i + 1);
    RaiseAt(SceneClipActions(scene, shots[..i], onDisk), request, SceneClipActions(scene, shots[i + 1..], onDisk), failing, {});
  }

  /** The scenes split anywhere: the first part's work, then the rest's. */
  lemma {:induction false} ScenesActionsAppend(a: seq<nat>, b: seq<nat>, pairs: seq<(nat, (nat, string))>, onDisk: set<string>)
    ensures ScenesActions(a + b, pairs, onDisk) == ScenesActions(a, pairs, onDisk) + ScenesActions(b, pairs, onDisk)
    decreases |b|
  {
    if b == [] {
      assert a + b == a;
    } else {
      var b' := b[..|b| - 1];
      var k := b[|b| - 1];
      assert (a + b)[..|a + b| - 1] == a + b' && (a + b)[|a + b| - 1] == k;
      ScenesActionsAppend(a, b', pairs, onDisk);
      SeqAssoc(ScenesActions(a, pairs, onDisk), ScenesActions(b', pairs, onDisk), SceneActions(k, Group(pairs, k), onDisk));
    }
  }

  /** A scene that raises ends the loop over the scenes with it. */
  lemma ScenesRaiseWithin(keys: seq<nat>, j: nat, pairs: seq<(nat, (nat, string))>, onDisk: set<string>,
                          failing: set<string>, gone: set<string>)
    requires j < |keys|
    requires UntilRaise(ScenesActions(keys[..j], pairs, onDisk), failing, gone) == Cut(ScenesActions(keys[..j], pairs, onDisk), false)
    requires UntilRaise(SceneActions(keys[j], Group(pairs, keys[j]), onDisk), failing,
                        Gone(ScenesActions(keys[..j], pairs, onDisk), gone)).raised
    ensures UntilRaise(ScenesActions(keys, pairs, onDisk), failing, gone)
      == Cut(ScenesActions(keys[..j], pairs, onDisk)
             + UntilRaise(SceneActions(keys[j], Group(pairs, keys[j]), onDisk), failing,
                          Gone(ScenesActions(keys[..j], pairs, onDisk), gone)).actions, true)
  {
    var done := ScenesActions(keys[..j], pairs, onDisk);
    var scene := SceneActions(keys[j], Group(pairs, keys[j]), onDisk);
    var rest := ScenesActions(keys[j + 1..], pairs, onDisk);
    assert keys[..j + 1][..j] == keys[..j] && keys[..j + 1][j] == keys[j];
    assert ScenesActions(keys[..j + 1], pairs, onDisk) == done + scene;
    ScenesActionsAppend(keys[..j + 1], keys[j + 1..], pairs, onDisk);
    SplitAt(keys, j + 1);
    assert ScenesActions(keys, pairs, onDisk) == done + scene + rest;
    RaiseWithin(done, scene, rest, failing, gone);
  }

  /** Generating clips removes no file. */
  lemma {:induction false} ClipActionsRemoveNothing(scene: nat, shots: seq<(nat, string)>, onDisk: set<string>)
    ensures RemovesNothing(SceneClipActions(scene, shots, onDisk))
    decreases |shots|
  {
    if shots != [] {
      var (shot, d) := shots[|shots| - 1];
      ClipActionsRemoveNothing(scene, shots[..|shots| - 1], onDisk);
      RemovesNothingAppend(SceneClipActions(scene, shots[..|shots| - 1], onDisk),
                           if StoryboardImagePath(scene, shot) in onDisk
                           then [GenerateClip(d, StoryboardImagePath(scene, shot), ClipOf(scene, shot))] else []);
    }
  }

  /** Right after a scene's clips are generated, every one of them is on disk. */
  lemma {:induction false} ClipsPresent(scene: nat, shots: seq<(nat, string)>, onDisk: set<string>, gone: set<string>)
    ensures NoneIn(SceneClips(scene, shots, onDisk), Gone(SceneClipActions(scene, shots, onDisk), gone))
    decreases |shots|
  {
    if shots != [] {
      var init := shots[..|shots| - 1];
      var (shot, d) := shots[|shots| - 1];
      var image := StoryboardImagePath(scene, shot);
      ClipsPresent(scene, init, onDisk, gone);
      var g0 := Gone(SceneClipActions(scene, init, onDisk), gone);
      if image in onDisk {
        var request := GenerateClip(d, image, ClipOf(scene, shot));
        assert SceneClipActions(scene, shots, onDisk) == SceneClipActions(scene, init, onDisk) + [request];
        assert SceneClips(scene, shots, onDisk) == SceneClips(scene, init, onDisk) + [ClipOf(scene, shot)];
        GoneAppend(SceneClipActions(scene, init, onDisk), [request], gone);
        GoneOne(request, g0);
        NoneInSnoc(SceneClips(scene, init, onDisk), ClipOf(scene, shot), g0, g0 - {ClipOf(scene, shot)});
      } else {
        assert SceneClipActions(scene, shots, onDisk) == SceneClipActions(scene, init, onDisk);
        assert SceneClips(scene, shots, onDisk) == SceneClips(scene, init, onDisk);
      }
    }
  }

  /** A scene's clips are all clip paths of that scene, listed for the shots whose image
      exists. */
  lemma {:induction false} SceneClipsMember(scene: nat, shots: seq<(nat, string)>, onDisk: set<string>, n: nat)
    ensures ClipOf(scene, n) in SceneClips(scene, shots, onDisk)
      <==> StoryboardImagePath(scene, n) in onDisk && ShotListed(shots, n)
    decreases |shots|
  {
    if shots != [] {
      var init := shots[..|shots| - 1];
      var shot := shots[|shots| - 1].0;
      SceneClipsMember(scene, init, onDisk, n);
      ListedSnoc(shots, n);
      VideoSynthesis.ClipPathInjective(scene, NatToString(shot), NatToString(n));
      NatToStringInjective(shot, n);
    }
  }

  /** Some shot of `shots` has number `n`. */
  predicate ShotListed(shots: seq<(nat, string)>, n: nat) {
    exists k | 0 <= k < |shots| :: shots[k].0 == n
  }

  lemma ListedSnoc(shots: seq<(nat, string)>, n: nat)
    requires shots != []
    ensures ShotListed(shots, n) <==> ShotListed(shots[..|shots| - 1], n) || shots[|shots| - 1].0 == n
  {
    var init := shots[..|shots| - 1];
    assert forall k | 0 <= k < |init| :: init[k] == shots[k];
  }

  /** Two shots of the scene have the same number and that shot's image exists: both clips go
      to the same path, which the loop then removes twice. */
  predicate SharedShot(scene: nat, shots: seq<(nat, string)>, onDisk: set<string>) {
    exists i, j | 0 <= i < j < |shots| :: shots[i].0 == shots[j].0 && StoryboardImagePath(scene, shots[i].0) in onDisk
  }

  lemma SharedShotSnoc(scene: nat, shots: seq<(nat, string)>, onDisk: set<string>)
    requires shots != []
    ensures var last := shots[|shots| - 1].0;
      SharedShot(scene, shots, onDisk)
      <==> SharedShot(scene, shots[..|shots| - 1], onDisk)
           || (StoryboardImagePath(scene, last) in onDisk && ShotListed(shots[..|shots| - 1], last))
  {
    var init := shots[..|shots| - 1];
    var last := shots[|shots| - 1].0;
    assert forall k | 0 <= k < |init| :: init[k] == shots[k];
    if SharedShot(scene, shots, onDisk) {
      var i, j :| 0 <= i < j < |shots| && shots[i].0 == shots[j].0 && StoryboardImagePath(scene, shots[i].0) in onDisk;
      if j < |init| {
        assert init[i].0 == init[j].0;
      } else {
        assert init[i].0 == last;
      }
    }
    if StoryboardImagePath(scene, last) in onDisk && ShotListed(init, last) {
      var k :| 0 <= k < |init| && init[k].0 == last;
      assert shots[k].0 == shots[|shots| - 1].0;
    }
  }

  /** A scene's clip list repeats a path exactly when two of its shots share a number whose
      image exists. */
  lemma {:induction false} SceneClipsRepeat(scene: nat, shots: seq<(nat, string)>, onDisk: set<string>)
    ensures Repeats(SceneClips(scene, shots, onDisk)) <==> SharedShot(scene, shots, onDisk)
    decreases |shots|
  {
    if shots != [] {
      var init := shots[..|shots| - 1];
      var shot := shots[|shots| - 1].0;
      var clips := SceneClips(scene, shots, onDisk);
      SceneClipsRepeat(scene, init, onDisk);
      SharedShotSnoc(scene, shots, onDisk);
      if StoryboardImagePath(scene, shot) in onDisk {
        assert clips == SceneClips(scene, init, onDisk) + [ClipOf(scene, shot)];
        assert clips[..|clips| - 1] == SceneClips(scene, init, onDisk);
        RepeatsSnoc(clips);
        SceneClipsMember(scene, init, onDisk, shot);
      } else {
        assert clips == SceneClips(scene, init, onDisk);
      }
    }
  }

  /** A scene's clips are neither its concat list nor any scene video. */
  lemma {:induction false} SceneClipsApart(scene: nat, shots: seq<(nat, string)>, onDisk: set<string>)
    ensures var clips := SceneClips(scene, shots, onDisk);
      NotListed(clips, VideoSynthesis.ConcatListPath(scene)) && NoVideos(clips)
    decreases |shots|
  {
    if shots != [] {
      var init := shots[..|shots| - 1];
      var shot := shots[|shots| - 1].0;
      var before := SceneClips(scene, init, onDisk);
      SceneClipsApart(scene, init, onDisk);
      if StoryboardImagePath(scene, shot) in onDisk {
        assert SceneClips(scene, shots, onDisk) == before + [ClipOf(scene, shot)];
        VideoSynthesis.ClipNotList(scene, NatToString(shot), scene);
        NotListedSnoc(before, ClipOf(scene, shot), VideoSynthesis.ConcatListPath(scene));
        ClipNotVideo(scene, shot);
        NoVideosSnoc(before, ClipOf(scene, shot));
      } else {
        assert SceneClips(scene, shots, onDisk) == before;
      }
    }
  }

  /** None of the paths is a scene video. */
  ghost predicate NoVideos(paths: seq<string>) {
    forall j | 0 <= j < |paths| :: NotVideo(paths[j])
  }

  lemma NoVideosSnoc(paths: seq<string>, p: string)
    requires NoVideos(paths) && NotVideo(p)
    ensures NoVideos(paths + [p])
  {
    assert forall j | 0 <= j < |paths| :: (paths + [p])[j] == paths[j];
  }

  /** No scene video. */
  ghost predicate NotVideo(p: string) {
    forall k: nat :: p != SceneVideoPath(k)
  }

  /** `scene_<scene>_shot_<shot>.mp4` is never `scene_<k:03d>.mp4`: after the scene's digits
      one goes on with `_`, the other with `.`. */
  lemma ClipNotVideo(scene: nat, shot: nat)
    ensures NotVideo(ClipOf(scene, shot))
  {
    var sc := NatToString(scene);
    var clip := "scene_" + sc + "_shot_" + NatToString(shot) + ".mp4";
    assert clip == "scene_" + (sc + ("_shot_" + NatToString(shot) + ".mp4"));
    forall k: nat ensures ClipOf(scene, shot) != SceneVideoPath(k) {
      var video := "scene_" + Pad3(k) + ".mp4";
      assert video == "scene_" + (Pad3(k) + ".mp4");
      assert clip[0] == 's' && video[0] == 's';
      PathJoinInjective(VideoSynthesis.CLIP_DIR, clip, video);
      DigitsThenSeparator(sc, "_shot_" + NatToString(shot) + ".mp4", Pad3(k), ".mp4");
      assert clip[6..] == sc + ("_shot_" + NatToString(shot) + ".mp4");
      assert video[6..] == Pad3(k) + ".mp4";
    }
  }

  /** A concat list is never a scene video. */
  lemma ListNotVideo(scene: nat)
    ensures NotVideo(VideoSynthesis.ConcatListPath(scene))
  {
    var list := "concat_scene_" + NatToString(scene) + ".txt";
    forall k: nat ensures VideoSynthesis.ConcatListPath(scene) != SceneVideoPath(k) {
      var video := "scene_" + Pad3(k) + ".mp4";
      assert list[0] == 'c' && video[0] == 's';
      PathJoinInjective(VideoSynthesis.CLIP_DIR, list, video);
    }
  }

  /** Different scenes have different video paths. */
  lemma VideoInjective(a: nat, b: nat)
    ensures SceneVideoPath(a) == SceneVideoPath(b) ==> a == b
  {
    var va := "scene_" + Pad3(a) + ".mp4";
    var vb := "scene_" + Pad3(b) + ".mp4";
    assert va[0] == 's' && vb[0] == 's';
    PathJoinInjective(VideoSynthesis.CLIP_DIR, va, vb);
    if va == vb {
      assert Pad3(a) == va[6..|va| - 4] && Pad3(b) == vb[6..|vb| - 4];
      Pad3Injective(a, b);
    }
  }

  /** The film's list is no scene video. */
  lemma ConcatAllNotVideo()
    ensures NotVideo(CONCAT_ALL)
  {
    forall k: nat ensures CONCAT_ALL != SceneVideoPath(k) {
      var video := "scene_" + Pad3(k) + ".mp4";
      assert "concat_all.txt"[0] == 'c' && video[0] == 's';
      PathJoinInjective(VideoSynthesis.CLIP_DIR, "concat_all.txt", video);
    }
  }

  /** Every file `actions` removes is no scene video. */
  ghost predicate NoVideoRemoved(actions: seq<Action>) {
    forall i | 0 <= i < |actions| :: actions[i].RemoveFile? ==> NotVideo(actions[i].path)
  }

  lemma NoVideoRemovedAppend(a: seq<Action>, b: seq<Action>)
    requires NoVideoRemoved(a) && NoVideoRemoved(b)
    ensures NoVideoRemoved(a + b)
  {
    forall i | 0 <= i < |a + b| && (a + b)[i].RemoveFile? ensures NotVideo((a + b)[i].path) {
      if i >= |a| {
        assert (a + b)[i] == b[i - |a|];
      }
    }
  }

  /** A scene removes its clips and its list, and no scene video. */
  lemma SceneNoVideoRemoved(scene: nat, shots: seq<(nat, string)>, onDisk: set<string>)
    ensures NoVideoRemoved(SceneActions(scene, shots, onDisk))
  {
    var clips := SceneClips(scene, shots, onDisk);
    var join := SceneJoin(scene, clips);
    ClipActionsRemoveNothing(scene, shots, onDisk);
    assert NoVideoRemoved(SceneClipActions(scene, shots, onDisk));
    if clips != [] {
      var list := VideoSynthesis.ConcatListPath(scene);
      ConcatStepRemoves(list, SceneVideoPath(scene), clips);
      SceneClipsApart(scene, shots, onDisk);
      ListNotVideo(scene);
      forall i | 0 <= i < |join| && join[i].RemoveFile? ensures NotVideo(join[i].path) {
        if join[i].path != list {
          var j :| 0 <= j < |clips| && clips[j] == join[i].path;
        }
      }
    }
    NoVideoRemovedAppend(SceneClipActions(scene, shots, onDisk), join);
  }

  lemma {:induction false} ScenesNoVideoRemoved(keys: seq<nat>, pairs: seq<(nat, (nat, string))>, onDisk: set<string>)
    ensures NoVideoRemoved(ScenesActions(keys, pairs, onDisk))
    decreases |keys|
  {
    if keys != [] {
      var k := keys[|keys| - 1];
      ScenesNoVideoRemoved(keys[..|keys| - 1], pairs, onDisk);
      SceneNoVideoRemoved(k, Group(pairs, k), onDisk);
      NoVideoRemovedAppend(ScenesActions(keys[..|keys| - 1], pairs, onDisk), SceneActions(k, Group(pairs, k), onDisk));
    }
  }

  /** A scene video in the film's list is the video of one of the scenes. */
  lemma {:induction false} SceneVideosFrom(keys: seq<nat>, pairs: seq<(nat, (nat, string))>, onDisk: set<string>, p: string)
    ensures p in SceneVideos(keys, pairs, onDisk) ==> exists j | 0 <= j < |keys| :: p == SceneVideoPath(keys[j])
    decreases |keys|
  {
    if keys != [] {
      var init := keys[..|keys| - 1];
      SceneVideosFrom(init, pairs, onDisk, p);
      if p in SceneVideos(init, pairs, onDisk) {
        var j :| 0 <= j < |init| && p == SceneVideoPath(init[j]);
        assert init[j] == keys[j];
      }
    }
  }

  /** Distinct scenes give a film list without repeats. */
  lemma {:induction false} VideosDistinct(keys: seq<nat>, pairs: seq<(nat, (nat, string))>, onDisk: set<string>)
    requires forall i, j | 0 <= i < j < |keys| :: keys[i] != keys[j]
    ensures !Repeats(SceneVideos(keys, pairs, onDisk))
    decreases |keys|
  {
    if keys != [] {
      var init := keys[..|keys| - 1];
      var k := keys[|keys| - 1];
      var videos := SceneVideos(keys, pairs, onDisk);
      var before := SceneVideos(init, pairs, onDisk);
      assert forall i | 0 <= i < |init| :: init[i] == keys[i];
      VideosDistinct(init, pairs, onDisk);
      if videos != before {
        assert videos == before + [SceneVideoPath(k)];
        assert videos[..|videos| - 1] == before;
        RepeatsSnoc(videos);
        SceneVideosFrom(init, pairs, onDisk, SceneVideoPath(k));
        forall j | 0 <= j < |init| ensures SceneVideoPath(k) != SceneVideoPath(init[j]) {
          VideoInjective(k, init[j]);
          assert keys[j] != keys[|keys| - 1];
        }
      }
    }
  }

  /** The scene videos are not the film's list. */
  lemma VideosApart(keys: seq<nat>, pairs: seq<(nat, (nat, string))>, onDisk: set<string>)
    ensures NotListed(SceneVideos(keys, pairs, onDisk), CONCAT_ALL)
  {
    var videos := SceneVideos(keys, pairs, onDisk);
    forall j | 0 <= j < |videos| ensures videos[j] != CONCAT_ALL {
      SceneVideosFrom(keys, pairs, onDisk, videos[j]);
      ConcatAllNotVideo();
    }
  }

  /** After scenes that removed no scene video, joining distinct scene videos into the film
      raises nothing, whatever else is missing. */
  lemma FilmJoinRuns(keys: seq<nat>, pairs: seq<(nat, (nat, string))>, onDisk: set<string>, failing: set<string>,
                     done: seq<Action>)
    requires forall i, j | 0 <= i < j < |keys| :: keys[i] != keys[j]
    requires NoVideoRemoved(done)
    ensures var film := FilmJoin(SceneVideos(keys, pairs, onDisk));
      UntilRaise(film, failing, Gone(done, {})) == Cut(film, false)
      && UntilRaise(film, failing, {}) == Cut(film, false)
  {
    var videos := SceneVideos(keys, pairs, onDisk);
    var g := Gone(done, {});
    if videos != [] {
      VideosApart(keys, pairs, onDisk);
      VideosDistinct(keys, pairs, onDisk);
      forall j | 0 <= j < |videos| ensures videos[j] !in g {
        GoneWithin(done, {}, videos[j]);
        SceneVideosFrom(keys, pairs, onDisk, videos[j]);
        var m :| 0 <= m < |keys| && videos[j] == SceneVideoPath(keys[m]);
        forall i | 0 <= i < |done| ensures done[i] != RemoveFile(videos[j]) {
          if done[i].RemoveFile? {
            assert NotVideo(done[i].path);
            assert done[i].path != SceneVideoPath(keys[m]);
          }
        }
      }
      ConcatStepRun(CONCAT_ALL, COMBINED, videos, failing, g);
    }
  }

  /** After the start and the scenes, the film's join raises nothing. */
  lemma FilmAfterScenes(pairs: seq<(nat, (nat, string))>, onDisk: set<string>, failing: set<string>)
    ensures var keys := SortedKeys(KeyOrder(pairs));
      var film := FilmJoin(SceneVideos(keys, pairs, onDisk));
      var done := [MakeDirs(VideoSynthesis.CLIP_DIR)] + ScenesActions(keys, pairs, onDisk);
      UntilRaise(film, failing, Gone(done, {})) == Cut(film, false)
      && UntilRaise(film, failing, {}) == Cut(film, false)
  {
    KeysDistinct(pairs);
    FilmAfter(SortedKeys(KeyOrder(pairs)), pairs, onDisk, failing);
  }

  lemma FilmAfter(keys: seq<nat>, pairs: seq<(nat, (nat, string))>, onDisk: set<string>, failing: set<string>)
    requires Distinct(keys)
    ensures var film := FilmJoin(SceneVideos(keys, pairs, onDisk));
      var done := [MakeDirs(VideoSynthesis.CLIP_DIR)] + ScenesActions(keys, pairs, onDisk);
      UntilRaise(film, failing, Gone(done, {})) == Cut(film, false)
      && UntilRaise(film, failing, {}) == Cut(film, false)
  {
    var start := [MakeDirs(VideoSynthesis.CLIP_DIR)];
    var scenes := ScenesActions(keys, pairs, onDisk);
    ScenesNoVideoRemoved(keys, pairs, onDisk);
    assert NoVideoRemoved(start);
    NoVideoRemovedAppend(start, scenes);
    FilmJoinRuns(keys, pairs, onDisk, failing, start + scenes);
  }

  /** No scene number comes twice. */
  predicate Distinct(keys: seq<nat>) {
    forall i, j | 0 <= i < j < |keys| :: keys[i] != keys[j]
  }

  lemma KeysDistinct(pairs: seq<(nat, (nat, string))>)
    ensures Distinct(SortedKeys(KeyOrder(pairs)))
  {
    ScenesInAscendingOrder(pairs);
  }

  /** The run of the whole plan, told by how the scenes run: up to the scene that raises, or
      all of the plan. */
  lemma SynthesisOutcome(pairs: seq<(nat, (nat, string))>, onDisk: set<string>, failing: set<string>)
    ensures var keys := SortedKeys(KeyOrder(pairs));
      var r := UntilRaise(ScenesActions(keys, pairs, onDisk), failing, {});
      SynthesisRun(pairs, onDisk, failing)
        == (if r.raised then Synthesis([MakeDirs(VideoSynthesis.CLIP_DIR)] + r.actions, None, true)
            else SynthesizeShots(pairs, onDisk))
      && (!r.raised ==> r.actions == ScenesActions(keys, pairs, onDisk))
  {
    PlanRun(pairs, onDisk, failing);
    UntilRaisePrefix(ScenesActions(SortedKeys(KeyOrder(pairs)), pairs, onDisk), failing, {});
  }

  /** A run of the whole plan: if some scene raises, what was done up to it; otherwise all of
      the plan, since the film's join then raises nothing. */
  lemma PlanRun(pairs: seq<(nat, (nat, string))>, onDisk: set<string>, failing: set<string>)
    ensures var keys := SortedKeys(KeyOrder(pairs));
      var start := [MakeDirs(VideoSynthesis.CLIP_DIR)];
      var scenes := UntilRaise(ScenesActions(keys, pairs, onDisk), failing, {});
      var film := FilmJoin(SceneVideos(keys, pairs, onDisk));
      UntilRaise(SynthesizeShots(pairs, onDisk).actions, failing, {})
        == (if scenes.raised then Cut(start + scenes.actions, true) else Cut(SynthesizeShots(pairs, onDisk).actions, false))
      && UntilRaise(film, failing, {}) == Cut(film, false)
  {
    var keys := SortedKeys(KeyOrder(pairs));
    var start := [MakeDirs(VideoSynthesis.CLIP_DIR)];
    var scenes := ScenesActions(keys, pairs, onDisk);
    var film := FilmJoin(SceneVideos(keys, pairs, onDisk));
    assert SynthesizeShots(pairs, onDisk).actions == start + scenes + film;
    One(start[0], failing, {});
    assert Gone(start, {}) == {};
    UntilRaiseAppend(start, scenes, failing, {});
    UntilRaiseAppend(start + scenes, film, failing, {});
    UntilRaisePrefix(scenes, failing, {});
    FilmAfterScenes(pairs, onDisk, failing);
  }

  /** A scene runs the same after earlier scenes, and without a raise it does all of its work. */
  lemma SceneStep(scene: nat, shots: seq<(nat, string)>, onDisk: set<string>, failing: set<string>, gone: set<string>)
    ensures var r := UntilRaise(SceneActions(scene, shots, onDisk), failing, {});
      UntilRaise(SceneActions(scene, shots, onDisk), failing, gone) == r
      && (!r.raised ==> r.actions == SceneActions(scene, shots, onDisk))
  {
    SceneAnyGone(scene, shots, onDisk, failing, gone);
    UntilRaisePrefix(SceneActions(scene, shots, onDisk), failing, {});
  }

  /** What a scene does, and whether it raises, does not depend on what earlier scenes removed:
      its clips are generated afresh before they are listed and removed. */
  lemma SceneAnyGone(scene: nat, shots: seq<(nat, string)>, onDisk: set<string>, failing: set<string>, gone: set<string>)
    ensures UntilRaise(SceneActions(scene, shots, onDisk), failing, gone)
      == UntilRaise(SceneActions(scene, shots, onDisk), failing, {})
  {
    var planned := SceneClipActions(scene, shots, onDisk);
    var join := SceneJoin(scene, SceneClips(scene, shots, onDisk));
    ClipActionsRemoveNothing(scene, shots, onDisk);
    RemoveNothing(planned, failing, gone, {});
    UntilRaiseAppend(planned, join, failing, gone);
    UntilRaiseAppend(planned, join, failing, {});
    SceneJoinRun(scene, shots, onDisk, failing, gone);
    SceneJoinRun(scene, shots, onDisk, failing, {});
  }

  /** A scene's join, right after its clips: it raises exactly when a clip is listed twice,
      and otherwise does all of it. */
  lemma SceneJoinRun(scene: nat, shots: seq<(nat, string)>, onDisk: set<string>, failing: set<string>, gone: set<string>)
    ensures var clips := SceneClips(scene, shots, onDisk);
      var join := SceneJoin(scene, clips);
      var r := UntilRaise(join, failing, Gone(SceneClipActions(scene, shots, onDisk), gone));
      r == UntilRaise(join, failing, {}) && (r.raised <==> Repeats(clips)) && (!r.raised ==> r.actions == join)
  {
    var clips := SceneClips(scene, shots, onDisk);
    if clips != [] {
      SceneClipsApart(scene, shots, onDisk);
      ClipsPresent(scene, shots, onDisk, gone);
      ConcatStepRun(VideoSynthesis.ConcatListPath(scene), SceneVideoPath(scene), clips, failing,
                    Gone(SceneClipActions(scene, shots, onDisk), gone));
    }
  }

  // ---------------------------------------------------------------------------
  // Properties of video synthesis
  // ---------------------------------------------------------------------------

  /** A scene yields clips exactly when one of its shots has its image on disk. */
  lemma {:induction false} SceneClipsIffImage(scene: nat, shots: seq<(nat, string)>, onDisk: set<string>)
    ensures SceneClips(scene, shots, onDisk) != []
      <==> exists k :: 0 <= k < |shots| && StoryboardImagePath(scene, shots[k].0) in onDisk
    decreases |shots|
  {
    if shots != [] {
      SceneClipsIffImage(scene, shots[..|shots| - 1], onDisk);
      SceneClipsStep(scene, shots, onDisk);
      ImageSnoc(scene, shots, onDisk);
    }
  }

  lemma SceneClipsStep(scene: nat, shots: seq<(nat, string)>, onDisk: set<string>)
    requires shots != []
    ensures SceneClips(scene, shots, onDisk) != []
      <==> SceneClips(scene, shots[..|shots| - 1], onDisk) != [] || StoryboardImagePath(scene, shots[|shots| - 1].0) in onDisk
  {
  }

  predicate SomeImage(scene: nat, shots: seq<(nat, string)>, onDisk: set<string>) {
    exists k :: 0 <= k < |shots| && StoryboardImagePath(scene, shots[k].0) in onDisk
  }

  lemma ImageSnoc(scene: nat, shots: seq<(nat, string)>, onDisk: set<string>)
    requires shots != []
    ensures SomeImage(scene, shots, onDisk)
      <==> SomeImage(scene, shots[..|shots| - 1], onDisk) || StoryboardImagePath(scene, shots[|shots| - 1].0) in onDisk
  {
    var init := shots[..|shots| - 1];
    if SomeImage(scene, shots, onDisk) {
      var k :| 0 <= k < |shots| && StoryboardImagePath(scene, shots[k].0) in onDisk;
      if k < |init| {
        assert shots[k] == init[k];
      }
    }
    if SomeImage(scene, init, onDisk) {
      var k :| 0 <= k < |init| && StoryboardImagePath(scene, init[k].0) in onDisk;
      assert shots[k] == init[k];
    }
  }

  /** No scene video is made exactly when no scene yields a clip. */
  lemma {:induction false} NoVideosIffNoClips(keys: seq<nat>, pairs: seq<(nat, (nat, string))>, onDisk: set<string>)
    ensures SceneVideos(keys, pairs, onDisk) == []
      <==> forall j | 0 <= j < |keys| :: SceneClips(keys[j], Group(pairs, keys[j]), onDisk) == []
    decreases |keys|
  {
    if keys != [] {
      NoVideosIffNoClips(keys[..|keys| - 1], pairs, onDisk);
      NoVideosStep(keys, pairs, onDisk);
      CliplessSnoc(keys, pairs, onDisk);
    }
  }

  lemma NoVideosStep(keys: seq<nat>, pairs: seq<(nat, (nat, string))>, onDisk: set<string>)
    requires keys != []
    ensures var last := keys[|keys| - 1];
      SceneVideos(keys, pairs, onDisk) == []
      <==> SceneVideos(keys[..|keys| - 1], pairs, onDisk) == [] && SceneClips(last, Group(pairs, last), onDisk) == []
  {
  }

  predicate Clipless(keys: seq<nat>, pairs: seq<(nat, (nat, string))>, onDisk: set<string>) {
    forall j | 0 <= j < |keys| :: SceneClips(keys[j], Group(pairs, keys[j]), onDisk) == []
  }

  lemma CliplessSnoc(keys: seq<nat>, pairs: seq<(nat, (nat, string))>, onDisk: set<string>)
    requires keys != []
    ensures var last := keys[|keys| - 1];
      Clipless(keys, pairs, onDisk)
      <==> Clipless(keys[..|keys| - 1], pairs, onDisk) && SceneClips(last, Group(pairs, last), onDisk) == []
  {
    var init := keys[..|keys| - 1];
    assert forall j | 0 <= j < |init| :: init[j] == keys[j];
  }

  /** When nothing raises, the film is made, and its path returned, exactly when some shot of
      the storyboard has its image on disk; otherwise nothing but the clip directory is made
      and `None` is returned. */
  lemma PlanFilmIffSomeImage(pairs: seq<(nat, (nat, string))>, onDisk: set<string>)
    ensures var run := SynthesizeShots(pairs, onDisk);
      (run.film == Some(COMBINED) <==> exists i :: 0 <= i < |pairs| && StoryboardImagePath(pairs[i].0, pairs[i].1.0) in onDisk)
      && (run.film.None? <==> run.actions == [MakeDirs(VideoSynthesis.CLIP_DIR)] + ScenesActions(SortedKeys(KeyOrder(pairs)), pairs, onDisk))
  {
    var keys := SortedKeys(KeyOrder(pairs));
    SortedKeysAscending(KeyOrder(pairs));
    NoVideosIffNoClips(keys, pairs, onDisk);
    if exists i :: 0 <= i < |pairs| && StoryboardImagePath(pairs[i].0, pairs[i].1.0) in onDisk {
      var i :| 0 <= i < |pairs| && StoryboardImagePath(pairs[i].0, pairs[i].1.0) in onDisk;
      var (scene, shot) := (pairs[i].0, pairs[i].1);
      KeyOrderComplete(pairs, scene);
      assert scene in multiset(keys);
      var j :| 0 <= j < |keys| && keys[j] == scene;
      GroupMembers(pairs, scene, shot);
      var g := Group(pairs, scene);
      var k :| 0 <= k < |g| && g[k] == shot;
      SceneClipsIffImage(scene, g, onDisk);
    } else {
      forall j | 0 <= j < |keys| ensures SceneClips(keys[j], Group(pairs, keys[j]), onDisk) == [] {
        var g := Group(pairs, keys[j]);
        SceneClipsIffImage(keys[j], g, onDisk);
        forall k | 0 <= k < |g| ensures StoryboardImagePath(keys[j], g[k].0) !in onDisk {
          GroupMembers(pairs, keys[j], g[k]);
          var i :| 0 <= i < |pairs| && pairs[i] == (keys[j], g[k]);
        }
      }
    }
  }

  /** The film is made, and its path returned, exactly when the run does not raise and some
      shot of the storyboard has its image on disk; a run that neither raises nor makes the
      film has made only the clip directory and the scenes' work. */
  lemma FilmIffSomeImage(pairs: seq<(nat, (nat, string))>, onDisk: set<string>, failing: set<string>)
    ensures var run := SynthesisRun(pairs, onDisk, failing);
      (run.film == Some(COMBINED)
       <==> !run.raised && exists i :: 0 <= i < |pairs| && StoryboardImagePath(pairs[i].0, pairs[i].1.0) in onDisk)
      && (!run.raised && run.film.None?
          ==> run.actions == [MakeDirs(VideoSynthesis.CLIP_DIR)] + ScenesActions(SortedKeys(KeyOrder(pairs)), pairs, onDisk))
  {
    PlanFilmIffSomeImage(pairs, onDisk);
  }

  /** Until the first exception the run is the one in which nothing raises; when it raises it
      has done exactly the planned actions before the one that raised, on the disk those left,
      and returns no film; when it does not raise it is that run. */
  lemma SynthesisStopsAtFirstRaise(pairs: seq<(nat, (nat, string))>, onDisk: set<string>, failing: set<string>)
    ensures var plan := SynthesizeShots(pairs, onDisk);
      var run := SynthesisRun(pairs, onDisk, failing);
      (!run.raised ==> run == plan)
      && (run.raised ==>
            run.film.None? && |run.actions| < |plan.actions| && run.actions == plan.actions[..|run.actions|]
            && UntilRaise(run.actions, failing, {}) == Cut(run.actions, false)
            && Raises(plan.actions[|run.actions|], failing, Gone(run.actions, {})))
  {
    UntilRaisePrefix(SynthesizeShots(pairs, onDisk).actions, failing, {});
  }

  /** The run raises exactly when some shot of the storyboard has its image on disk and the
      request for its clip is refused, or two shots of one scene have the same number and an
      image on disk: `os.remove` of their shared clip then fails the second time. */
  lemma SynthesisRaisesIffClipRefused(pairs: seq<(nat, (nat, string))>, onDisk: set<string>, failing: set<string>)
    ensures SynthesisRun(pairs, onDisk, failing).raised
      <==> ShotFails(pairs, onDisk, failing) || ShotRepeated(pairs, onDisk)
  {
    var keys := SortedKeys(KeyOrder(pairs));
    PlanRun(pairs, onDisk, failing);
    ScenesRaise(keys, pairs, onDisk, failing);
    SceneFailsIffShotFails(pairs, onDisk, failing);
    SceneSharesIffShotRepeated(pairs, onDisk);
  }

  /** `SCENE 1, SHOT 1:` twice, with its image on disk and no request refused: the second
      `os.remove` of the shared clip raises `FileNotFoundError`. */
  lemma RepeatedShotRaises()
    ensures SynthesisRun([(1, (1, "a")), (1, (1, "b"))], {StoryboardImagePath(1, 1)}, {}).raised
  {
    var pairs := [(1, (1, "a")), (1, (1, "b"))];
    assert pairs[0].0 == pairs[1].0 && pairs[0].1.0 == pairs[1].1.0;
    SynthesisRaisesIffClipRefused(pairs, {StoryboardImagePath(1, 1)}, {});
  }

  /** Some shot of the scene has its image on disk and its clip request refused. */
  predicate FailingClip(scene: nat, shots: seq<(nat, string)>, onDisk: set<string>, failing: set<string>) {
    exists k :: 0 <= k < |shots| && StoryboardImagePath(scene, shots[k].0) in onDisk && ClipOf(scene, shots[k].0) in failing
  }

  /** A scene's loop meets a refused request exactly when one of its shots' clips is refused. */
  lemma {:induction false} SceneRefusedIffFailingClip(scene: nat, shots: seq<(nat, string)>, onDisk: set<string>, failing: set<string>)
    ensures SomeRefused(SceneClipActions(scene, shots, onDisk), failing) <==> FailingClip(scene, shots, onDisk, failing)
    decreases |shots|
  {
    if shots != [] {
      var init := shots[..|shots| - 1];
      SceneRefusedIffFailingClip(scene, init, onDisk, failing);
      var (shot, d) := shots[|shots| - 1];
      var image := StoryboardImagePath(scene, shot);
      var last := if image in onDisk then [GenerateClip(d, image, ClipOf(scene, shot))] else [];
      assert SceneClipActions(scene, shots, onDisk) == SceneClipActions(scene, init, onDisk) + last;
      SomeRefusedAppend(SceneClipActions(scene, init, onDisk), last, failing);
      assert SomeRefused(last, failing) <==> image in onDisk && ClipOf(scene, shot) in failing by {
        if last != [] {
          assert last[0] == GenerateClip(d, image, ClipOf(scene, shot));
        }
      }
      FailingClipSnoc(scene, shots, onDisk, failing);
    }
  }

  lemma FailingClipSnoc(scene: nat, shots: seq<(nat, string)>, onDisk: set<string>, failing: set<string>)
    requires shots != []
    ensures var last := shots[|shots| - 1].0;
      FailingClip(scene, shots, onDisk, failing)
      <==> FailingClip(scene, shots[..|shots| - 1], onDisk, failing)
           || (StoryboardImagePath(scene, last) in onDisk && ClipOf(scene, last) in failing)
  {
    var init := shots[..|shots| - 1];
    assert forall k | 0 <= k < |init| :: init[k] == shots[k];
  }

  /** A scene raises exactly when one of its clips is refused or two of its shots share a
      number whose image exists. */
  lemma SceneRaises(scene: nat, shots: seq<(nat, string)>, onDisk: set<string>, failing: set<string>)
    ensures UntilRaise(SceneActions(scene, shots, onDisk), failing, {}).raised
      <==> FailingClip(scene, shots, onDisk, failing) || SharedShot(scene, shots, onDisk)
  {
    var planned := SceneClipActions(scene, shots, onDisk);
    ClipActionsRemoveNothing(scene, shots, onDisk);
    RequestsRaise(planned, failing, {});
    SceneRefusedIffFailingClip(scene, shots, onDisk, failing);
    UntilRaiseAppend(planned, SceneJoin(scene, SceneClips(scene, shots, onDisk)), failing, {});
    SceneJoinRun(scene, shots, onDisk, failing, {});
    SceneClipsRepeat(scene, shots, onDisk);
  }

  /** Some scene of `keys` has a shot whose clip request is refused. */
  predicate SceneFails(keys: seq<nat>, pairs: seq<(nat, (nat, string))>, onDisk: set<string>, failing: set<string>) {
    exists j :: 0 <= j < |keys| && FailingClip(keys[j], Group(pairs, keys[j]), onDisk, failing)
  }

  /** Some scene of `keys` has two shots with the same number and an image. */
  predicate SceneShares(keys: seq<nat>, pairs: seq<(nat, (nat, string))>, onDisk: set<string>) {
    exists j :: 0 <= j < |keys| && SharedShot(keys[j], Group(pairs, keys[j]), onDisk)
  }

  lemma ScenesSnoc(keys: seq<nat>, pairs: seq<(nat, (nat, string))>, onDisk: set<string>, failing: set<string>)
    requires keys != []
    ensures var k := keys[|keys| - 1];
      var init := keys[..|keys| - 1];
      (SceneFails(keys, pairs, onDisk, failing)
       <==> SceneFails(init, pairs, onDisk, failing) || FailingClip(k, Group(pairs, k), onDisk, failing))
      && (SceneShares(keys, pairs, onDisk)
          <==> SceneShares(init, pairs, onDisk) || SharedShot(k, Group(pairs, k), onDisk))
  {
    var init := keys[..|keys| - 1];
    assert forall j | 0 <= j < |init| :: init[j] == keys[j];
  }

  /** The loop over the scenes raises exactly when one of them has a refused clip or a shared
      shot number. */
  lemma {:induction false} ScenesRaise(keys: seq<nat>, pairs: seq<(nat, (nat, string))>, onDisk: set<string>, failing: set<string>)
    ensures UntilRaise(ScenesActions(keys, pairs, onDisk), failing, {}).raised
      <==> SceneFails(keys, pairs, onDisk, failing) || SceneShares(keys, pairs, onDisk)
    decreases |keys|
  {
    if keys != [] {
      var init := keys[..|keys| - 1];
      var k := keys[|keys| - 1];
      var done := ScenesActions(init, pairs, onDisk);
      ScenesRaise(init, pairs, onDisk, failing);
      UntilRaiseAppend(done, SceneActions(k, Group(pairs, k), onDisk), failing, {});
      SceneAnyGone(k, Group(pairs, k), onDisk, failing, Gone(done, {}));
      SceneRaises(k, Group(pairs, k), onDisk, failing);
      ScenesSnoc(keys, pairs, onDisk, failing);
    }
  }

  /** Some storyboard shot has its image on disk and its clip request refused. */
  predicate ShotFails(pairs: seq<(nat, (nat, string))>, onDisk: set<string>, failing: set<string>) {
    exists i :: 0 <= i < |pairs| && StoryboardImagePath(pairs[i].0, pairs[i].1.0) in onDisk
                && ClipOf(pairs[i].0, pairs[i].1.0) in failing
  }

  /** Two storyboard shots have the same scene and shot numbers, and that shot's image is on
      disk. */
  predicate ShotRepeated(pairs: seq<(nat, (nat, string))>, onDisk: set<string>) {
    exists i, j | 0 <= i < j < |pairs| :: pairs[i].0 == pairs[j].0 && pairs[i].1.0 == pairs[j].1.0
                                        && StoryboardImagePath(pairs[i].0, pairs[i].1.0) in onDisk
  }

  /** A sorted scene fails exactly when some storyboard shot's clip request is refused. */
  lemma SceneFailsIffShotFails(pairs: seq<(nat, (nat, string))>, onDisk: set<string>, failing: set<string>)
    ensures SceneFails(SortedKeys(KeyOrder(pairs)), pairs, onDisk, failing) <==> ShotFails(pairs, onDisk, failing)
  {
    if ShotFails(pairs, onDisk, failing) {
      var i :| 0 <= i < |pairs| && StoryboardImagePath(pairs[i].0, pairs[i].1.0) in onDisk
               && ClipOf(pairs[i].0, pairs[i].1.0) in failing;
      ShotFailsScene(pairs, onDisk, failing, i);
    }
    if SceneFails(SortedKeys(KeyOrder(pairs)), pairs, onDisk, failing) {
      SceneFailsShot(pairs, onDisk, failing);
    }
  }

  lemma ShotFailsScene(pairs: seq<(nat, (nat, string))>, onDisk: set<string>, failing: set<string>, i: nat)
    requires i < |pairs| && StoryboardImagePath(pairs[i].0, pairs[i].1.0) in onDisk && ClipOf(pairs[i].0, pairs[i].1.0) in failing
    ensures SceneFails(SortedKeys(KeyOrder(pairs)), pairs, onDisk, failing)
  {
    var keys := SortedKeys(KeyOrder(pairs));
    SortedKeysAscending(KeyOrder(pairs));
    var (scene, shot) := (pairs[i].0, pairs[i].1);
    KeyOrderComplete(pairs, scene);
    assert scene in multiset(keys);
    var j :| 0 <= j < |keys| && keys[j] == scene;
    GroupMembers(pairs, scene, shot);
    var g := Group(pairs, scene);
    var k :| 0 <= k < |g| && g[k] == shot;
    assert FailingClip(keys[j], g, onDisk, failing);
  }

  lemma SceneFailsShot(pairs: seq<(nat, (nat, string))>, onDisk: set<string>, failing: set<string>)
    requires SceneFails(SortedKeys(KeyOrder(pairs)), pairs, onDisk, failing)
    ensures ShotFails(pairs, onDisk, failing)
  {
    var keys := SortedKeys(KeyOrder(pairs));
    var j :| 0 <= j < |keys| && FailingClip(keys[j], Group(pairs, keys[j]), onDisk, failing);
    var g := Group(pairs, keys[j]);
    var k :| 0 <= k < |g| && StoryboardImagePath(keys[j], g[k].0) in onDisk && ClipOf(keys[j], g[k].0) in failing;
    GroupMembers(pairs, keys[j], g[k]);
    var i :| 0 <= i < |pairs| && pairs[i] == (keys[j], g[k]);
  }

  /** Two shots of scene `n` have the same number, and that shot's image is on disk. */
  predicate RepeatedIn(pairs: seq<(nat, (nat, string))>, onDisk: set<string>, n: nat) {
    exists i, j | 0 <= i < j < |pairs| :: pairs[i].0 == n && pairs[j].0 == n && pairs[i].1.0 == pairs[j].1.0
                                        && StoryboardImagePath(n, pairs[i].1.0) in onDisk
  }

  /** Some shot of `pairs` is shot `m` of scene `n`. */
  predicate PairListed(pairs: seq<(nat, (nat, string))>, n: nat, m: nat) {
    exists i | 0 <= i < |pairs| :: pairs[i].0 == n && pairs[i].1.0 == m
  }

  lemma RepeatedInSnoc(pairs: seq<(nat, (nat, string))>, onDisk: set<string>, n: nat)
    requires pairs != []
    ensures var init := pairs[..|pairs| - 1];
      var last := pairs[|pairs| - 1];
      RepeatedIn(pairs, onDisk, n)
      <==> RepeatedIn(init, onDisk, n)
           || (last.0 == n && StoryboardImagePath(n, last.1.0) in onDisk && PairListed(init, n, last.1.0))
  {
    var init := pairs[..|pairs| - 1];
    var last := pairs[|pairs| - 1];
    assert forall k | 0 <= k < |init| :: init[k] == pairs[k];
    if RepeatedIn(pairs, onDisk, n) {
      var i, j :| 0 <= i < j < |pairs| && pairs[i].0 == n && pairs[j].0 == n && pairs[i].1.0 == pairs[j].1.0
                  && StoryboardImagePath(n, pairs[i].1.0) in onDisk;
      if j < |init| {
        assert init[i].0 == n && init[j].0 == n && init[i].1.0 == init[j].1.0;
      } else {
        assert init[i].0 == n && init[i].1.0 == last.1.0;
      }
    }
    if last.0 == n && StoryboardImagePath(n, last.1.0) in onDisk && PairListed(init, n, last.1.0) {
      var i :| 0 <= i < |init| && init[i].0 == n && init[i].1.0 == last.1.0;
      assert pairs[i].0 == n && pairs[|pairs| - 1].0 == n && pairs[i].1.0 == pairs[|pairs| - 1].1.0;
    }
  }

  /** Shot `m` is listed under scene `n` exactly when some storyboard shot is shot `m` of
      scene `n`. */
  lemma GroupListed(pairs: seq<(nat, (nat, string))>, n: nat, m: nat)
    ensures ShotListed(Group(pairs, n), m) <==> PairListed(pairs, n, m)
  {
    var g := Group(pairs, n);
    if ShotListed(g, m) {
      var k :| 0 <= k < |g| && g[k].0 == m;
      GroupMembers(pairs, n, g[k]);
      var i :| 0 <= i < |pairs| && pairs[i] == (n, g[k]);
    }
    if PairListed(pairs, n, m) {
      var i :| 0 <= i < |pairs| && pairs[i].0 == n && pairs[i].1.0 == m;
      assert pairs[i] == (n, pairs[i].1);
      GroupMembers(pairs, n, pairs[i].1);
      var k :| 0 <= k < |g| && g[k] == pairs[i].1;
    }
  }

  /** Scene `n`'s shots share a number exactly when two storyboard shots of scene `n` do. */
  lemma {:induction false} GroupShares(pairs: seq<(nat, (nat, string))>, onDisk: set<string>, n: nat)
    ensures SharedShot(n, Group(pairs, n), onDisk) <==> RepeatedIn(pairs, onDisk, n)
    decreases |pairs|
  {
    if pairs != [] {
      var init := pairs[..|pairs| - 1];
      var last := pairs[|pairs| - 1];
      GroupShares(init, onDisk, n);
      RepeatedInSnoc(pairs, onDisk, n);
      var g := Group(pairs, n);
      if last.0 == n {
        assert g == Group(init, n) + [last.1];
        assert g[..|g| - 1] == Group(init, n) && g[|g| - 1] == last.1;
        SharedShotSnoc(n, g, onDisk);
        GroupListed(init, n, last.1.0);
        assert SharedShot(n, g, onDisk)
          <==> SharedShot(n, Group(init, n), onDisk)
               || (StoryboardImagePath(n, last.1.0) in onDisk && PairListed(init, n, last.1.0));
      } else {
        assert g == Group(init, n);
      }
    }
  }

  /** Some sorted scene shares a shot number exactly when two storyboard shots have the same
      scene and shot numbers and an image on disk. */
  lemma SceneSharesIffShotRepeated(pairs: seq<(nat, (nat, string))>, onDisk: set<string>)
    ensures SceneShares(SortedKeys(KeyOrder(pairs)), pairs, onDisk) <==> ShotRepeated(pairs, onDisk)
  {
    var keys := SortedKeys(KeyOrder(pairs));
    if SceneShares(keys, pairs, onDisk) {
      var j :| 0 <= j < |keys| && SharedShot(keys[j], Group(pairs, keys[j]), onDisk);
      GroupShares(pairs, onDisk, keys[j]);
    }
    if ShotRepeated(pairs, onDisk) {
      var i, j :| 0 <= i < j < |pairs| && pairs[i].0 == pairs[j].0 && pairs[i].1.0 == pairs[j].1.0
                  && StoryboardImagePath(pairs[i].0, pairs[i].1.0) in onDisk;
      var n := pairs[i].0;
      assert RepeatedIn(pairs, onDisk, n);
      GroupShares(pairs, onDisk, n);
      SortedKeysAscending(KeyOrder(pairs));
      KeyOrderComplete(pairs, n);
      assert n in multiset(keys);
      var m :| 0 <= m < |keys| && keys[m] == n;
    }
  }

  /** The scenes are processed in ascending number, each once. */
  lemma ScenesInAscendingOrder(pairs: seq<(nat, (nat, string))>)
    ensures var keys := SortedKeys(KeyOrder(pairs));
      (forall i, j | 0 <= i < j < |keys| :: keys[i] < keys[j])
      && forall n :: n in keys <==> exists i :: 0 <= i < |pairs| && pairs[i].0 == n
  {
    var order := KeyOrder(pairs);
    var keys := SortedKeys(order);
    SortedKeysAscending(order);
    KeyOrderDistinct(pairs);
    forall n ensures n in keys <==> exists i :: 0 <= i < |pairs| && pairs[i].0 == n {
      KeyOrderComplete(pairs, n);
      assert n in keys <==> n in multiset(keys);
      assert n in order <==> n in multiset(order);
    }
    forall i, j | 0 <= i < j < |keys| ensures keys[i] < keys[j] {
      if keys[i] == keys[j] {
        DistinctOnce(order, keys[i]);
        assert multiset(keys)[keys[i]] >= 2 by {
          CountTwo(keys, i, j);
        }
        assert false;
      }
    }
  }

  /** A key listed once has multiplicity at most one. */
  lemma {:induction false} DistinctOnce(s: seq<nat>, x: nat)
    requires forall i, j | 0 <= i < j < |s| :: s[i] != s[j]
    ensures multiset(s)[x] <= 1
    decreases |s|
  {
    if s != [] {
      var t := s[1..];
      assert s == [s[0]] + t;
      DistinctOnce(t, x);
      if s[0] == x {
        forall m | 0 <= m < |t| ensures t[m] != x {
          assert t[m] == s[m + 1];
        }
        assert x !in t;
      }
    }
  }

  /** Two positions holding the same value make its multiplicity at least two. */
  lemma CountTwo(s: seq<nat>, i: nat, j: nat)
    requires i < j < |s| && s[i] == s[j]
    ensures multiset(s)[s[i]] >= 2
  {
    assert s == s[..j] + s[j..];
    assert s[i] in s[..j];
    assert s[j] in s[j..];
  }

  /** Without any header, the shots are the stripped non-empty paragraphs, numbered by
      position. */
  lemma HeaderlessUsesParagraphs(storyboardText: string)
    requires FindAll(AnySpaced, storyboardText) == []
    ensures VideoShots(storyboardText) == NumberedPairs(Paragraphs(Split(storyboardText, "\n\n")))
  {
  }
}
