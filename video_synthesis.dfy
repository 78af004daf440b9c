/** The video synthesis stage script: the storyboard's shots are grouped by scene, a clip is
    generated for every shot whose still image exists, and each scene's clips are joined
    into one scene video, after which the clips and the concat list are removed. An
    optional scene number restricts the run to that scene. */
module VideoSynthesis {
  import opened Wrappers
  import opened PyText
  import opened Shots
  import opened Utils
  import opened Grouping
  import opened Effects

  const CLIP_DIR := "output/video_clips"

  /** `f"scene_{scene_number}_shot_{shot_number}.mp4"`. */
  function ClipName(scene: nat, shot: string): string {
    "scene_" + NatToString(scene) + "_shot_" + shot + ".mp4"
  }

  /** Where `generate_video_clip` saves a clip (and the path it returns). */
  function ClipPath(scene: nat, shot: string): string {
    PathJoin(CLIP_DIR, ClipName(scene, shot))
  }

  /** The still image a shot's clip is generated from. */
  function ImagePath(imagesDir: string, scene: nat, shot: string): string {
    PathJoin(imagesDir, "scene_" + NatToString(scene) + "_shot_" + shot + ".png")
  }

  function SceneVideoPath(scene: nat): string {
    PathJoin(CLIP_DIR, "scene_" + NatToString(scene) + ".mp4")
  }

  function ConcatListPath(scene: nat): string {
    PathJoin(CLIP_DIR, "concat_scene_" + NatToString(scene) + ".txt")
  }

  // ---------------------------------------------------------------------------
  // Distinct paths
  // ---------------------------------------------------------------------------

  /** Two shot numbers of a scene, taken as written, share a clip path only when they are the
      same string. */
  lemma ClipPathInjective(scene: nat, a: string, b: string)
    ensures ClipPath(scene, a) == ClipPath(scene, b) ==> a == b
  {
    var p := "scene_" + NatToString(scene) + "_shot_";
    var na := ClipName(scene, a);
    var nb := ClipName(scene, b);
    assert na == p + a + ".mp4" && nb == p + b + ".mp4";
    assert na[0] == 's' && nb[0] == 's';
    PathJoinInjective(CLIP_DIR, na, nb);
    if na == nb {
      assert |a| == |b|;
      assert a == na[|p|..|p| + |a|];
      assert b == nb[|p|..|p| + |b|];
    }
  }

  /** A clip is never a scene's concat list. */
  lemma ClipNotList(scene: nat, shot: string, other: nat)
    ensures ClipPath(scene, shot) != ConcatListPath(other)
  {
    var clip := ClipName(scene, shot);
    var list := "concat_scene_" + NatToString(other) + ".txt";
    assert clip[0] == 's' && list[0] == 'c';
    PathJoinInjective(CLIP_DIR, clip, list);
  }

  /** The parsed shots as `(int(scene), (shot, description))`: the scene number is converted,
      the shot number is kept as written. */
  function ScenePairs(shots: seq<Shot>): (r: seq<(nat, (string, string))>)
    requires forall k | 0 <= k < |shots| :: WellFormed(shots[k])
    ensures |r| == |shots|
  {
    seq(|shots|, k requires 0 <= k < |shots| =>
      assert WellFormed(shots[k]);
      (DigitsValue(shots[k].scene), (shots[k].shot, shots[k].description)))
  }

  /** The clips generated for a scene's shots: one per shot whose image exists, from the
      stripped description. */
  function Generated(scene: nat, shots: seq<(string, string)>, imagesDir: string, onDisk: set<string>): seq<Action>
    decreases |shots|
  {
    if shots == [] then []
    else
      var last := shots[|shots| - 1];
      Generated(scene, shots[..|shots| - 1], imagesDir, onDisk)
        + (if ImagePath(imagesDir, scene, last.0) in onDisk then [ShotClip(scene, imagesDir, last)] else [])
  }

  /** `generate_video_clip(shot_description.strip(), image_path, ...)` for one shot. */
  function ShotClip(scene: nat, imagesDir: string, shot: (string, string)): Action {
    GenerateClip(Strip(shot.1), ImagePath(imagesDir, scene, shot.0), ClipPath(scene, shot.0))
  }

  /** `generated_shot_paths` after the loop over a scene's shots. */
  function Clips(scene: nat, shots: seq<(string, string)>, imagesDir: string, onDisk: set<string>): seq<string>
    decreases |shots|
  {
    if shots == [] then []
    else
      var (shot, _) := shots[|shots| - 1];
      Clips(scene, shots[..|shots| - 1], imagesDir, onDisk)
        + (if ImagePath(imagesDir, scene, shot) in onDisk then [ClipPath(scene, shot)] else [])
  }

  /** What follows the clips of a scene: nothing without clips; otherwise the concat step,
      which writes the list, makes the scene video, and removes the clips and then the list. */
  function Bookkeeping(scene: nat, clips: seq<string>): (r: seq<Action>)
    ensures r == [] <==> clips == []
    ensures clips != [] ==>
              |r| == |clips| + 3
              && r[0] == WriteFile(ConcatListPath(scene), ListFile(clips))
              && r[1] == ConcatVideos(ConcatListPath(scene), SceneVideoPath(scene))
              && r[|r| - 1] == RemoveFile(ConcatListPath(scene))
  {
    if clips == [] then []
    else
      ConcatStepShape(ConcatListPath(scene), SceneVideoPath(scene), clips);
      ConcatStep(ConcatListPath(scene), SceneVideoPath(scene), clips)
  }

  /** The body of the loop over scenes, for one scene. */
  function SceneRun(scene: nat, shots: seq<(string, string)>, imagesDir: string, onDisk: set<string>): (r: seq<Action>)
    ensures Generated(scene, shots, imagesDir, onDisk) <= r
    ensures r == Generated(scene, shots, imagesDir, onDisk) <==> Clips(scene, shots, imagesDir, onDisk) == []
  {
    Generated(scene, shots, imagesDir, onDisk) + Bookkeeping(scene, Clips(scene, shots, imagesDir, onDisk))
  }

  /** The loop over the scenes in `keys`, skipping those the filter excludes. */
  function ScenesRun(keys: seq<nat>, pairs: seq<(nat, (string, string))>, sceneFilter: Option<int>,
                     imagesDir: string, onDisk: set<string>): (r: seq<Action>)
    ensures sceneFilter.Some? && sceneFilter.value < 0 ==> r == []
    decreases |keys|
  {
    if keys == [] then []
    else
      var scene := keys[|keys| - 1];
      ScenesRun(keys[..|keys| - 1], pairs, sceneFilter, imagesDir, onDisk)
        + (if sceneFilter.Some? && scene != sceneFilter.value then []
           else SceneRun(scene, Group(pairs, scene), imagesDir, onDisk))
  }

  /** What `main` does: nothing when the storyboard file is missing; otherwise the scenes in
      order of first appearance. */
  function Run(storyboard: Option<string>, imagesDir: string, sceneFilter: Option<int>, onDisk: set<string>): (r: seq<Action>)
    ensures storyboard.None? ==> r == []
    ensures sceneFilter.Some? && sceneFilter.value < 0 ==> r == []
  {
    match storyboard
    case None => []
    case Some(content) =>
      var pairs := ScenePairs(ParseStoryboardShots(content));
      ScenesRun(KeyOrder(pairs), pairs, sceneFilter, imagesDir, onDisk)
  }

  /** One scene of `main`'s loop: the clips, then the concatenation and clean-up. The script
      has no `try` around it, so a refused clip request, or the second `os.remove` of a clip
      that two shots share, raises out of `main`. */
  method ProcessScene(scene: nat, shots: seq<(string, string)>, imagesDir: string, onDisk: set<string>,
                      failing: set<string>)
    returns (actions: seq<Action>, raised: bool)
    ensures Cut(actions, raised) == UntilRaise(SceneRun(scene, shots, imagesDir, onDisk), failing, {})
  {
    var generatedPaths;
    actions, generatedPaths, raised := GenerateClips(scene, shots, imagesDir, onDisk, failing);
    ghost var generated := Generated(scene, shots, imagesDir, onDisk);
    UntilRaiseAppend(generated, Bookkeeping(scene, Clips(scene, shots, imagesDir, onDisk)), failing, {});
    if raised {
      return;
    }
    GeneratedRemovesNothing(scene, shots, imagesDir, onDisk);
    RequestsRaise(generated, failing, {});
    BookkeepingRun(scene, shots, imagesDir, onDisk, failing, {});
    if generatedPaths != [] {
      ClipsApart(scene, shots, imagesDir, onDisk);
      var joined, joinRaised := ConcatFiles(ConcatListPath(scene), SceneVideoPath(scene), generatedPaths, failing);
      actions := actions + joined;
      raised := joinRaised;
    } else {
      assert actions + [] == actions;
    }
  }

  /** The loop over a scene's shots: a clip for each shot whose image exists, until a clip
      request is refused. */
  method GenerateClips(scene: nat, shots: seq<(string, string)>, imagesDir: string, onDisk: set<string>,
                       failing: set<string>)
    returns (actions: seq<Action>, generatedPaths: seq<string>, raised: bool)
    ensures Cut(actions, raised) == UntilRaise(Generated(scene, shots, imagesDir, onDisk), failing, {})
    ensures !raised ==> generatedPaths == Clips(scene, shots, imagesDir, onDisk)
  {
    actions := [];
    generatedPaths := [];
    raised := false;
    var i := 0;
    while i < |shots|
      invariant 0 <= i <= |shots|
      invariant actions == Generated(scene, shots[..i], imagesDir, onDisk)
      invariant UntilRaise(actions, failing, {}) == Cut(actions, false)
      invariant generatedPaths == Clips(scene, shots[..i], imagesDir, onDisk)
    {
      assert shots[..i + 1][..i] == shots[..i];
      var (shot, desc) := shots[i];
      var image := ImagePath(imagesDir, scene, shot);
      if image in onDisk {
        var clip := ClipPath(scene, shot);
        var request := GenerateClip(Strip(desc), image, clip);
        assert request == ShotClip(scene, imagesDir, shots[i]);
        if clip in failing {
          GeneratedRaiseAt(scene, shots, i, imagesDir, onDisk, failing);
          return actions, generatedPaths, true;
        }
        One(request, failing, Gone(actions, {}));
        CleanThen(actions, [request], failing, {});
        actions := actions + [request];
        generatedPaths := generatedPaths + [clip];
      }
      i := i + 1;
    }
    assert shots[..i] == shots;
  }

  /** `main`: read the storyboard, group its shots by scene, and process the scenes in the
      dict's order, until one raises. */
  method RunScript(storyboard: Option<string>, imagesDir: string, sceneFilter: Option<int>, onDisk: set<string>,
                   failing: set<string>)
    returns (actions: seq<Action>, raised: bool)
    ensures Cut(actions, raised) == UntilRaise(Run(storyboard, imagesDir, sceneFilter, onDisk), failing, {})
  {
    if storyboard.None? {
      return [], false;
    }
    var pairs := ScenePairs(ParseStoryboardShots(storyboard.value));
    actions, raised := ProcessScenes(pairs, sceneFilter, imagesDir, onDisk, failing);
  }

  /** The grouping loop and the loop over the scenes. */
  method ProcessScenes(pairs: seq<(nat, (string, string))>, sceneFilter: Option<int>, imagesDir: string,
                       onDisk: set<string>, failing: set<string>)
    returns (actions: seq<Action>, raised: bool)
    ensures Cut(actions, raised) == UntilRaise(ScenesRun(KeyOrder(pairs), pairs, sceneFilter, imagesDir, onDisk), failing, {})
  {
    var keys, groups := GroupByKey(pairs);
    actions := [];
    raised := false;
    var j := 0;
    while j < |keys|
      invariant 0 <= j <= |keys|
      invariant actions == ScenesRun(keys[..j], pairs, sceneFilter, imagesDir, onDisk)
      invariant UntilRaise(actions, failing, {}) == Cut(actions, false)
    {
      var scene := keys[j];
      ScenesRunSnoc(keys, j, pairs, sceneFilter, imagesDir, onDisk);
      if sceneFilter.Some? && scene != sceneFilter.value {
        assert actions + [] == actions;
        j := j + 1;
        continue;
      }
      assert scene in groups && groups[scene] == Group(pairs, scene);
      var sceneActions, sceneRaised := ProcessScene(scene, groups[scene], imagesDir, onDisk, failing);
      SceneStep(scene, Group(pairs, scene), imagesDir, onDisk, failing, Gone(actions, {}));
      if sceneRaised {
        ScenesRunRaiseWithin(keys, j, pairs, sceneFilter, imagesDir, onDisk, failing, {});
        return actions + sceneActions, true;
      }
      CleanThen(actions, sceneActions, failing, {});
      actions := actions + sceneActions;
      j := j + 1;
    }
    assert keys[..j] == keys;
  }

  /** A scene runs the same after earlier scenes, and without a raise it does all of its work. */
  lemma SceneStep(scene: nat, shots: seq<(string, string)>, imagesDir: string, onDisk: set<string>,
                  failing: set<string>, gone: set<string>)
    ensures var r := UntilRaise(SceneRun(scene, shots, imagesDir, onDisk), failing, {});
      UntilRaise(SceneRun(scene, shots, imagesDir, onDisk), failing, gone) == r
      && (!r.raised ==> r.actions == SceneRun(scene, shots, imagesDir, onDisk))
  {
    SceneRunAnyGone(scene, shots, imagesDir, onDisk, failing, gone);
    UntilRaisePrefix(SceneRun(scene, shots, imagesDir, onDisk), failing, {});
  }

  /** The shots of a scene split anywhere: the clips of the first part, then of the rest. */
  lemma {:induction false} GeneratedAppend(scene: nat, a: seq<(string, string)>, b: seq<(string, string)>,
                                           imagesDir: string, onDisk: set<string>)
    ensures Generated(scene, a + b, imagesDir, onDisk)
      == Generated(scene, a, imagesDir, onDisk) + Generated(scene, b, imagesDir, onDisk)
    decreases |b|
  {
    if b == [] {
      assert a + b == a;
    } else {
      var b' := b[..|b| - 1];
      var last := b[|b| - 1];
      assert (a + b)[..|a + b| - 1] == a + b' && (a + b)[|a + b| - 1] == last;
      GeneratedAppend(scene, a, b', imagesDir, onDisk);
      var clip := if ImagePath(imagesDir, scene, last.0) in onDisk then [ShotClip(scene, imagesDir, last)] else [];
      SeqAssoc(Generated(scene, a, imagesDir, onDisk), Generated(scene, b', imagesDir, onDisk), clip);
    }
  }

  /** A refused clip request for shot `i` ends the scene's loop just before it. */
  lemma GeneratedRaiseAt(scene: nat, shots: seq<(string, string)>, i: nat, imagesDir: string, onDisk: set<string>,
                         failing: set<string>)
    requires i < |shots| && ImagePath(imagesDir, scene, shots[i].0) in onDisk && ClipPath(scene, shots[i].0) in failing
    requires UntilRaise(Generated(scene, shots[..i], imagesDir, onDisk), failing, {})
      == Cut(Generated(scene, shots[..i], imagesDir, onDisk), false)
    ensures UntilRaise(Generated(scene, shots, imagesDir, onDisk), failing, {})
      == Cut(Generated(scene, shots[..i], imagesDir, onDisk), true)
  {
    var request := ShotClip(scene, imagesDir, shots[i]);
    assert shots[..i + 1][..i] == shots[..i] && shots[..i + 1][i] == shots[i];
    assert Generated(scene, shots[..i + 1], imagesDir, onDisk) == Generated(scene, shots[..i], imagesDir, onDisk) + [request];
    GeneratedAppend(scene, shots[..i + 1], shots[i + 1..], imagesDir, onDisk);
    SplitAt(shots, i + 1);
    RaiseAt(Generated(scene, shots[..i], imagesDir, onDisk), request, Generated(scene, shots[i + 1..], imagesDir, onDisk), failing, {});
  }

  /** The scenes split anywhere: the first part's run, then the rest's. */
  lemma {:induction false} ScenesRunAppend(a: seq<nat>, b: seq<nat>, pairs: seq<(nat, (string, string))>,
                                           sceneFilter: Option<int>, imagesDir: string, onDisk: set<string>)
    ensures ScenesRun(a + b, pairs, sceneFilter, imagesDir, onDisk)
      == ScenesRun(a, pairs, sceneFilter, imagesDir, onDisk) + ScenesRun(b, pairs, sceneFilter, imagesDir, onDisk)
    decreases |b|
  {
    if b == [] {
      assert a + b == a;
    } else {
      var b' := b[..|b| - 1];
      var k := b[|b| - 1];
      assert (a + b)[..|a + b| - 1] == a + b' && (a + b)[|a + b| - 1] == k;
      ScenesRunAppend(a, b', pairs, sceneFilter, imagesDir, onDisk);
      var one := if sceneFilter.Some? && k != sceneFilter.value then [] else SceneRun(k, Group(pairs, k), imagesDir, onDisk);
      SeqAssoc(ScenesRun(a, pairs, sceneFilter, imagesDir, onDisk), ScenesRun(b', pairs, sceneFilter, imagesDir, onDisk), one);
    }
  }

  /** A scene that raises ends the loop over the scenes with it. */
  lemma ScenesRunRaiseWithin(keys: seq<nat>, j: nat, pairs: seq<(nat, (string, string))>, sceneFilter: Option<int>,
                             imagesDir: string, onDisk: set<string>, failing: set<string>, gone: set<string>)
    requires j < |keys| && !(sceneFilter.Some? && keys[j] != sceneFilter.value)
    requires UntilRaise(ScenesRun(keys[..j], pairs, sceneFilter, imagesDir, onDisk), failing, gone)
      == Cut(ScenesRun(keys[..j], pairs, sceneFilter, imagesDir, onDisk), false)
    requires UntilRaise(SceneRun(keys[j], Group(pairs, keys[j]), imagesDir, onDisk), failing,
                        Gone(ScenesRun(keys[..j], pairs, sceneFilter, imagesDir, onDisk), gone)).raised
    ensures UntilRaise(ScenesRun(keys, pairs, sceneFilter, imagesDir, onDisk), failing, gone)
      == Cut(ScenesRun(keys[..j], pairs, sceneFilter, imagesDir, onDisk)
             + UntilRaise(SceneRun(keys[j], Group(pairs, keys[j]), imagesDir, onDisk), failing,
                          Gone(ScenesRun(keys[..j], pairs, sceneFilter, imagesDir, onDisk), gone)).actions, true)
  {
    var done := ScenesRun(keys[..j], pairs, sceneFilter, imagesDir, onDisk);
    var scene := SceneRun(keys[j], Group(pairs, keys[j]), imagesDir, onDisk);
    var rest := ScenesRun(keys[j + 1..], pairs, sceneFilter, imagesDir, onDisk);
    ScenesRunSnoc(keys, j, pairs, sceneFilter, imagesDir, onDisk);
    assert ScenesRun(keys[..j + 1], pairs, sceneFilter, imagesDir, onDisk) == done + scene;
    ScenesRunAppend(keys[..j + 1], keys[j + 1..], pairs, sceneFilter, imagesDir, onDisk);
    SplitAt(keys, j + 1);
    assert ScenesRun(keys, pairs, sceneFilter, imagesDir, onDisk) == done + scene + rest;
    RaiseWithin(done, scene, rest, failing, gone);
  }

  /** One more scene of the loop appends that scene's run unless the filter skips it. */
  lemma ScenesRunSnoc(keys: seq<nat>, j: nat, pairs: seq<(nat, (string, string))>, sceneFilter: Option<int>,
                      imagesDir: string, onDisk: set<string>)
    requires j < |keys|
    ensures ScenesRun(keys[..j + 1], pairs, sceneFilter, imagesDir, onDisk)
      == ScenesRun(keys[..j], pairs, sceneFilter, imagesDir, onDisk)
         + (if sceneFilter.Some? && keys[j] != sceneFilter.value then []
            else SceneRun(keys[j], Group(pairs, keys[j]), imagesDir, onDisk))
  {
    assert keys[..j + 1][..j] == keys[..j] && keys[..j + 1][j] == keys[j];
  }

  // ---------------------------------------------------------------------------
  // How a scene runs
  // ---------------------------------------------------------------------------

  /** Generating clips removes no file. */
  lemma GeneratedRemovesNothing(scene: nat, shots: seq<(string, string)>, imagesDir: string, onDisk: set<string>)
    ensures RemovesNothing(Generated(scene, shots, imagesDir, onDisk))
  {
    GeneratedMatchesClips(scene, shots, imagesDir, onDisk);
  }

  /** Right after a scene's clips are generated, every one of them is on disk. */
  lemma {:induction false} ClipsPresent(scene: nat, shots: seq<(string, string)>, imagesDir: string,
                                        onDisk: set<string>, gone: set<string>)
    ensures NoneIn(Clips(scene, shots, imagesDir, onDisk), Gone(Generated(scene, shots, imagesDir, onDisk), gone))
    decreases |shots|
  {
    if shots != [] {
      var init := shots[..|shots| - 1];
      var last := shots[|shots| - 1];
      ClipsPresent(scene, init, imagesDir, onDisk, gone);
      var g0 := Gone(Generated(scene, init, imagesDir, onDisk), gone);
      if ImagePath(imagesDir, scene, last.0) in onDisk {
        var request := ShotClip(scene, imagesDir, last);
        assert Generated(scene, shots, imagesDir, onDisk) == Generated(scene, init, imagesDir, onDisk) + [request];
        assert Clips(scene, shots, imagesDir, onDisk) == Clips(scene, init, imagesDir, onDisk) + [ClipPath(scene, last.0)];
        GoneAppend(Generated(scene, init, imagesDir, onDisk), [request], gone);
        GoneOne(request, g0);
        NoneInSnoc(Clips(scene, init, imagesDir, onDisk), ClipPath(scene, last.0), g0, g0 - {ClipPath(scene, last.0)});
      } else {
        assert Generated(scene, shots, imagesDir, onDisk) == Generated(scene, init, imagesDir, onDisk);
        assert Clips(scene, shots, imagesDir, onDisk) == Clips(scene, init, imagesDir, onDisk);
      }
    }
  }

  /** No clip is the scene's concat list. */
  lemma {:induction false} ClipsApart(scene: nat, shots: seq<(string, string)>, imagesDir: string, onDisk: set<string>)
    ensures NotListed(Clips(scene, shots, imagesDir, onDisk), ConcatListPath(scene))
    decreases |shots|
  {
    if shots != [] {
      var init := shots[..|shots| - 1];
      var last := shots[|shots| - 1];
      ClipsApart(scene, init, imagesDir, onDisk);
      if ImagePath(imagesDir, scene, last.0) in onDisk {
        assert Clips(scene, shots, imagesDir, onDisk) == Clips(scene, init, imagesDir, onDisk) + [ClipPath(scene, last.0)];
        ClipNotList(scene, last.0, scene);
        NotListedSnoc(Clips(scene, init, imagesDir, onDisk), ClipPath(scene, last.0), ConcatListPath(scene));
      } else {
        assert Clips(scene, shots, imagesDir, onDisk) == Clips(scene, init, imagesDir, onDisk);
      }
    }
  }

  /** The bookkeeping right after a scene's clips: it raises exactly when a clip is listed
      twice, and otherwise does all of it. */
  lemma BookkeepingRun(scene: nat, shots: seq<(string, string)>, imagesDir: string, onDisk: set<string>,
                       failing: set<string>, gone: set<string>)
    ensures var clips := Clips(scene, shots, imagesDir, onDisk);
      var b := Bookkeeping(scene, clips);
      var r := UntilRaise(b, failing, Gone(Generated(scene, shots, imagesDir, onDisk), gone));
      r == UntilRaise(b, failing, {}) && (r.raised <==> Repeats(clips)) && (!r.raised ==> r.actions == b)
  {
    var clips := Clips(scene, shots, imagesDir, onDisk);
    if clips != [] {
      ClipsApart(scene, shots, imagesDir, onDisk);
      ClipsPresent(scene, shots, imagesDir, onDisk, gone);
      ConcatStepRun(ConcatListPath(scene), SceneVideoPath(scene), clips, failing,
                    Gone(Generated(scene, shots, imagesDir, onDisk), gone));
    }
  }

  /** What a scene does, and whether it raises, does not depend on what earlier scenes
      removed: its clips are generated afresh before they are listed and removed. */
  lemma SceneRunAnyGone(scene: nat, shots: seq<(string, string)>, imagesDir: string, onDisk: set<string>,
                        failing: set<string>, gone: set<string>)
    ensures UntilRaise(SceneRun(scene, shots, imagesDir, onDisk), failing, gone)
      == UntilRaise(SceneRun(scene, shots, imagesDir, onDisk), failing, {})
  {
    var generated := Generated(scene, shots, imagesDir, onDisk);
    var b := Bookkeeping(scene, Clips(scene, shots, imagesDir, onDisk));
    GeneratedRemovesNothing(scene, shots, imagesDir, onDisk);
    RemoveNothing(generated, failing, gone, {});
    UntilRaiseAppend(generated, b, failing, gone);
    UntilRaiseAppend(generated, b, failing, {});
    BookkeepingRun(scene, shots, imagesDir, onDisk, failing, gone);
    BookkeepingRun(scene, shots, imagesDir, onDisk, failing, {});
  }

  // ---------------------------------------------------------------------------
  // Properties
  // ---------------------------------------------------------------------------

  /** Without a filter every scene is processed, in order of first appearance; a missing
      storyboard file does nothing. */
  lemma MissingStoryboardDoesNothing(imagesDir: string, sceneFilter: Option<int>, onDisk: set<string>)
    ensures Run(None, imagesDir, sceneFilter, onDisk) == []
  {
  }

  /** With `--scene n` only scene `n` is processed: the run is that scene's run, or nothing
      when the storyboard has no such scene. */
  lemma {:induction false} FilterSelectsScene(keys: seq<nat>, pairs: seq<(nat, (string, string))>, n: int,
                                              imagesDir: string, onDisk: set<string>)
    requires forall i, j | 0 <= i < j < |keys| :: keys[i] != keys[j]
    ensures ScenesRun(keys, pairs, Some(n), imagesDir, onDisk)
      == (if n in keys then SceneRun(n as nat, Group<nat, (string, string)>(pairs, n as nat), imagesDir, onDisk) else [])
    decreases |keys|
  {
    if keys != [] {
      var init := keys[..|keys| - 1];
      LastKey(keys, n);
      FilterSelectsScene(init, pairs, n, imagesDir, onDisk);
    }
  }

  /** How the last of distinct keys relates to a key `n` and the keys before it. */
  lemma LastKey(keys: seq<nat>, n: int)
    requires keys != [] && forall i, j | 0 <= i < j < |keys| :: keys[i] != keys[j]
    ensures var init := keys[..|keys| - 1];
      && (forall i, j | 0 <= i < j < |init| :: init[i] != init[j])
      && (keys[|keys| - 1] == n ==> n !in init && n in keys)
      && (keys[|keys| - 1] != n ==> (n in keys <==> n in init))
  {
    var init := keys[..|keys| - 1];
    assert forall i | 0 <= i < |init| :: init[i] == keys[i];
    assert keys == init + [keys[|keys| - 1]];
  }

  /** `main` with `--scene n` does exactly scene `n`'s work. */
  lemma OnlyRequestedScene(content: string, imagesDir: string, n: int, onDisk: set<string>)
    ensures var pairs := ScenePairs(ParseStoryboardShots(content));
      Run(Some(content), imagesDir, Some(n), onDisk)
        == (if n in KeyOrder(pairs) then SceneRun(n as nat, Group<nat, (string, string)>(pairs, n as nat), imagesDir, onDisk) else [])
  {
    var pairs := ScenePairs(ParseStoryboardShots(content));
    KeyOrderDistinct(pairs);
    FilterSelectsScene(KeyOrder(pairs), pairs, n, imagesDir, onDisk);
  }

  /** The clips listed for concatenation are the clips generated, in the same order, and
      each is generated from an image that exists. */
  lemma {:induction false} GeneratedMatchesClips(scene: nat, shots: seq<(string, string)>, imagesDir: string,
                                                 onDisk: set<string>)
    ensures var g := Generated(scene, shots, imagesDir, onDisk);
      var c := Clips(scene, shots, imagesDir, onDisk);
      |g| == |c| && forall i | 0 <= i < |g| :: g[i].GenerateClip? && g[i].clip == c[i] && g[i].image in onDisk
    decreases |shots|
  {
    if shots != [] {
      GeneratedMatchesClips(scene, shots[..|shots| - 1], imagesDir, onDisk);
    }
  }

  /** `a` is the clip generated for shot `s`, whose image exists. */
  predicate ClipOfShot(a: Action, scene: nat, imagesDir: string, onDisk: set<string>, s: (string, string)) {
    ImagePath(imagesDir, scene, s.0) in onDisk && a == ShotClip(scene, imagesDir, s)
  }

  /** A clip is generated exactly for the shots whose image exists, from the stripped
      description, at the shot's clip path. */
  lemma {:induction false} ClipsNeedImages(scene: nat, shots: seq<(string, string)>, imagesDir: string,
                                           onDisk: set<string>, a: Action)
    ensures a in Generated(scene, shots, imagesDir, onDisk)
      <==> exists s | s in shots :: ClipOfShot(a, scene, imagesDir, onDisk, s)
    decreases |shots|
  {
    if shots != [] {
      ClipsNeedImages(scene, shots[..|shots| - 1], imagesDir, onDisk, a);
      GeneratedMemberSnoc(scene, shots, imagesDir, onDisk, a);
      SomeClipOfShotSnoc(scene, shots, shots[..|shots| - 1], imagesDir, onDisk, a);
    }
  }

  lemma GeneratedMemberSnoc(scene: nat, shots: seq<(string, string)>, imagesDir: string, onDisk: set<string>, a: Action)
    requires shots != []
    ensures a in Generated(scene, shots, imagesDir, onDisk)
      <==> a in Generated(scene, shots[..|shots| - 1], imagesDir, onDisk)
           || ClipOfShot(a, scene, imagesDir, onDisk, shots[|shots| - 1])
  {
    var last := shots[|shots| - 1];
    var tail := ClipStep(scene, imagesDir, onDisk, last);
    GeneratedSnoc(scene, shots, imagesDir, onDisk);
    InConcat(a, Generated(scene, shots[..|shots| - 1], imagesDir, onDisk), tail);
    ClipStepMember(scene, imagesDir, onDisk, last, a);
  }

  /** The clip request a shot adds, if its image exists. */
  function ClipStep(scene: nat, imagesDir: string, onDisk: set<string>, shot: (string, string)): seq<Action> {
    if ImagePath(imagesDir, scene, shot.0) in onDisk then [ShotClip(scene, imagesDir, shot)] else []
  }

  lemma GeneratedSnoc(scene: nat, shots: seq<(string, string)>, imagesDir: string, onDisk: set<string>)
    requires shots != []
    ensures Generated(scene, shots, imagesDir, onDisk)
      == Generated(scene, shots[..|shots| - 1], imagesDir, onDisk) + ClipStep(scene, imagesDir, onDisk, shots[|shots| - 1])
  {
  }

  lemma ClipStepMember(scene: nat, imagesDir: string, onDisk: set<string>, shot: (string, string), a: Action)
    ensures a in ClipStep(scene, imagesDir, onDisk, shot) <==> ClipOfShot(a, scene, imagesDir, onDisk, shot)
  {
  }

  lemma SomeClipOfShotSnoc(scene: nat, shots: seq<(string, string)>, init: seq<(string, string)>, imagesDir: string,
                           onDisk: set<string>, a: Action)
    requires shots != [] && init == shots[..|shots| - 1]
    ensures (exists s | s in shots :: ClipOfShot(a, scene, imagesDir, onDisk, s))
      <==> (exists s | s in init :: ClipOfShot(a, scene, imagesDir, onDisk, s))
           || ClipOfShot(a, scene, imagesDir, onDisk, shots[|shots| - 1])
  {
    var last := shots[|shots| - 1];
    InitLast(shots);
    if exists s | s in shots :: ClipOfShot(a, scene, imagesDir, onDisk, s) {
      var s :| s in shots && ClipOfShot(a, scene, imagesDir, onDisk, s);
      InConcat(s, init, [last]);
    }
    if exists s | s in init :: ClipOfShot(a, scene, imagesDir, onDisk, s) {
      var s :| s in init && ClipOfShot(a, scene, imagesDir, onDisk, s);
      InConcat(s, init, [last]);
    }
    if ClipOfShot(a, scene, imagesDir, onDisk, last) {
      InConcat(last, init, [last]);
    }
  }

  /** A scene's run raises exactly when one of its shots has its image on disk and the request
      for its clip is refused, or two of its shots have the same shot number, as written, and
      that shot's image is on disk: the second `os.remove` of their shared clip then fails. */
  lemma SceneRaisesIffClipRefused(scene: nat, shots: seq<(string, string)>, imagesDir: string,
                                  onDisk: set<string>, failing: set<string>)
    ensures UntilRaise(SceneRun(scene, shots, imagesDir, onDisk), failing, {}).raised
      <==> SomeClipRefused(scene, shots, imagesDir, onDisk, failing) || SharedShot(scene, shots, imagesDir, onDisk)
  {
    var g := Generated(scene, shots, imagesDir, onDisk);
    GeneratedRemovesNothing(scene, shots, imagesDir, onDisk);
    RequestsRaise(g, failing, {});
    UntilRaiseAppend(g, Bookkeeping(scene, Clips(scene, shots, imagesDir, onDisk)), failing, {});
    BookkeepingRun(scene, shots, imagesDir, onDisk, failing, {});
    ClipsRepeat(scene, shots, imagesDir, onDisk);
    GeneratedRefusedIff(scene, shots, imagesDir, onDisk, failing);
  }

  /** The clip loop meets a refused request exactly when a shot with its image on disk has
      its clip refused. */
  lemma GeneratedRefusedIff(scene: nat, shots: seq<(string, string)>, imagesDir: string,
                            onDisk: set<string>, failing: set<string>)
    ensures SomeRefused(Generated(scene, shots, imagesDir, onDisk), failing)
      <==> SomeClipRefused(scene, shots, imagesDir, onDisk, failing)
  {
    var g := Generated(scene, shots, imagesDir, onDisk);
    if SomeRefused(g, failing) {
      var i :| 0 <= i < |g| && Refused(g[i], failing);
      ClipsNeedImages(scene, shots, imagesDir, onDisk, g[i]);
      var shot :| shot in shots && ClipOfShot(g[i], scene, imagesDir, onDisk, shot);
      var k :| 0 <= k < |shots| && shots[k] == shot;
      assert ClipPath(scene, shots[k].0) in failing;
    }
    if SomeClipRefused(scene, shots, imagesDir, onDisk, failing) {
      var k :| 0 <= k < |shots| && ImagePath(imagesDir, scene, shots[k].0) in onDisk
               && ClipPath(scene, shots[k].0) in failing;
      var a := ShotClip(scene, imagesDir, shots[k]);
      ClipsNeedImages(scene, shots, imagesDir, onDisk, a);
      assert shots[k] in shots && ClipOfShot(a, scene, imagesDir, onDisk, shots[k]);
      var i :| 0 <= i < |g| && g[i] == a;
      assert Refused(g[i], failing);
    }
  }

  /** Some shot of the scene has its image on disk and the request for its clip refused. */
  predicate SomeClipRefused(scene: nat, shots: seq<(string, string)>, imagesDir: string, onDisk: set<string>,
                            failing: set<string>) {
    exists k | 0 <= k < |shots| :: ImagePath(imagesDir, scene, shots[k].0) in onDisk && ClipPath(scene, shots[k].0) in failing
  }

  /** Some shot of `shots` has shot number `n`, as written. */
  predicate ShotListed(shots: seq<(string, string)>, n: string) {
    exists k | 0 <= k < |shots| :: shots[k].0 == n
  }

  lemma ListedSnoc(shots: seq<(string, string)>, n: string)
    requires shots != []
    ensures ShotListed(shots, n) <==> ShotListed(shots[..|shots| - 1], n) || shots[|shots| - 1].0 == n
  {
    var init := shots[..|shots| - 1];
    assert forall k | 0 <= k < |init| :: init[k] == shots[k];
  }

  /** Two shots of the scene have the same shot number and that shot's image exists: both
      clips go to the same path, which the clean-up then removes twice. */
  predicate SharedShot(scene: nat, shots: seq<(string, string)>, imagesDir: string, onDisk: set<string>) {
    exists i, j | 0 <= i < j < |shots| :: shots[i].0 == shots[j].0 && ImagePath(imagesDir, scene, shots[i].0) in onDisk
  }

  lemma SharedShotSnoc(scene: nat, shots: seq<(string, string)>, imagesDir: string, onDisk: set<string>)
    requires shots != []
    ensures var last := shots[|shots| - 1].0;
      SharedShot(scene, shots, imagesDir, onDisk)
      <==> SharedShot(scene, shots[..|shots| - 1], imagesDir, onDisk)
           || (ImagePath(imagesDir, scene, last) in onDisk && ShotListed(shots[..|shots| - 1], last))
  {
    var init := shots[..|shots| - 1];
    var last := shots[|shots| - 1].0;
    assert forall k | 0 <= k < |init| :: init[k] == shots[k];
    if SharedShot(scene, shots, imagesDir, onDisk) {
      var i, j :| 0 <= i < j < |shots| && shots[i].0 == shots[j].0 && ImagePath(imagesDir, scene, shots[i].0) in onDisk;
      if j < |init| {
        assert init[i].0 == init[j].0;
      } else {
        assert init[i].0 == last;
      }
    }
    if ImagePath(imagesDir, scene, last) in onDisk && ShotListed(init, last) {
      var k :| 0 <= k < |init| && init[k].0 == last;
      assert shots[k].0 == shots[|shots| - 1].0;
    }
  }

  /** A clip path is in the scene's list exactly when a shot with that number has its image. */
  lemma {:induction false} ClipsMember(scene: nat, shots: seq<(string, string)>, imagesDir: string,
                                       onDisk: set<string>, n: string)
    ensures ClipPath(scene, n) in Clips(scene, shots, imagesDir, onDisk)
      <==> ImagePath(imagesDir, scene, n) in onDisk && ShotListed(shots, n)
    decreases |shots|
  {
    if shots != [] {
      ClipsMember(scene, shots[..|shots| - 1], imagesDir, onDisk, n);
      ListedSnoc(shots, n);
      ClipPathInjective(scene, shots[|shots| - 1].0, n);
    }
  }

  /** The scene's clip list repeats a path exactly when two of its shots share a number whose
      image exists. */
  lemma {:induction false} ClipsRepeat(scene: nat, shots: seq<(string, string)>, imagesDir: string, onDisk: set<string>)
    ensures Repeats(Clips(scene, shots, imagesDir, onDisk)) <==> SharedShot(scene, shots, imagesDir, onDisk)
    decreases |shots|
  {
    if shots != [] {
      var init := shots[..|shots| - 1];
      var shot := shots[|shots| - 1].0;
      var clips := Clips(scene, shots, imagesDir, onDisk);
      ClipsRepeat(scene, init, imagesDir, onDisk);
      SharedShotSnoc(scene, shots, imagesDir, onDisk);
      if ImagePath(imagesDir, scene, shot) in onDisk {
        assert clips == Clips(scene, init, imagesDir, onDisk) + [ClipPath(scene, shot)];
        assert clips[..|clips| - 1] == Clips(scene, init, imagesDir, onDisk);
        RepeatsSnoc(clips);
        ClipsMember(scene, init, imagesDir, onDisk, shot);
      } else {
        assert clips == Clips(scene, init, imagesDir, onDisk);
      }
    }
  }

  /** With `--scene n`, `main` raises exactly when scene `n` exists and one of its shots has
      its image on disk and its clip request refused, or two of its shots share a shot number
      whose image is on disk. */
  lemma RequestedSceneRaisesIffClipRefused(content: string, imagesDir: string, n: int, onDisk: set<string>,
                                           failing: set<string>)
    ensures var pairs := ScenePairs(ParseStoryboardShots(content));
      UntilRaise(Run(Some(content), imagesDir, Some(n), onDisk), failing, {}).raised
      <==> n in KeyOrder(pairs)
           && (SomeClipRefused(n as nat, Group<nat, (string, string)>(pairs, n as nat), imagesDir, onDisk, failing)
               || SharedShot(n as nat, Group<nat, (string, string)>(pairs, n as nat), imagesDir, onDisk))
  {
    var pairs := ScenePairs(ParseStoryboardShots(content));
    OnlyRequestedScene(content, imagesDir, n, onDisk);
    if n in KeyOrder(pairs) {
      SceneRaisesIffClipRefused(n as nat, Group<nat, (string, string)>(pairs, n as nat), imagesDir, onDisk, failing);
    }
  }

  /** A scene is concatenated only when it has a clip; then its list names every clip
      once in order, and every clip and the list are removed after the concatenation, the
      list last. */
  lemma ConcatOnlyWithClips(scene: nat, clips: seq<string>)
    ensures var b := Bookkeeping(scene, clips);
      (clips == [] <==> b == [])
      && (clips != [] ==>
            b[0] == WriteFile(ConcatListPath(scene), ListFile(clips))
            && b[1] == ConcatVideos(ConcatListPath(scene), SceneVideoPath(scene))
            && (forall i | 0 <= i < |clips| :: b[2 + i] == RemoveFile(clips[i]))
            && b[|b| - 1] == RemoveFile(ConcatListPath(scene))
            && |b| == |clips| + 3)
  {
    if clips != [] {
      Framed(WriteFile(ConcatListPath(scene), ListFile(clips)), ConcatVideos(ConcatListPath(scene), SceneVideoPath(scene)),
             Removals(clips), RemoveFile(ConcatListPath(scene)));
    }
  }

  /** When the clean-up of a scene raises (a clip listed twice), its concat list is left
      on disk: the run stops before the list's `os.remove`. */
  lemma ListLeftOnRaise(scene: nat, shots: seq<(string, string)>, imagesDir: string, onDisk: set<string>,
                        failing: set<string>)
    ensures var clips := Clips(scene, shots, imagesDir, onDisk);
      var r := UntilRaise(Bookkeeping(scene, clips), failing, Gone(Generated(scene, shots, imagesDir, onDisk), {}));
      r.raised ==> RemoveFile(ConcatListPath(scene)) !in r.actions
  {
    var clips := Clips(scene, shots, imagesDir, onDisk);
    var b := Bookkeeping(scene, clips);
    var list := ConcatListPath(scene);
    var r := UntilRaise(b, failing, Gone(Generated(scene, shots, imagesDir, onDisk), {}));
    if r.raised {
      ConcatOnlyWithClips(scene, clips);
      UntilRaisePrefix(b, failing, Gone(Generated(scene, shots, imagesDir, onDisk), {}));
      ClipsApart(scene, shots, imagesDir, onDisk);
      forall i | 0 <= i < |r.actions| ensures r.actions[i] != RemoveFile(list) {
        assert r.actions[i] == b[i];
        if 2 <= i {
          assert b[2 + (i - 2)] == RemoveFile(clips[i - 2]);
        }
      }
    }
  }

  lemma Framed(w: Action, c: Action, rs: seq<Action>, r: Action)
    ensures var b := [w, c] + rs + [r];
      |b| == |rs| + 3 && b[0] == w && b[1] == c && b[|b| - 1] == r
      && forall i | 0 <= i < |rs| :: b[2 + i] == rs[i]
  {
  }

  /** A clip's concat-list line names its file, `scene_<scene>_shot_<shot>.mp4`. */
  lemma ListLineNamesClip(scene: nat, shot: string)
    requires AllDigits(shot)
    ensures ListLine(ClipPath(scene, shot)) == "file '" + ClipName(scene, shot) + "'\n"
  {
    var name := ClipName(scene, shot);
    var sc := NatToString(scene);
    assert name == "scene_" + sc + "_shot_" + shot + ".mp4";
    forall j | 0 <= j < |name| ensures name[j] != '/' {
      if j < 6 {
      } else if j < 6 + |sc| {
        assert name[j] == sc[j - 6];
      } else if j < 12 + |sc| {
      } else if j < 12 + |sc| + |shot| {
        assert name[j] == shot[j - 12 - |sc|];
      }
    }
    ListLineOfJoin(CLIP_DIR, name);
  }

  /** Shots are grouped by their integer scene number in order of appearance: the group of a
      scene lists the (shot, description) of that scene's shots, in storyboard order. */
  lemma GroupedByScene(shots: seq<Shot>, scene: nat, shot: string, desc: string)
    requires forall k | 0 <= k < |shots| :: WellFormed(shots[k])
    ensures (shot, desc) in Group(ScenePairs(shots), scene)
      <==> exists k | 0 <= k < |shots| :: DigitsValue(shots[k].scene) == scene
                                        && shots[k].shot == shot && shots[k].description == desc
  {
    var pairs := ScenePairs(shots);
    GroupMembers(pairs, scene, (shot, desc));
    if (scene, (shot, desc)) in pairs {
      var k :| 0 <= k < |pairs| && pairs[k] == (scene, (shot, desc));
      assert DigitsValue(shots[k].scene) == scene;
    }
    if exists k | 0 <= k < |shots| :: DigitsValue(shots[k].scene) == scene
                                     && shots[k].shot == shot && shots[k].description == desc {
      var k :| 0 <= k < |shots| && DigitsValue(shots[k].scene) == scene
               && shots[k].shot == shot && shots[k].description == desc;
      assert pairs[k] == (scene, (shot, desc));
    }
  }
}
