# cineforge pipeline core in Dafny

cineforge turns a short story into a film in stages. The stages are:

- narrative deconstruction into a JSON schema;
- screenplay and storyboard;
- visual assets (character portraits, environment plates, storyboard images);
- video clips and scene videos;
- sound effects, voiceover and final assembly.

This project models the parts of the Python code that decide things. These are the per-project
pipeline state store, the protocol each stage job follows when it records progress in that store,
and the text, path and bookkeeping logic of the media scripts. The project then proves what those
parts promise.

## How the model is organised

One module per source file, plus shared helper modules:

- `ProjectUtils` (`project_utils.py`): the state store.
  - The persisted documents are a class `Store` with one field, `docs: map<string, ProjectState>`,
    keyed by the sanitised project name.
  - `load_project`, `save_project`, `init_project` and `ensure_project` are methods on it.
  - `update_step` is the method `Store.UpdateStep`. It does the source's in-place steps: step
    registration, status, timestamps, history appends, the output merge, the artifact-mirroring
    loop and the error branch. It is proved equal to the pure specification `ApplyUpdate`.
  - Lemmas about `ApplyUpdate` state the store's properties: nothing but the named step changes;
    the first `started_at` survives retries; a failure always sets `finished_at`; one history
    entry per status and one per error, with `meta.prev` and the 500-character preview; artifacts
    are never cleared; state consistency is preserved.
  - A sequence of `update_step` calls is folded by `ApplyCalls`. Its lemmas (last call decides,
    frame, events appended) are what the job proofs use.
- `Jobs` and `Tasks` (`tasks.py`): each Celery task body is a method on the shared `Store`. It
  takes the outcome of the generation call as a `Result` value. It is proved to leave the store
  as `Effect(old docs, job, now)` and to return the job's result. Lemmas then state which steps
  end `running`, `success` or `failed`, with which outputs and history. `_require_env` is the
  function `RequireEnv`.
- `NarrativeDeconstruction` and `ScreenplayStoryboard` (`src/step1_…`, `src/step2_…`): the same
  treatment for `NarrativeDeconstructor.run` and for the step-2 `main`. `Generators` holds the
  constructor defaults of the three generator classes.
- `Fences` and `Naming`: the ```` ```json ```` fence stripping and the file-name derivation. The
  stage scripts, `pipeline.py` and `src/pipeline.py` all write these the same way, so they are
  defined once.
- `Config` (`src/config.py`): `_deep_merge` on JSON objects, the file-search order of
  `load_config`, the environment `setdefault`s and `get_path`.
- `Utils` (`src/utils.py`): the style-profile precedence and its persistence, the style-prompt
  lookup, `parse_storyboard_shots`, `get_characters_in_shot` and `get_scene_setting`. `Shots`
  holds the hand-written parsers for the two shot-header patterns. `Grouping` holds the
  insertion-ordered `defaultdict(list)` grouping.
- `Voiceover` and `SrcVoiceover`: the two dialogue extractors, as loops proved against filter
  functions.
- `Pipeline`, `SrcPipeline`, `VideoSynthesis`, `StoryboardImages`, `SoundDesign`,
  `FinalAssembly`: each script is modelled as the sequence of outside effects it performs.
  - `Effects.Action` records directory creation, file writes and removals, image and clip
    generation requests, and ffmpeg runs.
  - Every loop of the source is a method proved against a function over that sequence.
  - What exists on disk at the start (`onDisk`) and which generation requests fail (`failing`)
    are parameters. How ffmpeg ends is a parameter of `FinalAssembly` only. The ffmpeg
    concatenations of `pipeline.py` and `src/step4_video_synthesis.py` are taken to succeed.
  - Where the source lets an exception propagate, the run stops at the first effect that
    raises, and records that it raised. `Effects.UntilRaise` cuts the planned effects there.
    It tracks the files removed so far: a refused service request raises, and so does the
    `os.remove` of a file that is no longer there. A clip path listed twice in one scene is
    such a removal. Writing or generating a file puts it back.
  - The images of `onDisk` never change during a run, because the runs remove only `.mp4` and
    `.txt` files.
  - Where the source catches the error (the environment plates and storyboard images of
    `src/pipeline.py`), the loop goes on without that request's effects.
- `PyText` (Python `str`/`os.path` semantics on `seq<char>`), `JsonValue` (JSON values with
  Python truthiness, `.get` and the display of strings, `None` and booleans) and `Wrappers` (`Option`/`Result`).

Python `None` and `""` behave the same in every `if x:` and `x or y` the source applies to
statuses, errors, project ids and styles. The model therefore writes both as `""` there.

### Behaviour of `update_step` worth knowing

- A step's `error` is never cleared: a later `running` call leaves the old error in place.
- An error without a status always sets `finished_at`, even on a step that has already
  finished.
- The `step:<key>:error` history entry is appended for every truthy error, after the status
  entry when both are given.
- The step keeps the full error message. Only the history preview is truncated, to 500
  characters.
- Any truthy status is accepted from any state: there are no transition rules.

## Model

| member | source | states |
|---|---|---|
| ProjectUtils.SafeName | project_utils.py:43 | the storage key has the name's length, consists only of letters, digits, `_` and `-`, keeps exactly the safe characters and turns every other one into `_` |
| ProjectUtils.ProjectPath | project_utils.py:41-44 | a project's document lives at `output/projects/<storage key>.json` |
| ProjectUtils.SafeNameOfSafe | project_utils.py:43 | a name made only of safe characters is its own storage key |
| ProjectUtils.SafeNameIdempotent | project_utils.py:43 | sanitising a name twice gives the same key as sanitising it once |
| ProjectUtils.ProjectPathSharedIffSameKey | project_utils.py:41-44 | two project names share one document exactly when they sanitise to the same key |
| ProjectUtils.DistinctNamesCollide | project_utils.py:43 | different names such as "a b" and "a.b" are stored in the same document |
| ProjectUtils.DefaultStateShape | project_utils.py:47-73 | a new document carries the project name and one creation/update time, every pipeline step not started with no times, error or outputs, every artifact pointer unset and an empty history |
| ProjectUtils.DefaultStateSizes | project_utils.py:24-33 | a new document has exactly eight steps and seven artifact pointers |
| ProjectUtils.DefaultStateConsistent | project_utils.py:47-73 | a new document satisfies the step/history consistency invariant |
| ProjectUtils.DefaultState | project_utils.py:47-73 | a new document names the project, has one creation and update time and no history, and has every pipeline step not started and every artifact pointer unset |
| ProjectUtils.ErrorPreview500 | project_utils.py:187 | the error recorded in the history is a prefix of the error of at most 500 characters, the whole error when it is short enough and exactly 500 characters otherwise |
| ProjectUtils.Store.constructor | project_utils.py:20 | the projects directory starts with no documents |
| ProjectUtils.Store.LoadProject | project_utils.py:85-91 | returns a document exactly when one is stored under the name's key, and then that document |
| ProjectUtils.Store.SaveProject | project_utils.py:76-82 | replaces the document under the name's key and no other |
| ProjectUtils.Store.InitProject | project_utils.py:94-100 | keeps a stored document, adds and saves a default one only when none is stored, returns the resulting document and keeps every document consistent |
| ProjectUtils.Store.EnsureProject | project_utils.py:103-105 | behaves exactly as `InitProject` |
| ProjectUtils.Store.UpdateStep | project_utils.py:108-191 | returns and stores the updated document under the name's key, creating a default document first when there was none, and keeps every document consistent |
| ProjectUtils.ApplyUpdateInPlace | project_utils.py:138-189 | the step-by-step registration, status, outputs, mirroring, error and timestamp updates produce the document the update specification describes |
| ProjectUtils.ApplyUpdate | project_utils.py:137-189 | an update keeps the project name and creation time, sets `updated_at` to the call's time, adds the step when it is new and keeps the old history as a prefix |
| ProjectUtils.MirrorArtifacts | project_utils.py:166-177 | the mirroring loop copies into the artifact pointers exactly the recognised keys whose output value is truthy |
| ProjectUtils.UpdateTouchesOnlyItsStep | project_utils.py:138-148 | an unknown step key is registered as a fresh step; every other step, the project name and the creation time are unchanged and `updated_at` is the call's time |
| ProjectUtils.UpdateStatus | project_utils.py:151-182 | an explicit status wins; an error without a status fails the step; otherwise the status is kept |
| ProjectUtils.UpdateStartedAt | project_utils.py:153-154 | `started_at` is set only by a `running` update on a step that had not started |
| ProjectUtils.UpdateFinishedAt | project_utils.py:155-183 | `finished_at` is stamped by `success`, by `failed` and by an error without a status, and by nothing else |
| ProjectUtils.RetriedRunningKeepsFirstStart | project_utils.py:153-154 | a second `running` keeps the start time of the first |
| ProjectUtils.UpdateError | project_utils.py:178-188 | the step keeps the full error and the last history entry is the step's error event at the call's time, carrying at most the first 500 characters of the error |
| ProjectUtils.UpdateHistory | project_utils.py:150-188 | the history keeps its old entries and grows by one entry per status and one per error; the status entry records the status the step had before the call |
| ProjectUtils.UpdateOutputs | project_utils.py:162-164 | the step's outputs become the old outputs merged with the new ones, new values winning and old unrelated keys kept |
| ProjectUtils.UpdateArtifacts | project_utils.py:162-177 | exactly the recognised artifact keys with a truthy output are set to that output; every other pointer keeps its value |
| ProjectUtils.ArtifactsNeverCleared | project_utils.py:166-177 | no update clears an artifact pointer that was set |
| ProjectUtils.EmptyUpdateOnlyTouches | project_utils.py:151-189 | an update with no status, outputs or error on a known step changes only `updated_at` |
| ProjectUtils.ApplyUpdateConsistent | project_utils.py:138-189 | every update keeps the invariant that running and finished steps have their timestamps and that each timestamp and error is backed by a history entry |
| ProjectUtils.InitIdempotent | project_utils.py:94-100 | a second `init_project` changes no document and returns the document the first returned |
| ProjectUtils.StoreAfterInit | project_utils.py:137-190 | saving the updated document overrides whatever `init_project` may have added under that key |
| ProjectUtils.UpdateDocsOfStored | project_utils.py:137-191 | updating a project whose document was just saved applies the update to that document |
| ProjectUtils.UpdateDocsFrame | project_utils.py:137-191 | an update of one project leaves the document of every other storage key untouched |
| ProjectUtils.UpdateDocsAt | project_utils.py:137-191 | an update stores under the name's key the update applied to the stored document, or to a fresh default document when there was none |
| ProjectUtils.ApplyCallsSnoc | project_utils.py:108-191 | a further `update_step` call acts on the documents the earlier calls left |
| ProjectUtils.ApplyCallsAfterInit | project_utils.py:94-137 | an `init_project` before a non-empty run of updates makes no difference to what they leave |
| ProjectUtils.ApplyCallsAppend | project_utils.py:108-191 | two runs of updates one after the other act as their concatenation |
| ProjectUtils.ApplyCallsFrame | project_utils.py:108-191 | a run of updates on one project leaves every other project's document alone |
| ProjectUtils.ApplyCallsStores | project_utils.py:137-190 | a non-empty run of updates stores a document for the project and never changes its creation time |
| ProjectUtils.ApplyCallsUntouched | project_utils.py:138-148 | a step that no update names keeps its state |
| ProjectUtils.LastCallDecides | project_utils.py:151-188 | the last update naming a step decides its status, error and finishing time and leaves the outputs it gave |
| ProjectUtils.LastCallMirrors | project_utils.py:166-177 | after an update whose recognised output is truthy, that output is the project's artifact pointer |
| ProjectUtils.NoOutputsKeepArtifacts | project_utils.py:162-177 | updates without outputs leave every artifact pointer as it was |
| ProjectUtils.OneCallEvents | project_utils.py:157-188 | one update logs its status event and then its error event, in that order, after the old history |
| ProjectUtils.ApplyCallsEvents | project_utils.py:157-188 | a run of updates keeps the old history and then logs exactly the events of its calls, in order |
| ProjectUtils.RunFresh | project_utils.py:137-161 | a `running` update on a new document stamps the start time, logs one event recording the previous status `not_started` and leaves the document consistent |
| ProjectUtils.SucceedAfterRun | project_utils.py:151-177 | a `success` with a schema file after a run finishes the step, records the output, mirrors the artifact and logs one event recording the previous status `running` |
| ProjectUtils.RunThenSucceed | project_utils.py:108-191 | on a new project, `running` then `success` leaves the step finished with both times, the schema file mirrored and exactly two history entries, in a consistent document |
| Jobs.FailAll | tasks.py:52-163 | the `except` block marks each of its steps failed with the raised message, one call per step, in order |
| Jobs.Perform | project_utils.py:108-191 | one `update_step` call of a job extends the sequence of calls the store has seen by exactly that call |
| Jobs.Begin | tasks.py:43-44 | `init_project` followed by the first call leaves the store as if only that call had been made |
| Jobs.FailOne | tasks.py:51-52 | the recovery of a one-step job adds exactly one failed call for its step |
| Jobs.FailTwo | tasks.py:84-86 | the recovery of the screenplay job adds the two failed calls, screenplay first |
| Jobs.CallEventsOfKinds | project_utils.py:157-188 | a running call logs one event, a success call one, a failed call with a message logs `failed` then `error`, a failed call without one only `failed` |
| Jobs.FailedLastEffect | tasks.py:52 | the step an `except` block marks failed last is `failed`, finished at the call's time and carries the message when there is one |
| Jobs.FailedTwoEffect | tasks.py:85-86 | both steps the screenplay job's `except` block names end `failed` with the message |
| Jobs.NarrativeStageEffect | tasks.py:44-47 | after a successful narrative stage the step is `success`, finished, has the schema file as output and as artifact pointer, and the history logs `running` then `success` |
| Tasks.RequireEnv | tasks.py:24-29 | an explicit project or location wins over the environment; the location defaults to `us-central1` only when unset; the job fails with "VERTEX_PROJECT_ID is required" exactly when no project is given or set |
| Tasks.RunJob | tasks.py:39-56 | a job succeeds exactly when the environment, the name and the attempt do, and then makes the attempt's calls; a job without a name makes no call; a failed named job raises the first error and ends with the failure marks of its steps |
| Tasks.DeconstructJob | tasks.py:39-56 | the narrative job succeeds exactly when the environment, the name and the stage do, making the two narrative calls; a failed named job ends by marking the narrative step failed with the message |
| Tasks.PipelineJob | tasks.py:127-167 | a pipeline job without a name makes no call; a failed named job ends by marking the video step failed with the message |
| Tasks.RecoverOne | tasks.py:49-56 | after a failure the name is derived again and, if that works, the one step is marked failed; the error is raised again and the store is what the job specification says |
| Tasks.RecoverTwo | tasks.py:82-90 | the same for a job that marks two steps failed |
| Tasks.DeconstructAttempt | tasks.py:43-48 | the narrative stage's calls and outcome are those of the attempt specification |
| Tasks.DeconstructNarrativeTask | tasks.py:39-56 | returns or raises what the job specification says and leaves the store the job's calls produce |
| Tasks.ScriptAttempt | tasks.py:70-81 | the screenplay stage's calls and outcome are those of the attempt specification |
| Tasks.GenerateScreenplayAndStoryboardTask | tasks.py:66-90 | returns or raises what the job specification says and leaves the store the job's calls produce |
| Tasks.AssetsAttempt | tasks.py:104-109 | the visual-assets stage's calls and outcome are those of the attempt specification |
| Tasks.GenerateVisualAssetsTask | tasks.py:100-117 | returns or raises what the job specification says and leaves the store the job's calls produce |
| Tasks.PipelineScript | tasks.py:138-142 | the pipeline's screenplay stage adds its running marks and then its two successes, screenplay first |
| Tasks.PipelineRestAttempt | tasks.py:138-153 | the pipeline after its narrative stage makes the calls and has the outcome the specification of the remaining stages says |
| Tasks.PipelineAttempt | tasks.py:132-158 | the whole pipeline attempt makes the calls and has the outcome of its specification |
| Tasks.FullPipelineTask | tasks.py:127-167 | returns or raises what the pipeline job specification says and leaves the store its calls produce |
| Tasks.DeconstructSucceeds | tasks.py:39-48 | with a working environment and stage, the job marks the narrative step running then success on the derived project and returns the schema file and the project name |
| Tasks.DeconstructFails | tasks.py:49-56 | any failure once the name is known raises the same message again and leaves the narrative step failed and finished with that message; a missing project logs only the failure events |
| Tasks.ScriptStageEffect | tasks.py:71-76 | after a successful screenplay stage both steps are `success`, each with its own output file |
| Tasks.ScriptStageOrder | tasks.py:71-76 | both screenplay steps are logged running before either is logged as a success |
| Tasks.ScriptSucceeds | tasks.py:66-81 | with a working environment and stage the job makes the stage's four calls and returns both files and the project name |
| Tasks.ScriptFails | tasks.py:82-90 | any failure once the name is known raises the message again and leaves both steps failed with it |
| Tasks.AssetsStageEffect | tasks.py:105-108 | after a successful visual-assets stage the step is `success` and finished and the artifact pointers are unchanged |
| Tasks.AssetsSucceeds | tasks.py:100-109 | with a working environment and stage the job returns `ok` and the project name after its two calls |
| Tasks.AssetsFails | tasks.py:110-117 | any failure once the name is known raises the message again and leaves the step failed with it |
| Tasks.UnnamedJobLeavesStore | tasks.py:49-56 | a job whose project name cannot be derived raises without changing any document |
| Tasks.PipelineSucceeds | tasks.py:127-158 | a working pipeline makes the four stages' calls in order and then the video call, and returns all four files and the name even when there is no video |
| Tasks.VideoStepEffect | tasks.py:148-152 | a video is recorded as the step's output and as the video artifact; no video fails the step with "Video synthesis not implemented" |
| Tasks.PipelineTriedUnfailing | tasks.py:132-147 | before a pipeline failure no call marks a step failed or records an error |
| Tasks.PipelineFailsOnVideoOnly | tasks.py:160-167 | whatever goes wrong once the name is known, the only failure recorded is on the video step, as the last call, with the message raised again |
| Tasks.PipelineScriptRaises | tasks.py:136-163 | when the screenplay stage raises, the narrative step stays `success` and both screenplay steps stay `running` |
| Tasks.PipelineAssetsRaises | tasks.py:141-163 | when the visual-assets stage raises, both screenplay steps stay `success` and the visual-assets step stays `running` |
| Tasks.PipelineStagesSucceed | tasks.py:134-146 | a complete pipeline run leaves the four generation stages `success` |
| Generators.PyGet | src/step1_narrative_deconstruction.py:20-24 | `v.get(key, default)` raises exactly when `v` is not a dict, and otherwise gives the key's value or the default |
| Generators.NewGenerator | src/step1_narrative_deconstruction.py:18-24 | a generator keeps the configuration; a `vertex` that is not a dict raises; without `vertex` it has no project, location `us-central1` and the stage's own model and parameters |
| Generators.NewGeneratorFails | src/step1_narrative_deconstruction.py:18-24 | a generator's constructor raises exactly when `vertex`, or `models` or `generation` within it, is present but not a dict |
| Generators.FallbacksWhenMissing | src/step1_narrative_deconstruction.py:20-24 | with no configuration a generator has no project, location `us-central1` and its stage's own model and generation parameters |
| Generators.ConfiguredSettingsWin | src/step1_narrative_deconstruction.py:20-24 | every setting the configuration gives is taken as it is, whatever its value |
| Generators.DefaultsAgree | src/step1_narrative_deconstruction.py:23-24 | built from the configuration's defaults, the three stages get the same models and temperatures as their own fallbacks: `gemini-2.5-pro` at 0.2 for the narrative, `gemini-2.5-flash` at 0.7 for screenplay and storyboard |
| NarrativeDeconstruction.Outcome | src/step1_narrative_deconstruction.py:85-112 | a successful attempt returns the story's schema file name inside the configured schema directory |
| NarrativeDeconstruction.Attempt | src/step1_narrative_deconstruction.py:86-104 | the two passes, fence stripping, parsing, directory lookup and write give the outcome its specification says |
| NarrativeDeconstruction.Run | src/step1_narrative_deconstruction.py:76-115 | returns or raises what the run specification says and leaves the store its calls produce |
| NarrativeDeconstruction.RunJob | src/step1_narrative_deconstruction.py:76-115 | a story that cannot be read raises before any call; a run without a name makes no call; a named run makes two calls, `running` and then `success` with the schema file or `failed` with the message |
| NarrativeDeconstruction.RunOnProject | src/step1_narrative_deconstruction.py:82-115 | from `init_project` on, the run records `running` and then `success` with the schema file or `failed` with the message |
| NarrativeDeconstruction.NameChoice | src/step1_narrative_deconstruction.py:81 | a given project name wins; otherwise the name derived from the story path is used, and a failing derivation raises without touching the store |
| NarrativeDeconstruction.RunningFirst | src/step1_narrative_deconstruction.py:78-83 | a story that cannot be read raises before any store call, and once a project is named its first call is `running` |
| NarrativeDeconstruction.RunSucceeds | src/step1_narrative_deconstruction.py:99-112 | a successful run records `success` with the schema file as its only output and returns the story's stem plus `_schema.json` in the configured schema directory |
| NarrativeDeconstruction.RunFails | src/step1_narrative_deconstruction.py:113-115 | any error of the attempt marks the step failed with its message, raises it again and never records a success |
| NarrativeDeconstruction.InvalidOutlineFails | src/step1_narrative_deconstruction.py:89-96 | an outline whose unfenced text is not valid JSON fails the run with the parser's message |
| NarrativeDeconstruction.SchemaFileNamesProject | src/step1_narrative_deconstruction.py:101 | the name the later stages read off the saved schema file (its stem without `_schema`) is the story's stem, unless that stem contains `_schema` |
| ScreenplayStoryboard.ScreenplayOutcome | src/step2_screenplay_and_storyboard.py:86-99 | a successful screenplay attempt saves to the schema's stem without `_schema` plus `_screenplay.txt` in the configured screenplay directory |
| ScreenplayStoryboard.StoryboardOutcome | src/step2_screenplay_and_storyboard.py:108-121 | a successful storyboard attempt saves to the schema's stem without `_schema` plus `_storyboard.txt` in the configured storyboard directory |
| ScreenplayStoryboard.ScreenplayAttempt | src/step2_screenplay_and_storyboard.py:87-93 | generation, directory lookup and write give the outcome its specification says |
| ScreenplayStoryboard.StoryboardAttempt | src/step2_screenplay_and_storyboard.py:109-115 | generation, directory lookup and write give the outcome its specification says |
| ScreenplayStoryboard.ScreenplayStage | src/step2_screenplay_and_storyboard.py:85-103 | the screenplay step records `running` and then `success` with its file or `failed` with the message |
| ScreenplayStoryboard.StoryboardStage | src/step2_screenplay_and_storyboard.py:107-125 | the storyboard step adds `running` and then `success` with its file or `failed` with the message |
| ScreenplayStoryboard.MainOnProject | src/step2_screenplay_and_storyboard.py:81-125 | once named, the script runs the screenplay stage and then, only if it succeeded, the storyboard stage, as its specification says |
| ScreenplayStoryboard.RunScript | src/step2_screenplay_and_storyboard.py:63-125 | returns or raises what the script specification says and leaves the store its calls produce |
| ScreenplayStoryboard.MissingSchemaTouchesNothing | src/step2_screenplay_and_storyboard.py:73-78 | a schema file that is not found ends the script normally before any project is created or step touched |
| ScreenplayStoryboard.StoryboardRunsAfterScreenplay | src/step2_screenplay_and_storyboard.py:101-107 | the storyboard step is marked running only as the third call, right after the screenplay's success |
| ScreenplayStoryboard.ScreenplayFailureSparesStoryboard | src/step2_screenplay_and_storyboard.py:101-103 | a screenplay failure marks that step failed with the message it raises again and leaves the storyboard step as it was |
| ScreenplayStoryboard.BothSucceed | src/step2_screenplay_and_storyboard.py:94-121 | two successful stages leave both steps `success`, each with its own output file |
| ScreenplayStoryboard.BothSucceedOrder | src/step2_screenplay_and_storyboard.py:85-121 | the history logs the screenplay's running and success before the storyboard's |
| ScreenplayStoryboard.StoryboardFailureKeepsScreenplay | src/step2_screenplay_and_storyboard.py:123-125 | a storyboard failure keeps the screenplay's success, marks the storyboard failed and raises its message |
| ScreenplayStoryboard.OutputsNamedAfterStory | src/step2_screenplay_and_storyboard.py:90-112 | for a schema saved by the narrative stage the screenplay and storyboard files are the story's stem plus `_screenplay.txt` or `_storyboard.txt` |
| Naming.Stem | src/step1_narrative_deconstruction.py:101 | the stem of a path is taken from its last component and so holds no `/` |
| Naming.SchemaFileName | src/step1_narrative_deconstruction.py:101 | a story's schema file is its stem followed by `_schema.json` |
| Naming.ProjectNameFromSchema | src/step2_screenplay_and_storyboard.py:90 | the name read off a schema file is never longer than its stem and equals the stem when the stem contains no `_schema` |
| Naming.RemoveAllAbsent | src/step2_screenplay_and_storyboard.py:90 | `.replace(p, "")` changes nothing when `p` does not occur |
| Naming.StemOfSchemaFileName | src/step1_narrative_deconstruction.py:101 | the stem of a story's schema file name is the story's stem plus `_schema` |
| Naming.SchemaNameRoundTrip | pipeline.py:124 | whatever directory the schema is stored in, the project name read off a story's schema file is the story's stem, unless that stem contains `_schema` |
| Fences.DropOpen | src/step1_narrative_deconstruction.py:91-92 | a leading ```` ```json ```` fence is removed exactly when present |
| Fences.DropClose | src/step1_narrative_deconstruction.py:93-94 | a trailing ```` ``` ```` fence is removed exactly when present |
| Fences.StripFences | src/step1_narrative_deconstruction.py:90-94 | the unfenced text is what lies between an optional opening and an optional closing fence of the trimmed outline |
| Fences.Unfence | src/step1_narrative_deconstruction.py:91-94 | dropping both fences from trimmed text leaves a middle part of it |
| Fences.FencedRoundTrip | src/step1_narrative_deconstruction.py:89-94 | a body wrapped in a ```` ```json ```` fence comes back exactly, whatever it holds |
| Fences.UnfencedIsTrimmed | src/step1_narrative_deconstruction.py:90-94 | text that after trimming neither opens nor closes with a fence is only trimmed |
| Fences.SurroundingSpaceIgnored | src/step1_narrative_deconstruction.py:90 | whitespace around the outline never reaches the unfenced result |
| Config.Defaults | src/config.py:18-41 | the defaults hold exactly `vertex`, `paths` and `styles`; the location comes from the environment with `us-central1` as fallback; the paths are the default directories and there are no styles |
| Config.DeepMerge | src/config.py:44-51 | the merge has the union of the keys; keys only in the base keep their value; where both values are dicts they are merged, otherwise the override wins |
| Config.MergeInto | src/config.py:44-51 | the copy-and-assign loop computes the merge, whatever order the override's keys are visited in |
| Config.MergeDone | src/config.py:44-51 | once every key of the override is visited, the copy is the merge |
| Config.MergeStep | src/config.py:46-50 | assigning one more key's merged value keeps the loop invariant |
| Config.MergeWithNothing | src/config.py:46 | merging with nothing gives the base unchanged |
| Config.MergeIntoNothing | src/config.py:44-51 | merging into nothing gives the override |
| Config.MergeIdempotent | src/config.py:44-51 | merging a configuration with itself changes nothing |
| Config.MergeAbsorbs | src/config.py:44-51 | merging the same file twice is the same as merging it once |
| Config.FileDict | src/config.py:76-93 | a file only merges when it exists and parses |
| Config.TryMerge | src/config.py:76-93 | `try_merge` reports success exactly when the file yields a dict, and then the configuration is merged with it; otherwise it is unchanged |
| Config.FirstMerging | src/config.py:98-100 | the search finds the first default path whose file merges, or reports that none does |
| Config.SetVertexDefault | src/config.py:104 | `setdefault` raises exactly when `vertex` is not a dict, and otherwise leaves a dict `vertex` holding the key and every other section unchanged |
| Config.SetVertexDefaultFillsOnly | src/config.py:103-106 | `setdefault` never overwrites a key already in `vertex` and fills a missing one with the environment's value |
| Config.ApplyEnv | src/config.py:102-106 | with neither variable set nothing changes; the overrides raise exactly when a variable is set and `vertex` is present but not a dict; no section but `vertex` changes, and it is a dict afterwards |
| Config.LoadConfig | src/config.py:66-108 | `load_config` is the defaults, then the file step, then the environment overrides |
| Config.FirstMergingAt | src/config.py:98-100 | the first path that merges is the one the search finds |
| Config.ExplicitPathAlone | src/config.py:95-96 | with an explicit path no other file is consulted |
| Config.IgnoredFileKeepsDefaults | src/config.py:90-96 | an explicit file that is missing, malformed or not a dict leaves the defaults as they were |
| Config.SearchStopsAtFirst | src/config.py:97-100 | without an explicit path the search stops at the first default file that merges, whatever later files hold |
| Config.NoFileKeepsDefaults | src/config.py:97-100 | when no default file merges the in-code defaults stand |
| Config.EmptyYamlMerges | src/config.py:59-63 | a falsy YAML document merges as `{}` and so stops the search |
| Config.EnvOverridesAfterMergeChangeNothing | src/config.py:102-106 | since the defaults always hold a project and a location, the environment overrides change nothing after a file whose `vertex` is a dict |
| Config.NonDictVertexRaises | src/config.py:103-106 | a file whose `vertex` is not a dict makes `load_config` raise when an environment override applies |
| Config.GetPath | src/config.py:111-112 | `get_path` raises exactly when `paths` is not a dict, gives the configured value when it is truthy and the default otherwise |
| Config.DirPath | src/config.py:111-112 | a directory is usable exactly when `get_path` gives a string |
| Config.DefaultsGiveDefaultPaths | src/config.py:33-39 | with the defaults alone every known path key gives its default directory |
| Utils.ResolveStyleProfile | src/utils.py:45-83 | returns the profile chosen by precedence and, when persisting, writes the settings document with both style keys set |
| Utils.StylePrecedence | src/utils.py:52-65 | the command-line profile wins, then the legacy `--style`, then the settings file's `style_profile`, then its `style`, then the default; empty values count as absent |
| Utils.ChooseStyle | src/utils.py:52-65 | the command-line profile wins, then the legacy style; the result is one of the four candidates, and truthy whenever the default is |
| Utils.UnusableSettingsIgnored | src/utils.py:58-63 | a settings file that is missing, cannot be loaded or is not a dict leaves the choice to the arguments and the default |
| Utils.PersistKeepsOtherSettings | src/utils.py:67-81 | persisting sets both style keys to the returned profile and keeps every other setting; missing or falsy settings are replaced by the two keys alone; a non-dict document is not written |
| Utils.ResolveStylePrompt | src/utils.py:86-96 | the style prompt is the profile itself or a truthy mapped value |
| Utils.StylePromptMapping | src/utils.py:88-96 | the mapped prompt is used exactly when the configuration maps the profile to a truthy value; a missing or broken configuration gives the profile |
| Utils.ParseStoryboardShots | src/utils.py:102-107 | every parsed shot has digit-only scene and shot numbers |
| Utils.MentionedNames | src/utils.py:115-116 | raises exactly when some entry cannot be tested; otherwise gives, in schema order, exactly the entries' names that occur in the description |
| Utils.GetCharactersInShot | src/utils.py:115-116 | a schema whose characters cannot be read raises; every name returned occurs in the description, and the names keep the schema's order |
| Utils.FirstSetting | src/utils.py:119-126 | gives `""` when no scene has the number, otherwise the first matching scene's setting, and is always `""` or truthy |
| Utils.GetSceneSetting | src/utils.py:119-126 | the search loop with its early return gives what `get_scene_setting` specifies |
| Shots.DigitRun | pipeline.py:245 | `\d+` reads the longest run of digits at the start of the text |
| Shots.SpaceRun | pipeline.py:245 | `\s*` and `\s+` read the longest run of whitespace at the start of the text |
| Shots.DigitsThen | src/utils.py:102 | a digit group followed by the expected text yields non-empty digits and what follows |
| Shots.SingleSpacedHeader | src/utils.py:102 | a recognised `SCENE n, SHOT m:` header has two digit groups and leaves a shorter text |
| Shots.AnySpacedHeader | pipeline.py:245 | a recognised header with any whitespace between its words has two digit groups and leaves a shorter text |
| Shots.ShotPart | pipeline.py:245 | `\s*SHOT\s+(\d+):\n` yields non-empty digits and leaves a shorter text |
| Shots.Description | src/utils.py:102 | the lazy description is the shortest prefix that holds no `\nSCENE` and is followed by `\nSCENE` or the end of the text |
| Shots.FoundShotsWellFormed | src/utils.py:105-107 | every match has decimal scene and shot numbers and a description that stops before the next `\nSCENE` |
| Shots.RenderRoundTrip | src/utils.py:102-107 | parsing a written-out storyboard, with either spelling of the header, gives exactly its shots back, in order |
| Shots.RenderStep | pipeline.py:245-246 | the first block of a longer storyboard yields its shot, then the search goes on with the rest |
| Shots.SkipBreak | pipeline.py:245-246 | the search passes over a line break without a match |
| Shots.FindAllBlock | src/utils.py:102-107 | the first match in a block followed by more storyboard is the block's own shot |
| Shots.BlockHeader | pipeline.py:245 | the header of a written-out block is recognised by both spellings of the pattern |
| Shots.DescriptionBeforeNext | src/utils.py:102 | a description without `\nSCENE` is read up to the line break that starts the next block, or to the end |
| Shots.NoHeaderAtBreak | src/utils.py:102 | no header starts at a line break |
| Shots.RenderStartsWithScene | src/utils.py:102 | a written-out storyboard with a shot starts with `SCENE` |
| Grouping.GroupByKey | pipeline.py:247-258 | the grouping loop lists the distinct keys in order of first appearance and files under each exactly the values of its pairs, in order |
| Grouping.KeyOrderComplete | src/step4_video_synthesis.py:51-53 | a key is listed exactly when some pair carries it |
| Grouping.KeyOrderDistinct | src/step4_video_synthesis.py:51-53 | no key is listed twice |
| Grouping.GroupAppend | src/step4_video_synthesis.py:51-53 | filing more pairs appends their values after the earlier ones: appearance order is kept within each group |
| Grouping.GroupMembers | src/step4_video_synthesis.py:51-53 | a group holds exactly the values of the pairs with its key |
| Grouping.ListedGroupNonEmpty | src/step4_video_synthesis.py:51-53 | every listed key has at least one value |
| Grouping.UnlistedGroupEmpty | src/step4_video_synthesis.py:51-53 | a key that is not listed has an empty group |
| Voiceover.ExtractDialogue | step6_voiceover_generation.py:7-26 | the loop over `splitlines()` yields the kept lines, stripped and in order, joined by single spaces |
| Voiceover.KeptAreDialogue | step6_voiceover_generation.py:14-25 | every kept line is stripped, non-blank, not all uppercase, and neither a heading nor a parenthetical |
| Voiceover.KeptOne | step6_voiceover_generation.py:15-25 | each line decides for itself: it is kept, stripped, exactly when it is dialogue |
| Voiceover.KeptAppend | step6_voiceover_generation.py:14-25 | the extraction keeps the screenplay's order: the dialogue of two pieces is the first's followed by the second's |
| Voiceover.GenerateVoiceover | step6_voiceover_generation.py:29-50 | nothing is spoken exactly when no line is kept; otherwise the joined dialogue is spoken to the output path |
| Voiceover.JoinOfNonEmpty | step6_voiceover_generation.py:26-37 | the joined dialogue is empty only when no line was kept |
| SrcVoiceover.ExtractDialogue | src/step6_voiceover_generation.py:17-28 | the loop over `split('\n')` yields the appended lines, stripped and in order, joined by single spaces |
| SrcVoiceover.AppendsExactly | src/step6_voiceover_generation.py:18-26 | a line is appended exactly when it is not all uppercase, does not start with `(` and is not blank; the heading tests never decide |
| SrcVoiceover.UpperOfStrip | src/step6_voiceover_generation.py:25 | stripping a line does not change whether it is all uppercase |
| SrcVoiceover.ParenOfStrip | src/step6_voiceover_generation.py:22 | a line opening with `(` still opens with it once stripped |
| SrcVoiceover.KeptByTopLevel | src/step6_voiceover_generation.py:18-26 | every line the top-level extractor keeps, this script keeps too |
| SrcVoiceover.HeadingKeptHere | src/step6_voiceover_generation.py:19-26 | a heading with lower-case letters such as "INT. Kitchen" is kept here and dropped by the top-level extractor |
| SrcVoiceover.IndentedParentheticalKeptHere | src/step6_voiceover_generation.py:22-26 | an indented parenthetical is kept here, stripped, and dropped by the top-level extractor |
| Effects.Removals | pipeline.py:281-283 | one removal per path, in order |
| Effects.WriteList | pipeline.py:274-276 | the list-writing loop writes one `file '<base name>'` line per clip, in order |
| Effects.RemoveEach | pipeline.py:281-282 | the removal loop does what the removal specification says on the disk it starts from: the paths are removed in order, and the first that is no longer there raises |
| Effects.RoundsMembership | pipeline.py:262-284 | an effect of a loop is an effect of one of its rounds, and every round's effects are the loop's |
| Effects.ListFileAppend | pipeline.py:287-289 | the list for two runs of clips is the first's lines followed by the second's |
| Effects.ListLineOfJoin | pipeline.py:276 | a clip stored under a directory is listed by its own file name |
| Effects.GoneAppend | pipeline.py:262-300 | the files missing after two parts are those the second leaves missing, starting from what the first left |
| Effects.GoneWithin | pipeline.py:281-283 | a file missing after a run was missing before it or was removed by it |
| Effects.UntilRaisePrefix | pipeline.py:262-300 | a run with an uncaught exception is a prefix of the planned effects that runs through; it raises exactly when it stops short, and the next planned effect then raises on the disk the run left |
| Effects.UntilRaiseAppend | pipeline.py:262-300 | running two parts in sequence is the first's run if it raised, and otherwise all of the first followed by the second's run on the disk the first left |
| Effects.RemoveNothing | pipeline.py:264-271 | effects that remove nothing run alike whatever is missing from disk |
| Effects.RequestsRaise | pipeline.py:264-271 | effects that remove nothing raise exactly when one of their requests is refused, and otherwise are all done |
| Effects.CleanThen | pipeline.py:262-300 | after a part that did not raise, a part that does not raise on the disk the first left does not raise either |
| Effects.RaiseWithin | pipeline.py:262-300 | a part that raises ends the run inside it, after everything before it |
| Effects.RaiseAt | pipeline.py:264-282 | an effect that raises after a clean part ends the run just before it |
| Effects.SomeRefusedAppend | pipeline.py:262-300 | two parts have a refused request exactly when one of them does |
| Effects.RepeatsSnoc | pipeline.py:281-282 | a list with one more path repeats a path exactly when the shorter list did or the new path was already listed |
| Effects.RemovalsGone | pipeline.py:281-282 | once the removal loop has run, every removed path is missing from disk |
| Effects.RemovalsRaise | pipeline.py:281-282 | removing files that are all on disk raises exactly when a path is listed twice |
| Effects.RemovalsRun | pipeline.py:281-282 | a removal loop on files that are on disk runs the same whatever else is missing, and without a repeated path removes all of them |
| Effects.ConcatStepRemoves | pipeline.py:273-283 | the concat step removes only its inputs and its list |
| Effects.ConcatStepRun | pipeline.py:273-283 | a concat step on inputs that are on disk, none of them the list, raises exactly when an input is listed twice, and otherwise writes the list, runs ffmpeg, removes every input and then the list |
| Effects.ConcatFiles | pipeline.py:273-283 | the list-writing, ffmpeg and removal steps do what the concat step specifies, on a disk that has every input |
| Pipeline.Deconstruct | pipeline.py:72-85 | the schema directory is made, then the answer with its fences stripped is written to `<story stem>_schema.json` in it |
| Pipeline.ScreenplayAndStoryboard | pipeline.py:124-135 | both directories are made first, then the screenplay and the storyboard are written to `<project>_screenplay.txt` and `<project>_storyboard.txt`, the project being the schema's stem without `_schema` |
| Pipeline.SchemaSavedUnfenced | pipeline.py:75-84 | a fenced answer is saved, at the schema path, as exactly the JSON inside the fence |
| Pipeline.StageNamesFollowStory | pipeline.py:124-130 | the screenplay and storyboard of a story's schema are `<story stem>_screenplay.txt` and `<story stem>_storyboard.txt` in their directories |
| Pipeline.AssetName | pipeline.py:155-159 | the image name keeps the name's length and has no space and no upper-case letter |
| Pipeline.BaseStyle | pipeline.py:148 | the style used for portraits and plates is never empty |
| Pipeline.AssetNameCollisions | pipeline.py:155-159 | names that differ only in case or in space versus underscore share one image file |
| Pipeline.WithStyle | pipeline.py:228-230 | without a style the prompt is unchanged; with one it starts with the prompt and ends with `Style: <style>` |
| Pipeline.ShotNumberExact | pipeline.py:224-227 | scene and shot are at least 1, the shot at most 10, and the paragraph index is recovered from the pair |
| Pipeline.ShotNumberInjective | pipeline.py:224-227 | two paragraphs never share a scene and shot |
| Pipeline.FirstRefusedImage | pipeline.py:225-231 | the paragraph found is the first from the start index whose image request is refused, or the count when none is |
| Pipeline.ShotImage | pipeline.py:199-231 | one round of the loop is the image of the stripped, styled paragraph at its scene and shot; a refused request raises and leaves nothing of the round |
| Pipeline.GenerateVisualAssets | pipeline.py:215-231 | the function does what the loop over the stripped storyboard's `\n\n` paragraphs specifies, raising at the first refused image request |
| Pipeline.ParagraphImages | pipeline.py:225-231 | the loop performs the rounds of the paragraphs in order until the first refused image request, and raises exactly then |
| Pipeline.VisualAssetsSnoc | pipeline.py:225-231 | one more paragraph adds exactly its own image at the end |
| Pipeline.VisualAssets | pipeline.py:224-231 | the loop plans two effects per paragraph: the directory and the image |
| Pipeline.VisualAssetsPerParagraph | pipeline.py:224-231 | every paragraph gets one image, in order, at `scene_<i//10+1>_shot_<i%10+1>.png`, from the stripped paragraph with the style appended |
| Pipeline.EmptyStoryboardOneImage | pipeline.py:224-231 | an empty storyboard still asks for one image, scene 1 shot 1, with an empty description |
| Pipeline.VisualAssetsRaiseIffRefused | pipeline.py:199-231 | the loop raises exactly when some paragraph's image request is refused; without a refusal every paragraph gets its image, and when it raises the images done are those of the paragraphs before a refused one |
| Pipeline.StripEach | pipeline.py:254 | every part is stripped, position by position |
| Pipeline.NonEmpty | pipeline.py:254 | exactly the non-empty parts are kept, in order |
| Pipeline.ParagraphsExactly | pipeline.py:254 | the fallback paragraphs are exactly the non-blank parts, stripped |
| Pipeline.MatchPairs | pipeline.py:249-252 | one pair per regex match, with the description stripped |
| Pipeline.NumberedPairs | pipeline.py:255-258 | paragraph k becomes shot k%10+1 of scene k//10+1 with that paragraph as description |
| Pipeline.InsertKey | pipeline.py:262 | inserting a scene number adds exactly that number |
| Pipeline.SortedKeys | pipeline.py:262 | sorting keeps every scene number with its multiplicity |
| Pipeline.InsertKeyAscending | pipeline.py:262 | inserting into an ascending list keeps it ascending |
| Pipeline.SortedKeysAscending | pipeline.py:262 | the sorted scene numbers are ascending and a permutation of the input |
| Pipeline.ScenesInAscendingOrder | pipeline.py:247-262 | the scenes are visited in strictly ascending number, and they are exactly the scenes that have a shot |
| Pipeline.HeaderlessUsesParagraphs | pipeline.py:248-258 | without any header, the shots are the stripped non-empty paragraphs numbered by position |
| Pipeline.SceneJoin | pipeline.py:272-284 | a scene is joined only when it has a clip; the join writes the list `concat_scene_<n>.txt` first, runs ffmpeg into the scene video, and removes the list last |
| Pipeline.FilmJoin | pipeline.py:285-296 | the film is joined only when there is a scene video; the join writes `concat_all.txt` first, runs ffmpeg into `combined_video.mp4`, and removes the list last |
| Pipeline.SynthesisRun | pipeline.py:262-300 | the returned path is None or `combined_video.mp4`, None whenever the run raises, and what is done is a prefix of the plan |
| Pipeline.Synthesize | pipeline.py:234-300 | the same for the storyboard text: None or the film path, None after an exception, and a prefix of the planned effects |
| Pipeline.ProcessVideoScene | pipeline.py:263-284 | the loop over one scene's shots and its concat step do what the scene specification says until an exception: a refused clip request, or the second `os.remove` of a clip that two shots share; otherwise they return the scene's clips |
| Pipeline.GenerateSceneClips | pipeline.py:264-271 | the loop requests a clip for each shot whose image exists until a request is refused, and otherwise collects every clip path |
| Pipeline.SceneClipsIffImage | pipeline.py:264-272 | a scene yields a clip exactly when one of its shots has its image on disk |
| Pipeline.ProcessVideoScenes | pipeline.py:262-284 | the loop over the sorted scenes does every scene's work, in order, until a scene raises, and otherwise collects the scene videos |
| Pipeline.NoVideosIffNoClips | pipeline.py:272-285 | no scene video is made exactly when no scene yields a clip |
| Pipeline.SynthesizeFromShots | pipeline.py:247-300 | grouping, the loop over the sorted scenes and the final join do what the specification says, cut at the first exception |
| Pipeline.SynthesizeVideo | pipeline.py:234-300 | `synthesize_video_from_storyboard` does what its specification on the storyboard text, the images on disk and the refused requests says, including the `FileNotFoundError` of a clip shared by two shots |
| Pipeline.FilmIffSomeImage | pipeline.py:285-300 | the film path is returned exactly when nothing raises and some shot has its image on disk; a run that does not raise and returns None does nothing beyond the scene loop's effects |
| Pipeline.SceneClipActionsAppend | pipeline.py:264-271 | the clip requests for shots split in two are the first part's followed by the rest's |
| Pipeline.SceneClipsRaiseAt | pipeline.py:264-271 | a refused clip request ends the scene's loop just before it, having done the clips of the earlier shots |
| Pipeline.ScenesActionsAppend | pipeline.py:262-284 | the work for scenes split in two is the first part's followed by the rest's |
| Pipeline.ScenesRaiseWithin | pipeline.py:262-284 | a scene that raises ends the loop over the scenes inside that scene |
| Pipeline.SynthesisStopsAtFirstRaise | pipeline.py:262-300 | a run that does not raise is the planned one; one that raises returns no film and has done exactly the planned effects before the first one that raises, which raises on the disk they left |
| Pipeline.SynthesisRaisesIffClipRefused | pipeline.py:247-284 | the function raises exactly when some storyboard shot has its image on disk and its clip request is refused, or two storyboard shots have the same scene and shot numbers, as `int`s, with that image on disk |
| Pipeline.RepeatedShotRaises | pipeline.py:281-282 | a storyboard with `SCENE 1, SHOT 1:` twice and that image on disk raises at the second removal of the shared clip, with no request refused |
| Pipeline.SceneRefusedIffFailingClip | pipeline.py:264-271 | a scene's loop meets a refused request exactly when one of its shots with an image on disk has its clip refused |
| Pipeline.FailingClipSnoc | pipeline.py:264-271 | one more shot has a refused clip exactly when it does or an earlier one does |
| Pipeline.SceneFailsIffShotFails | pipeline.py:247-271 | some sorted scene has a refused clip exactly when some storyboard shot with its image on disk has its clip refused |
| Pipeline.SceneSharesIffShotRepeated | pipeline.py:247-282 | some sorted scene has two shots sharing a clip path exactly when two storyboard shots have the same scene and shot numbers with that image on disk |
| Pipeline.SceneRaises | pipeline.py:263-284 | a scene raises exactly when one of its shots with an image has its clip refused, or two of its shots with an image have the same shot number |
| Pipeline.ScenesRaise | pipeline.py:262-284 | the loop over the scenes raises exactly when one of the scenes has a refused clip or a shared clip path |
| Pipeline.SceneClipsRepeat | pipeline.py:264-282 | a scene's clip list repeats a path exactly when two of its shots have the same shot number and that image exists |
| Pipeline.SceneClipsApart | pipeline.py:272-279 | a scene's clips are neither its concat list nor a scene video |
| Pipeline.SceneAnyGone | pipeline.py:263-284 | a scene runs the same whatever earlier scenes removed, since its clips are generated afresh before they are listed and removed |
| Pipeline.SceneJoinRun | pipeline.py:273-283 | right after a scene's clips, its concat step raises exactly when a clip path is listed twice, and otherwise does all of its work |
| Pipeline.VideosDistinct | pipeline.py:283-296 | the scenes visited once each give distinct scene videos, so the final removals never meet a missing file |
| Pipeline.VideosApart | pipeline.py:285-296 | no scene video is the film's list |
| Pipeline.FilmJoinRuns | pipeline.py:285-296 | after the scene loop, the final join never raises and does all of its work |
| Pipeline.PlanRun | pipeline.py:262-300 | the run of the whole plan is the scene loop's run when that raises, after the clip directory is made, and the whole plan otherwise |
| Pipeline.SynthesisOutcome | pipeline.py:262-300 | the result is decided by how the scene loop runs: its effects and no film when it raises, otherwise the plan's effects and film |
| Pipeline.PlanFilmIffSomeImage | pipeline.py:285-300 | in the plan, the film path is returned exactly when some shot has its image on disk; with no film nothing beyond the scene loop's effects is planned |
| SrcPipeline.StylePresetExactly | src/pipeline.py:222-230 | a preset is found exactly when a style is given and the configuration maps it under `styles`; every failure of the lookup yields None instead of an error |
| SrcPipeline.CharacterEntries | src/pipeline.py:219 | the characters visited are the list's items, a string's characters, none when the key is absent, and an error for any other value |
| SrcPipeline.CharacterFallback | src/pipeline.py:233-236 | a non-dict character, or one without a truthy Name, is drawn under `str(character)`; a missing description becomes `""`; a string name is used as given |
| SrcPipeline.FirstFailure | src/pipeline.py:233-236 | the loop stops at the first character whose portrait raises: every earlier one passes |
| SrcPipeline.FirstFailureAt | src/pipeline.py:233-236 | the first failing character is the failing one that every earlier one passes |
| SrcPipeline.NoFailure | src/pipeline.py:233-236 | when every character passes, the loop runs to the end |
| SrcPipeline.PassingPrefix | src/pipeline.py:233-236 | a passing character extends the passing prefix |
| SrcPipeline.CharacterPortraits | src/pipeline.py:233-236 | the character loop does what its specification says: portraits up to the first failure, which ends the call |
| SrcPipeline.PortraitsUpTo | src/pipeline.py:233-236 | the loop's outcome is the portraits of the characters before the first failure, and it raises exactly when a failure exists |
| SrcPipeline.PortraitStep | src/pipeline.py:148-165 | one character that does not raise gets the portrait of one round |
| SrcPipeline.PortraitsRaiseIffFailure | src/pipeline.py:148-165 | the portrait loop raises exactly when some character's portrait fails |
| SrcPipeline.EveryCharacterPortrayed | src/pipeline.py:233-236 | when the loop does not raise, every character's portrait is saved, drawn from its name and description with the preset's style |
| SrcPipeline.Settings | src/pipeline.py:220 | the settings are read exactly when every scene has a usable one, one per scene, in order |
| SrcPipeline.LocationsAreSettings | src/pipeline.py:220 | the locations are exactly the distinct settings of the scenes |
| SrcPipeline.PlateStyle | src/pipeline.py:174 | without a truthy preset, a plate uses the cinematic-lighting default |
| SrcPipeline.EnvironmentPlates | src/pipeline.py:239-240 | the plate loop visits every location exactly once, in the order returned, and does what its specification says |
| SrcPipeline.PlateContent | src/pipeline.py:168-188 | a plate is saved exactly for a string location whose image the service produces, with its plate prompt; every failure leaves nothing |
| SrcPipeline.PlatesPerLocation | src/pipeline.py:239-240 | an image is saved for each string location the service does not refuse, from its plate prompt, and for nothing else |
| SrcPipeline.StoryboardShotImages | src/pipeline.py:243-251 | the loop over the paragraphs does what its specification says |
| SrcPipeline.ShotImageStep | src/pipeline.py:244-251 | one paragraph is numbered i//10+1, i%10+1 and drawn from itself with the style appended only when a preset was found |
| SrcPipeline.ShotImageContent | src/pipeline.py:191-205 | a paragraph's image is saved at its scene and shot path from its styled prompt, unless the service fails, which is swallowed |
| SrcPipeline.ShotImagesPerParagraph | src/pipeline.py:243-251 | an image is saved exactly for each paragraph the image service does not refuse |
| SrcPipeline.GenerateVisualAssets | src/pipeline.py:208-251 | `generate_visual_assets` does what its specification says, and enumerates every location once |
| SrcPipeline.OnlyPortraitFailuresRaise | src/pipeline.py:208-251 | the call raises exactly when the schema is unusable or a portrait fails; plate and storyboard-image failures are swallowed |
| SrcPipeline.VisualAssets | src/pipeline.py:208-251 | an unusable schema raises before any effect; otherwise the portraits up to the first failing one come first |
| SrcPipeline.SynthesizeVideo | src/pipeline.py:254-257 | the placeholder always returns None |
| SoundDesign.SceneSummary | src/step_sound_design.py:37 | the summary is lowercased before matching, and it is read exactly when the scene is a dict whose summary is a string |
| SoundDesign.SceneWrites | src/step_sound_design.py:39-47 | one empty file per matched effect, the k-th of a scene named `scene_<n:03d>_sfx_<k:03d>_<file>` |
| SoundDesign.SceneEffects | src/step_sound_design.py:39-47 | the keyword loop counts from 1 only on matches and writes one empty file per matched keyword, in table order |
| SoundDesign.GenerateSoundEffects | src/step_sound_design.py:5-51 | `generate_sound_effects` does what its specification on the parsed schema says |
| SoundDesign.Generate | src/step_sound_design.py:5-51 | a schema that is not a dict raises before any effect; whenever anything is done, the output directory is made first |
| SoundDesign.ScenesRun | src/step_sound_design.py:35-47 | the scene loop only adds effects after those done before it |
| SoundDesign.FailureIsFinal | src/step_sound_design.py:35-47 | once a scene has raised, later scenes change nothing |
| SoundDesign.MatchesExactly | src/step_sound_design.py:40-41 | an effect file is among a scene's effects exactly when the lowercased summary contains one of its keywords |
| SoundDesign.MatchesBounded | src/step_sound_design.py:39-43 | a scene has at most one effect per keyword, so its counter stays within the table's size |
| SoundDesign.NoScenesNoEffects | src/step_sound_design.py:14-18 | with no scenes nothing is created, not even the output directory |
| SoundDesign.ScenesRunFiles | src/step_sound_design.py:20-47 | after the directory is created, every effect is an empty file named after a scene 1..n and a count 1..10 |
| SoundDesign.SoundEffectFiles | src/step_sound_design.py:14-47 | for a list of scenes, the directory comes first and every later effect is such an empty numbered file |
| SoundDesign.FailsIffBadScene | src/step_sound_design.py:35-37 | the script stops on an exception exactly when some scene's summary cannot be read |
| SoundDesign.FailedStep | src/step_sound_design.py:35-37 | one more scene fails the loop exactly when the loop had failed or that scene's summary raises |
| SoundDesign.BadSceneSnoc | src/step_sound_design.py:35-37 | a scene list has an unreadable summary exactly when its prefix or its last scene has one |
| FinalAssembly.VideoFiles | src/step5_final_assembly.py:10 | exactly the listed names ending in `.mp4` are kept |
| FinalAssembly.OddPositions | src/step5_final_assembly.py:11 | `[1::2]` keeps the elements at odd positions, in order |
| FinalAssembly.LexLeTotal | src/step5_final_assembly.py:9-12 | any two integer tuples are ordered one way or the other |
| FinalAssembly.LexLeTrans | src/step5_final_assembly.py:9-12 | tuple order is transitive |
| FinalAssembly.Insert | src/step5_final_assembly.py:9-12 | inserting a keyed clip adds exactly that clip |
| FinalAssembly.SortByKey | src/step5_final_assembly.py:9-12 | sorting keeps every clip with its multiplicity |
| FinalAssembly.InsertSorted | src/step5_final_assembly.py:9-12 | inserting into a key-ordered list keeps it key-ordered |
| FinalAssembly.SortByKeySorted | src/step5_final_assembly.py:9-12 | the sorted clips are in key order and are a rearrangement of the given ones |
| FinalAssembly.Keyed | src/step5_final_assembly.py:11 | keying succeeds exactly when every name has a key, and pairs each name with its own key |
| FinalAssembly.Names | src/step5_final_assembly.py:9-12 | the names are read back position by position |
| FinalAssembly.SortedNamesAreFiles | src/step5_final_assembly.py:9-12 | sorting clips keyed from the files gives back those files, rearranged |
| FinalAssembly.ClipsAreTheVideoFiles | src/step5_final_assembly.py:9-12 | the assembled clips are the directory's `.mp4` files, each as often as listed |
| FinalAssembly.ClipsInKeyOrder | src/step5_final_assembly.py:9-12 | every clip has an integer key and the clips are in ascending key order |
| FinalAssembly.SortingKeepsKeys | src/step5_final_assembly.py:9-12 | every sorted entry still carries its own name's key |
| FinalAssembly.InsertNames | src/step5_final_assembly.py:9-12 | inserting a clip adds its name and nothing else |
| FinalAssembly.SortNames | src/step5_final_assembly.py:9-12 | sorting rearranges the names without adding or dropping any |
| FinalAssembly.WriteClipList | src/step5_final_assembly.py:19-21 | the loop writes one `file '<clip>'` line per clip, in order |
| FinalAssembly.ClipListAppend | src/step5_final_assembly.py:19-21 | the list of two runs of clips is the first's lines followed by the second's |
| FinalAssembly.AssembleFilm | src/step5_final_assembly.py:5-46 | `assemble_film` does what its specification on the listing and the ffmpeg outcome says |
| FinalAssembly.Assemble | src/step5_final_assembly.py:5-46 | either nothing is done or the list file is written, ffmpeg is run and the list is removed; with clips only an unexpected ffmpeg error escapes; with no effect, an error escapes exactly when a clip name has no integer key |
| FinalAssembly.NoClipsNoWork | src/step5_final_assembly.py:14-16 | with no clips nothing is written and ffmpeg is not run |
| FinalAssembly.ListRemovedWhateverFfmpeg | src/step5_final_assembly.py:18-46 | with clips, the list is written first and removed last whatever ffmpeg does; only an unexpected error escapes |
| FinalAssembly.ClipKeyOfSceneShot | src/step5_final_assembly.py:11 | a clip named `scene_<n>_shot_<m>.mp4` has key (n, m) |
| FinalAssembly.SceneTwoBeforeSceneTen | src/step5_final_assembly.py:11 | scene 2 sorts before scene 10: the order is numeric, not textual |
| VideoSynthesis.ScenePairs | src/step4_video_synthesis.py:51-53 | one pair per parsed shot, the scene number converted to an integer and the shot number kept as written |
| VideoSynthesis.ProcessScene | src/step4_video_synthesis.py:59-87 | one scene's loop and its concatenation and clean-up do what the scene specification says until an exception: a refused clip request, or the second `os.remove` of a clip that two shots share |
| VideoSynthesis.GenerateClips | src/step4_video_synthesis.py:59-68 | the loop requests a clip for each shot whose image exists until a request is refused, and otherwise collects every clip path |
| VideoSynthesis.RunScript | src/step4_video_synthesis.py:32-89 | `main` does what its specification on the storyboard contents, the scene filter and the images on disk says, up to the first exception, and raises exactly then |
| VideoSynthesis.ProcessScenes | src/step4_video_synthesis.py:51-87 | the grouping loop and the loop over the scenes in order of first appearance do what the specification says, up to the first scene that raises |
| VideoSynthesis.ScenesRunSnoc | src/step4_video_synthesis.py:55-57 | one more scene appends its run unless the filter skips it |
| VideoSynthesis.MissingStoryboardDoesNothing | src/step4_video_synthesis.py:41-46 | a missing storyboard file does nothing |
| VideoSynthesis.FilterSelectsScene | src/step4_video_synthesis.py:55-57 | with `--scene n` the run is exactly scene n's run, or nothing when no shot belongs to scene n |
| VideoSynthesis.LastKey | src/step4_video_synthesis.py:55-57 | the scenes before the last are distinct, and a scene is among all the scenes exactly when it is the last or among the earlier ones |
| VideoSynthesis.OnlyRequestedScene | src/step4_video_synthesis.py:48-87 | `main` with `--scene n` on a storyboard does exactly scene n's work |
| VideoSynthesis.GeneratedMatchesClips | src/step4_video_synthesis.py:60-66 | the clips collected are the clips generated, in order, each from an image that exists |
| VideoSynthesis.ClipsNeedImages | src/step4_video_synthesis.py:60-68 | a clip is generated exactly for each shot whose image exists, from its stripped description, at its clip path |
| VideoSynthesis.ConcatOnlyWithClips | src/step4_video_synthesis.py:70-87 | the clean-up is planned exactly when there is a clip: the list naming every clip in order, the concatenation, the removal of each clip and then of the list |
| VideoSynthesis.ListLineNamesClip | src/step4_video_synthesis.py:25-77 | a clip's list line names its own file, `scene_<scene>_shot_<shot>.mp4` |
| VideoSynthesis.GroupedByScene | src/step4_video_synthesis.py:51-53 | a scene's group holds exactly the (shot, description) of the storyboard shots with that integer scene number |
| VideoSynthesis.GeneratedAppend | src/step4_video_synthesis.py:60-68 | the clip requests for shots split in two are the first part's followed by the rest's |
| VideoSynthesis.GeneratedRaiseAt | src/step4_video_synthesis.py:9-68 | a refused clip request ends the scene's loop just before it, having done the clips of the earlier shots |
| VideoSynthesis.ScenesRunAppend | src/step4_video_synthesis.py:55-87 | the work for scenes split in two is the first part's followed by the rest's |
| VideoSynthesis.ScenesRunRaiseWithin | src/step4_video_synthesis.py:55-87 | a scene that raises ends the loop over the scenes inside that scene |
| VideoSynthesis.SceneRaisesIffClipRefused | src/step4_video_synthesis.py:59-87 | a scene's run raises exactly when one of its shots has its image on disk and its clip request refused, or two of its shots have the same shot number, as written, with that image on disk |
| VideoSynthesis.RequestedSceneRaisesIffClipRefused | src/step4_video_synthesis.py:48-87 | with `--scene n`, `main` raises exactly when scene n exists and one of its shots has its image on disk and its clip request refused, or two of its shots share a shot number whose image is on disk |
| VideoSynthesis.GeneratedRefusedIff | src/step4_video_synthesis.py:59-68 | the clip loop meets a refused request exactly when a shot with its image on disk has its clip refused |
| VideoSynthesis.ClipsRepeat | src/step4_video_synthesis.py:59-86 | a scene's clip list repeats a path exactly when two of its shots share a shot number, as written, whose image is on disk |
| VideoSynthesis.ClipsMember | src/step4_video_synthesis.py:59-68 | a clip path is in the scene's list exactly when a shot with that number is listed and its image is on disk |
| VideoSynthesis.ClipsPresent | src/step4_video_synthesis.py:59-68 | right after a scene's clips are generated, every one of them is on disk |
| VideoSynthesis.ClipsApart | src/step4_video_synthesis.py:70-86 | no clip of a scene is its concat list |
| VideoSynthesis.ClipPathInjective | src/step4_video_synthesis.py:25 | two shots of a scene get the same clip path only when their shot numbers are the same text |
| VideoSynthesis.ClipNotList | src/step4_video_synthesis.py:25-76 | no clip path is ever a concat list path |
| VideoSynthesis.BookkeepingRun | src/step4_video_synthesis.py:70-87 | right after a scene's clips, the clean-up raises exactly when a clip is listed twice, and otherwise does all of it |
| VideoSynthesis.SceneRunAnyGone | src/step4_video_synthesis.py:55-87 | a scene runs the same whatever earlier scenes removed, since its clips are generated afresh |
| VideoSynthesis.SceneStep | src/step4_video_synthesis.py:55-87 | a scene runs the same after earlier scenes and, when it does not raise, does all of its work |
| VideoSynthesis.ListLeftOnRaise | src/step4_video_synthesis.py:84-86 | when the clean-up of a scene raises, the concat list is never removed |
| VideoSynthesis.Bookkeeping | src/step4_video_synthesis.py:70-87 | the clean-up is empty exactly when there is no clip; otherwise it writes `concat_scene_<n>.txt` first, runs ffmpeg into `scene_<n>.mp4`, and removes the list last |
| VideoSynthesis.SceneRun | src/step4_video_synthesis.py:59-87 | a scene's run starts with its clip requests and adds nothing after them exactly when no clip was produced |
| VideoSynthesis.ScenesRun | src/step4_video_synthesis.py:55-57 | a negative `--scene` matches no scene, so nothing is done |
| VideoSynthesis.Run | src/step4_video_synthesis.py:41-57 | a missing storyboard file does nothing, and neither does a negative `--scene` |
| StoryboardImages.ParsedNumberConverts | src/generate_storyboard_images.py:34 | `int()` on the digits of a shot header never raises and gives their value |
| StoryboardImages.ReferenceClauseShape | src/generate_storyboard_images.py:37-42 | "as a reference…" closes the clause exactly when a character or a setting is present; the character clause comes first and the setting clause just before the closing words |
| StoryboardImages.PromptShape | src/generate_storyboard_images.py:36-44 | the prompt opens with the description and a blank line and always ends with `Style: <prompt>`; with no clause it is just those two |
| StoryboardImages.AssemblePrompt | src/generate_storyboard_images.py:36-44 | the repeated `+=` builds exactly the specified prompt |
| StoryboardImages.GenerateStoryboardImage | src/generate_storyboard_images.py:15-63 | the call does what its specification says, returns the shot's image path exactly when an image is saved, and None after any error |
| StoryboardImages.ShotImageSaved | src/generate_storyboard_images.py:26-63 | the image is saved exactly when both lookups succeed and the service does not fail, at the shot's path, from the assembled prompt |
| StoryboardImages.SelectedByNumber | src/generate_storyboard_images.py:96-100 | a shot passes the filters exactly when each given filter equals the number its header spells; an absent filter lets every shot through |
| StoryboardImages.ImageStep | src/generate_storyboard_images.py:96-109 | one round applies both filters and then draws the stripped description |
| StoryboardImages.GenerateImages | src/generate_storyboard_images.py:96-109 | the shot loop does what its specification says |
| StoryboardImages.ShotImageContent | src/generate_storyboard_images.py:96-109 | a round saves exactly the image of a selected shot whose lookups and generation succeed |
| StoryboardImages.ImagesOnlyForSelectedShots | src/generate_storyboard_images.py:96-109 | an image is generated exactly for the shots that pass the filters and whose generation does not fail, each from its own prompt and path |
| StoryboardImages.PromptsFromStrippedDescriptions | src/generate_storyboard_images.py:96-109 | every image comes from a selected shot's stripped description and ends with the style prompt |
| StoryboardImages.GenerateStoryboardImages | src/generate_storyboard_images.py:66-109 | `generate_storyboard_images` does what its specification says |
| StoryboardImages.MissingInputsDoNothing | src/generate_storyboard_images.py:76-90 | a missing storyboard, or a named but missing schema, ends the run before any image and before the style is saved |
| StoryboardImages.OnlyUnloadableSchemaRaises | src/generate_storyboard_images.py:76-109 | the only error that escapes is a named schema that cannot be loaded; service and lookup failures are swallowed |
| StoryboardImages.Run | src/generate_storyboard_images.py:66-109 | a missing storyboard does nothing; the run raises exactly when a named schema cannot be loaded, and then has done nothing and saved no settings |
| PyText.Find | src/utils.py:102-107 | `str.find`: the first occurrence of the pattern, or none when it does not occur |
| PyText.LStrip | src/step1_narrative_deconstruction.py:90 | the leading whitespace, and only that, is removed |
| PyText.RStrip | src/step1_narrative_deconstruction.py:90 | the trailing whitespace, and only that, is removed |
| PyText.Strip | src/step1_narrative_deconstruction.py:90 | the result is the middle of the text between leading and trailing whitespace, and neither starts nor ends with whitespace |
| PyText.StripOfTrimmed | src/step1_narrative_deconstruction.py:90 | stripping trimmed text changes nothing |
| PyText.Lower | src/step_sound_design.py:37 | lower-casing maps each character on its own and keeps the length |
| PyText.ReplaceChar | pipeline.py:158 | `replace(a, b)` on one character changes exactly the occurrences of `a` |
| PyText.RemoveAll | src/step2_screenplay_and_storyboard.py:90 | removing a pattern never makes the text longer |
| PyText.RemoveAllBeforeSuffix | src/step5_final_assembly.py:11 | when the pattern occurs only at the end, removing it leaves the text before it |
| PyText.Split | pipeline.py:224 | `split` always yields at least one part |
| PyText.SplitJoin | pipeline.py:224 | joining the parts with the separator gives back the text, and no part contains the separator |
| PyText.SplitLines | step6_voiceover_generation.py:14 | no line holds a line break |
| PyText.Basename | src/step1_narrative_deconstruction.py:101 | the base name is a suffix of the path holding no `/` |
| PyText.SplitextRoot | src/step1_narrative_deconstruction.py:101 | the root is a prefix of the path |
| PyText.SplitextRootOfExtension | src/step1_narrative_deconstruction.py:101 | a base name with one extension has the name before the dot as its root |
| PyText.BasenameOfJoin | pipeline.py:276 | the base name of a file joined to a directory is the file's name |
| PyText.NatToString | src/step_sound_design.py:43 | the decimal form of a number is a non-empty run of digits, longer for larger numbers |
| PyText.Pad3 | src/step_sound_design.py:43 | `:03d` gives at least three digits |
| PyText.DigitsValueOfNatToString | src/step5_final_assembly.py:11 | reading back the decimal form of a number gives the number |
| PyText.ParseIntOfNatToString | src/step5_final_assembly.py:11 | `int()` of the decimal form of a number gives the number |

## Left out

- Generation services: Gemini, Imagen, Veo, the music model and Text-to-Speech are foreign calls. Each is a parameter: a `Result` (the value, or the message `str(e)` of what it raised), or a `failing` set of paths the image or video service does not produce. Prompts sent for text generation and the generation configs passed to them are not modelled.
- ffmpeg: concatenation and muxing are recorded as a `ConcatVideos` or `RunCommand` effect with its arguments. `FinalAssembly` takes how ffmpeg ends as a parameter. The concatenations of `pipeline.py` and `src/step4_video_synthesis.py` are taken to succeed: an `ffmpeg.Error` raised there is not modelled.
- Celery machinery: dispatch, `retry_backoff` timing and the `update_state` progress meta (floats) are queue behaviour. Only the retry counts are kept, as constants. Each retry is a fresh run of the same job method.
- Concurrency: the read-modify-write race between workers on one project document cannot be expressed in a sequential model.
- Persistence: JSON serialisation, `os.makedirs` of the project directory and the write-to-tmp-then-`os.replace` atomicity of `save_project` are file-system mechanics. The documents are a `map` from sanitised key to state.
- The SQLite backend and `migrate_json_states_to_sqlite` are not part of this model: the shown `project_utils.py` defines neither. So `migrate_state.py`, a wrapper around the migration, is out too.
- The `derive_project_name_*` functions are not part of this model: the repository's shown files only import them. The derived name is a `Result` parameter.
- Clock: `_now_iso` is a supplied timestamp. There is one `now` per job, where the source reads the clock on every call, and twice in `_default_state`.
- Store.UpdateStep: the source mutates the loaded dict in place. The model builds the new record step by step in `ApplyUpdateInPlace`, on values, and then stores it, so aliasing between the returned dict and the saved one is not modelled. The saved and returned states are equal.
- Step outputs are string-valued maps. Non-string output values are not modelled.
- Text: case handling and digits are ASCII only (`\d` and `int()` accept only '0'–'9' here). `str()` of numbers, lists and dicts is not modelled: such a value is shown as the empty string. Python's `True == 1` in sets and dict keys is not modelled. Integers and floats in JSON are one kind of number, a `real`.
- Regular expressions: the shot patterns are hand-written parsers, `Shots.SingleSpacedHeader` for `src/utils.py:102` and `src/step4_video_synthesis.py:48`, and `Shots.AnySpacedHeader` for `pipeline.py:245`. They are not the `re` engine.
- Set and directory order: the order in which Python iterates the set of locations in `src/pipeline.py:239` is returned as a witness that lists the set once. `os.listdir` order is the given `listing`.
- Exception messages: errors are `Err(msg)` with the source's message where a task records it. Messages of exceptions raised by the interpreter are not modelled.
- `print`, logging and argparse: console output, `add_*_args`, `load_json`/`save_json`/`read_text` wrappers and each script's CLI parsing are left out. Each script is modelled from the point where its arguments are parsed.
- Storyboard file read errors other than a missing file, in `src/generate_storyboard_images.py` and `src/step4_video_synthesis.py`, are not modelled.
- The settings write of `resolve_style_profile` is modelled as the new settings document, not its bytes.
- SrcVoiceover.ExtractDialogue: models the filter loop, join and empty-dialogue guard of `src/step6_voiceover_generation.py:generate_voiceover`. The synthesis call after the guard is the same as in `Voiceover.GenerateVoiceover`.
- Thin wrappers are out: `pipeline.py` `generate_soundtrack_for_project` (303-308), `generate_voiceover_for_project` (311-318) and `assemble_final_film` (321-333); `src/step1_narrative_deconstruction.py` `main`; `src/step3_visual_asset_generation.py`, `src/generate_characters.py`, `src/generate_environments.py`, `src/regenerate_clip.py`, `src/regenerate_shot.py`, `src/generate_scene.py`, `src/delete_shot.py`, `src/step5_soundtrack_generation.py` and `src/step7_final_assembly.py`. They delegate to generation services or do path formatting only.
- Service requests: an image request and its save are one `GenerateImage(prompt, path)` effect, recorded after the `MakeDirs` of its directory. The source asks the service before it creates the directory. A request that fails leaves no effect.
- SrcPipeline.CharacterEntries: a non-empty dict under `Characters` is treated as raising. Python would iterate its keys and draw one portrait per key, but a JSON object's key order is not modelled.
- SrcPipeline.CharacterFields: a dict character without a string `name` is drawn as `character_.png`, where the source names the file after `str(character)`, because numbers, lists and dicts are shown as the empty string.
- SrcPipeline.StyleText: a truthy preset that is not a string gets no `Style:` suffix, where the source appends `str(preset)`, for the same reason.
- SrcPipeline.ShotImage: a truthy preset that is not a string leaves the shot prompt without its `Style:` suffix, because it uses `SrcPipeline.StyleText`.
- SrcPipeline.ShotImageStep: a truthy preset that is not a string leaves the loop step's prompt without its `Style:` suffix, because it uses `SrcPipeline.StyleText`.
- SrcPipeline.CharacterFallback: the fallback name `str(character)` is stated through the model's display, so a nameless dict character and a number or list entry get the name `''`; a description that is a number, list or dict shows as `''` too.
- StoryboardImages.SettingClause: a setting that is a number, list or dict is shown as `''`, where the source shows its `str()`.
- StoryboardImages.StyleLine: a style prompt that is a number, list or dict is shown as `''`, where the source shows its `str()`.
- Project listing and deletion are not part of this model: the shown `project_utils.py` defines neither.
- HTTP and UI surfaces: `api.py`, `ui/app.py`, `app.py` and `celery_app.py`.
