/** The background jobs: each one resolves the Vertex project and location, derives the
    project name, records its steps as running, calls a generation stage, and records the
    outcome. Whatever goes wrong is recorded as a failed step and raised again.

    The generation stages, the name derivation and the environment are arguments: each
    outcome is a `Result` (a returned value, or the message `str(e)` of what was raised).
    All the store calls of one job read the same clock value `now`. Each job is a method
    over the shared `Store`, proved equal to a function that says what the job leaves in
    the store and returns; the lemmas below are about those functions. */
module Tasks {
  import opened Wrappers
  import opened PyText
  import opened ProjectUtils
  import opened Jobs

  const PROJECT_VAR: string := "VERTEX_PROJECT_ID"
  const LOCATION_VAR: string := "VERTEX_LOCATION"
  const DEFAULT_LOCATION: string := "us-central1"
  const MISSING_PROJECT: string := "VERTEX_PROJECT_ID is required"
  const VIDEO_NOT_IMPLEMENTED: string := "Video synthesis not implemented"

  /** How often the queue retries a failed job: three times for a single stage, once for
      the whole pipeline. */
  const STAGE_MAX_RETRIES: nat := 3
  const PIPELINE_MAX_RETRIES: nat := 1

  datatype Vertex = Vertex(project: string, location: string)

  datatype DeconstructReturn = DeconstructReturn(schemaFile: string, project: string)
  datatype ScriptReturn = ScriptReturn(screenplayFile: string, storyboardFile: string, project: string)
  datatype AssetsReturn = AssetsReturn(ok: bool, project: string)
  datatype PipelineReturn = PipelineReturn(schemaFile: string, screenplayFile: string,
                                           storyboardFile: string, videoFile: string, project: string)

  /** `_require_env`: an explicit project or location wins over the environment; the
      location falls back to "us-central1" only when the variable is unset; no project at
      all raises `ValueError`. */
  function RequireEnv(project: string, location: string, env: map<string, string>): (r: Result<Vertex>)
    ensures r.Ok? <==> project != "" || (PROJECT_VAR in env && env[PROJECT_VAR] != "")
    ensures r.Err? ==> r.message == MISSING_PROJECT
    ensures r.Ok? && project != "" ==> r.value.project == project
    ensures r.Ok? && project == "" ==> r.value.project == env[PROJECT_VAR]
    ensures r.Ok? && location != "" ==> r.value.location == location
    ensures r.Ok? && location == "" && LOCATION_VAR !in env ==> r.value.location == DEFAULT_LOCATION
    ensures r.Ok? && location == "" && LOCATION_VAR in env ==> r.value.location == env[LOCATION_VAR]
  {
    var proj := if project != "" then project else if PROJECT_VAR in env then env[PROJECT_VAR] else "";
    var loc := if location != "" then location
               else if LOCATION_VAR in env then env[LOCATION_VAR] else DEFAULT_LOCATION;
    if proj == "" then Err(MISSING_PROJECT) else Ok(Vertex(proj, loc))
  }

  // ---------------------------------------------------------------------------
  // What a job does, as the sequence of store updates it makes
  // ---------------------------------------------------------------------------

  /** What the part of a `try` block after `init_project` does: its calls and its outcome. */
  datatype Attempt<T> = Attempt(calls: seq<Call>, result: Result<T>)

  /** What a failed job raises: the first of `_require_env`, the name derivation and the
      attempt that failed. */
  function Failure<T>(v: Result<Vertex>, derived: Result<string>, attempt: Attempt<T>): string {
    if v.Err? then v.message else if derived.Err? then derived.message
    else if attempt.result.Err? then attempt.result.message else ""
  }

  /** A whole job: `_require_env` and the name derivation, then `init_project` and the
      attempt; on any error the `except` block derives the name again and, if that works,
      marks each of `failKeys` failed with `str(e)` before raising `e` again. `attempt` is
      consulted only once the environment and the name are known. */
  function RunJob<T>(v: Result<Vertex>, derived: Result<string>, attempt: Attempt<T>,
                     failKeys: seq<string>): (r: Job<T>)
    ensures r.result.Ok? <==> v.Ok? && derived.Ok? && attempt.result.Ok?
    ensures r.name == (if derived.Ok? then Some(derived.value) else None)
    ensures r.result.Ok? ==> r.calls == attempt.calls && r.result == attempt.result
    ensures r.result.Err? ==> r.result.message == Failure(v, derived, attempt)
    ensures derived.Err? ==> r.calls == []
    ensures v.Err? && derived.Ok? ==> r.calls == FailAll(failKeys, v.message)
    ensures r.result.Err? && v.Ok? && derived.Ok? ==> r.calls == attempt.calls + FailAll(failKeys, r.result.message)
  {
    if v.Ok? && derived.Ok? && attempt.result.Ok? then
      Job(Some(derived.value), attempt.calls, attempt.result)
    else
      var msg := Failure(v, derived, attempt);
      var tried := if v.Ok? && derived.Ok? then attempt.calls else [];
      if derived.Err? then Job(None, [], Err(msg))
      else Job(Some(derived.value), tried + FailAll(failKeys, msg), Err(msg))
  }

  /** The attempt of `deconstruct_narrative_task` on project `name`. */
  function DeconstructTry(name: string, narrative: Result<string>): Attempt<DeconstructReturn> {
    if narrative.Err? then Attempt([RunningCall(NARRATIVE)], Err(narrative.message))
    else Attempt(NarrativeCalls(narrative.value), Ok(DeconstructReturn(narrative.value, name)))
  }

  /** `deconstruct_narrative_task`. */
  function DeconstructJob(project: string, location: string, env: map<string, string>,
                          derived: Result<string>, narrative: Result<string>)
    : (r: Job<DeconstructReturn>)
    ensures r.result.Ok? <==> RequireEnv(project, location, env).Ok? && derived.Ok? && narrative.Ok?
    ensures r.result.Ok? ==>
              r.calls == NarrativeCalls(narrative.value) && r.result.value == DeconstructReturn(narrative.value, derived.value)
    ensures r.result.Err? && derived.Ok? ==>
              |r.calls| > 0 && r.calls[|r.calls| - 1] == FailedCall(NARRATIVE, r.result.message)
  {
    RunJob(RequireEnv(project, location, env), derived,
           if derived.Ok? then DeconstructTry(derived.value, narrative) else Attempt([], Err(derived.message)),
           [NARRATIVE])
  }

  /** The attempt of `generate_screenplay_and_storyboard_task` on project `name`. */
  function ScriptTry(name: string, script: Result<(string, string)>): Attempt<ScriptReturn> {
    if script.Err? then Attempt([RunningCall(SCREENPLAY), RunningCall(STORYBOARD)], Err(script.message))
    else
      var (screenplayFile, storyboardFile) := script.value;
      Attempt(ScriptCalls(screenplayFile, storyboardFile),
              Ok(ScriptReturn(screenplayFile, storyboardFile, name)))
  }

  /** `generate_screenplay_and_storyboard_task`. */
  function ScriptJob(project: string, location: string, env: map<string, string>,
                     derived: Result<string>, script: Result<(string, string)>)
    : Job<ScriptReturn>
  {
    RunJob(RequireEnv(project, location, env), derived,
           if derived.Ok? then ScriptTry(derived.value, script) else Attempt([], Err(derived.message)),
           [SCREENPLAY, STORYBOARD])
  }

  /** The attempt of `generate_visual_assets_task` on project `name`. */
  function AssetsTry(name: string, assets: Result<()>): Attempt<AssetsReturn> {
    if assets.Err? then Attempt([RunningCall(VISUAL_ASSETS)], Err(assets.message))
    else Attempt(ASSETS_CALLS, Ok(AssetsReturn(true, name)))
  }

  /** `generate_visual_assets_task`. */
  function AssetsJob(project: string, location: string, env: map<string, string>,
                     derived: Result<string>, assets: Result<()>)
    : Job<AssetsReturn>
  {
    RunJob(RequireEnv(project, location, env), derived,
           if derived.Ok? then AssetsTry(derived.value, assets) else Attempt([], Err(derived.message)),
           [VISUAL_ASSETS])
  }

  /** The calls of a successful screenplay and storyboard stage. */
  function ScriptCalls(screenplayFile: string, storyboardFile: string): seq<Call> {
    [RunningCall(SCREENPLAY), RunningCall(STORYBOARD),
     SuccessCall(SCREENPLAY, map["screenplay_file" := screenplayFile]),
     SuccessCall(STORYBOARD, map["storyboard_file" := storyboardFile])]
  }

  /** The calls of a successful visual-assets stage. */
  const ASSETS_CALLS: seq<Call> := [RunningCall(VISUAL_ASSETS), SuccessCall(VISUAL_ASSETS, map[])]

  /** The pipeline's video step: `video` is what video synthesis returned, `""` standing for
      `None`; a missing video is recorded as a failed step but the job still returns. */
  function VideoCall(video: string): Call {
    if video != "" then SuccessCall(VIDEO, map["video_file" := video])
    else FailedCall(VIDEO, VIDEO_NOT_IMPLEMENTED)
  }

  /** The pipeline's stages after the narrative one, given the schema file. */
  function PipelineRest(name: string, schemaFile: string, script: Result<(string, string)>,
                        assets: Result<()>, video: Result<string>)
    : Attempt<PipelineReturn>
  {
    if script.Err? then Attempt([RunningCall(SCREENPLAY), RunningCall(STORYBOARD)], Err(script.message))
    else
      var (sp, sb) := script.value;
      if assets.Err? then Attempt(ScriptCalls(sp, sb) + [RunningCall(VISUAL_ASSETS)], Err(assets.message))
      else if video.Err? then Attempt(ScriptCalls(sp, sb) + ASSETS_CALLS, Err(video.message))
      else Attempt(ScriptCalls(sp, sb) + ASSETS_CALLS + [VideoCall(video.value)],
                   Ok(PipelineReturn(schemaFile, sp, sb, video.value, name)))
  }

  /** The attempt of `full_pipeline_task` on project `name`: the four stages in order. */
  function PipelineTry(name: string, narrative: Result<string>, script: Result<(string, string)>,
                       assets: Result<()>, video: Result<string>)
    : Attempt<PipelineReturn>
  {
    if narrative.Err? then Attempt([RunningCall(NARRATIVE)], Err(narrative.message))
    else
      var rest := PipelineRest(name, narrative.value, script, assets, video);
      Attempt(NarrativeCalls(narrative.value) + rest.calls, rest.result)
  }

  /** `full_pipeline_task`: any error is recorded on the video step only. */
  function PipelineJob(project: string, location: string, env: map<string, string>,
                       derived: Result<string>, narrative: Result<string>,
                       script: Result<(string, string)>, assets: Result<()>, video: Result<string>)
    : (r: Job<PipelineReturn>)
    ensures derived.Err? ==> r.calls == [] && r.name.None?
    ensures r.result.Err? && derived.Ok? ==>
              |r.calls| > 0 && r.calls[|r.calls| - 1] == FailedCall(VIDEO, r.result.message)
  {
    RunJob(RequireEnv(project, location, env), derived,
           if derived.Ok? then PipelineTry(derived.value, narrative, script, assets, video)
           else Attempt([], Err(derived.message)),
           [VIDEO])
  }

  // ---------------------------------------------------------------------------
  // The jobs, as methods over the store
  // ---------------------------------------------------------------------------

  /** The `except` block of a job that records a failure on one step, after
      `_require_env`, the name derivation or the attempt `a` failed with `msg`: the name is
      derived again and, if that works, the step is marked failed; then the error is raised
      again. */
  method RecoverOne<T>(store: Store, v: Result<Vertex>, derived: Result<string>, ghost a: Attempt<T>,
                       key: string, msg: string, now: string, ghost d0: Docs)
    returns (r: Result<T>)
    requires store.Valid()
    requires !(v.Ok? && derived.Ok? && a.result.Ok?) && msg == Failure(v, derived, a)
    requires store.docs == if v.Ok? && derived.Ok? then ApplyCalls(d0, derived.value, a.calls, now) else d0
    modifies store
    ensures store.Valid()
    ensures var job := RunJob(v, derived, a, [key]);
      r == job.result && store.docs == Effect(d0, job, now)
  {
    if derived.Ok? {
      ghost var done := FailOne(store, derived.value, key, msg, now, d0, if v.Ok? then a.calls else []);
    }
    r := Err(msg);
  }

  /** The same for a job that records a failure on two steps, in order. */
  method RecoverTwo<T>(store: Store, v: Result<Vertex>, derived: Result<string>, ghost a: Attempt<T>,
                       key1: string, key2: string, msg: string, now: string, ghost d0: Docs)
    returns (r: Result<T>)
    requires store.Valid()
    requires !(v.Ok? && derived.Ok? && a.result.Ok?) && msg == Failure(v, derived, a)
    requires store.docs == if v.Ok? && derived.Ok? then ApplyCalls(d0, derived.value, a.calls, now) else d0
    modifies store
    ensures store.Valid()
    ensures var job := RunJob(v, derived, a, [key1, key2]);
      r == job.result && store.docs == Effect(d0, job, now)
  {
    if derived.Ok? {
      ghost var done := FailTwo(store, derived.value, key1, key2, msg, now, d0, if v.Ok? then a.calls else []);
    }
    r := Err(msg);
  }

  method DeconstructAttempt(store: Store, name: string, narrative: Result<string>, now: string)
    returns (r: Result<DeconstructReturn>, ghost done: seq<Call>)
    requires store.Valid()
    modifies store
    ensures store.Valid()
    ensures Attempt(done, r) == DeconstructTry(name, narrative)
    ensures store.docs == ApplyCalls(old(store.docs), name, done, now)
  {
    ghost var d0 := store.docs;
    done := Begin(store, name, RunningCall(NARRATIVE), now);
    if narrative.Err? {
      return Err(narrative.message), done;
    }
    var schemaFile := narrative.value;
    done := Perform(store, name, SuccessCall(NARRATIVE, map["schema_file" := schemaFile]), now, d0, done);
    Seq2(RunningCall(NARRATIVE), SuccessCall(NARRATIVE, map["schema_file" := schemaFile]));
    r := Ok(DeconstructReturn(schemaFile, name));
  }

  method DeconstructNarrativeTask(store: Store, project: string, location: string,
                                  env: map<string, string>, derived: Result<string>,
                                  narrative: Result<string>, now: string)
    returns (r: Result<DeconstructReturn>)
    requires store.Valid()
    modifies store
    ensures store.Valid()
    ensures var job := DeconstructJob(project, location, env, derived, narrative);
      r == job.result && store.docs == Effect(old(store.docs), job, now)
  {
    ghost var d0 := store.docs;
    var v := RequireEnv(project, location, env);
    ghost var a: Attempt<DeconstructReturn> := if derived.Ok? then DeconstructTry(derived.value, narrative) else Attempt([], Err(derived.message));
    var msg: string;
    if v.Ok? && derived.Ok? {
      ghost var done;
      r, done := DeconstructAttempt(store, derived.value, narrative, now);
      if r.Ok? { return; }
      msg := r.message;
    } else {
      msg := if v.Err? then v.message else derived.message;
    }
    r := RecoverOne(store, v, derived, a, NARRATIVE, msg, now, d0);
  }

  method ScriptAttempt(store: Store, name: string, script: Result<(string, string)>, now: string)
    returns (r: Result<ScriptReturn>, ghost done: seq<Call>)
    requires store.Valid()
    modifies store
    ensures store.Valid()
    ensures Attempt(done, r) == ScriptTry(name, script)
    ensures store.docs == ApplyCalls(old(store.docs), name, done, now)
  {
    ghost var d0 := store.docs;
    done := Begin(store, name, RunningCall(SCREENPLAY), now);
    done := Perform(store, name, RunningCall(STORYBOARD), now, d0, done);
    Seq2(RunningCall(SCREENPLAY), RunningCall(STORYBOARD));
    if script.Err? {
      return Err(script.message), done;
    }
    var (screenplayFile, storyboardFile) := script.value;
    var c3 := SuccessCall(SCREENPLAY, map["screenplay_file" := screenplayFile]);
    var c4 := SuccessCall(STORYBOARD, map["storyboard_file" := storyboardFile]);
    done := Perform(store, name, c3, now, d0, done);
    done := Perform(store, name, c4, now, d0, done);
    Seq4(RunningCall(SCREENPLAY), RunningCall(STORYBOARD), c3, c4);
    r := Ok(ScriptReturn(screenplayFile, storyboardFile, name));
  }

  method GenerateScreenplayAndStoryboardTask(store: Store, project: string, location: string,
                                             env: map<string, string>, derived: Result<string>,
                                             script: Result<(string, string)>, now: string)
    returns (r: Result<ScriptReturn>)
    requires store.Valid()
    modifies store
    ensures store.Valid()
    ensures var job := ScriptJob(project, location, env, derived, script);
      r == job.result && store.docs == Effect(old(store.docs), job, now)
  {
    ghost var d0 := store.docs;
    var v := RequireEnv(project, location, env);
    ghost var a: Attempt<ScriptReturn> := if derived.Ok? then ScriptTry(derived.value, script) else Attempt([], Err(derived.message));
    var msg: string;
    if v.Ok? && derived.Ok? {
      ghost var done;
      r, done := ScriptAttempt(store, derived.value, script, now);
      if r.Ok? { return; }
      msg := r.message;
    } else {
      msg := if v.Err? then v.message else derived.message;
    }
    r := RecoverTwo(store, v, derived, a, SCREENPLAY, STORYBOARD, msg, now, d0);
  }

  method AssetsAttempt(store: Store, name: string, assets: Result<()>, now: string)
    returns (r: Result<AssetsReturn>, ghost done: seq<Call>)
    requires store.Valid()
    modifies store
    ensures store.Valid()
    ensures Attempt(done, r) == AssetsTry(name, assets)
    ensures store.docs == ApplyCalls(old(store.docs), name, done, now)
  {
    ghost var d0 := store.docs;
    done := Begin(store, name, RunningCall(VISUAL_ASSETS), now);
    if assets.Err? {
      return Err(assets.message), done;
    }
    done := Perform(store, name, SuccessCall(VISUAL_ASSETS, map[]), now, d0, done);
    Seq2(RunningCall(VISUAL_ASSETS), SuccessCall(VISUAL_ASSETS, map[]));
    r := Ok(AssetsReturn(true, name));
  }

  method GenerateVisualAssetsTask(store: Store, project: string, location: string,
                                  env: map<string, string>, derived: Result<string>,
                                  assets: Result<()>, now: string)
    returns (r: Result<AssetsReturn>)
    requires store.Valid()
    modifies store
    ensures store.Valid()
    ensures var job := AssetsJob(project, location, env, derived, assets);
      r == job.result && store.docs == Effect(old(store.docs), job, now)
  {
    ghost var d0 := store.docs;
    var v := RequireEnv(project, location, env);
    ghost var a: Attempt<AssetsReturn> := if derived.Ok? then AssetsTry(derived.value, assets) else Attempt([], Err(derived.message));
    var msg: string;
    if v.Ok? && derived.Ok? {
      ghost var done;
      r, done := AssetsAttempt(store, derived.value, assets, now);
      if r.Ok? { return; }
      msg := r.message;
    } else {
      msg := if v.Err? then v.message else derived.message;
    }
    r := RecoverOne(store, v, derived, a, VISUAL_ASSETS, msg, now, d0);
  }

  /** The pipeline's screenplay and storyboard stage, continuing the calls `done`. */
  method PipelineScript(store: Store, name: string, script: Result<(string, string)>, now: string,
                        ghost d0: Docs, ghost done: seq<Call>)
    returns (ghost done': seq<Call>)
    requires store.Valid() && store.docs == ApplyCalls(d0, name, done, now) && script.Ok?
    modifies store
    ensures store.Valid() && store.docs == ApplyCalls(d0, name, done', now)
    ensures done' == done + [SuccessCall(SCREENPLAY, map["screenplay_file" := script.value.0]),
                             SuccessCall(STORYBOARD, map["storyboard_file" := script.value.1])]
  {
    var (screenplayFile, storyboardFile) := script.value;
    var c3 := SuccessCall(SCREENPLAY, map["screenplay_file" := screenplayFile]);
    var c4 := SuccessCall(STORYBOARD, map["storyboard_file" := storyboardFile]);
    done' := Perform(store, name, c3, now, d0, done);
    done' := Perform(store, name, c4, now, d0, done');
    Cat2(done, c3, c4);
  }

  /** The pipeline after its narrative stage, continuing the calls `done`. */
  method PipelineRestAttempt(store: Store, name: string, schemaFile: string,
                             script: Result<(string, string)>, assets: Result<()>,
                             video: Result<string>, now: string, ghost d0: Docs, ghost done: seq<Call>)
    returns (r: Result<PipelineReturn>, ghost done': seq<Call>)
    requires store.Valid() && store.docs == ApplyCalls(d0, name, done, now)
    modifies store
    ensures store.Valid()
    ensures var rest := PipelineRest(name, schemaFile, script, assets, video);
      done' == done + rest.calls && r == rest.result
    ensures store.docs == ApplyCalls(d0, name, done', now)
  {
    done' := Perform(store, name, RunningCall(SCREENPLAY), now, d0, done);
    done' := Perform(store, name, RunningCall(STORYBOARD), now, d0, done');
    Cat2(done, RunningCall(SCREENPLAY), RunningCall(STORYBOARD));
    if script.Err? {
      return Err(script.message), done';
    }
    var (screenplayFile, storyboardFile) := script.value;
    ghost var started := done';
    done' := PipelineScript(store, name, script, now, d0, done');
    SeqAssoc(done, [RunningCall(SCREENPLAY), RunningCall(STORYBOARD)],
          [SuccessCall(SCREENPLAY, map["screenplay_file" := screenplayFile]),
           SuccessCall(STORYBOARD, map["storyboard_file" := storyboardFile])]);
    Cat22(RunningCall(SCREENPLAY), RunningCall(STORYBOARD),
          SuccessCall(SCREENPLAY, map["screenplay_file" := screenplayFile]),
          SuccessCall(STORYBOARD, map["storyboard_file" := storyboardFile]));
    ghost var scripted := done';
    done' := Perform(store, name, RunningCall(VISUAL_ASSETS), now, d0, done');
    SeqAssoc(done, ScriptCalls(screenplayFile, storyboardFile), [RunningCall(VISUAL_ASSETS)]);
    if assets.Err? {
      return Err(assets.message), done';
    }
    done' := Perform(store, name, SuccessCall(VISUAL_ASSETS, map[]), now, d0, done');
    Cat2(scripted, RunningCall(VISUAL_ASSETS), SuccessCall(VISUAL_ASSETS, map[]));
    SeqAssoc(done, ScriptCalls(screenplayFile, storyboardFile), ASSETS_CALLS);
    if video.Err? {
      return Err(video.message), done';
    }
    ghost var assetsDone := done';
    var videoFile := video.value;
    if videoFile != "" {
      done' := Perform(store, name, SuccessCall(VIDEO, map["video_file" := videoFile]), now, d0, done');
    } else {
      done' := Perform(store, name, FailedCall(VIDEO, VIDEO_NOT_IMPLEMENTED), now, d0, done');
    }
    SeqAssoc(done, ScriptCalls(screenplayFile, storyboardFile) + ASSETS_CALLS, [VideoCall(videoFile)]);
    r := Ok(PipelineReturn(schemaFile, screenplayFile, storyboardFile, videoFile, name));
  }

  method PipelineAttempt(store: Store, name: string, narrative: Result<string>,
                         script: Result<(string, string)>, assets: Result<()>,
                         video: Result<string>, now: string)
    returns (r: Result<PipelineReturn>, ghost done: seq<Call>)
    requires store.Valid()
    modifies store
    ensures store.Valid()
    ensures Attempt(done, r) == PipelineTry(name, narrative, script, assets, video)
    ensures store.docs == ApplyCalls(old(store.docs), name, done, now)
  {
    ghost var d0 := store.docs;
    done := Begin(store, name, RunningCall(NARRATIVE), now);
    if narrative.Err? {
      return Err(narrative.message), done;
    }
    var schemaFile := narrative.value;
    done := Perform(store, name, SuccessCall(NARRATIVE, map["schema_file" := schemaFile]), now, d0, done);
    Seq2(RunningCall(NARRATIVE), SuccessCall(NARRATIVE, map["schema_file" := schemaFile]));
    r, done := PipelineRestAttempt(store, name, schemaFile, script, assets, video, now, d0, done);
  }

  method FullPipelineTask(store: Store, project: string, location: string,
                          env: map<string, string>, derived: Result<string>,
                          narrative: Result<string>, script: Result<(string, string)>,
                          assets: Result<()>, video: Result<string>, now: string)
    returns (r: Result<PipelineReturn>)
    requires store.Valid()
    modifies store
    ensures store.Valid()
    ensures var job := PipelineJob(project, location, env, derived, narrative, script, assets, video);
      r == job.result && store.docs == Effect(old(store.docs), job, now)
  {
    ghost var d0 := store.docs;
    var v := RequireEnv(project, location, env);
    ghost var a: Attempt<PipelineReturn> := if derived.Ok? then PipelineTry(derived.value, narrative, script, assets, video) else Attempt([], Err(derived.message));
    assert PipelineJob(project, location, env, derived, narrative, script, assets, video) == RunJob(v, derived, a, [VIDEO]);
    var msg: string;
    if v.Ok? && derived.Ok? {
      ghost var done;
      r, done := PipelineAttempt(store, derived.value, narrative, script, assets, video, now);
      if r.Ok? {
        assert RunJob(v, derived, a, [VIDEO]) == Job(Some(derived.value), done, r);
        return;
      }
      msg := r.message;
    } else {
      msg := if v.Err? then v.message else derived.message;
    }
    r := RecoverOne(store, v, derived, a, VIDEO, msg, now, d0);
  }

  // ---------------------------------------------------------------------------
  // What the jobs leave in the store
  // ---------------------------------------------------------------------------

  /** `deconstruct_narrative_task` with a working environment and stage: the narrative
      stage's calls on the derived project, and the same schema file returned. */
  lemma DeconstructSucceeds(project: string, location: string, env: map<string, string>,
                            name: string, schemaFile: string)
    requires RequireEnv(project, location, env).Ok?
    ensures DeconstructJob(project, location, env, Ok(name), Ok(schemaFile))
      == Job(Some(name), NarrativeCalls(schemaFile), Ok(DeconstructReturn(schemaFile, name)))
  {
  }

  /** Any failure of `deconstruct_narrative_task` once the name is known marks the narrative
      step failed with the message it raises again; a missing project fails it without ever
      marking it running. */
  lemma DeconstructFails(docs: Docs, project: string, location: string, env: map<string, string>,
                         name: string, narrative: Result<string>, now: string)
    requires RequireEnv(project, location, env).Err? || narrative.Err?
    ensures var job := DeconstructJob(project, location, env, Ok(name), narrative);
      var msg := if RequireEnv(project, location, env).Err? then MISSING_PROJECT else narrative.message;
      var s := Current(Effect(docs, job, now), name, now);
      job.result == Err(msg)
      && NARRATIVE in s.steps && s.steps[NARRATIVE].status == FAILED
      && s.steps[NARRATIVE].finishedAt == Some(now)
      && (msg != "" ==> s.steps[NARRATIVE].error == Some(msg))
      && (RequireEnv(project, location, env).Err? ==>
            Events(s.history) == Events(Current(docs, name, now).history)
                                 + [Event(NARRATIVE, FAILED), Event(NARRATIVE, "error")])
  {
    var v := RequireEnv(project, location, env);
    var job := DeconstructJob(project, location, env, Ok(name), narrative);
    var msg := if v.Err? then MISSING_PROJECT else narrative.message;
    var tried := if v.Ok? then [RunningCall(NARRATIVE)] else [];
    FailAllOne(NARRATIVE, msg);
    assert job.calls == tried + [FailedCall(NARRATIVE, msg)];
    FailedLastEffect(docs, name, tried, NARRATIVE, msg, now);
    if v.Err? {
      ApplyCallsEvents(docs, name, job.calls, now);
      assert job.calls == [FailedCall(NARRATIVE, msg)];
      assert CallEvents(job.calls) == CallEvent(FailedCall(NARRATIVE, msg)) + CallEvents([]);
      CallEventsOfKinds(NARRATIVE, map[], msg);
    }
  }

  /** The store after a successful screenplay and storyboard stage: both steps `success`,
      each with its own output file. */
  lemma ScriptStageEffect(docs: Docs, name: string, screenplayFile: string, storyboardFile: string,
                          now: string)
    ensures var s := Final(docs, name, ScriptCalls(screenplayFile, storyboardFile), now);
      SCREENPLAY in s.steps && s.steps[SCREENPLAY].status == SUCCESS
      && "screenplay_file" in s.steps[SCREENPLAY].outputs
      && s.steps[SCREENPLAY].outputs["screenplay_file"] == screenplayFile
      && STORYBOARD in s.steps && s.steps[STORYBOARD].status == SUCCESS
      && "storyboard_file" in s.steps[STORYBOARD].outputs
      && s.steps[STORYBOARD].outputs["storyboard_file"] == storyboardFile
  {
    var r1 := RunningCall(SCREENPLAY);
    var r2 := RunningCall(STORYBOARD);
    var c1 := SuccessCall(SCREENPLAY, map["screenplay_file" := screenplayFile]);
    var c2 := SuccessCall(STORYBOARD, map["storyboard_file" := storyboardFile]);
    assert ScriptCalls(screenplayFile, storyboardFile) == [r1, r2] + [c1] + [c2];
    assert ScriptCalls(screenplayFile, storyboardFile) == [r1, r2, c1] + [c2] + [];
    LastCallDecides(docs, name, [r1, r2], c1, [c2], now);
    LastCallDecides(docs, name, [r1, r2, c1], c2, [], now);
  }

  /** Both steps of the screenplay stage are marked running before either succeeds. */
  lemma ScriptStageOrder(docs: Docs, name: string, screenplayFile: string, storyboardFile: string,
                         now: string)
    ensures Events(Final(docs, name, ScriptCalls(screenplayFile, storyboardFile), now).history)
      == Events(Current(docs, name, now).history)
         + [Event(SCREENPLAY, RUNNING), Event(STORYBOARD, RUNNING),
            Event(SCREENPLAY, SUCCESS), Event(STORYBOARD, SUCCESS)]
  {
    var r1 := RunningCall(SCREENPLAY);
    var r2 := RunningCall(STORYBOARD);
    var c1 := SuccessCall(SCREENPLAY, map["screenplay_file" := screenplayFile]);
    var c2 := SuccessCall(STORYBOARD, map["storyboard_file" := storyboardFile]);
    ApplyCallsEvents(docs, name, ScriptCalls(screenplayFile, storyboardFile), now);
    CallEventsFour(r1, r2, c1, c2);
    CallEventsOfKinds(SCREENPLAY, c1.outputs, "-");
    CallEventsOfKinds(STORYBOARD, c2.outputs, "-");
  }

  /** `generate_screenplay_and_storyboard_task` with a working environment and stage. */
  lemma ScriptSucceeds(project: string, location: string, env: map<string, string>,
                       name: string, screenplayFile: string, storyboardFile: string)
    requires RequireEnv(project, location, env).Ok?
    ensures ScriptJob(project, location, env, Ok(name), Ok((screenplayFile, storyboardFile)))
      == Job(Some(name), ScriptCalls(screenplayFile, storyboardFile),
             Ok(ScriptReturn(screenplayFile, storyboardFile, name)))
  {
  }

  /** Any failure of the screenplay job once the name is known marks both of its steps
      failed with the message it raises again. */
  lemma ScriptFails(docs: Docs, project: string, location: string, env: map<string, string>,
                    name: string, script: Result<(string, string)>, now: string)
    requires RequireEnv(project, location, env).Err? || script.Err?
    ensures var job := ScriptJob(project, location, env, Ok(name), script);
      var msg := if RequireEnv(project, location, env).Err? then MISSING_PROJECT else script.message;
      var s := Current(Effect(docs, job, now), name, now);
      job.result == Err(msg)
      && SCREENPLAY in s.steps && s.steps[SCREENPLAY].status == FAILED
      && (msg != "" ==> s.steps[SCREENPLAY].error == Some(msg))
      && STORYBOARD in s.steps && s.steps[STORYBOARD].status == FAILED
      && (msg != "" ==> s.steps[STORYBOARD].error == Some(msg))
  {
    var v := RequireEnv(project, location, env);
    var job := ScriptJob(project, location, env, Ok(name), script);
    var msg := if v.Err? then MISSING_PROJECT else script.message;
    var tried := if v.Ok? then [RunningCall(SCREENPLAY), RunningCall(STORYBOARD)] else [];
    FailAllTwo(SCREENPLAY, STORYBOARD, msg);
    assert job.calls == tried + [FailedCall(SCREENPLAY, msg), FailedCall(STORYBOARD, msg)];
    FailedTwoEffect(docs, name, tried, SCREENPLAY, STORYBOARD, msg, now);
  }

  /** The store after a successful visual-assets stage: the step is `success`, and as the
      stage names no outputs the artifact pointers are exactly as before. */
  lemma AssetsStageEffect(docs: Docs, name: string, now: string)
    ensures var s := Final(docs, name, ASSETS_CALLS, now);
      VISUAL_ASSETS in s.steps && s.steps[VISUAL_ASSETS].status == SUCCESS
      && s.steps[VISUAL_ASSETS].finishedAt == Some(now)
      && s.artifacts == Current(docs, name, now).artifacts
  {
    assert ASSETS_CALLS == [RunningCall(VISUAL_ASSETS)] + [SuccessCall(VISUAL_ASSETS, map[])] + [];
    LastCallDecides(docs, name, [RunningCall(VISUAL_ASSETS)], SuccessCall(VISUAL_ASSETS, map[]), [], now);
    NoOutputsKeepArtifacts(docs, name, ASSETS_CALLS, now);
  }

  /** `generate_visual_assets_task` with a working environment and stage. */
  lemma AssetsSucceeds(project: string, location: string, env: map<string, string>, name: string)
    requires RequireEnv(project, location, env).Ok?
    ensures AssetsJob(project, location, env, Ok(name), Ok(()))
      == Job(Some(name), ASSETS_CALLS, Ok(AssetsReturn(true, name)))
  {
  }

  /** Any failure of the visual-assets job once the name is known marks its step failed. */
  lemma AssetsFails(docs: Docs, project: string, location: string, env: map<string, string>,
                    name: string, assets: Result<()>, now: string)
    requires RequireEnv(project, location, env).Err? || assets.Err?
    ensures var job := AssetsJob(project, location, env, Ok(name), assets);
      var msg := if RequireEnv(project, location, env).Err? then MISSING_PROJECT else assets.message;
      var s := Current(Effect(docs, job, now), name, now);
      job.result == Err(msg)
      && VISUAL_ASSETS in s.steps && s.steps[VISUAL_ASSETS].status == FAILED
      && (msg != "" ==> s.steps[VISUAL_ASSETS].error == Some(msg))
  {
    var v := RequireEnv(project, location, env);
    var job := AssetsJob(project, location, env, Ok(name), assets);
    var msg := if v.Err? then MISSING_PROJECT else assets.message;
    var tried := if v.Ok? then [RunningCall(VISUAL_ASSETS)] else [];
    FailAllOne(VISUAL_ASSETS, msg);
    assert job.calls == tried + [FailedCall(VISUAL_ASSETS, msg)];
    FailedLastEffect(docs, name, tried, VISUAL_ASSETS, msg, now);
  }

  /** A job whose project name cannot be derived raises without touching the store. */
  lemma UnnamedJobLeavesStore<T>(docs: Docs, v: Result<Vertex>, derived: Result<string>,
                                 attempt: Attempt<T>, failKeys: seq<string>, now: string)
    requires derived.Err?
    ensures var job := RunJob(v, derived, attempt, failKeys);
      Effect(docs, job, now) == docs && job.result.Err?
      && job.result.message == (if v.Err? then v.message else derived.message)
  {
  }

  /** `full_pipeline_task` with a working environment and stages: the four stages' calls in
      order, then the video step; the job returns even when no video was produced. */
  lemma PipelineSucceeds(project: string, location: string, env: map<string, string>, name: string,
                         schemaFile: string, screenplayFile: string, storyboardFile: string,
                         video: string)
    requires RequireEnv(project, location, env).Ok?
    ensures PipelineJob(project, location, env, Ok(name), Ok(schemaFile),
                        Ok((screenplayFile, storyboardFile)), Ok(()), Ok(video))
      == Job(Some(name),
             NarrativeCalls(schemaFile) + ScriptCalls(screenplayFile, storyboardFile) + ASSETS_CALLS
               + [VideoCall(video)],
             Ok(PipelineReturn(schemaFile, screenplayFile, storyboardFile, video, name)))
  {
    SeqAssoc(NarrativeCalls(schemaFile), ScriptCalls(screenplayFile, storyboardFile) + ASSETS_CALLS,
          [VideoCall(video)]);
    SeqAssoc(NarrativeCalls(schemaFile), ScriptCalls(screenplayFile, storyboardFile), ASSETS_CALLS);
  }

  /** The pipeline's video step: a video is recorded as the step's output and as the video
      artifact; no video fails the step with "Video synthesis not implemented". */
  lemma VideoStepEffect(docs: Docs, name: string, tried: seq<Call>, video: string, now: string)
    ensures var s := Final(docs, name, tried + [VideoCall(video)], now);
      VIDEO in s.steps
      && (video != "" ==> s.steps[VIDEO].status == SUCCESS
                          && "video_file" in s.steps[VIDEO].outputs && s.steps[VIDEO].outputs["video_file"] == video
                          && "video_file" in s.artifacts && s.artifacts["video_file"] == Some(video))
      && (video == "" ==> s.steps[VIDEO].status == FAILED
                          && s.steps[VIDEO].error == Some(VIDEO_NOT_IMPLEMENTED))
  {
    var c := VideoCall(video);
    assert tried + [c] == tried + [c] + [];
    LastCallDecides(docs, name, tried, c, [], now);
    if video != "" {
      LastCallMirrors(docs, name, tried, c, now, "video_file");
    }
  }

  /** The calls before a pipeline failure: the stages that succeeded, then the running marks
      of the stage that raised. */
  lemma PipelineTriedUnfailing(name: string, narrative: Result<string>, script: Result<(string, string)>,
                               assets: Result<()>, video: Result<string>)
    requires PipelineTry(name, narrative, script, assets, video).result.Err?
    ensures Unfailing(PipelineTry(name, narrative, script, assets, video).calls)
  {
    if narrative.Ok? {
      var f := narrative.value;
      assert Unfailing(NarrativeCalls(f));
      if script.Ok? {
        var (sp, sb) := script.value;
        assert Unfailing(ScriptCalls(sp, sb));
        if assets.Ok? {
          UnfailingAppend(ScriptCalls(sp, sb), ASSETS_CALLS);
        } else {
          UnfailingAppend(ScriptCalls(sp, sb), [RunningCall(VISUAL_ASSETS)]);
        }
      }
      UnfailingAppend(NarrativeCalls(f), PipelineRest(name, f, script, assets, video).calls);
    }
  }

  /** Whatever goes wrong in `full_pipeline_task` once the name is known, the only failure
      it records is on the video step, as its last call, with the message it raises again. */
  lemma PipelineFailsOnVideoOnly(docs: Docs, project: string, location: string, env: map<string, string>,
                                 name: string, narrative: Result<string>, script: Result<(string, string)>,
                                 assets: Result<()>, video: Result<string>, now: string)
    requires !PipelineJob(project, location, env, Ok(name), narrative, script, assets, video).result.Ok?
    ensures var job := PipelineJob(project, location, env, Ok(name), narrative, script, assets, video);
      var msg := job.result.message;
      var s := Current(Effect(docs, job, now), name, now);
      job.calls != [] && job.calls[|job.calls| - 1] == FailedCall(VIDEO, msg)
      && Unfailing(job.calls[..|job.calls| - 1])
      && VIDEO in s.steps && s.steps[VIDEO].status == FAILED
      && (msg != "" ==> s.steps[VIDEO].error == Some(msg))
  {
    var v := RequireEnv(project, location, env);
    var job := PipelineJob(project, location, env, Ok(name), narrative, script, assets, video);
    var a := PipelineTry(name, narrative, script, assets, video);
    var msg := job.result.message;
    var tried := if v.Ok? then a.calls else [];
    if v.Ok? {
      PipelineTriedUnfailing(name, narrative, script, assets, video);
    }
    FailAllOne(VIDEO, msg);
    assert job.calls == tried + [FailedCall(VIDEO, msg)];
    assert job.calls[..|job.calls| - 1] == tried;
    FailedLastEffect(docs, name, tried, VIDEO, msg, now);
  }

  /** When the screenplay stage raises inside `full_pipeline_task`, the narrative step keeps
      its success and both screenplay steps stay `running`: only the video step is failed. */
  lemma PipelineScriptRaises(docs: Docs, project: string, location: string, env: map<string, string>,
                             name: string, schemaFile: string, msg: string, assets: Result<()>,
                             video: Result<string>, now: string)
    requires RequireEnv(project, location, env).Ok?
    ensures var job := PipelineJob(project, location, env, Ok(name), Ok(schemaFile), Err(msg), assets, video);
      var s := Current(Effect(docs, job, now), name, now);
      job.result == Err(msg)
      && NARRATIVE in s.steps && s.steps[NARRATIVE].status == SUCCESS
      && SCREENPLAY in s.steps && s.steps[SCREENPLAY].status == RUNNING
      && STORYBOARD in s.steps && s.steps[STORYBOARD].status == RUNNING
  {
    var job := PipelineJob(project, location, env, Ok(name), Ok(schemaFile), Err(msg), assets, video);
    var rn := RunningCall(NARRATIVE);
    var sn := SuccessCall(NARRATIVE, map["schema_file" := schemaFile]);
    var r1 := RunningCall(SCREENPLAY);
    var r2 := RunningCall(STORYBOARD);
    var fv := FailedCall(VIDEO, msg);
    FailAllOne(VIDEO, msg);
    assert job.calls == [rn, sn, r1, r2, fv] && job.name == Some(name);
    ScriptRaisedSteps(docs, name, schemaFile, msg, now);
  }

  /** The step records after the calls of a pipeline whose screenplay stage raised. */
  lemma ScriptRaisedSteps(docs: Docs, name: string, schemaFile: string, msg: string, now: string)
    ensures var s := Final(docs, name, [RunningCall(NARRATIVE), SuccessCall(NARRATIVE, map["schema_file" := schemaFile]),
                                        RunningCall(SCREENPLAY), RunningCall(STORYBOARD), FailedCall(VIDEO, msg)], now);
      NARRATIVE in s.steps && s.steps[NARRATIVE].status == SUCCESS
      && SCREENPLAY in s.steps && s.steps[SCREENPLAY].status == RUNNING
      && STORYBOARD in s.steps && s.steps[STORYBOARD].status == RUNNING
  {
    var rn := RunningCall(NARRATIVE);
    var sn := SuccessCall(NARRATIVE, map["schema_file" := schemaFile]);
    var r1 := RunningCall(SCREENPLAY);
    var r2 := RunningCall(STORYBOARD);
    var fv := FailedCall(VIDEO, msg);
    Five(rn, sn, r1, r2, fv);
    LastCallDecides(docs, name, [rn], sn, [r1, r2, fv], now);
    LastCallDecides(docs, name, [rn, sn], r1, [r2, fv], now);
    LastCallDecides(docs, name, [rn, sn, r1], r2, [fv], now);
  }

  /** When the visual-assets stage raises inside `full_pipeline_task`, the screenplay steps
      keep their success and the visual-assets step stays `running`. */
  lemma PipelineAssetsRaises(docs: Docs, project: string, location: string, env: map<string, string>,
                             name: string, schemaFile: string, screenplayFile: string,
                             storyboardFile: string, msg: string, video: Result<string>, now: string)
    requires RequireEnv(project, location, env).Ok?
    ensures var job := PipelineJob(project, location, env, Ok(name), Ok(schemaFile),
                                   Ok((screenplayFile, storyboardFile)), Err(msg), video);
      var s := Current(Effect(docs, job, now), name, now);
      job.result == Err(msg)
      && SCREENPLAY in s.steps && s.steps[SCREENPLAY].status == SUCCESS
      && STORYBOARD in s.steps && s.steps[STORYBOARD].status == SUCCESS
      && VISUAL_ASSETS in s.steps && s.steps[VISUAL_ASSETS].status == RUNNING
  {
    var job := PipelineJob(project, location, env, Ok(name), Ok(schemaFile),
                           Ok((screenplayFile, storyboardFile)), Err(msg), video);
    var nc := NarrativeCalls(schemaFile);
    var r1 := RunningCall(SCREENPLAY);
    var r2 := RunningCall(STORYBOARD);
    var c1 := SuccessCall(SCREENPLAY, map["screenplay_file" := screenplayFile]);
    var c2 := SuccessCall(STORYBOARD, map["storyboard_file" := storyboardFile]);
    var ra := RunningCall(VISUAL_ASSETS);
    var fv := FailedCall(VIDEO, msg);
    FailAllOne(VIDEO, msg);
    assert job.calls == nc + [r1, r2, c1, c2, ra, fv] && job.name == Some(name);
    AssetsRaisedSteps(docs, name, nc, screenplayFile, storyboardFile, msg, now);
  }

  /** The step records after the calls of a pipeline whose visual-assets stage raised. */
  lemma AssetsRaisedSteps(docs: Docs, name: string, nc: seq<Call>, screenplayFile: string, storyboardFile: string,
                          msg: string, now: string)
    ensures var s := Final(docs, name, nc + [RunningCall(SCREENPLAY), RunningCall(STORYBOARD),
                                             SuccessCall(SCREENPLAY, map["screenplay_file" := screenplayFile]),
                                             SuccessCall(STORYBOARD, map["storyboard_file" := storyboardFile]),
                                             RunningCall(VISUAL_ASSETS), FailedCall(VIDEO, msg)], now);
      SCREENPLAY in s.steps && s.steps[SCREENPLAY].status == SUCCESS
      && STORYBOARD in s.steps && s.steps[STORYBOARD].status == SUCCESS
      && VISUAL_ASSETS in s.steps && s.steps[VISUAL_ASSETS].status == RUNNING
  {
    var r1 := RunningCall(SCREENPLAY);
    var r2 := RunningCall(STORYBOARD);
    var c1 := SuccessCall(SCREENPLAY, map["screenplay_file" := screenplayFile]);
    var c2 := SuccessCall(STORYBOARD, map["storyboard_file" := storyboardFile]);
    var ra := RunningCall(VISUAL_ASSETS);
    var fv := FailedCall(VIDEO, msg);
    SixAfter(nc, r1, r2, c1, c2, ra, fv);
    LastCallDecides(docs, name, nc + [r1, r2], c1, [c2, ra, fv], now);
    LastCallDecides(docs, name, nc + [r1, r2, c1], c2, [ra, fv], now);
    LastCallDecides(docs, name, nc + [r1, r2, c1, c2], ra, [fv], now);
  }

  /** A full pipeline run leaves the four generation stages `success`. */
  lemma PipelineStagesSucceed(docs: Docs, name: string, schemaFile: string, screenplayFile: string,
                              storyboardFile: string, video: string, now: string)
    ensures var s := Final(docs, name, NarrativeCalls(schemaFile) + ScriptCalls(screenplayFile, storyboardFile)
                                       + ASSETS_CALLS + [VideoCall(video)], now);
      NARRATIVE in s.steps && s.steps[NARRATIVE].status == SUCCESS
      && SCREENPLAY in s.steps && s.steps[SCREENPLAY].status == SUCCESS
      && STORYBOARD in s.steps && s.steps[STORYBOARD].status == SUCCESS
      && VISUAL_ASSETS in s.steps && s.steps[VISUAL_ASSETS].status == SUCCESS
  {
    var rn := RunningCall(NARRATIVE);
    var sn := SuccessCall(NARRATIVE, map["schema_file" := schemaFile]);
    var r1 := RunningCall(SCREENPLAY);
    var r2 := RunningCall(STORYBOARD);
    var c1 := SuccessCall(SCREENPLAY, map["screenplay_file" := screenplayFile]);
    var c2 := SuccessCall(STORYBOARD, map["storyboard_file" := storyboardFile]);
    var ra := RunningCall(VISUAL_ASSETS);
    var sa := SuccessCall(VISUAL_ASSETS, map[]);
    var vc := VideoCall(video);
    var calls := NarrativeCalls(schemaFile) + ScriptCalls(screenplayFile, storyboardFile) + ASSETS_CALLS + [vc];
    assert calls == [rn, sn, r1, r2, c1, c2, ra, sa, vc];
    assert calls == [rn] + [sn] + [r1, r2, c1, c2, ra, sa, vc];
    assert calls == [rn, sn, r1, r2] + [c1] + [c2, ra, sa, vc];
    assert calls == [rn, sn, r1, r2, c1] + [c2] + [ra, sa, vc];
    assert calls == [rn, sn, r1, r2, c1, c2, ra] + [sa] + [vc];
    LastCallDecides(docs, name, [rn], sn, [r1, r2, c1, c2, ra, sa, vc], now);
    LastCallDecides(docs, name, [rn, sn, r1, r2], c1, [c2, ra, sa, vc], now);
    LastCallDecides(docs, name, [rn, sn, r1, r2, c1], c2, [ra, sa, vc], now);
    LastCallDecides(docs, name, [rn, sn, r1, r2, c1, c2, ra], sa, [vc], now);
  }
}
