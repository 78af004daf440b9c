/** The screenplay and storyboard stage script: a narrative schema is turned into a
    screenplay, and the screenplay into a storyboard, one after the other, each recorded as
    its own step (`screenplay_generated`, then `storyboard_generated`) and saved under a name
    derived from the schema file. The generators and the file writes are collaborators given
    as parameters. */
module ScreenplayStoryboard {
  import opened Wrappers
  import opened PyText
  import opened JsonValue
  import opened Config
  import opened Generators
  import opened Naming
  import opened ProjectUtils
  import opened Jobs

  /** Loading the schema file: a missing file is reported and ends the script quietly; any
      other error (unreadable, not JSON) is raised. */
  datatype SchemaRead = SchemaNotFound | SchemaError(message: string) | SchemaLoaded(schema: Json)

  /** The file a stage's output is saved to: the schema's stem with "_schema" removed, plus
      the stage's suffix, in the stage's configured directory. */
  function OutputPath(dir: string, schemaPath: string, suffix: string): string {
    PathJoin(dir, ProjectNameFromSchema(schemaPath) + suffix)
  }

  /** The screenplay `try` block up to its `success` call: constructing the generator, the
      generation on the schema, the directory and the write; the screenplay and the file it
      was saved to, or the first error raised. */
  function ScreenplayOutcome(cfg: Dict, schemaPath: string, schema: Json,
                             screenplayRun: Json -> Result<string>, write: Result<()>)
    : (r: Result<(string, string)>)
    ensures r.Ok? ==>
      (DirPath(cfg, "screenplay_dir").Ok?
       && r.value.1 == OutputPath(DirPath(cfg, "screenplay_dir").value, schemaPath, "_screenplay.txt"))
  {
    if NewGenerator(cfg, SCREENPLAY_STAGE).Err? then Err(NewGenerator(cfg, SCREENPLAY_STAGE).message)
    else
      match screenplayRun(schema)
      case Err(e) => Err(e)
      case Ok(content) =>
        match DirPath(cfg, "screenplay_dir")
        case Err(e) => Err(e)
        case Ok(dir) =>
          if write.Err? then Err(write.message)
          else Ok((content, PathJoin(dir, ScreenplayFileName(ProjectNameFromSchema(schemaPath)))))
  }

  /** The storyboard `try` block up to its `success` call, on the screenplay's text. */
  function StoryboardOutcome(cfg: Dict, schemaPath: string, screenplay: string,
                             storyboardRun: string -> Result<string>, write: Result<()>)
    : (r: Result<string>)
    ensures r.Ok? ==>
      (DirPath(cfg, "storyboard_text_dir").Ok?
       && r.value == OutputPath(DirPath(cfg, "storyboard_text_dir").value, schemaPath, "_storyboard.txt"))
  {
    if NewGenerator(cfg, STORYBOARD_STAGE).Err? then Err(NewGenerator(cfg, STORYBOARD_STAGE).message)
    else
      match storyboardRun(screenplay)
      case Err(e) => Err(e)
      case Ok(_) =>
        match DirPath(cfg, "storyboard_text_dir")
        case Err(e) => Err(e)
        case Ok(dir) =>
          if write.Err? then Err(write.message)
          else Ok(PathJoin(dir, StoryboardFileName(ProjectNameFromSchema(schemaPath))))
  }

  function ScreenplaySuccess(path: string): Call { SuccessCall(SCREENPLAY, map["screenplay_file" := path]) }

  function StoryboardSuccess(path: string): Call { SuccessCall(STORYBOARD, map["storyboard_file" := path]) }

  /** The screenplay step's calls: `running`, then `success` with the screenplay file or
      `failed` with the message. */
  function ScreenplayCalls(sp: Result<(string, string)>): seq<Call> {
    [RunningCall(SCREENPLAY),
     if sp.Ok? then ScreenplaySuccess(sp.value.1) else FailedCall(SCREENPLAY, sp.message)]
  }

  /** The storyboard step's calls, likewise. */
  function StoryboardCalls(sb: Result<string>): seq<Call> {
    [RunningCall(STORYBOARD),
     if sb.Ok? then StoryboardSuccess(sb.value) else FailedCall(STORYBOARD, sb.message)]
  }

  /** The calls once the project is known. The screenplay step runs and ends before the
      storyboard step starts; a screenplay failure ends the script. */
  function StageCalls(sp: Result<(string, string)>, sb: Result<string>): seq<Call> {
    if sp.Err? then ScreenplayCalls(sp) else ScreenplayCalls(sp) + StoryboardCalls(sb)
  }

  /** What the script ends with once the project is known: the first error, if any. */
  function StageResult(screenplay: Result<(string, string)>, storyboard: Result<string>): Result<()> {
    if screenplay.Err? then Err(screenplay.message)
    else if storyboard.Err? then Err(storyboard.message)
    else Ok(())
  }

  /** `main`: the schema is loaded and the project named before any store call; then
      `init_project` and the two stages in order. */
  function MainJob(cfg: Dict, schemaPath: string, read: SchemaRead, projectName: string,
                   derived: Result<string>, screenplayRun: Json -> Result<string>,
                   storyboardRun: string -> Result<string>, writeScreenplay: Result<()>,
                   writeStoryboard: Result<()>): Job<()>
  {
    match read
    case SchemaNotFound => Job(None, [], Ok(()))
    case SchemaError(e) => Job(None, [], Err(e))
    case SchemaLoaded(schema) =>
      match ProjectName(projectName, derived)
      case Err(e) => Job(None, [], Err(e))
      case Ok(name) =>
        ProjectJob(name, cfg, schemaPath, schema, screenplayRun, storyboardRun, writeScreenplay, writeStoryboard)
  }

  /** The storyboard attempt, made only after the screenplay succeeded. */
  function StoryboardAfter(cfg: Dict, schemaPath: string, sp: Result<(string, string)>,
                           storyboardRun: string -> Result<string>, write: Result<()>): Result<string>
  {
    if sp.Ok? then StoryboardOutcome(cfg, schemaPath, sp.value.0, storyboardRun, write) else Err("")
  }

  /** `main` once the schema is loaded and the project named. */
  function ProjectJob(name: string, cfg: Dict, schemaPath: string, schema: Json,
                      screenplayRun: Json -> Result<string>, storyboardRun: string -> Result<string>,
                      writeScreenplay: Result<()>, writeStoryboard: Result<()>): Job<()>
  {
    var sp := ScreenplayOutcome(cfg, schemaPath, schema, screenplayRun, writeScreenplay);
    var sb := StoryboardAfter(cfg, schemaPath, sp, storyboardRun, writeStoryboard);
    Job(Some(name), StageCalls(sp, sb), StageResult(sp, sb))
  }

  // ---------------------------------------------------------------------------
  // The script, over the store
  // ---------------------------------------------------------------------------

  method ScreenplayAttempt(cfg: Dict, schemaPath: string, schema: Json,
                           screenplayRun: Json -> Result<string>, write: Result<()>)
    returns (r: Result<(string, string)>)
    ensures r == ScreenplayOutcome(cfg, schemaPath, schema, screenplayRun, write)
  {
    var generator := NewGenerator(cfg, SCREENPLAY_STAGE);
    if generator.Err? {
      return Err(generator.message);
    }
    var content := screenplayRun(schema);
    if content.Err? {
      return Err(content.message);
    }
    var dir := DirPath(cfg, "screenplay_dir");
    if dir.Err? {
      return Err(dir.message);
    }
    var fileName := ScreenplayFileName(ProjectNameFromSchema(schemaPath));
    var outPath := PathJoin(dir.value, fileName);
    if write.Err? {
      return Err(write.message);
    }
    r := Ok((content.value, outPath));
  }

  method StoryboardAttempt(cfg: Dict, schemaPath: string, screenplay: string,
                           storyboardRun: string -> Result<string>, write: Result<()>)
    returns (r: Result<string>)
    ensures r == StoryboardOutcome(cfg, schemaPath, screenplay, storyboardRun, write)
  {
    var generator := NewGenerator(cfg, STORYBOARD_STAGE);
    if generator.Err? {
      return Err(generator.message);
    }
    var content := storyboardRun(screenplay);
    if content.Err? {
      return Err(content.message);
    }
    var dir := DirPath(cfg, "storyboard_text_dir");
    if dir.Err? {
      return Err(dir.message);
    }
    var fileName := StoryboardFileName(ProjectNameFromSchema(schemaPath));
    var outPath := PathJoin(dir.value, fileName);
    if write.Err? {
      return Err(write.message);
    }
    r := Ok(outPath);
  }

  /** The screenplay step, from `init_project` to its `success` or `failed` call. */
  method ScreenplayStage(store: Store, name: string, cfg: Dict, schemaPath: string, schema: Json,
                         screenplayRun: Json -> Result<string>, write: Result<()>, now: string)
    returns (sp: Result<(string, string)>)
    requires store.Valid()
    modifies store
    ensures store.Valid()
    ensures sp == ScreenplayOutcome(cfg, schemaPath, schema, screenplayRun, write)
    ensures store.docs == ApplyCalls(old(store.docs), name, ScreenplayCalls(sp), now)
  {
    ghost var d0 := store.docs;
    ghost var done := Begin(store, name, RunningCall(SCREENPLAY), now);
    sp := ScreenplayAttempt(cfg, schemaPath, schema, screenplayRun, write);
    var last := if sp.Ok? then ScreenplaySuccess(sp.value.1) else FailedCall(SCREENPLAY, sp.message);
    done := Perform(store, name, last, now, d0, done);
    Seq2(RunningCall(SCREENPLAY), last);
  }

  /** The storyboard step, from its `running` call to its `success` or `failed` call. */
  method StoryboardStage(store: Store, name: string, cfg: Dict, schemaPath: string, screenplay: string,
                         storyboardRun: string -> Result<string>, write: Result<()>, now: string,
                         ghost d0: Docs, ghost done: seq<Call>)
    returns (sb: Result<string>, ghost done': seq<Call>)
    requires store.Valid() && store.docs == ApplyCalls(d0, name, done, now)
    modifies store
    ensures store.Valid()
    ensures sb == StoryboardOutcome(cfg, schemaPath, screenplay, storyboardRun, write)
    ensures done' == done + StoryboardCalls(sb) && store.docs == ApplyCalls(d0, name, done', now)
  {
    done' := Perform(store, name, RunningCall(STORYBOARD), now, d0, done);
    sb := StoryboardAttempt(cfg, schemaPath, screenplay, storyboardRun, write);
    var last := if sb.Ok? then StoryboardSuccess(sb.value) else FailedCall(STORYBOARD, sb.message);
    done' := Perform(store, name, last, now, d0, done');
    Cat2(done, RunningCall(STORYBOARD), last);
  }

  /** `main` from `init_project` on, once the project is named. */
  method MainOnProject(store: Store, name: string, cfg: Dict, schemaPath: string, schema: Json,
                       screenplayRun: Json -> Result<string>, storyboardRun: string -> Result<string>,
                       writeScreenplay: Result<()>, writeStoryboard: Result<()>, now: string)
    returns (r: Result<()>)
    requires store.Valid()
    modifies store
    ensures store.Valid()
    ensures r == ProjectJob(name, cfg, schemaPath, schema, screenplayRun, storyboardRun,
                            writeScreenplay, writeStoryboard).result
    ensures store.docs == ApplyCalls(old(store.docs), name, ProjectJob(name, cfg, schemaPath, schema, screenplayRun,
                                                                       storyboardRun, writeScreenplay,
                                                                       writeStoryboard).calls, now)
  {
    ghost var d0 := store.docs;
    ghost var job := ProjectJob(name, cfg, schemaPath, schema, screenplayRun, storyboardRun,
                                writeScreenplay, writeStoryboard);
    var sp := ScreenplayStage(store, name, cfg, schemaPath, schema, screenplayRun, writeScreenplay, now);
    if sp.Err? {
      assert job.calls == ScreenplayCalls(sp);
      return Err(sp.message);
    }
    var sb;
    ghost var done;
    sb, done := StoryboardStage(store, name, cfg, schemaPath, sp.value.0, storyboardRun,
                                writeStoryboard, now, d0, ScreenplayCalls(sp));
    assert job.calls == done;
    r := if sb.Err? then Err(sb.message) else Ok(());
  }

  /** `main` over the store. */
  method RunScript(store: Store, cfg: Dict, schemaPath: string, read: SchemaRead, projectName: string,
              derived: Result<string>, screenplayRun: Json -> Result<string>,
              storyboardRun: string -> Result<string>, writeScreenplay: Result<()>,
              writeStoryboard: Result<()>, now: string)
    returns (r: Result<()>)
    requires store.Valid()
    modifies store
    ensures store.Valid()
    ensures r == MainJob(cfg, schemaPath, read, projectName, derived, screenplayRun,
                         storyboardRun, writeScreenplay, writeStoryboard).result
    ensures store.docs == Effect(old(store.docs), MainJob(cfg, schemaPath, read, projectName, derived,
                                                          screenplayRun, storyboardRun, writeScreenplay,
                                                          writeStoryboard), now)
  {
    ghost var job := MainJob(cfg, schemaPath, read, projectName, derived, screenplayRun, storyboardRun,
                             writeScreenplay, writeStoryboard);
    if read.SchemaNotFound? {
      assert job == Job(None, [], Ok(()));
      return Ok(());
    }
    if read.SchemaError? {
      assert job == Job(None, [], Err(read.message));
      return Err(read.message);
    }
    var name: string;
    if projectName != "" {
      name := projectName;
    } else {
      if derived.Err? {
        assert job == Job(None, [], Err(derived.message));
        return Err(derived.message);
      }
      name := derived.value;
    }
    ghost var named := ProjectJob(name, cfg, schemaPath, read.schema, screenplayRun, storyboardRun,
                                  writeScreenplay, writeStoryboard);
    assert job == named;
    r := MainOnProject(store, name, cfg, schemaPath, read.schema, screenplayRun, storyboardRun,
                       writeScreenplay, writeStoryboard, now);
    assert named.name == Some(name);
  }

  // ---------------------------------------------------------------------------
  // What the script leaves in the store
  // ---------------------------------------------------------------------------

  /** A schema file that is not found ends the script before any project is created or any
      step touched. */
  lemma MissingSchemaTouchesNothing(docs: Docs, cfg: Dict, schemaPath: string, projectName: string,
                                    derived: Result<string>, screenplayRun: Json -> Result<string>,
                                    storyboardRun: string -> Result<string>, writeScreenplay: Result<()>,
                                    writeStoryboard: Result<()>, now: string)
    ensures var job := MainJob(cfg, schemaPath, SchemaNotFound, projectName, derived, screenplayRun,
                               storyboardRun, writeScreenplay, writeStoryboard);
      job.result == Ok(()) && Effect(docs, job, now) == docs
  {
  }

  /** The storyboard step is marked running only as the third call, after the screenplay's
      `success`. */
  lemma StoryboardRunsAfterScreenplay(sp: Result<(string, string)>, sb: Result<string>, i: int)
    requires 0 <= i < |StageCalls(sp, sb)| && StageCalls(sp, sb)[i] == RunningCall(STORYBOARD)
    ensures sp.Ok? && i == 2 && StageCalls(sp, sb)[1] == ScreenplaySuccess(sp.value.1)
  {
  }

  /** A screenplay failure marks the screenplay step failed with the message it raises again,
      and leaves the storyboard step as it was. */
  lemma ScreenplayFailureSparesStoryboard(docs: Docs, name: string, msg: string, now: string)
    ensures var calls := StageCalls(Err(msg), Err(""));
      var s := Final(docs, name, calls, now);
      !Touches(calls, STORYBOARD)
      && StageResult(Err(msg), Err("")) == Err(msg)
      && SCREENPLAY in s.steps && s.steps[SCREENPLAY].status == FAILED
      && (msg != "" ==> s.steps[SCREENPLAY].error == Some(msg))
      && (STORYBOARD in Current(docs, name, now).steps ==>
            STORYBOARD in s.steps && s.steps[STORYBOARD] == Current(docs, name, now).steps[STORYBOARD])
  {
    var calls := StageCalls(Err(msg), Err(""));
    assert calls == [RunningCall(SCREENPLAY)] + [FailedCall(SCREENPLAY, msg)];
    FailedLastEffect(docs, name, [RunningCall(SCREENPLAY)], SCREENPLAY, msg, now);
    if STORYBOARD in Current(docs, name, now).steps {
      ApplyCallsUntouched(docs, name, calls, now, STORYBOARD);
    }
  }

  /** Both stages succeeding leave both steps `success`, each with its own output file. */
  lemma BothSucceed(docs: Docs, name: string, sp: (string, string), sb: string, now: string)
    ensures var s := Final(docs, name, StageCalls(Ok(sp), Ok(sb)), now);
      SCREENPLAY in s.steps && s.steps[SCREENPLAY].status == SUCCESS
      && "screenplay_file" in s.steps[SCREENPLAY].outputs && s.steps[SCREENPLAY].outputs["screenplay_file"] == sp.1
      && STORYBOARD in s.steps && s.steps[STORYBOARD].status == SUCCESS
      && "storyboard_file" in s.steps[STORYBOARD].outputs && s.steps[STORYBOARD].outputs["storyboard_file"] == sb
  {
    var r1 := RunningCall(SCREENPLAY);
    var c1 := ScreenplaySuccess(sp.1);
    var r2 := RunningCall(STORYBOARD);
    var c2 := StoryboardSuccess(sb);
    assert StageCalls(Ok(sp), Ok(sb)) == [r1] + [c1] + [r2, c2];
    assert StageCalls(Ok(sp), Ok(sb)) == [r1, c1, r2] + [c2] + [];
    assert !Touches([r2, c2], SCREENPLAY);
    LastCallDecides(docs, name, [r1], c1, [r2, c2], now);
    LastCallDecides(docs, name, [r1, c1, r2], c2, [], now);
  }

  /** The history logs the two stages one after the other. */
  lemma BothSucceedOrder(docs: Docs, name: string, sp: (string, string), sb: string, now: string)
    ensures Events(Final(docs, name, StageCalls(Ok(sp), Ok(sb)), now).history)
      == Events(Current(docs, name, now).history)
         + [Event(SCREENPLAY, RUNNING), Event(SCREENPLAY, SUCCESS),
            Event(STORYBOARD, RUNNING), Event(STORYBOARD, SUCCESS)]
  {
    var r1 := RunningCall(SCREENPLAY);
    var c1 := ScreenplaySuccess(sp.1);
    var r2 := RunningCall(STORYBOARD);
    var c2 := StoryboardSuccess(sb);
    var calls := [r1, c1, r2, c2];
    Cat22(r1, c1, r2, c2);
    assert StageCalls(Ok(sp), Ok(sb)) == calls;
    ApplyCallsEvents(docs, name, calls, now);
    CallEventsFour(r1, c1, r2, c2);
    CallEventsOfKinds(SCREENPLAY, c1.outputs, "-");
    CallEventsOfKinds(STORYBOARD, c2.outputs, "-");
    assert CallEvents(calls) == [Event(SCREENPLAY, RUNNING), Event(SCREENPLAY, SUCCESS),
                                 Event(STORYBOARD, RUNNING), Event(STORYBOARD, SUCCESS)];
  }

  /** A storyboard failure keeps the screenplay's success and marks the storyboard failed. */
  lemma StoryboardFailureKeepsScreenplay(docs: Docs, name: string, sp: (string, string), msg: string,
                                         now: string)
    ensures var s := Final(docs, name, StageCalls(Ok(sp), Err(msg)), now);
      StageResult(Ok(sp), Err(msg)) == Err(msg)
      && SCREENPLAY in s.steps && s.steps[SCREENPLAY].status == SUCCESS
      && STORYBOARD in s.steps && s.steps[STORYBOARD].status == FAILED
      && (msg != "" ==> s.steps[STORYBOARD].error == Some(msg))
  {
    var r1 := RunningCall(SCREENPLAY);
    var c1 := ScreenplaySuccess(sp.1);
    var r2 := RunningCall(STORYBOARD);
    var f2 := FailedCall(STORYBOARD, msg);
    assert StageCalls(Ok(sp), Err(msg)) == [r1] + [c1] + [r2, f2];
    assert StageCalls(Ok(sp), Err(msg)) == [r1, c1, r2] + [f2];
    assert !Touches([r2, f2], SCREENPLAY);
    LastCallDecides(docs, name, [r1], c1, [r2, f2], now);
    FailedLastEffect(docs, name, [r1, c1, r2], STORYBOARD, msg, now);
  }

  /** For a schema saved by the narrative stage, the screenplay and storyboard are named
      after the story: its stem plus "_screenplay.txt" or "_storyboard.txt". */
  lemma OutputsNamedAfterStory(dir: string, schemaDir: string, storyPath: string)
    requires !Contains(Stem(storyPath), SCHEMA_SUFFIX)
    ensures OutputPath(dir, PathJoin(schemaDir, SchemaFileName(storyPath)), "_screenplay.txt")
      == PathJoin(dir, Stem(storyPath) + "_screenplay.txt")
    ensures OutputPath(dir, PathJoin(schemaDir, SchemaFileName(storyPath)), "_storyboard.txt")
      == PathJoin(dir, Stem(storyPath) + "_storyboard.txt")
  {
    SchemaNameRoundTrip(schemaDir, storyPath);
  }
}
