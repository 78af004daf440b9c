/** The narrative deconstruction stage script: a story file is analysed in two generation
    passes into a JSON outline, which is cleaned of code fences, parsed and saved as the
    project's narrative schema, with the `narrative_deconstructed` step marked running
    before the passes and success or failure after them. The passes, JSON parsing and the
    file write are collaborators given as parameters. */
module NarrativeDeconstruction {
  import opened Wrappers
  import opened PyText
  import opened JsonValue
  import opened Config
  import opened Generators
  import opened Fences
  import opened Naming
  import opened ProjectUtils
  import opened Jobs

  /** The `try` block of `run` after `running` is recorded: the first pass on the story, the
      second on its summary, fence stripping and JSON parsing of the outline, the schema
      directory from the configuration and the write; the saved file's path, or the first
      error raised. */
  function Outcome(d: Generator, storyPath: string, story: string,
                   firstPass: string -> Result<string>, secondPass: string -> Result<string>,
                   parse: string -> Result<Json>, write: Result<()>): (r: Result<string>)
    ensures r.Ok? ==>
      (DirPath(d.cfg, "narrative_schema_dir").Ok?
       && r.value == PathJoin(DirPath(d.cfg, "narrative_schema_dir").value, SchemaFileName(storyPath)))
  {
    match firstPass(story)
    case Err(e) => Err(e)
    case Ok(summary) =>
      match secondPass(summary)
      case Err(e) => Err(e)
      case Ok(outline) =>
        match parse(StripFences(outline))
        case Err(e) => Err(e)
        case Ok(_) =>
          match DirPath(d.cfg, "narrative_schema_dir")
          case Err(e) => Err(e)
          case Ok(dir) => if write.Err? then Err(write.message) else Ok(PathJoin(dir, SchemaFileName(storyPath)))
  }

  /** `NarrativeDeconstructor.run`: reading the story and choosing the project name come
      before any store call; then `init_project`, `running`, and the attempt, which ends in
      `success` with the schema file or in `failed` with the message raised again. */
  function RunJob(d: Generator, storyPath: string, story: Result<string>, projectName: string,
                  derived: Result<string>, firstPass: string -> Result<string>,
                  secondPass: string -> Result<string>, parse: string -> Result<Json>,
                  write: Result<()>): (r: Job<string>)
    ensures story.Err? ==> r == Job(None, [], Err(story.message))
    ensures r.name.None? ==> r.calls == [] && r.result.Err?
    ensures r.name.Some? ==>
              |r.calls| == 2 && r.calls[0] == RunningCall(NARRATIVE)
              && (r.result.Ok? ==> r.calls[1] == SuccessCall(NARRATIVE, map["schema_file" := r.result.value]))
              && (r.result.Err? ==> r.calls[1] == FailedCall(NARRATIVE, r.result.message))
  {
    if story.Err? then Job(None, [], Err(story.message))
    else
      match ProjectName(projectName, derived)
      case Err(e) => Job(None, [], Err(e))
      case Ok(name) =>
        var outcome := Outcome(d, storyPath, story.value, firstPass, secondPass, parse, write);
        Job(Some(name), AttemptCalls(outcome), outcome)
  }

  /** The calls `run` makes once the project is known: `running`, then `success` with the
      schema file or `failed` with the message. */
  function AttemptCalls(outcome: Result<string>): seq<Call> {
    match outcome
    case Ok(path) => NarrativeCalls(path)
    case Err(e) => [RunningCall(NARRATIVE), FailedCall(NARRATIVE, e)]
  }

  /** The `try` block of `run` up to the `success` call. */
  method Attempt(d: Generator, storyPath: string, storyContent: string,
                 firstPass: string -> Result<string>, secondPass: string -> Result<string>,
                 parse: string -> Result<Json>, write: Result<()>)
    returns (outcome: Result<string>)
    ensures outcome == Outcome(d, storyPath, storyContent, firstPass, secondPass, parse, write)
  {
    var summary := firstPass(storyContent);
    if summary.Err? {
      outcome := Err(summary.message);
    } else {
      var outline := secondPass(summary.value);
      if outline.Err? {
        outcome := Err(outline.message);
      } else {
        var outlineStr := StripFences(outline.value);
        var schema := parse(outlineStr);
        if schema.Err? {
          outcome := Err(schema.message);
        } else {
          var outDir := DirPath(d.cfg, "narrative_schema_dir");
          if outDir.Err? {
            outcome := Err(outDir.message);
          } else if write.Err? {
            outcome := Err(write.message);
          } else {
            outcome := Ok(PathJoin(outDir.value, SchemaFileName(storyPath)));
          }
        }
      }
    }
  }

  /** `NarrativeDeconstructor.run` over the store. */
  method Run(store: Store, d: Generator, storyPath: string, story: Result<string>,
             projectName: string, derived: Result<string>,
             firstPass: string -> Result<string>, secondPass: string -> Result<string>,
             parse: string -> Result<Json>, write: Result<()>, now: string)
    returns (r: Result<string>)
    requires store.Valid()
    modifies store
    ensures store.Valid()
    ensures var job := RunJob(d, storyPath, story, projectName, derived, firstPass, secondPass, parse, write);
      r == job.result && store.docs == Effect(old(store.docs), job, now)
  {
    if story.Err? {
      return Err(story.message);
    }
    var storyContent := story.value;
    var name: string;
    if projectName != "" {
      name := projectName;
    } else {
      if derived.Err? {
        return Err(derived.message);
      }
      name := derived.value;
    }
    r := RunOnProject(store, name, d, storyPath, storyContent, firstPass, secondPass, parse, write, now);
  }

  /** `run` from `init_project` on, once the project is named. */
  method RunOnProject(store: Store, name: string, d: Generator, storyPath: string, storyContent: string,
                      firstPass: string -> Result<string>, secondPass: string -> Result<string>,
                      parse: string -> Result<Json>, write: Result<()>, now: string)
    returns (r: Result<string>)
    requires store.Valid()
    modifies store
    ensures store.Valid()
    ensures r == Outcome(d, storyPath, storyContent, firstPass, secondPass, parse, write)
    ensures store.docs == ApplyCalls(old(store.docs), name, AttemptCalls(r), now)
  {
    ghost var d0 := store.docs;
    ghost var done := Begin(store, name, RunningCall(NARRATIVE), now);
    var outcome := Attempt(d, storyPath, storyContent, firstPass, secondPass, parse, write);
    if outcome.Err? {
      done := Perform(store, name, FailedCall(NARRATIVE, outcome.message), now, d0, done);
      Seq2(RunningCall(NARRATIVE), FailedCall(NARRATIVE, outcome.message));
      return outcome;
    }
    var outPath := outcome.value;
    done := Perform(store, name, SuccessCall(NARRATIVE, map["schema_file" := outPath]), now, d0, done);
    Seq2(RunningCall(NARRATIVE), SuccessCall(NARRATIVE, map["schema_file" := outPath]));
    r := Ok(outPath);
  }

  // ---------------------------------------------------------------------------
  // What a run leaves in the store
  // ---------------------------------------------------------------------------

  /** The derived name is used only when no name is given; a run that gets past reading the
      story works on that project. */
  lemma NameChoice(d: Generator, storyPath: string, story: Result<string>, projectName: string,
                   derived: Result<string>, firstPass: string -> Result<string>,
                   secondPass: string -> Result<string>, parse: string -> Result<Json>,
                   write: Result<()>)
    requires story.Ok?
    ensures var job := RunJob(d, storyPath, story, projectName, derived, firstPass, secondPass, parse, write);
      (projectName != "" ==> job.name == Some(projectName))
      && (projectName == "" && derived.Ok? ==> job.name == Some(derived.value))
      && (projectName == "" && derived.Err? ==> job.name.None? && job.result == Err(derived.message))
  {
  }

  /** Before the story is read and the project named nothing is stored, and once a project
      is named, its first call is `running`. */
  lemma RunningFirst(d: Generator, storyPath: string, story: Result<string>, projectName: string,
                     derived: Result<string>, firstPass: string -> Result<string>,
                     secondPass: string -> Result<string>, parse: string -> Result<Json>,
                     write: Result<()>)
    ensures var job := RunJob(d, storyPath, story, projectName, derived, firstPass, secondPass, parse, write);
      (job.name.None? <==> job.calls == [])
      && (job.calls != [] ==> job.calls[0] == RunningCall(NARRATIVE))
      && (story.Err? ==> job.name.None? && job.result == Err(story.message))
  {
  }

  /** A successful run records `success` with the schema file as its only output and
      returns the same path, which is the story's stem plus "_schema.json" in the
      configured schema directory. */
  lemma RunSucceeds(d: Generator, storyPath: string, story: string, name: string,
                    firstPass: string -> Result<string>, secondPass: string -> Result<string>,
                    parse: string -> Result<Json>, write: Result<()>)
    requires Outcome(d, storyPath, story, firstPass, secondPass, parse, write).Ok?
    ensures var path := Outcome(d, storyPath, story, firstPass, secondPass, parse, write).value;
      RunJob(d, storyPath, Ok(story), name, Ok(name), firstPass, secondPass, parse, write)
        == Job(Some(name), NarrativeCalls(path), Ok(path))
      && DirPath(d.cfg, "narrative_schema_dir").Ok?
      && path == PathJoin(DirPath(d.cfg, "narrative_schema_dir").value, Stem(storyPath) + "_schema.json")
  {
  }

  /** Any error in the attempt, an outline that is not valid JSON included, marks the step
      failed with `str(e)` and raises it again; no success is recorded. */
  lemma RunFails(docs: Docs, d: Generator, storyPath: string, story: string, name: string,
                 firstPass: string -> Result<string>, secondPass: string -> Result<string>,
                 parse: string -> Result<Json>, write: Result<()>, now: string)
    requires Outcome(d, storyPath, story, firstPass, secondPass, parse, write).Err?
    ensures var msg := Outcome(d, storyPath, story, firstPass, secondPass, parse, write).message;
      var job := RunJob(d, storyPath, Ok(story), name, Ok(name), firstPass, secondPass, parse, write);
      var s := Current(Effect(docs, job, now), name, now);
      job.result == Err(msg)
      && (forall i | 0 <= i < |job.calls| :: job.calls[i].status != SUCCESS)
      && NARRATIVE in s.steps && s.steps[NARRATIVE].status == FAILED
      && (msg != "" ==> s.steps[NARRATIVE].error == Some(msg))
  {
    var msg := Outcome(d, storyPath, story, firstPass, secondPass, parse, write).message;
    assert [RunningCall(NARRATIVE), FailedCall(NARRATIVE, msg)] == [RunningCall(NARRATIVE)] + [FailedCall(NARRATIVE, msg)];
    FailedLastEffect(docs, name, [RunningCall(NARRATIVE)], NARRATIVE, msg, now);
  }

  /** An outline the parser rejects fails the run with the parser's message. */
  lemma InvalidOutlineFails(d: Generator, storyPath: string, story: string,
                            firstPass: string -> Result<string>, secondPass: string -> Result<string>,
                            parse: string -> Result<Json>, write: Result<()>)
    requires firstPass(story).Ok? && secondPass(firstPass(story).value).Ok?
    requires parse(StripFences(secondPass(firstPass(story).value).value)).Err?
    ensures Outcome(d, storyPath, story, firstPass, secondPass, parse, write)
      == Err(parse(StripFences(secondPass(firstPass(story).value).value)).message)
  {
  }

  /** The name the later stages read off the schema file a run saves (its stem without
      "_schema") is the story's stem, unless the stem itself contains "_schema". */
  lemma SchemaFileNamesProject(d: Generator, storyPath: string, story: string,
                               firstPass: string -> Result<string>, secondPass: string -> Result<string>,
                               parse: string -> Result<Json>, write: Result<()>)
    requires Outcome(d, storyPath, story, firstPass, secondPass, parse, write).Ok?
    requires !Contains(Stem(storyPath), SCHEMA_SUFFIX)
    ensures ProjectNameFromSchema(Outcome(d, storyPath, story, firstPass, secondPass, parse, write).value)
      == Stem(storyPath)
  {
    SchemaNameRoundTrip(DirPath(d.cfg, "narrative_schema_dir").value, storyPath);
  }
}
