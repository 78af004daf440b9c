/** What the stage jobs and stage scripts have in common: each is a sequence of
    `update_step` calls on one project around a generation call, with the calls of each
    kind (running, success with outputs, failed with a message) and what such sequences
    leave in the store. */
module Jobs {
  import opened Wrappers
  import opened ProjectUtils

  type Docs = map<string, ProjectState>

  const NARRATIVE: string := "narrative_deconstructed"
  const SCREENPLAY: string := "screenplay_generated"
  const STORYBOARD: string := "storyboard_generated"
  const VISUAL_ASSETS: string := "visual_assets_generated"
  const VIDEO: string := "video_synthesized"

  /** A job's effect on the store: the project it updated (none when the name could not be
      derived), the `update_step` calls it made in order, and what it returned or raised. */
  datatype Job<T> = Job(name: Option<string>, calls: seq<Call>, result: Result<T>)

  /** The project a stage script works on: `project_name or derive_project_name_…(path)`,
      the derivation (which may raise) consulted only when no name is given. */
  function ProjectName(projectName: string, derived: Result<string>): Result<string> {
    if projectName != "" then Ok(projectName) else derived
  }

  function RunningCall(key: string): Call { Call(key, RUNNING, map[], "") }

  function SuccessCall(key: string, outputs: map<string, string>): Call { Call(key, SUCCESS, outputs, "") }

  function FailedCall(key: string, msg: string): Call { Call(key, FAILED, map[], msg) }

  /** The calls of a successful narrative stage. */
  function NarrativeCalls(schemaFile: string): seq<Call> {
    [RunningCall(NARRATIVE), SuccessCall(NARRATIVE, map["schema_file" := schemaFile])]
  }

  /** The `except` block's calls: each of `keys` marked failed with the message, in order. */
  function FailAll(keys: seq<string>, msg: string): (r: seq<Call>)
    ensures |r| == |keys|
    ensures forall i :: 0 <= i < |keys| ==> r[i] == FailedCall(keys[i], msg)
  {
    if keys == [] then [] else [FailedCall(keys[0], msg)] + FailAll(keys[1..], msg)
  }

  /** The store after a job. */
  function Effect<T>(docs: Docs, job: Job<T>, now: string): Docs {
    if job.name.None? then docs else ApplyCalls(docs, job.name.value, job.calls, now)
  }

  /** One `update_step` call of a job on `name`, with `done` the calls made so far since
      the store held `d0`. */
  method Perform(store: Store, name: string, c: Call, now: string, ghost d0: Docs, ghost done: seq<Call>)
    returns (ghost done': seq<Call>)
    requires store.Valid() && store.docs == ApplyCalls(d0, name, done, now)
    modifies store
    ensures store.Valid()
    ensures done' == done + [c] && store.docs == ApplyCalls(d0, name, done', now)
  {
    ApplyCallsSnoc(d0, name, done, c, now);
    var _ := store.UpdateStep(name, c.key, c.status, c.outputs, c.error, now);
    done' := done + [c];
  }

  /** `init_project` followed by the first call of an attempt: once a call is made, the
      `init_project` before it makes no difference to the documents. */
  method Begin(store: Store, name: string, c: Call, now: string) returns (ghost done: seq<Call>)
    requires store.Valid()
    modifies store
    ensures store.Valid()
    ensures done == [c] && store.docs == ApplyCalls(old(store.docs), name, done, now)
  {
    ghost var d0 := store.docs;
    var _ := store.InitProject(name, now);
    done := Perform(store, name, c, now, InitDocs(d0, name, now), []);
    ApplyCallsAfterInit(d0, name, done, now);
  }

  // Sequence identities that let the methods below match the calls they made, one at a
  // time, against the calls the job functions list.

  lemma Cat2(s: seq<Call>, a: Call, b: Call)
    ensures s + [a] + [b] == s + [a, b]
  {
  }

  lemma Seq2(a: Call, b: Call)
    ensures [a] + [b] == [a, b]
  {
  }

  lemma Seq4(a: Call, b: Call, c: Call, d: Call)
    ensures [a] + [b] + [c] + [d] == [a, b, c, d]
  {
  }

  /** The ways of cutting five calls around one of them. */
  lemma Five<T>(a: T, b: T, c: T, d: T, e: T)
    ensures [a, b, c, d, e] == [a] + [b] + [c, d, e]
    ensures [a, b, c, d, e] == [a, b] + [c] + [d, e]
    ensures [a, b, c, d, e] == [a, b, c] + [d] + [e]
  {
  }

  /** The ways of cutting six calls after `p` around one of them. */
  lemma SixAfter<T>(p: seq<T>, a: T, b: T, c: T, d: T, e: T, f: T)
    ensures p + [a, b, c, d, e, f] == (p + [a, b]) + [c] + [d, e, f]
    ensures p + [a, b, c, d, e, f] == (p + [a, b, c]) + [d] + [e, f]
    ensures p + [a, b, c, d, e, f] == (p + [a, b, c, d]) + [e] + [f]
  {
  }

  lemma Cat22(a: Call, b: Call, c: Call, d: Call)
    ensures [a, b] + [c, d] == [a, b, c, d]
  {
  }

  lemma FailAllOne(k: string, msg: string)
    ensures FailAll([k], msg) == [FailedCall(k, msg)]
  {
  }

  lemma FailAllTwo(k1: string, k2: string, msg: string)
    ensures FailAll([k1, k2], msg) == [FailedCall(k1, msg), FailedCall(k2, msg)]
  {
  }

  /** An `except` block that marks one step failed. */
  method FailOne(store: Store, name: string, key: string, msg: string, now: string,
                 ghost d0: Docs, ghost done: seq<Call>)
    returns (ghost done': seq<Call>)
    requires store.Valid() && store.docs == ApplyCalls(d0, name, done, now)
    modifies store
    ensures store.Valid()
    ensures done' == done + FailAll([key], msg) && store.docs == ApplyCalls(d0, name, done', now)
  {
    done' := Perform(store, name, FailedCall(key, msg), now, d0, done);
    FailAllOne(key, msg);
  }

  /** An `except` block that marks two steps failed, in order. */
  method FailTwo(store: Store, name: string, key1: string, key2: string, msg: string, now: string,
                 ghost d0: Docs, ghost done: seq<Call>)
    returns (ghost done': seq<Call>)
    requires store.Valid() && store.docs == ApplyCalls(d0, name, done, now)
    modifies store
    ensures store.Valid()
    ensures done' == done + FailAll([key1, key2], msg) && store.docs == ApplyCalls(d0, name, done', now)
  {
    done' := Perform(store, name, FailedCall(key1, msg), now, d0, done);
    done' := Perform(store, name, FailedCall(key2, msg), now, d0, done');
    Cat2(done, FailedCall(key1, msg), FailedCall(key2, msg));
    FailAllTwo(key1, key2, msg);
  }

  /** The events the job's kinds of call log. */
  lemma CallEventsOfKinds(key: string, outputs: map<string, string>, msg: string)
    requires msg != ""
    ensures CallEvent(RunningCall(key)) == [Event(key, RUNNING)]
    ensures CallEvent(SuccessCall(key, outputs)) == [Event(key, SUCCESS)]
    ensures CallEvent(FailedCall(key, msg)) == [Event(key, FAILED), Event(key, "error")]
    ensures CallEvent(FailedCall(key, "")) == [Event(key, FAILED)]
  {
  }

  lemma CallEventsFour(a: Call, b: Call, c: Call, d: Call)
    ensures CallEvents([a, b, c, d]) == CallEvent(a) + CallEvent(b) + CallEvent(c) + CallEvent(d)
  {
    assert [a, b, c, d][1..] == [b, c, d];
    assert [b, c, d][1..] == [c, d];
    CallEventsTwo(c, d);
  }

  lemma CallEventsTwo(a: Call, b: Call)
    ensures CallEvents([a, b]) == CallEvent(a) + CallEvent(b)
  {
    assert [a, b][1..] == [b];
    assert CallEvents([b]) == CallEvent(b) + CallEvents([]);
  }

  /** The step an `except` block marks failed last is `failed`, finished now, and carries
      the message (an empty message is not recorded). */
  lemma FailedLastEffect(docs: Docs, name: string, tried: seq<Call>, key: string, msg: string,
                         now: string)
    ensures var s := Final(docs, name, tried + [FailedCall(key, msg)], now);
      key in s.steps && s.steps[key].status == FAILED && s.steps[key].finishedAt == Some(now)
      && (msg != "" ==> s.steps[key].error == Some(msg))
  {
    assert tried + [FailedCall(key, msg)] == tried + [FailedCall(key, msg)] + [];
    LastCallDecides(docs, name, tried, FailedCall(key, msg), [], now);
  }

  /** The `except` block of a job that marks two steps failed leaves both `failed` with the
      message. */
  lemma FailedTwoEffect(docs: Docs, name: string, tried: seq<Call>, k1: string, k2: string,
                        msg: string, now: string)
    requires k1 != k2
    ensures var s := Final(docs, name, tried + [FailedCall(k1, msg), FailedCall(k2, msg)], now);
      k1 in s.steps && s.steps[k1].status == FAILED && (msg != "" ==> s.steps[k1].error == Some(msg))
      && k2 in s.steps && s.steps[k2].status == FAILED && (msg != "" ==> s.steps[k2].error == Some(msg))
  {
    var f1 := FailedCall(k1, msg);
    var f2 := FailedCall(k2, msg);
    assert tried + [f1, f2] == tried + [f1] + [f2];
    LastCallDecides(docs, name, tried, f1, [f2], now);
    FailedLastEffect(docs, name, tried + [f1], k2, msg, now);
  }

  /** No call marks a step failed or records an error. */
  predicate Unfailing(calls: seq<Call>) {
    forall i | 0 <= i < |calls| :: calls[i].status != FAILED && calls[i].error == ""
  }

  lemma UnfailingAppend(a: seq<Call>, b: seq<Call>)
    requires Unfailing(a) && Unfailing(b)
    ensures Unfailing(a + b)
  {
    forall i | 0 <= i < |a + b| ensures (a + b)[i].status != FAILED && (a + b)[i].error == "" {
      if i >= |a| { assert (a + b)[i] == b[i - |a|]; }
    }
  }

  /** The store after a successful narrative stage: the step is `success` with the schema
      file among its outputs and as the schema artifact, and the history logs `running`
      before `success`. */
  lemma NarrativeStageEffect(docs: Docs, name: string, schemaFile: string, now: string)
    ensures var s := Final(docs, name, NarrativeCalls(schemaFile), now);
      NARRATIVE in s.steps && s.steps[NARRATIVE].status == SUCCESS
      && s.steps[NARRATIVE].finishedAt == Some(now)
      && "schema_file" in s.steps[NARRATIVE].outputs && s.steps[NARRATIVE].outputs["schema_file"] == schemaFile
      && (schemaFile != "" ==> "schema_file" in s.artifacts && s.artifacts["schema_file"] == Some(schemaFile))
      && Events(s.history) == Events(Current(docs, name, now).history)
                              + [Event(NARRATIVE, RUNNING), Event(NARRATIVE, SUCCESS)]
  {
    var c := SuccessCall(NARRATIVE, map["schema_file" := schemaFile]);
    assert NarrativeCalls(schemaFile) == [RunningCall(NARRATIVE)] + [c] + [];
    LastCallDecides(docs, name, [RunningCall(NARRATIVE)], c, [], now);
    if schemaFile != "" {
      LastCallMirrors(docs, name, [RunningCall(NARRATIVE)], c, now, "schema_file");
    }
    ApplyCallsEvents(docs, name, NarrativeCalls(schemaFile), now);
    CallEventsTwo(RunningCall(NARRATIVE), c);
    CallEventsOfKinds(NARRATIVE, c.outputs, "-");
  }
}
