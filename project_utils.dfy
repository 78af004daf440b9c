/** The per-project pipeline state store: one JSON document per project, keyed by the
    sanitised project name, holding each pipeline step's status, timestamps, error and
    outputs, the top-level artifact pointers mirrored from step outputs, and an append-only
    history of events. `update_step` is the only way the stages change a document.

    The persisted documents are the map `Store.docs` from storage key to state; the clock is
    a `now` argument. A Python `None` for a status, error or timestamp argument is `""`,
    which the source treats exactly like `None` (every test is `if status:` or `if error:`). */
module ProjectUtils {
  import opened Wrappers
  import opened PyText

  const PROJECTS_DIR: string := "output/projects"

  /** The eight canonical step keys, in pipeline order. */
  const PIPELINE_STEPS: seq<string> := [
    "narrative_deconstructed",
    "screenplay_generated",
    "storyboard_generated",
    "visual_assets_generated",
    "video_synthesized",
    "soundtrack_generated",
    "voiceover_generated",
    "final_film_assembled"
  ]

  /** The output keys that are mirrored into the top-level artifacts, in the order the
      mirroring loop visits them. */
  const ARTIFACT_KEYS: seq<string> := [
    "schema_file",
    "screenplay_file",
    "storyboard_file",
    "video_file",
    "soundtrack_dir",
    "voiceover_file",
    "final_film_file"
  ]

  const NOT_STARTED: string := "not_started"
  const RUNNING: string := "running"
  const SUCCESS: string := "success"
  const FAILED: string := "failed"

  /** How much of an error message a history entry keeps. */
  const ERROR_PREVIEW_LENGTH: nat := 500

  /** One step's record. Output values are strings; `""` stands for a falsy value. */
  datatype Step = Step(
    status: string,
    startedAt: Option<string>,
    finishedAt: Option<string>,
    error: Option<string>,
    outputs: map<string, string>)

  /** The `meta` of a history entry: the status before a status change, or the start of an
      error message. */
  datatype Meta = Prev(prev: string) | ErrorPreview(error: string)

  datatype HistoryEntry = HistoryEntry(time: string, event: string, meta: Meta)

  datatype ProjectState = ProjectState(
    project: string,
    createdAt: string,
    updatedAt: string,
    steps: map<string, Step>,
    artifacts: map<string, Option<string>>,
    history: seq<HistoryEntry>)

  // ---------------------------------------------------------------------------
  // Storage keys
  // ---------------------------------------------------------------------------

  predicate IsSafeChar(c: char) {
    'a' <= c <= 'z' || 'A' <= c <= 'Z' || '0' <= c <= '9' || c == '_' || c == '-'
  }

  /** `re.sub(r"[^a-zA-Z0-9_-]", "_", name)`: every unsafe character becomes `_`. */
  function SafeName(name: string): (r: string)
    ensures |r| == |name|
    ensures forall i :: 0 <= i < |r| ==> IsSafeChar(r[i])
    ensures forall i :: 0 <= i < |r| ==> (r[i] == name[i] <==> IsSafeChar(name[i]))
    ensures forall i :: 0 <= i < |r| && !IsSafeChar(name[i]) ==> r[i] == '_'
    decreases |name|
  {
    if name == [] then []
    else [if IsSafeChar(name[0]) then name[0] else '_'] + SafeName(name[1..])
  }

  /** Where a project's document is stored. */
  function ProjectPath(name: string): (r: string)
    ensures r == PROJECTS_DIR + "/" + SafeName(name) + ".json"
  {
    var b := SafeName(name) + ".json";
    assert b[..1][0] == b[0] != '/';
    PathJoin(PROJECTS_DIR, b)
  }

  /** A name made of safe characters is its own storage key. */
  lemma {:induction false} SafeNameOfSafe(name: string)
    requires forall i :: 0 <= i < |name| ==> IsSafeChar(name[i])
    ensures SafeName(name) == name
  {
    var r := SafeName(name);
    assert forall i :: 0 <= i < |r| ==> r[i] == name[i];
  }

  /** Sanitising twice is sanitising once. */
  lemma SafeNameIdempotent(name: string)
    ensures SafeName(SafeName(name)) == SafeName(name)
  {
    SafeNameOfSafe(SafeName(name));
  }

  /** Two names share a document exactly when they sanitise to the same key. */
  lemma ProjectPathSharedIffSameKey(a: string, b: string)
    ensures ProjectPath(a) == ProjectPath(b) <==> SafeName(a) == SafeName(b)
  {
    if ProjectPath(a) == ProjectPath(b) {
      var n := |PROJECTS_DIR| + 1;
      assert |SafeName(a)| == |SafeName(b)|;
      assert SafeName(a) == ProjectPath(a)[n..n + |SafeName(a)|];
      assert SafeName(b) == ProjectPath(b)[n..n + |SafeName(b)|];
    }
  }

  /** Distinct names can collide: "a b" and "a.b" are stored in the same document. */
  lemma DistinctNamesCollide()
    ensures "a b" != "a.b" && ProjectPath("a b") == ProjectPath("a.b")
  {
    assert SafeName("a b") == "a_b";
    assert SafeName("a.b") == "a_b";
  }

  // ---------------------------------------------------------------------------
  // The default document
  // ---------------------------------------------------------------------------

  /** A step that has never run. */
  const FRESH_STEP: Step := Step(NOT_STARTED, None, None, None, map[])

  /** The document a new project starts with. The two clock readings of the source are one
      `now` here. */
  function DefaultState(name: string, now: string): (r: ProjectState)
    ensures r.project == name && r.createdAt == now && r.updatedAt == now && r.history == []
    ensures forall k | k in PIPELINE_STEPS :: k in r.steps && r.steps[k].status == NOT_STARTED
    ensures forall k | k in ARTIFACT_KEYS :: k in r.artifacts && r.artifacts[k].None?
  {
    ProjectState(name, now, now,
      map k | k in PIPELINE_STEPS :: FRESH_STEP,
      map k | k in ARTIFACT_KEYS :: None,
      [])
  }

  /** A new document: every pipeline step not started, every artifact unset, no history. */
  lemma DefaultStateShape(name: string, now: string)
    ensures var r := DefaultState(name, now);
      && r.project == name && r.createdAt == now && r.updatedAt == now
      && r.steps.Keys == (set k | k in PIPELINE_STEPS)
      && (forall k | k in r.steps :: r.steps[k] == FRESH_STEP)
      && r.artifacts.Keys == (set k | k in ARTIFACT_KEYS)
      && (forall k | k in r.artifacts :: r.artifacts[k].None?)
      && r.history == []
  {
  }

  /** A sequence without repetitions has as many distinct elements as it is long. */
  lemma {:induction false} DistinctCount(xs: seq<string>)
    requires forall i, j :: 0 <= i < j < |xs| ==> xs[i] != xs[j]
    ensures |set x | x in xs| == |xs|
    decreases |xs|
  {
    if xs != [] {
      var t := xs[1..];
      DistinctCount(t);
      assert (set x | x in xs) == {xs[0]} + (set x | x in t);
      assert xs[0] !in (set x | x in t);
    }
  }

  /** A default document has exactly eight steps and seven artifacts. */
  lemma DefaultStateSizes(name: string, now: string)
    ensures |DefaultState(name, now).steps| == 8
    ensures |DefaultState(name, now).artifacts| == 7
  {
    DistinctCount(PIPELINE_STEPS);
    DistinctCount(ARTIFACT_KEYS);
    assert |DefaultState(name, now).steps.Keys| == |set k | k in PIPELINE_STEPS|;
  }

  // ---------------------------------------------------------------------------
  // update_step, as a function of the document
  // ---------------------------------------------------------------------------

  /** `error[:500]`. */
  function ErrorPreview500(error: string): (r: string)
    ensures |r| <= ERROR_PREVIEW_LENGTH && StartsWith(error, r)
    ensures |error| <= ERROR_PREVIEW_LENGTH ==> r == error
    ensures |error| > ERROR_PREVIEW_LENGTH ==> |r| == ERROR_PREVIEW_LENGTH
  {
    if |error| <= ERROR_PREVIEW_LENGTH then error else error[..ERROR_PREVIEW_LENGTH]
  }

  /** The recognised artifact keys among `keys` that `outputs` gives a truthy value. */
  function Recognised(outputs: map<string, string>, keys: seq<string>): set<string> {
    set k | k in keys && k in outputs && outputs[k] != ""
  }

  /** The artifacts after mirroring the truthy recognised `outputs` among `keys`. */
  function Mirrored(artifacts: map<string, Option<string>>, outputs: map<string, string>,
                    keys: seq<string>): map<string, Option<string>>
  {
    map k | k in artifacts.Keys + Recognised(outputs, keys) ::
      if k in Recognised(outputs, keys) then Some(outputs[k]) else artifacts[k]
  }

  /** The step after the status part of `update_step`. */
  function WithStatus(st: Step, status: string, now: string): Step {
    if status == "" then st
    else st.(
      status := status,
      startedAt := if status == RUNNING && st.startedAt.None? then Some(now) else st.startedAt,
      finishedAt := if status == SUCCESS || status == FAILED then Some(now) else st.finishedAt)
  }

  /** The step after the outputs part: new keys overwrite old ones. */
  function WithOutputs(st: Step, outputs: map<string, string>): Step {
    if outputs == map[] then st else st.(outputs := st.outputs + outputs)
  }

  /** The step after the error part: the error is kept in full, and with no status it also
      fails the step. */
  function WithError(st: Step, status: string, error: string, now: string): Step {
    if error == "" then st
    else if status == "" then st.(error := Some(error), status := FAILED, finishedAt := Some(now))
    else st.(error := Some(error))
  }

  /** The event name of a history entry: `step:<key>:<what>`. */
  function Event(key: string, what: string): string { "step:" + key + ":" + what }

  /** The history entries one call appends. */
  function NewEntries(key: string, prev: string, status: string, error: string, now: string)
    : seq<HistoryEntry>
  {
    (if status == "" then [] else [HistoryEntry(now, Event(key, status), Prev(prev))])
    + (if error == "" then []
       else [HistoryEntry(now, Event(key, "error"), ErrorPreview(ErrorPreview500(error)))])
  }

  /** The steps with `key` registered as a fresh step if it was unknown. */
  function Registered(steps: map<string, Step>, key: string): map<string, Step> {
    if key in steps then steps else steps[key := FRESH_STEP]
  }

  /** What `update_step` does to a document that already exists. */
  function ApplyUpdate(s: ProjectState, key: string, status: string,
                       outputs: map<string, string>, error: string, now: string): (r: ProjectState)
    ensures r.project == s.project && r.createdAt == s.createdAt && r.updatedAt == now
    ensures r.steps.Keys == s.steps.Keys + {key}
    ensures s.history <= r.history
  {
    var steps := Registered(s.steps, key);
    var before := steps[key];
    var after := WithError(WithOutputs(WithStatus(before, status, now), outputs), status, error, now);
    s.(updatedAt := now,
       steps := steps[key := after],
       artifacts := if outputs == map[] then s.artifacts else Mirrored(s.artifacts, outputs, ARTIFACT_KEYS),
       history := s.history + NewEntries(key, before.status, status, error, now))
  }

  // ---------------------------------------------------------------------------
  // The documents of all projects
  // ---------------------------------------------------------------------------

  /** The documents after `init_project(name)`: a default one is added only if missing. */
  function InitDocs(docs: map<string, ProjectState>, name: string, now: string)
    : map<string, ProjectState>
  {
    if SafeName(name) in docs then docs else docs[SafeName(name) := DefaultState(name, now)]
  }

  /** The document `init_project(name)` returns. */
  function Current(docs: map<string, ProjectState>, name: string, now: string): ProjectState {
    InitDocs(docs, name, now)[SafeName(name)]
  }

  /** The documents after `update_step(name, key, ...)`. */
  function UpdateDocs(docs: map<string, ProjectState>, name: string, key: string, status: string,
                      outputs: map<string, string>, error: string, now: string)
    : map<string, ProjectState>
  {
    docs[SafeName(name) := ApplyUpdate(Current(docs, name, now), key, status, outputs, error, now)]
  }

  /** Storing a project's document overrides the one `init_project` may have added. */
  lemma StoreAfterInit(docs: map<string, ProjectState>, name: string, now: string, s: ProjectState)
    ensures InitDocs(docs, name, now)[SafeName(name) := s] == docs[SafeName(name) := s]
  {
  }

  /** Updating a project whose document was just stored updates that document. */
  lemma UpdateDocsOfStored(docs: map<string, ProjectState>, name: string, s: ProjectState,
                           key: string, status: string, outputs: map<string, string>,
                           error: string, now: string)
    ensures UpdateDocs(docs[SafeName(name) := s], name, key, status, outputs, error, now)
      == docs[SafeName(name) := ApplyUpdate(s, key, status, outputs, error, now)]
  {
  }

  /** The arguments of one `update_step` call on a project. */
  datatype Call = Call(key: string, status: string, outputs: map<string, string>, error: string)

  /** The documents after a sequence of `update_step` calls on one project, in order. */
  function ApplyCalls(docs: map<string, ProjectState>, name: string, calls: seq<Call>, now: string)
    : map<string, ProjectState>
    decreases |calls|
  {
    if calls == [] then docs
    else
      var c := calls[0];
      ApplyCalls(UpdateDocs(docs, name, c.key, c.status, c.outputs, c.error, now), name, calls[1..], now)
  }

  /** One more call. */
  lemma {:induction false} ApplyCallsSnoc(docs: map<string, ProjectState>, name: string, calls: seq<Call>, c: Call,
                       now: string)
    ensures ApplyCalls(docs, name, calls + [c], now)
      == UpdateDocs(ApplyCalls(docs, name, calls, now), name, c.key, c.status, c.outputs, c.error, now)
    decreases |calls|
  {
    if calls == [] {
      assert [c][1..] == [];
    } else {
      var d := UpdateDocs(docs, name, calls[0].key, calls[0].status, calls[0].outputs, calls[0].error, now);
      assert (calls + [c])[0] == calls[0];
      assert (calls + [c])[1..] == calls[1..] + [c];
      ApplyCallsSnoc(d, name, calls[1..], c, now);
    }
  }

  /** An `init_project` before the calls makes no difference to what they leave. */
  lemma ApplyCallsAfterInit(docs: map<string, ProjectState>, name: string, calls: seq<Call>,
                            now: string)
    requires calls != []
    ensures ApplyCalls(InitDocs(docs, name, now), name, calls, now) == ApplyCalls(docs, name, calls, now)
  {
    var c := calls[0];
    assert UpdateDocs(InitDocs(docs, name, now), name, c.key, c.status, c.outputs, c.error, now)
        == UpdateDocs(docs, name, c.key, c.status, c.outputs, c.error, now);
  }

  /** The document for `name` after the calls. */
  function Final(docs: map<string, ProjectState>, name: string, calls: seq<Call>, now: string): ProjectState {
    Current(ApplyCalls(docs, name, calls, now), name, now)
  }

  /** Some call of `calls` is about step `k`. */
  predicate Touches(calls: seq<Call>, k: string) {
    exists i | 0 <= i < |calls| :: calls[i].key == k
  }

  /** Two runs of calls, one after the other. */
  lemma {:induction false} ApplyCallsAppend(docs: map<string, ProjectState>, name: string,
                                            xs: seq<Call>, ys: seq<Call>, now: string)
    ensures ApplyCalls(docs, name, xs + ys, now) == ApplyCalls(ApplyCalls(docs, name, xs, now), name, ys, now)
    decreases |xs|
  {
    if xs == [] {
      assert xs + ys == ys;
    } else {
      var c := xs[0];
      assert (xs + ys)[0] == c;
      assert (xs + ys)[1..] == xs[1..] + ys;
      ApplyCallsAppend(UpdateDocs(docs, name, c.key, c.status, c.outputs, c.error, now), name, xs[1..], ys, now);
    }
  }

  /** The calls of a job on one project leave every other project's document alone. */
  lemma {:induction false} ApplyCallsFrame(docs: map<string, ProjectState>, name: string,
                                           calls: seq<Call>, now: string, other: string)
    requires other != SafeName(name)
    ensures var r := ApplyCalls(docs, name, calls, now);
      (other in r <==> other in docs) && (other in docs ==> r[other] == docs[other])
    decreases |calls|
  {
    if calls != [] {
      var c := calls[0];
      var d := UpdateDocs(docs, name, c.key, c.status, c.outputs, c.error, now);
      UpdateDocsFrame(docs, name, c.key, c.status, c.outputs, c.error, now, other);
      ApplyCallsFrame(d, name, calls[1..], now, other);
    }
  }

  /** The calls store a document for the project, without changing its creation time. */
  lemma {:induction false} ApplyCallsStores(docs: map<string, ProjectState>, name: string,
                                            calls: seq<Call>, now: string)
    requires calls != []
    ensures SafeName(name) in ApplyCalls(docs, name, calls, now)
    ensures Final(docs, name, calls, now).createdAt == Current(docs, name, now).createdAt
    decreases |calls|
  {
    var c := calls[0];
    var d := UpdateDocs(docs, name, c.key, c.status, c.outputs, c.error, now);
    if |calls| > 1 {
      ApplyCallsStores(d, name, calls[1..], now);
    }
  }

  /** A step that no call names keeps its state. */
  lemma {:induction false} ApplyCallsUntouched(docs: map<string, ProjectState>, name: string,
                                               calls: seq<Call>, now: string, k: string)
    requires !Touches(calls, k) && k in Current(docs, name, now).steps
    ensures k in Final(docs, name, calls, now).steps
    ensures Final(docs, name, calls, now).steps[k] == Current(docs, name, now).steps[k]
    decreases |calls|
  {
    if calls != [] {
      var c := calls[0];
      var d := UpdateDocs(docs, name, c.key, c.status, c.outputs, c.error, now);
      assert c.key != k;
      UpdateTouchesOnlyItsStep(Current(docs, name, now), c.key, c.status, c.outputs, c.error, now);
      assert !Touches(calls[1..], k) by {
        forall i | 0 <= i < |calls| - 1 ensures calls[1..][i].key != k {
          assert calls[1..][i] == calls[i + 1];
        }
      }
      ApplyCallsUntouched(d, name, calls[1..], now, k);
    }
  }

  /** The last call naming a step decides its status, its error, its finishing time and the
      outputs it gave. */
  lemma LastCallDecides(docs: map<string, ProjectState>, name: string, pre: seq<Call>, c: Call,
                        post: seq<Call>, now: string)
    requires !Touches(post, c.key)
    ensures c.key in Final(docs, name, pre + [c] + post, now).steps
    ensures var st := Final(docs, name, pre + [c] + post, now).steps[c.key];
      (c.status != "" ==> st.status == c.status)
      && (c.status == "" && c.error != "" ==> st.status == FAILED)
      && (c.error != "" ==> st.error == Some(c.error))
      && (c.status == SUCCESS || c.status == FAILED || (c.status == "" && c.error != "") ==>
            st.finishedAt == Some(now))
      && (forall o | o in c.outputs :: o in st.outputs && st.outputs[o] == c.outputs[o])
  {
    var d1 := ApplyCalls(docs, name, pre + [c], now);
    ApplyCallsAppend(docs, name, pre + [c], post, now);
    ApplyCallsSnoc(docs, name, pre, c, now);
    var s := Current(ApplyCalls(docs, name, pre, now), name, now);
    UpdateDocsAt(ApplyCalls(docs, name, pre, now), name, c.key, c.status, c.outputs, c.error, now);
    assert Current(d1, name, now) == ApplyUpdate(s, c.key, c.status, c.outputs, c.error, now);
    UpdateTouchesOnlyItsStep(s, c.key, c.status, c.outputs, c.error, now);
    UpdateOutputs(s, c.key, c.status, c.outputs, c.error, now);
    ApplyCallsUntouched(d1, name, post, now, c.key);
  }

  /** The recognised truthy outputs of the last call are the project's artifact pointers. */
  lemma LastCallMirrors(docs: map<string, ProjectState>, name: string, pre: seq<Call>, c: Call,
                        now: string, a: string)
    requires a in ARTIFACT_KEYS && a in c.outputs && c.outputs[a] != ""
    ensures a in Final(docs, name, pre + [c], now).artifacts
    ensures Final(docs, name, pre + [c], now).artifacts[a] == Some(c.outputs[a])
  {
    ApplyCallsSnoc(docs, name, pre, c, now);
    var s := Current(ApplyCalls(docs, name, pre, now), name, now);
    UpdateDocsAt(ApplyCalls(docs, name, pre, now), name, c.key, c.status, c.outputs, c.error, now);
    UpdateArtifacts(s, c.key, c.status, c.outputs, c.error, now);
  }

  /** Calls without outputs leave the artifact pointers as they were. */
  lemma {:induction false} NoOutputsKeepArtifacts(docs: map<string, ProjectState>, name: string,
                                                  calls: seq<Call>, now: string)
    requires forall i | 0 <= i < |calls| :: calls[i].outputs == map[]
    ensures Final(docs, name, calls, now).artifacts == Current(docs, name, now).artifacts
    decreases |calls|
  {
    if calls != [] {
      var c := calls[0];
      var d := UpdateDocs(docs, name, c.key, c.status, c.outputs, c.error, now);
      assert Current(d, name, now).artifacts == Current(docs, name, now).artifacts;
      assert forall i | 0 <= i < |calls| - 1 :: calls[1..][i].outputs == map[] by {
        forall i | 0 <= i < |calls| - 1 ensures calls[1..][i].outputs == map[] {
          assert calls[1..][i] == calls[i + 1];
        }
      }
      NoOutputsKeepArtifacts(d, name, calls[1..], now);
      assert Final(docs, name, calls, now) == Final(d, name, calls[1..], now);
    }
  }

  /** The event names of a history. */
  function Events(h: seq<HistoryEntry>): (r: seq<string>)
    ensures |r| == |h|
  {
    if h == [] then [] else [h[0].event] + Events(h[1..])
  }

  /** The event names one call logs: its status, then its error. */
  function CallEvent(c: Call): seq<string> {
    (if c.status == "" then [] else [Event(c.key, c.status)])
    + (if c.error == "" then [] else [Event(c.key, "error")])
  }

  /** The event names the calls log, in order. */
  function CallEvents(calls: seq<Call>): seq<string> {
    if calls == [] then [] else CallEvent(calls[0]) + CallEvents(calls[1..])
  }

  lemma {:induction false} EventsAppend(a: seq<HistoryEntry>, b: seq<HistoryEntry>)
    ensures Events(a + b) == Events(a) + Events(b)
    decreases |a|
  {
    if a == [] {
      assert a + b == b;
    } else {
      assert (a + b)[1..] == a[1..] + b;
      EventsAppend(a[1..], b);
    }
  }

  /** One call logs its status, then its error. */
  lemma OneCallEvents(docs: map<string, ProjectState>, name: string, c: Call, now: string)
    ensures Events(Current(UpdateDocs(docs, name, c.key, c.status, c.outputs, c.error, now), name, now).history)
      == Events(Current(docs, name, now).history) + CallEvent(c)
  {
    var s := Current(docs, name, now);
    var e := NewEntries(c.key, Registered(s.steps, c.key)[c.key].status, c.status, c.error, now);
    EventsAppend(s.history, e);
  }

  /** The history keeps what it had, and then logs exactly the calls' events, in order. */
  lemma {:induction false} ApplyCallsEvents(docs: map<string, ProjectState>, name: string,
                                            calls: seq<Call>, now: string)
    ensures Events(Final(docs, name, calls, now).history)
      == Events(Current(docs, name, now).history) + CallEvents(calls)
    decreases |calls|
  {
    if calls == [] {
      assert Final(docs, name, calls, now) == Current(docs, name, now);
      assert CallEvents(calls) == [];
    } else {
      var c := calls[0];
      var d := UpdateDocs(docs, name, c.key, c.status, c.outputs, c.error, now);
      OneCallEvents(docs, name, c, now);
      ApplyCallsEvents(d, name, calls[1..], now);
      assert Final(docs, name, calls, now) == Final(d, name, calls[1..], now);
      SeqAssoc(Events(Current(docs, name, now).history), CallEvent(c), CallEvents(calls[1..]));
    }
  }

  // ---------------------------------------------------------------------------
  // The invariant every document keeps
  // ---------------------------------------------------------------------------

  /** Some history entry carries event `ev`. */
  predicate Logged(h: seq<HistoryEntry>, ev: string) {
    exists j | 0 <= j < |h| :: h[j].event == ev
  }

  /** Step `k`'s timestamps agree with its status and are backed by history entries. */
  predicate StepConsistent(st: Step, k: string, h: seq<HistoryEntry>) {
    (st.status == RUNNING ==> st.startedAt.Some?)
    && (st.status == SUCCESS || st.status == FAILED ==> st.finishedAt.Some?)
    && (st.startedAt.Some? ==> Logged(h, Event(k, RUNNING)))
    && (st.finishedAt.Some? ==>
          Logged(h, Event(k, SUCCESS)) || Logged(h, Event(k, FAILED))
          || Logged(h, Event(k, "error")))
    && (st.error.Some? ==> Logged(h, Event(k, "error")))
  }

  predicate Consistent(s: ProjectState) {
    forall k | k in s.steps :: StepConsistent(s.steps[k], k, s.history)
  }

  lemma LoggedGrows(h: seq<HistoryEntry>, extra: seq<HistoryEntry>, ev: string)
    requires Logged(h, ev)
    ensures Logged(h + extra, ev)
  {
    var j :| 0 <= j < |h| && h[j].event == ev;
    assert (h + extra)[j] == h[j];
  }

  lemma LoggedLast(h: seq<HistoryEntry>, extra: seq<HistoryEntry>, j: nat, ev: string)
    requires j < |extra| && extra[j].event == ev
    ensures Logged(h + extra, ev)
  {
    assert (h + extra)[|h| + j] == extra[j];
  }

  lemma StepConsistentGrows(st: Step, k: string, h: seq<HistoryEntry>, extra: seq<HistoryEntry>)
    requires StepConsistent(st, k, h)
    ensures StepConsistent(st, k, h + extra)
  {
    forall ev | Logged(h, ev) ensures Logged(h + extra, ev) {
      LoggedGrows(h, extra, ev);
    }
  }

  /** A fresh document is consistent. */
  lemma DefaultStateConsistent(name: string, now: string)
    ensures Consistent(DefaultState(name, now))
  {
  }

  /** `update_step` keeps a consistent document consistent, for every argument. */
  lemma {:induction false} ApplyUpdateConsistent(s: ProjectState, key: string, status: string,
                                                 outputs: map<string, string>, error: string,
                                                 now: string)
    requires Consistent(s)
    ensures Consistent(ApplyUpdate(s, key, status, outputs, error, now))
  {
    var r := ApplyUpdate(s, key, status, outputs, error, now);
    var before := Registered(s.steps, key)[key];
    var extra := NewEntries(key, before.status, status, error, now);
    assert r.history == s.history + extra;
    forall k | k in r.steps ensures StepConsistent(r.steps[k], k, r.history) {
      if k != key {
        StepConsistentGrows(s.steps[k], k, s.history, extra);
      } else {
        assert StepConsistent(before, key, s.history);
        StepConsistentGrows(before, key, s.history, extra);
        var st := r.steps[key];
        var ws := WithStatus(before, status, now);
        var statusEntry := if status == "" then 0 else 1;
        if status != "" {
          assert extra[0].event == Event(key, status);
          LoggedLast(s.history, extra, 0, Event(key, status));
        }
        if error != "" {
          assert extra[statusEntry].event == Event(key, "error");
          LoggedLast(s.history, extra, statusEntry, Event(key, "error"));
        }
      }
    }
  }

  // ---------------------------------------------------------------------------
  // Properties of update_step
  // ---------------------------------------------------------------------------

  /** An unknown step key is registered; no other step is touched, and the project name and
      creation time stay. */
  lemma UpdateTouchesOnlyItsStep(s: ProjectState, key: string, status: string,
                                 outputs: map<string, string>, error: string, now: string)
    ensures ApplyUpdate(s, key, status, outputs, error, now).steps.Keys == s.steps.Keys + {key}
    ensures forall k | k in s.steps && k != key ::
      ApplyUpdate(s, key, status, outputs, error, now).steps[k] == s.steps[k]
    ensures key !in s.steps && status == "" && outputs == map[] && error == "" ==>
      ApplyUpdate(s, key, status, outputs, error, now).steps[key] == FRESH_STEP
    ensures ApplyUpdate(s, key, status, outputs, error, now).project == s.project
    ensures ApplyUpdate(s, key, status, outputs, error, now).createdAt == s.createdAt
    ensures ApplyUpdate(s, key, status, outputs, error, now).updatedAt == now
  {
  }

  /** The resulting status: an explicit status wins; an error alone fails the step. */
  lemma UpdateStatus(s: ProjectState, key: string, status: string,
                     outputs: map<string, string>, error: string, now: string)
    ensures var old_ := Registered(s.steps, key)[key];
      ApplyUpdate(s, key, status, outputs, error, now).steps[key].status ==
        if status != "" then status else if error != "" then FAILED else old_.status
  {
  }

  /** `started_at` is set by the first `running` only; later `running`s keep it. */
  lemma UpdateStartedAt(s: ProjectState, key: string, status: string,
                        outputs: map<string, string>, error: string, now: string)
    ensures var old_ := Registered(s.steps, key)[key];
      ApplyUpdate(s, key, status, outputs, error, now).steps[key].startedAt ==
        if status == RUNNING && old_.startedAt.None? then Some(now) else old_.startedAt
  {
  }

  /** `finished_at` is overwritten by every `success` or `failed`, and by an error that
      comes without a status; nothing else changes it. */
  lemma UpdateFinishedAt(s: ProjectState, key: string, status: string,
                         outputs: map<string, string>, error: string, now: string)
    ensures var old_ := Registered(s.steps, key)[key];
      ApplyUpdate(s, key, status, outputs, error, now).steps[key].finishedAt ==
        if status == SUCCESS || status == FAILED || (status == "" && error != "") then Some(now)
        else old_.finishedAt
  {
  }

  /** Running twice keeps the first start time. */
  lemma {:induction false} RetriedRunningKeepsFirstStart(s: ProjectState, key: string,
                                                         t1: string, t2: string)
    ensures var s1 := ApplyUpdate(s, key, RUNNING, map[], "", t1);
      var s2 := ApplyUpdate(s1, key, RUNNING, map[], "", t2);
      s2.steps[key].startedAt == s1.steps[key].startedAt && s1.steps[key].startedAt.Some?
  {
    var s1 := ApplyUpdate(s, key, RUNNING, map[], "", t1);
    assert s1.steps[key].startedAt.Some?;
    assert Registered(s1.steps, key)[key] == s1.steps[key];
  }

  /** The error is kept in full on the step; the history keeps at most its first 500
      characters. */
  lemma UpdateError(s: ProjectState, key: string, status: string,
                    outputs: map<string, string>, error: string, now: string)
    requires error != ""
    ensures var r := ApplyUpdate(s, key, status, outputs, error, now);
      r.steps[key].error == Some(error)
      && var e := r.history[|r.history| - 1];
      e.event == Event(key, "error") && e.time == now && e.meta.ErrorPreview?
      && |e.meta.error| <= 500 && StartsWith(error, e.meta.error)
      && (|error| <= 500 ==> e.meta.error == error)
  {
  }

  /** The history only grows, by one entry for a status and one for an error; the status
      entry records the status the step had before the call. */
  lemma UpdateHistory(s: ProjectState, key: string, status: string,
                      outputs: map<string, string>, error: string, now: string)
    ensures var r := ApplyUpdate(s, key, status, outputs, error, now);
      var before := Registered(s.steps, key)[key];
      |r.history| == |s.history| + (if status != "" then 1 else 0) + (if error != "" then 1 else 0)
      && r.history[..|s.history|] == s.history
      && (status != "" ==>
            r.history[|s.history|] ==
            HistoryEntry(now, Event(key, status), Prev(before.status)))
  {
    var r := ApplyUpdate(s, key, status, outputs, error, now);
    assert r.history[..|s.history|] == s.history;
  }

  /** Outputs are merged into the step, new values winning. */
  lemma UpdateOutputs(s: ProjectState, key: string, status: string,
                      outputs: map<string, string>, error: string, now: string)
    ensures var r := ApplyUpdate(s, key, status, outputs, error, now);
      var before := Registered(s.steps, key)[key];
      r.steps[key].outputs.Keys == before.outputs.Keys + outputs.Keys
      && (forall o | o in outputs :: r.steps[key].outputs[o] == outputs[o])
      && (forall o | o in before.outputs && o !in outputs ::
            r.steps[key].outputs[o] == before.outputs[o])
  {
  }

  /** Exactly the recognised artifact keys with a truthy output are mirrored; every other
      artifact keeps its value. */
  lemma UpdateArtifacts(s: ProjectState, key: string, status: string,
                        outputs: map<string, string>, error: string, now: string)
    ensures var r := ApplyUpdate(s, key, status, outputs, error, now);
      r.artifacts.Keys == s.artifacts.Keys + Recognised(outputs, ARTIFACT_KEYS)
      && (forall a | a in r.artifacts ::
            r.artifacts[a] == if a in ARTIFACT_KEYS && a in outputs && outputs[a] != ""
                              then Some(outputs[a]) else s.artifacts[a])
  {
    var r := ApplyUpdate(s, key, status, outputs, error, now);
    if outputs == map[] {
      assert Recognised(outputs, ARTIFACT_KEYS) == {};
    }
  }

  /** An artifact pointer, once set, is never cleared by an update. */
  lemma ArtifactsNeverCleared(s: ProjectState, key: string, status: string,
                              outputs: map<string, string>, error: string, now: string, a: string)
    requires a in s.artifacts && s.artifacts[a].Some?
    ensures var r := ApplyUpdate(s, key, status, outputs, error, now);
      a in r.artifacts && r.artifacts[a].Some?
  {
    UpdateArtifacts(s, key, status, outputs, error, now);
  }

  /** An update that names neither a status, nor outputs, nor an error only refreshes
      `updated_at` (and registers the step). */
  lemma EmptyUpdateOnlyTouches(s: ProjectState, key: string, now: string)
    requires key in s.steps
    ensures ApplyUpdate(s, key, "", map[], "", now) == s.(updatedAt := now)
  {
    var r := ApplyUpdate(s, key, "", map[], "", now);
    assert r.steps == s.steps;
    assert r.history == s.history;
  }

  /** `init_project` is idempotent: a second call changes nothing. */
  lemma InitIdempotent(docs: map<string, ProjectState>, name: string, t1: string, t2: string)
    ensures InitDocs(InitDocs(docs, name, t1), name, t2) == InitDocs(docs, name, t1)
    ensures Current(InitDocs(docs, name, t1), name, t2) == Current(docs, name, t1)
  {
  }

  /** Updating one project leaves every other storage key's document alone. */
  lemma UpdateDocsFrame(docs: map<string, ProjectState>, name: string, key: string,
                        status: string, outputs: map<string, string>, error: string,
                        now: string, other: string)
    requires other != SafeName(name)
    ensures var r := UpdateDocs(docs, name, key, status, outputs, error, now);
      (other in r <==> other in docs) && (other in docs ==> r[other] == docs[other])
  {
  }

  /** What an update stores under the name's key: the update applied to the stored
      document, or to a default one when there was none. */
  lemma UpdateDocsAt(docs: map<string, ProjectState>, name: string, key: string,
                     status: string, outputs: map<string, string>, error: string, now: string)
    ensures var r := UpdateDocs(docs, name, key, status, outputs, error, now);
      SafeName(name) in r
      && r[SafeName(name)] == ApplyUpdate(
           if SafeName(name) in docs then docs[SafeName(name)] else DefaultState(name, now),
           key, status, outputs, error, now)
  {
  }

  /** The running half of the end-to-end story of one step on a new project. */
  lemma RunFresh(name: string, t1: string)
    ensures var s1 := ApplyUpdate(DefaultState(name, t1), "narrative_deconstructed", RUNNING, map[], "", t1);
      s1.steps["narrative_deconstructed"] == Step(RUNNING, Some(t1), None, None, map[])
      && s1.history == [HistoryEntry(t1, Event("narrative_deconstructed", RUNNING), Prev(NOT_STARTED))]
      && Consistent(s1)
  {
    var s0 := DefaultState(name, t1);
    assert "narrative_deconstructed" in s0.steps;
    DefaultStateConsistent(name, t1);
    ApplyUpdateConsistent(s0, "narrative_deconstructed", RUNNING, map[], "", t1);
  }

  /** The success half: finished, outputs recorded, the artifact mirrored. */
  lemma SucceedAfterRun(s1: ProjectState, t1: string, t2: string, path: string)
    requires "narrative_deconstructed" in s1.steps
      && s1.steps["narrative_deconstructed"] == Step(RUNNING, Some(t1), None, None, map[])
    requires path != ""
    ensures var s2 := ApplyUpdate(s1, "narrative_deconstructed", SUCCESS, map["schema_file" := path], "", t2);
      s2.steps["narrative_deconstructed"] ==
        Step(SUCCESS, Some(t1), Some(t2), None, map["schema_file" := path])
      && "schema_file" in s2.artifacts && s2.artifacts["schema_file"] == Some(path)
      && s2.history == s1.history
           + [HistoryEntry(t2, Event("narrative_deconstructed", SUCCESS), Prev(RUNNING))]
  {
    var o := map["schema_file" := path];
    assert map[] + o == o;
    assert "schema_file" in Recognised(o, ARTIFACT_KEYS);
    UpdateArtifacts(s1, "narrative_deconstructed", SUCCESS, o, "", t2);
  }

  /** The end-to-end story of one step on a new project: running, then success with a
      schema file, leaves the step finished, the artifact mirrored and two history
      entries, the first of which records the status before the run. */
  lemma {:induction false} RunThenSucceed(docs: map<string, ProjectState>, name: string,
                                          t1: string, t2: string, path: string)
    requires SafeName(name) !in docs && path != ""
    ensures var d1 := UpdateDocs(docs, name, "narrative_deconstructed", RUNNING, map[], "", t1);
      var d2 := UpdateDocs(d1, name, "narrative_deconstructed", SUCCESS, map["schema_file" := path], "", t2);
      var st := d2[SafeName(name)];
      "narrative_deconstructed" in st.steps && "schema_file" in st.artifacts
      && (var step := st.steps["narrative_deconstructed"];
          step.status == SUCCESS && step.startedAt == Some(t1) && step.finishedAt == Some(t2)
          && step.outputs == map["schema_file" := path])
      && st.artifacts["schema_file"] == Some(path)
      && st.history == [HistoryEntry(t1, Event("narrative_deconstructed", RUNNING), Prev(NOT_STARTED)),
                        HistoryEntry(t2, Event("narrative_deconstructed", SUCCESS), Prev(RUNNING))]
      && Consistent(st)
  {
    var k := "narrative_deconstructed";
    var o := map["schema_file" := path];
    var d1 := UpdateDocs(docs, name, k, RUNNING, map[], "", t1);
    UpdateDocsAt(docs, name, k, RUNNING, map[], "", t1);
    var s1 := d1[SafeName(name)];
    RunFresh(name, t1);
    UpdateDocsAt(d1, name, k, SUCCESS, o, "", t2);
    SucceedAfterRun(s1, t1, t2, path);
    ApplyUpdateConsistent(s1, k, SUCCESS, o, "", t2);
  }

  // ---------------------------------------------------------------------------
  // The store itself
  // ---------------------------------------------------------------------------

  /** The persisted documents, keyed by `SafeName`. */
  class Store {
    var docs: map<string, ProjectState>

    /** Every stored document is consistent. */
    predicate Valid()
      reads this
    {
      forall k | k in docs :: Consistent(docs[k])
    }

    constructor()
      ensures docs == map[] && Valid()
    {
      docs := map[];
    }

    /** `load_project`: the document stored under the name's key, if any. */
    method LoadProject(name: string) returns (r: Option<ProjectState>)
      ensures r.Some? <==> SafeName(name) in docs
      ensures r.Some? ==> r.value == docs[SafeName(name)]
    {
      var key := SafeName(name);
      if key in docs {
        r := Some(docs[key]);
      } else {
        r := None;
      }
    }

    /** `save_project`: replace the document stored under the name's key. */
    method SaveProject(name: string, state: ProjectState)
      modifies this
      ensures docs == old(docs)[SafeName(name) := state]
    {
      docs := docs[SafeName(name) := state];
    }

    /** `init_project`: return the stored document, creating and saving a default one only
        when there is none. */
    method InitProject(name: string, now: string) returns (state: ProjectState)
      requires Valid()
      modifies this
      ensures Valid()
      ensures docs == InitDocs(old(docs), name, now)
      ensures state == Current(old(docs), name, now)
    {
      var loaded := LoadProject(name);
      if loaded.None? {
        state := DefaultState(name, now);
        DefaultStateConsistent(name, now);
        SaveProject(name, state);
      } else {
        state := loaded.value;
      }
    }

    /** `ensure_project`: the same as `init_project`. */
    method EnsureProject(name: string, now: string) returns (state: ProjectState)
      requires Valid()
      modifies this
      ensures Valid()
      ensures docs == InitDocs(old(docs), name, now)
      ensures state == Current(old(docs), name, now)
    {
      state := InitProject(name, now);
    }

    /** `update_step`: change one step of the project's document in place, append to its
        history, save it and return it. */
    method UpdateStep(name: string, key: string, status: string,
                      outputs: map<string, string>, error: string, now: string)
      returns (state: ProjectState)
      requires Valid()
      modifies this
      ensures Valid()
      ensures state == ApplyUpdate(Current(old(docs), name, now), key, status, outputs, error, now)
      ensures docs == UpdateDocs(old(docs), name, key, status, outputs, error, now)
      ensures docs[SafeName(name)] == state
    {
      ghost var d0 := docs;
      var start := EnsureProject(name, now);
      state := ApplyUpdateInPlace(start, key, status, outputs, error, now);
      ApplyUpdateConsistent(start, key, status, outputs, error, now);
      SaveProject(name, state);
      StoreAfterInit(d0, name, now, state);
    }
  }

  /** The body of `update_step` between loading and saving: register the step, apply the
      status, the outputs and the error in that order, and stamp `updated_at`. */
  method ApplyUpdateInPlace(start: ProjectState, key: string, status: string,
                            outputs: map<string, string>, error: string, now: string)
    returns (state: ProjectState)
    ensures state == ApplyUpdate(start, key, status, outputs, error, now)
  {
    var steps := start.steps;
    if key !in steps {
      steps := steps[key := FRESH_STEP];
    }
    assert steps == Registered(start.steps, key);
    var step := steps[key];
    ghost var before := step;
    var prev := step.status;
    var history := start.history;
    ghost var statusEntries: seq<HistoryEntry> := [];
    if status != "" {
      step := step.(status := status);
      if status == RUNNING && step.startedAt.None? {
        step := step.(startedAt := Some(now));
      }
      if status == SUCCESS || status == FAILED {
        step := step.(finishedAt := Some(now));
      }
      history := history + [HistoryEntry(now, Event(key, status), Prev(prev))];
      statusEntries := [HistoryEntry(now, Event(key, status), Prev(prev))];
    }
    assert step == WithStatus(before, status, now);
    assert history == start.history + statusEntries;
    var artifacts := start.artifacts;
    if outputs != map[] {
      step := step.(outputs := step.outputs + outputs);
      artifacts := MirrorArtifacts(artifacts, outputs);
    }
    assert step == WithOutputs(WithStatus(before, status, now), outputs);
    ghost var errorEntries: seq<HistoryEntry> := [];
    if error != "" {
      step := step.(error := Some(error));
      if status == "" {
        step := step.(status := FAILED, finishedAt := Some(now));
      }
      history := history
        + [HistoryEntry(now, Event(key, "error"), ErrorPreview(ErrorPreview500(error)))];
      errorEntries := [HistoryEntry(now, Event(key, "error"), ErrorPreview(ErrorPreview500(error)))];
    }
    assert step == WithError(WithOutputs(WithStatus(before, status, now), outputs), status, error, now);
    assert statusEntries + errorEntries == NewEntries(key, before.status, status, error, now);
    SeqAssoc(start.history, statusEntries, errorEntries);
    state := start.(updatedAt := now, steps := steps[key := step], artifacts := artifacts,
                    history := history);
  }

  /** The artifact-mirroring loop of `update_step`: each recognised key, in order, is copied
      from the outputs when its value there is truthy. */
  method MirrorArtifacts(artifacts: map<string, Option<string>>, outputs: map<string, string>)
    returns (r: map<string, Option<string>>)
    ensures r == Mirrored(artifacts, outputs, ARTIFACT_KEYS)
  {
    r := artifacts;
    for i := 0 to |ARTIFACT_KEYS|
      invariant r == Mirrored(artifacts, outputs, ARTIFACT_KEYS[..i])
    {
      var a := ARTIFACT_KEYS[i];
      MirroredStep(artifacts, outputs, ARTIFACT_KEYS[..i], a);
      assert ARTIFACT_KEYS[..i + 1] == ARTIFACT_KEYS[..i] + [a];
      if a in outputs && outputs[a] != "" {
        r := r[a := Some(outputs[a])];
      }
    }
    assert ARTIFACT_KEYS[..|ARTIFACT_KEYS|] == ARTIFACT_KEYS;
  }

  /** One more key of the mirroring loop. */
  lemma MirroredStep(artifacts: map<string, Option<string>>, outputs: map<string, string>,
                     keys: seq<string>, a: string)
    ensures Mirrored(artifacts, outputs, keys + [a]) ==
      if a in outputs && outputs[a] != "" then Mirrored(artifacts, outputs, keys)[a := Some(outputs[a])]
      else Mirrored(artifacts, outputs, keys)
  {
    var rec := Recognised(outputs, keys);
    var rec' := Recognised(outputs, keys + [a]);
    assert rec' == rec + (if a in outputs && outputs[a] != "" then {a} else {});
  }
}
