/** The outside effects of the media scripts, recorded in the order they happen: directories
    created, files written and removed, and requests to the image and video generation
    services and to ffmpeg. A script is modelled as the sequence of effects it performs. */
module Effects {
  import opened PyText

  datatype Action =
    | MakeDirs(path: string)
    | WriteFile(path: string, content: string)
    | RemoveFile(path: string)
    /** An image generated from a prompt and saved at `path`. */
    | GenerateImage(prompt: string, path: string)
    /** A video clip generated from a prompt and a still image and saved at `clip`. */
    | GenerateClip(prompt: string, image: string, clip: string)
    /** ffmpeg's concat demuxer run on a list file, writing `output`. */
    | ConcatVideos(listFile: string, output: string)
    /** An external command run with these arguments. */
    | RunCommand(argv: seq<string>)

  /** One line of an ffmpeg concat list naming a clip by its base name. */
  function ListLine(path: string): string {
    "file '" + Basename(path) + "'\n"
  }

  /** The concat list for `paths`: one line per path, in order. */
  function ListFile(paths: seq<string>): string
    decreases |paths|
  {
    if paths == [] then "" else ListFile(paths[..|paths| - 1]) + ListLine(paths[|paths| - 1])
  }

  /** Removing each of `paths`, in order. */
  function Removals(paths: seq<string>): (r: seq<Action>)
    ensures |r| == |paths| && forall i | 0 <= i < |paths| :: r[i] == RemoveFile(paths[i])
    decreases |paths|
  {
    if paths == [] then [] else Removals(paths[..|paths| - 1]) + [RemoveFile(paths[|paths| - 1])]
  }

  /** The loop `for p in paths: f.write(f"file '{os.path.basename(p)}'\n")`. */
  method WriteList(paths: seq<string>) returns (content: string)
    ensures content == ListFile(paths)
  {
    content := "";
    var i := 0;
    while i < |paths|
      invariant 0 <= i <= |paths|
      invariant content == ListFile(paths[..i])
    {
      ListFileSnoc(paths, i);
      content := content + ListLine(paths[i]);
      i := i + 1;
    }
    assert paths[..i] == paths;
  }

  /** One more path adds its line at the end. */
  lemma ListFileSnoc(paths: seq<string>, i: nat)
    requires i < |paths|
    ensures ListFile(paths[..i + 1]) == ListFile(paths[..i]) + ListLine(paths[i])
  {
    assert paths[..i + 1][..i] == paths[..i] && paths[..i + 1][i] == paths[i];
  }

  /** What a loop over `xs` does when round `i`, on element `xs[i]`, does `body(i, xs[i])`. */
  function Rounds<T, A>(xs: seq<T>, body: (nat, T) -> seq<A>): seq<A>
    decreases |xs|
  {
    if xs == [] then []
    else
      var n := |xs| - 1;
      Rounds(xs[..n], body) + body(n, xs[n])
  }

  /** One more round appends that round's effects. */
  lemma RoundsSnoc<T, A>(xs: seq<T>, i: nat, body: (nat, T) -> seq<A>)
    requires i < |xs|
    ensures Rounds(xs[..i + 1], body) == Rounds(xs[..i], body) + body(i, xs[i])
  {
    assert xs[..i + 1][..i] == xs[..i];
  }

  /** After the last round the loop has done all of them. */
  lemma AllRounds<T, A>(xs: seq<T>, body: (nat, T) -> seq<A>)
    ensures Rounds(xs[..|xs|], body) == Rounds(xs, body)
  {
    assert xs[..|xs|] == xs;
  }

  /** An effect of the loop is an effect of one of its rounds, and every round's effects are
      the loop's. */
  lemma {:induction false} RoundsMembership<T, A>(xs: seq<T>, body: (nat, T) -> seq<A>, a: A)
    ensures a in Rounds(xs, body) <==> exists i :: 0 <= i < |xs| && a in body(i, xs[i])
    decreases |xs|
  {
    if xs != [] {
      var n := |xs| - 1;
      var init := xs[..n];
      RoundsMembership(init, body, a);
      assert forall i | 0 <= i < n :: init[i] == xs[i];
      if exists i :: 0 <= i < |xs| && a in body(i, xs[i]) {
        var i :| 0 <= i < |xs| && a in body(i, xs[i]);
        if i < n {
          assert a in body(i, init[i]);
        }
      }
    }
  }

  /** The list for `a + b` is `a`'s lines followed by `b`'s: one line per path, in order. */
  lemma {:induction false} ListFileAppend(a: seq<string>, b: seq<string>)
    ensures ListFile(a + b) == ListFile(a) + ListFile(b)
    decreases |b|
  {
    if b == [] {
      assert a + b == a;
    } else {
      var b' := b[..|b| - 1];
      var last := b[|b| - 1];
      assert (a + b)[..|a + b| - 1] == a + b' && (a + b)[|a + b| - 1] == last;
      assert ListFile(a + b) == ListFile(a + b') + ListLine(last);
      ListFileAppend(a, b');
      assert ListFile(b) == ListFile(b') + ListLine(last);
      SeqAssoc(ListFile(a), ListFile(b'), ListLine(last));
    }
  }

  /** A path's line names its file once it is under a directory. */
  lemma ListLineOfJoin(dir: string, name: string)
    requires name != [] && forall j | 0 <= j < |name| :: name[j] != '/'
    ensures ListLine(PathJoin(dir, name)) == "file '" + name + "'\n"
  {
    BasenameOfJoin(dir, name);
  }

  // ---------------------------------------------------------------------------
  // Effects that raise
  // ---------------------------------------------------------------------------

  /** Whether the generation service fails request `a`; `failing` holds the files it does not
      produce. Only image and clip requests can fail. */
  predicate Refused(a: Action, failing: set<string>) {
    match a
    case GenerateImage(_, path) => path in failing
    case GenerateClip(_, _, clip) => clip in failing
    case _ => false
  }

  /** Whether performing `a` raises when the files in `gone` are not on disk: a refused request
      fails, and `os.remove` of a missing file raises `FileNotFoundError`. */
  predicate Raises(a: Action, failing: set<string>, gone: set<string>) {
    Refused(a, failing) || (a.RemoveFile? && a.path in gone)
  }

  /** The files missing from disk after `a`: a removal takes its file away, and every effect
      that writes a file puts that file back. */
  function After(a: Action, gone: set<string>): set<string> {
    match a
    case RemoveFile(path) => gone + {path}
    case WriteFile(path, _) => gone - {path}
    case GenerateImage(_, path) => gone - {path}
    case GenerateClip(_, _, clip) => gone - {clip}
    case ConcatVideos(_, output) => gone - {output}
    case _ => gone
  }

  /** The files missing from disk after `actions`, when those in `gone` were missing before. */
  function Gone(actions: seq<Action>, gone: set<string>): set<string>
    decreases |actions|
  {
    if actions == [] then gone else Gone(actions[1..], After(actions[0], gone))
  }

  /** A run that may have ended in an exception: what it did, and whether it raised. */
  datatype Cut = Cut(actions: seq<Action>, raised: bool)

  /** `actions` performed in order, from a disk missing the files in `gone`, until the first
      that raises: its exception ends the run with nothing of that action done. */
  function UntilRaise(actions: seq<Action>, failing: set<string>, gone: set<string>): Cut
    decreases |actions|
  {
    if actions == [] then Cut([], false)
    else if Raises(actions[0], failing, gone) then Cut([], true)
    else
      var rest := UntilRaise(actions[1..], failing, After(actions[0], gone));
      Cut([actions[0]] + rest.actions, rest.raised)
  }

  /** One action that does not raise is performed, and changes the disk as it says. */
  lemma One(a: Action, failing: set<string>, gone: set<string>)
    requires !Raises(a, failing, gone)
    ensures UntilRaise([a], failing, gone) == Cut([a], false)
    ensures Gone([a], gone) == After(a, gone)
  {
    assert [a][1..] == [];
  }

  lemma GoneOne(a: Action, gone: set<string>)
    ensures Gone([a], gone) == After(a, gone)
  {
    assert [a][1..] == [];
  }

  /** What is missing after `a + b` is what `b` leaves after what `a` left. */
  lemma {:induction false} GoneAppend(a: seq<Action>, b: seq<Action>, gone: set<string>)
    ensures Gone(a + b, gone) == Gone(b, Gone(a, gone))
    decreases |a|
  {
    if a == [] {
      assert a + b == b;
    } else {
      assert (a + b)[0] == a[0] && (a + b)[1..] == a[1..] + b;
      GoneAppend(a[1..], b, After(a[0], gone));
    }
  }

  /** The run is a prefix of the planned actions that itself runs through; it raises exactly
      when it stops short, and then the next planned action raises on the disk the run left. */
  lemma {:induction false} UntilRaisePrefix(actions: seq<Action>, failing: set<string>, gone: set<string>)
    ensures var r := UntilRaise(actions, failing, gone);
      |r.actions| <= |actions| && r.actions == actions[..|r.actions|]
      && UntilRaise(r.actions, failing, gone) == Cut(r.actions, false)
      && (r.raised <==> |r.actions| < |actions|)
      && (r.raised ==> Raises(actions[|r.actions|], failing, Gone(r.actions, gone)))
    decreases |actions|
  {
    if actions != [] && !Raises(actions[0], failing, gone) {
      var a := actions[0];
      var tail := actions[1..];
      var after := After(a, gone);
      UntilRaisePrefix(tail, failing, after);
      var rest := UntilRaise(tail, failing, after);
      var done := [a] + rest.actions;
      assert UntilRaise(actions, failing, gone) == Cut(done, rest.raised);
      assert done[0] == a && done[1..] == rest.actions;
      assert UntilRaise(done, failing, gone) == Cut(done, false);
      assert Gone(done, gone) == Gone(rest.actions, after);
      assert actions == [a] + tail;
      assert done == actions[..|done|];
    }
  }

  /** Running `a + b`: `a`'s run if it raised, otherwise all of `a` followed by the run of `b`
      on the disk `a` left. */
  lemma {:induction false} UntilRaiseAppend(a: seq<Action>, b: seq<Action>, failing: set<string>, gone: set<string>)
    ensures UntilRaise(a + b, failing, gone)
      == (var ra := UntilRaise(a, failing, gone);
          if ra.raised then ra
          else var rb := UntilRaise(b, failing, Gone(a, gone)); Cut(a + rb.actions, rb.raised))
    decreases |a|
  {
    if a == [] {
      assert a + b == b;
    } else {
      assert (a + b)[0] == a[0] && (a + b)[1..] == a[1..] + b;
      if !Raises(a[0], failing, gone) {
        var after := After(a[0], gone);
        UntilRaiseAppend(a[1..], b, failing, after);
        UntilRaisePrefix(a[1..], failing, after);
        SeqAssoc([a[0]], a[1..], UntilRaise(b, failing, Gone(a, gone)).actions);
        assert [a[0]] + a[1..] == a;
      }
    }
  }

  /** A run that has gone through `done` and then through `more` on the disk `done` left. */
  lemma CleanThen(done: seq<Action>, more: seq<Action>, failing: set<string>, gone: set<string>)
    requires UntilRaise(done, failing, gone) == Cut(done, false)
    requires UntilRaise(more, failing, Gone(done, gone)) == Cut(more, false)
    ensures UntilRaise(done + more, failing, gone) == Cut(done + more, false)
  {
    UntilRaiseAppend(done, more, failing, gone);
  }

  /** A run that has gone through `done` and raises inside `part` never reaches `rest`. */
  lemma RaiseWithin(done: seq<Action>, part: seq<Action>, rest: seq<Action>, failing: set<string>, gone: set<string>)
    requires UntilRaise(done, failing, gone) == Cut(done, false)
    requires UntilRaise(part, failing, Gone(done, gone)).raised
    ensures UntilRaise(done + part + rest, failing, gone)
      == Cut(done + UntilRaise(part, failing, Gone(done, gone)).actions, true)
  {
    UntilRaiseAppend(done, part, failing, gone);
    UntilRaiseAppend(done + part, rest, failing, gone);
  }

  /** A run that has gone through `done` and meets an action `a` that raises stops there. */
  lemma RaiseAt(done: seq<Action>, a: Action, rest: seq<Action>, failing: set<string>, gone: set<string>)
    requires UntilRaise(done, failing, gone) == Cut(done, false)
    requires Raises(a, failing, Gone(done, gone))
    ensures UntilRaise(done + [a] + rest, failing, gone) == Cut(done, true)
  {
    assert UntilRaise([a], failing, Gone(done, gone)) == Cut([], true);
    RaiseWithin(done, [a], rest, failing, gone);
    assert done + [] == done;
  }

  predicate RemovesNothing(actions: seq<Action>) {
    forall i | 0 <= i < |actions| :: !actions[i].RemoveFile?
  }

  /** Two traces that remove nothing remove nothing together. */
  lemma RemovesNothingAppend(a: seq<Action>, b: seq<Action>)
    requires RemovesNothing(a) && RemovesNothing(b)
    ensures RemovesNothing(a + b)
  {
    forall i | 0 <= i < |a + b|
      ensures !(a + b)[i].RemoveFile?
    {
      if i < |a| {
        assert (a + b)[i] == a[i];
      } else {
        assert (a + b)[i] == b[i - |a|];
      }
    }
  }

  /** Actions that remove nothing run alike whatever is missing from disk. */
  lemma {:induction false} RemoveNothing(actions: seq<Action>, failing: set<string>, g1: set<string>, g2: set<string>)
    requires RemovesNothing(actions)
    ensures UntilRaise(actions, failing, g1) == UntilRaise(actions, failing, g2)
    decreases |actions|
  {
    if actions != [] {
      var tail := actions[1..];
      assert forall i | 0 <= i < |tail| :: tail[i] == actions[i + 1];
      RemoveNothing(tail, failing, After(actions[0], g1), After(actions[0], g2));
    }
  }

  predicate SomeRefused(actions: seq<Action>, failing: set<string>) {
    exists i :: 0 <= i < |actions| && Refused(actions[i], failing)
  }

  /** Actions that remove nothing raise exactly when one of their requests is refused, and
      without a refusal they are all done. */
  lemma {:induction false} RequestsRaise(actions: seq<Action>, failing: set<string>, gone: set<string>)
    requires RemovesNothing(actions)
    ensures var r := UntilRaise(actions, failing, gone);
      (r.raised <==> SomeRefused(actions, failing)) && (!r.raised ==> r.actions == actions)
    decreases |actions|
  {
    if actions != [] {
      var tail := actions[1..];
      assert forall i | 0 <= i < |tail| :: tail[i] == actions[i + 1];
      RequestsRaise(tail, failing, After(actions[0], gone));
      assert actions == [actions[0]] + tail;
      if SomeRefused(actions, failing) && !Refused(actions[0], failing) {
        var i :| 0 <= i < |actions| && Refused(actions[i], failing);
        assert Refused(tail[i - 1], failing);
      }
    }
  }

  lemma SomeRefusedAppend(a: seq<Action>, b: seq<Action>, failing: set<string>)
    ensures SomeRefused(a + b, failing) <==> SomeRefused(a, failing) || SomeRefused(b, failing)
  {
    if SomeRefused(a + b, failing) {
      var i :| 0 <= i < |a + b| && Refused((a + b)[i], failing);
      if i < |a| {
        assert (a + b)[i] == a[i];
      } else {
        assert (a + b)[i] == b[i - |a|];
      }
    }
    if SomeRefused(a, failing) {
      var i :| 0 <= i < |a| && Refused(a[i], failing);
      assert (a + b)[i] == a[i];
    }
    if SomeRefused(b, failing) {
      var i :| 0 <= i < |b| && Refused(b[i], failing);
      assert (a + b)[|a| + i] == b[i];
    }
  }

  /** A file missing after a run was missing before it or removed by it. */
  lemma {:induction false} GoneWithin(actions: seq<Action>, gone: set<string>, p: string)
    ensures p in Gone(actions, gone) ==> p in gone || RemoveFile(p) in actions
    decreases |actions|
  {
    if actions != [] {
      GoneWithin(actions[1..], After(actions[0], gone), p);
      if RemoveFile(p) in actions[1..] {
        var i :| 0 <= i < |actions[1..]| && actions[1..][i] == RemoveFile(p);
        assert actions[i + 1] == RemoveFile(p);
      }
    }
  }

  // ---------------------------------------------------------------------------
  // Removing files
  // ---------------------------------------------------------------------------

  /** Some path is listed twice. */
  predicate Repeats(paths: seq<string>) {
    exists i, j | 0 <= i < j < |paths| :: paths[i] == paths[j]
  }

  /** None of the paths is in `s`. */
  predicate NoneIn(paths: seq<string>, s: set<string>) {
    forall j | 0 <= j < |paths| :: paths[j] !in s
  }

  lemma NoneInSnoc(paths: seq<string>, p: string, s: set<string>, t: set<string>)
    requires NoneIn(paths, s) && t <= s && p !in t
    ensures NoneIn(paths + [p], t)
  {
  }

  /** None of the paths is `p`. */
  predicate NotListed(paths: seq<string>, p: string) {
    forall j | 0 <= j < |paths| :: paths[j] != p
  }

  lemma NotListedSnoc(paths: seq<string>, q: string, p: string)
    requires NotListed(paths, p) && q != p
    ensures NotListed(paths + [q], p)
  {
  }

  /** The paths, as a set. */
  function Members(paths: seq<string>): set<string> {
    set p | p in paths
  }

  lemma RepeatsSnoc(paths: seq<string>)
    requires paths != []
    ensures var init := paths[..|paths| - 1];
      Repeats(paths) <==> Repeats(init) || paths[|paths| - 1] in init
  {
    var init := paths[..|paths| - 1];
    var last := paths[|paths| - 1];
    if Repeats(paths) {
      var i, j :| 0 <= i < j < |paths| && paths[i] == paths[j];
      if j < |init| {
        assert init[i] == init[j];
      } else {
        assert init[i] == last;
      }
    }
    if last in init {
      var i :| 0 <= i < |init| && init[i] == last;
      assert paths[i] == paths[|paths| - 1];
    }
    if Repeats(init) {
      var i, j :| 0 <= i < j < |init| && init[i] == init[j];
      assert paths[i] == paths[j];
    }
  }

  /** Removing `paths` first and the rest after. */
  lemma RemovalsCons(paths: seq<string>)
    requires paths != []
    ensures Removals(paths) == [RemoveFile(paths[0])] + Removals(paths[1..])
  {
    var r := [RemoveFile(paths[0])] + Removals(paths[1..]);
    assert forall k | 0 <= k < |paths| :: r[k] == Removals(paths)[k];
  }

  /** Once the loop has removed `paths`, all of them are missing. */
  lemma {:induction false} RemovalsGone(paths: seq<string>, gone: set<string>)
    ensures Gone(Removals(paths), gone) == gone + Members(paths)
    decreases |paths|
  {
    if paths == [] {
      assert Members(paths) == {};
    } else {
      RemovalsCons(paths);
      RemovalsGone(paths[1..], gone + {paths[0]});
      assert Members(paths) == {paths[0]} + Members(paths[1..]);
    }
  }

  /** The removal loop does the same on two disks that miss the same ones of `paths`. */
  lemma {:induction false} RemovalsAlike(paths: seq<string>, failing: set<string>, g1: set<string>, g2: set<string>)
    requires forall j | 0 <= j < |paths| :: paths[j] in g1 <==> paths[j] in g2
    ensures UntilRaise(Removals(paths), failing, g1) == UntilRaise(Removals(paths), failing, g2)
    decreases |paths|
  {
    if paths != [] {
      RemovalsCons(paths);
      var p := paths[0];
      var tail := paths[1..];
      assert forall j | 0 <= j < |tail| :: tail[j] == paths[j + 1];
      RemovalsAlike(tail, failing, g1 + {p}, g2 + {p});
    }
  }

  /** Removing files that are on disk raises exactly when a path is listed twice: its second
      removal finds no file. */
  lemma {:induction false} RemovalsRaise(paths: seq<string>, failing: set<string>, gone: set<string>)
    requires forall j | 0 <= j < |paths| :: paths[j] !in gone
    ensures UntilRaise(Removals(paths), failing, gone).raised <==> Repeats(paths)
    decreases |paths|
  {
    if paths != [] {
      var init := paths[..|paths| - 1];
      var last := paths[|paths| - 1];
      var removal := RemoveFile(last);
      assert forall j | 0 <= j < |init| :: init[j] == paths[j];
      RemovalsRaise(init, failing, gone);
      RepeatsSnoc(paths);
      assert Removals(paths) == Removals(init) + [removal];
      UntilRaiseAppend(Removals(init), [removal], failing, gone);
      RemovalsGone(init, gone);
      assert UntilRaise([removal], failing, gone + Members(init)).raised <==> last in init;
    }
  }

  /** A removal loop on files that are on disk runs whatever else is missing; when it does not
      raise it removes all of them. */
  lemma RemovalsRun(paths: seq<string>, failing: set<string>, gone: set<string>)
    requires forall j | 0 <= j < |paths| :: paths[j] !in gone
    ensures var r := UntilRaise(Removals(paths), failing, gone);
      r == UntilRaise(Removals(paths), failing, {})
      && (r.raised <==> Repeats(paths))
      && (!r.raised ==> r.actions == Removals(paths))
  {
    RemovalsAlike(paths, failing, gone, {});
    RemovalsRaise(paths, failing, gone);
    UntilRaisePrefix(Removals(paths), failing, gone);
  }

  /** Removing `a` and then `b` is removing `a + b`. */
  lemma {:induction false} RemovalsAppend(a: seq<string>, b: seq<string>)
    ensures Removals(a + b) == Removals(a) + Removals(b)
    decreases |b|
  {
    if b == [] {
      assert a + b == a;
    } else {
      var init := b[..|b| - 1];
      var last := b[|b| - 1];
      assert (a + b)[..|a + b| - 1] == a + init && (a + b)[|a + b| - 1] == last;
      RemovalsAppend(a, init);
      assert Removals(a + b) == Removals(a + init) + [RemoveFile(last)];
      assert Removals(b) == Removals(init) + [RemoveFile(last)];
    }
  }

  lemma RemovalsSplit(paths: seq<string>, i: nat)
    requires i < |paths|
    ensures Removals(paths[..i + 1]) == Removals(paths[..i]) + [RemoveFile(paths[i])]
    ensures Removals(paths) == Removals(paths[..i]) + [RemoveFile(paths[i])] + Removals(paths[i + 1..])
  {
    TakeSnoc(paths, i);
    RemovalsAppend(paths[..i], [paths[i]]);
    assert [paths[i]][..0] == [];
    SplitAt(paths, i + 1);
    RemovalsAppend(paths[..i + 1], paths[i + 1..]);
  }

  /** The loop `for p in paths: os.remove(p)` on a disk missing the files in `gone`: the
      removal of a missing file raises `FileNotFoundError` and ends the loop. */
  method RemoveEach(paths: seq<string>, gone: set<string>, ghost failing: set<string>)
    returns (actions: seq<Action>, raised: bool)
    ensures Cut(actions, raised) == UntilRaise(Removals(paths), failing, gone)
  {
    actions := [];
    var missing := gone;
    var i := 0;
    while i < |paths|
      invariant 0 <= i <= |paths|
      invariant actions == Removals(paths[..i])
      invariant UntilRaise(actions, failing, gone) == Cut(actions, false)
      invariant missing == Gone(actions, gone)
    {
      var removal := RemoveFile(paths[i]);
      RemovalsSplit(paths, i);
      if paths[i] in missing {
        RaiseAt(actions, removal, Removals(paths[i + 1..]), failing, gone);
        return actions, true;
      }
      One(removal, failing, missing);
      CleanThen(actions, [removal], failing, gone);
      GoneAppend(actions, [removal], gone);
      actions := actions + [removal];
      missing := missing + {paths[i]};
      i := i + 1;
    }
    assert paths[..i] == paths;
    raised := false;
  }

  // ---------------------------------------------------------------------------
  // Concatenating videos
  // ---------------------------------------------------------------------------

  /** The concat step: write the list of `paths`, run ffmpeg on it, remove the inputs, then the
      list. */
  function ConcatStep(list: string, output: string, paths: seq<string>): seq<Action> {
    [WriteFile(list, ListFile(paths)), ConcatVideos(list, output)] + Removals(paths) + [RemoveFile(list)]
  }

  /** The concat step writes the list, runs ffmpeg, and ends by removing the list. */
  lemma ConcatStepShape(list: string, output: string, paths: seq<string>)
    ensures var c := ConcatStep(list, output, paths);
      |c| == |paths| + 3 && c[0] == WriteFile(list, ListFile(paths)) && c[1] == ConcatVideos(list, output)
      && c[|c| - 1] == RemoveFile(list)
  {
    var head := [WriteFile(list, ListFile(paths)), ConcatVideos(list, output)];
    var c := head + Removals(paths) + [RemoveFile(list)];
    assert |Removals(paths)| == |paths|;
    assert c[0] == head[0] && c[1] == head[1];
    assert c[|c| - 1] == RemoveFile(list);
  }

  /** Writing the list and running ffmpeg never raise; they put the list and the output back. */
  lemma ConcatHead(list: string, output: string, paths: seq<string>, failing: set<string>, gone: set<string>)
    ensures var head := [WriteFile(list, ListFile(paths)), ConcatVideos(list, output)];
      UntilRaise(head, failing, gone) == Cut(head, false)
      && Gone(head, gone) == gone - {list} - {output}
  {
    var head := [WriteFile(list, ListFile(paths)), ConcatVideos(list, output)];
    var g1 := After(head[0], gone);
    assert head[1..] == [head[1]];
    One(head[1], failing, g1);
  }

  /** The concat step removes only its inputs and its list. */
  lemma ConcatStepRemoves(list: string, output: string, paths: seq<string>)
    ensures var step := ConcatStep(list, output, paths);
      forall i | 0 <= i < |step| :: step[i].RemoveFile? ==> step[i].path == list || step[i].path in paths
  {
    var step := ConcatStep(list, output, paths);
    forall i | 0 <= i < |step| && step[i].RemoveFile? ensures step[i].path == list || step[i].path in paths {
      if 2 <= i < 2 + |paths| {
        assert step[i] == Removals(paths)[i - 2];
      }
    }
  }

  /** The removals that end the concat step, on a disk that has the list and every input. */
  lemma ConcatTailRun(list: string, paths: seq<string>, failing: set<string>, gone: set<string>)
    requires list !in gone
    requires forall j | 0 <= j < |paths| :: paths[j] !in gone && paths[j] != list
    ensures var tail := Removals(paths) + [RemoveFile(list)];
      var r := UntilRaise(tail, failing, gone);
      r == UntilRaise(tail, failing, {})
      && (r.raised <==> Repeats(paths))
      && (!r.raised ==> r.actions == tail)
  {
    var removal := RemoveFile(list);
    UntilRaiseAppend(Removals(paths), [removal], failing, gone);
    UntilRaiseAppend(Removals(paths), [removal], failing, {});
    RemovalsRun(paths, failing, gone);
    RemovalsRun(paths, failing, {});
    if !Repeats(paths) {
      assert list !in Members(paths);
      RemovalsGone(paths, gone);
      RemovalsGone(paths, {});
      One(removal, failing, gone + Members(paths));
      One(removal, failing, Members(paths));
    }
  }

  /** A concat step on files that are on disk, none of them the list itself, raises exactly
      when a file is listed twice: its second `os.remove` finds nothing. What it does does not
      depend on what else is missing, and without a repeat it does all of it. */
  lemma ConcatStepRun(list: string, output: string, paths: seq<string>, failing: set<string>, gone: set<string>)
    requires forall j | 0 <= j < |paths| :: paths[j] !in gone && paths[j] != list
    ensures var r := UntilRaise(ConcatStep(list, output, paths), failing, gone);
      r == UntilRaise(ConcatStep(list, output, paths), failing, {})
      && (r.raised <==> Repeats(paths))
      && (!r.raised ==> r.actions == ConcatStep(list, output, paths))
  {
    var head := [WriteFile(list, ListFile(paths)), ConcatVideos(list, output)];
    var tail := Removals(paths) + [RemoveFile(list)];
    assert ConcatStep(list, output, paths) == head + tail;
    ConcatHead(list, output, paths, failing, gone);
    ConcatHead(list, output, paths, failing, {});
    var g1 := gone - {list} - {output};
    var e1: set<string> := {} - {list} - {output};
    assert e1 == {};
    UntilRaiseAppend(head, tail, failing, gone);
    UntilRaiseAppend(head, tail, failing, {});
    ConcatTailRun(list, paths, failing, g1);
    ConcatTailRun(list, paths, failing, {});
  }

  /** The concat step on a disk from which none of `paths` is missing. */
  method ConcatFiles(list: string, output: string, paths: seq<string>, ghost failing: set<string>)
    returns (actions: seq<Action>, raised: bool)
    requires forall j | 0 <= j < |paths| :: paths[j] != list
    ensures Cut(actions, raised) == UntilRaise(ConcatStep(list, output, paths), failing, {})
  {
    var content := WriteList(paths);
    var head := [WriteFile(list, content), ConcatVideos(list, output)];
    ConcatHead(list, output, paths, failing, {});
    var e1: set<string> := {} - {list} - {output};
    assert e1 == {};
    var removals, removalRaised := RemoveEach(paths, {}, failing);
    if removalRaised {
      RaiseWithin(head, Removals(paths), [RemoveFile(list)], failing, {});
      return head + removals, true;
    }
    RemovalsRun(paths, failing, {});
    ConcatStepRun(list, output, paths, failing, {});
    actions := head + removals + [RemoveFile(list)];
    raised := false;
  }
}
