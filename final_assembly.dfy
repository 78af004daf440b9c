/** The final assembly stage script: the `.mp4` clips of a directory, sorted by the numbers
    in their names, are listed in a concat file, joined by ffmpeg into the final film, and
    the list file is removed whatever ffmpeg's outcome. */
module FinalAssembly {
  import opened Wrappers
  import opened PyText
  import opened Effects

  // ---------------------------------------------------------------------------
  // Choosing and ordering the clips
  // ---------------------------------------------------------------------------

  /** `[f for f in os.listdir(clips_directory) if f.endswith(".mp4")]`. */
  function VideoFiles(listing: seq<string>): (r: seq<string>)
    ensures forall k | 0 <= k < |r| :: EndsWith(r[k], ".mp4") && r[k] in listing
    ensures forall f | f in listing && EndsWith(f, ".mp4") :: f in r
    decreases |listing|
  {
    if listing == [] then []
    else (if EndsWith(listing[0], ".mp4") then [listing[0]] else []) + VideoFiles(listing[1..])
  }

  /** `s[1::2]`: the elements at odd positions. */
  function OddPositions(s: seq<string>): (r: seq<string>)
    ensures |r| == |s| / 2 && forall k | 0 <= k < |r| :: r[k] == s[2 * k + 1]
    decreases |s|
  {
    if |s| < 2 then [] else [s[1]] + OddPositions(s[2..])
  }

  /** `tuple(map(int, parts))`, raising (`None`) at the first part that is not an integer. */
  function ParseAll(parts: seq<string>): Option<seq<int>>
    decreases |parts|
  {
    if parts == [] then Some([])
    else
      match ParseInt(parts[0])
      case None => None
      case Some(v) =>
        match ParseAll(parts[1..])
        case None => None
        case Some(rest) => Some([v] + rest)
  }

  /** The sort key of a clip name:
      `tuple(map(int, f.replace('.mp4', '').split('_')[1::2]))`. */
  function ClipKey(name: string): Option<seq<int>> {
    ParseAll(OddPositions(Split(RemoveAll(name, ".mp4"), "_")))
  }

  /** Python's `<=` on tuples of integers: lexicographic, a proper prefix coming first. */
  predicate LexLe(a: seq<int>, b: seq<int>)
    decreases |a|
  {
    a == [] || (b != [] && (a[0] < b[0] || (a[0] == b[0] && LexLe(a[1..], b[1..]))))
  }

  lemma {:induction false} LexLeTotal(a: seq<int>, b: seq<int>)
    ensures LexLe(a, b) || LexLe(b, a)
    decreases |a|
  {
    if a != [] && b != [] && a[0] == b[0] {
      LexLeTotal(a[1..], b[1..]);
    }
  }

  lemma {:induction false} LexLeTrans(a: seq<int>, b: seq<int>, c: seq<int>)
    requires LexLe(a, b) && LexLe(b, c)
    ensures LexLe(a, c)
    decreases |a|
  {
    if a != [] && b != [] && c != [] && a[0] == b[0] && b[0] == c[0] {
      LexLeTrans(a[1..], b[1..], c[1..]);
    }
  }

  /** Inserting a keyed clip before the first clip whose key is not smaller, so that it
      stays ahead of clips with an equal key that came after it. */
  function Insert(c: (seq<int>, string), sorted: seq<(seq<int>, string)>): (r: seq<(seq<int>, string)>)
    ensures multiset(r) == multiset(sorted) + multiset{c}
    decreases |sorted|
  {
    if sorted == [] then [c]
    else if LexLe(c.0, sorted[0].0) then [c] + sorted
    else
      assert sorted == [sorted[0]] + sorted[1..];
      [sorted[0]] + Insert(c, sorted[1..])
  }

  /** `sorted` by key: stable, as Python's sort is. */
  function SortByKey(items: seq<(seq<int>, string)>): (r: seq<(seq<int>, string)>)
    ensures multiset(r) == multiset(items)
    decreases |items|
  {
    if items == [] then []
    else
      assert items == [items[0]] + items[1..];
      Insert(items[0], SortByKey(items[1..]))
  }

  predicate SortedByKey(s: seq<(seq<int>, string)>) {
    forall i, j | 0 <= i < j < |s| :: LexLe(s[i].0, s[j].0)
  }

  lemma {:induction false} InsertSorted(c: (seq<int>, string), sorted: seq<(seq<int>, string)>)
    requires SortedByKey(sorted)
    ensures SortedByKey(Insert(c, sorted))
    decreases |sorted|
  {
    if sorted != [] {
      if LexLe(c.0, sorted[0].0) {
        InsertAtFront(c, sorted);
      } else {
        LexLeTotal(c.0, sorted[0].0);
        InsertSorted(c, sorted[1..]);
        InsertBelowHead(c, sorted);
      }
    }
  }

  /** A clip no greater than the first one goes in front and keeps the order. */
  lemma InsertAtFront(c: (seq<int>, string), sorted: seq<(seq<int>, string)>)
    requires SortedByKey(sorted) && sorted != [] && LexLe(c.0, sorted[0].0)
    ensures SortedByKey([c] + sorted)
  {
    var r := [c] + sorted;
    forall i, j | 0 <= i < j < |r| ensures LexLe(r[i].0, r[j].0) {
      if i == 0 {
        if j > 1 {
          LexLeTrans(c.0, sorted[0].0, sorted[j - 1].0);
        }
      } else {
        assert r[i] == sorted[i - 1] && r[j] == sorted[j - 1];
      }
    }
  }

  /** A clip greater than the first one goes after it and keeps the order. */
  lemma InsertBelowHead(c: (seq<int>, string), sorted: seq<(seq<int>, string)>)
    requires SortedByKey(sorted) && sorted != [] && LexLe(sorted[0].0, c.0)
    requires SortedByKey(Insert(c, sorted[1..]))
    ensures SortedByKey([sorted[0]] + Insert(c, sorted[1..]))
  {
    HeadBelowTail(sorted);
    ConsSorted(sorted[0], Insert(c, sorted[1..]), multiset(sorted[1..]) + multiset{c});
  }

  lemma HeadBelowTail(sorted: seq<(seq<int>, string)>)
    requires SortedByKey(sorted) && sorted != []
    ensures forall x: (seq<int>, string) | x in multiset(sorted[1..]) :: LexLe(sorted[0].0, x.0)
  {
    var tail := sorted[1..];
    forall x: (seq<int>, string) | x in multiset(tail) ensures LexLe(sorted[0].0, x.0) {
      var m :| 0 <= m < |tail| && tail[m] == x;
      assert sorted[m + 1] == x;
    }
  }

  /** Putting an entry no greater than any of a sorted sequence's in front keeps the order. */
  lemma ConsSorted(h: (seq<int>, string), rest: seq<(seq<int>, string)>, m: multiset<(seq<int>, string)>)
    requires SortedByKey(rest) && multiset(rest) == m
    requires forall x | x in m :: LexLe(h.0, x.0)
    ensures SortedByKey([h] + rest)
  {
    var r := [h] + rest;
    forall i, j | 0 <= i < j < |r| ensures LexLe(r[i].0, r[j].0) {
      assert r[j] == rest[j - 1];
      assert rest[j - 1] in multiset(rest);
      if i > 0 {
        assert r[i] == rest[i - 1];
      }
    }
  }

  /** The sorted clips are in key order and are a rearrangement of the clips given. */
  lemma {:induction false} SortByKeySorted(items: seq<(seq<int>, string)>)
    ensures SortedByKey(SortByKey(items))
    ensures multiset(SortByKey(items)) == multiset(items)
    decreases |items|
  {
    if items != [] {
      SortByKeySorted(items[1..]);
      InsertSorted(items[0], SortByKey(items[1..]));
    }
  }

  /** Each clip with its key under `key`; `None` when some key raises, which `sorted`
      propagates. */
  function Keyed(files: seq<string>, key: string -> Option<seq<int>>): (r: Option<seq<(seq<int>, string)>>)
    ensures r.Some? <==> forall k | 0 <= k < |files| :: key(files[k]).Some?
    ensures r.Some? ==> |r.value| == |files|
    ensures r.Some? ==> forall k | 0 <= k < |files| :: r.value[k] == (key(files[k]).value, files[k])
    decreases |files|
  {
    if files == [] then Some([])
    else
      match key(files[0])
      case None => None
      case Some(k0) =>
        assert forall k | 1 <= k < |files| :: files[k] == files[1..][k - 1];
        match Keyed(files[1..], key)
        case None => None
        case Some(rest) =>
          var r := [(k0, files[0])] + rest;
          assert forall k | 1 <= k < |files| :: r[k] == rest[k - 1];
          Some(r)
  }

  function Names(items: seq<(seq<int>, string)>): (r: seq<string>)
    ensures |r| == |items| && forall k | 0 <= k < |items| :: r[k] == items[k].1
  {
    seq(|items|, k requires 0 <= k < |items| => items[k].1)
  }

  /** `clips`: the video files sorted by key, or `None` when a name has no integer key. */
  function SortedClips(listing: seq<string>): Option<seq<string>> {
    match Keyed(VideoFiles(listing), ClipKey)
    case None => None
    case Some(items) => Some(Names(SortByKey(items)))
  }

  // ---------------------------------------------------------------------------
  // assemble_film
  // ---------------------------------------------------------------------------

  /** How the ffmpeg call ends: a missing ffmpeg and a non-zero exit are caught and
      reported; any other error escapes after the `finally` block. */
  datatype FfmpegOutcome = Completed | NotInstalled | ExitError(stderr: string) | OtherError(message: string)

  /** What `assemble_film` does, and the error it raises, if any. */
  datatype Assembly = Assembly(actions: seq<Action>, raised: Option<string>)

  /** One line of the list file: the clip's own name. */
  function ClipLine(clip: string): string { "file '" + clip + "'\n" }

  function ClipList(clips: seq<string>): string
    decreases |clips|
  {
    if clips == [] then "" else ClipList(clips[..|clips| - 1]) + ClipLine(clips[|clips| - 1])
  }

  function FileListPath(clipsDir: string): string { PathJoin(clipsDir, "file_list.txt") }

  function OutputPath(outputFilename: string): string { PathJoin("output/final_film", outputFilename) }

  function FfmpegCommand(clipsDir: string, outputFilename: string): seq<string> {
    ["ffmpeg", "-f", "concat", "-safe", "0", "-i", FileListPath(clipsDir), "-c", "copy", OutputPath(outputFilename)]
  }

  /** `assemble_film(clips_directory, output_filename)` given the directory listing and how
      ffmpeg ends. */
  function Assemble(listing: seq<string>, clipsDir: string, outputFilename: string, ffmpeg: FfmpegOutcome): (r: Assembly)
    ensures r.actions == [] || (|r.actions| == 3 && r.actions[0].WriteFile? && r.actions[0].path == FileListPath(clipsDir)
                                && r.actions[2] == RemoveFile(FileListPath(clipsDir)))
    ensures r.actions != [] ==> (r.raised.Some? <==> ffmpeg.OtherError?)
    ensures r.actions == [] ==> (r.raised.Some? <==> SortedClips(listing).None?)
  {
    match SortedClips(listing)
    case None => Assembly([], Some("invalid literal for int()"))
    case Some(clips) =>
      if clips == [] then Assembly([], None)
      else
        Assembly([WriteFile(FileListPath(clipsDir), ClipList(clips)),
                  RunCommand(FfmpegCommand(clipsDir, outputFilename)),
                  RemoveFile(FileListPath(clipsDir))],
                 if ffmpeg.OtherError? then Some(ffmpeg.message) else None)
  }

  /** The loop writing the list file. */
  method WriteClipList(clips: seq<string>) returns (content: string)
    ensures content == ClipList(clips)
  {
    content := "";
    var i := 0;
    while i < |clips|
      invariant 0 <= i <= |clips|
      invariant content == ClipList(clips[..i])
    {
      assert clips[..i + 1][..i] == clips[..i];
      content := content + ClipLine(clips[i]);
      i := i + 1;
    }
    assert clips[..i] == clips;
  }

  /** `assemble_film`. */
  method AssembleFilm(listing: seq<string>, clipsDir: string, outputFilename: string, ffmpeg: FfmpegOutcome)
    returns (run: Assembly)
    ensures run == Assemble(listing, clipsDir, outputFilename, ffmpeg)
  {
    var sorted := SortedClips(listing);
    if sorted.None? {
      return Assembly([], Some("invalid literal for int()"));
    }
    var clips := sorted.value;
    if clips == [] {
      return Assembly([], None);
    }
    var listPath := FileListPath(clipsDir);
    var content := WriteClipList(clips);
    var actions := [WriteFile(listPath, content), RunCommand(FfmpegCommand(clipsDir, outputFilename))];
    var raised: Option<string> := None;
    match ffmpeg {
      case Completed =>
      case NotInstalled =>
      case ExitError(_) =>
      case OtherError(msg) => raised := Some(msg);
    }
    actions := actions + [RemoveFile(listPath)];
    AppendThird(WriteFile(listPath, content), RunCommand(FfmpegCommand(clipsDir, outputFilename)), RemoveFile(listPath));
    run := Assembly(actions, raised);
  }

  lemma AppendThird(a: Action, b: Action, c: Action)
    ensures [a, b] + [c] == [a, b, c]
  {
  }

  // ---------------------------------------------------------------------------
  // Properties
  // ---------------------------------------------------------------------------

  /** Sorting clips keyed from `files` gives back the names in `files`, rearranged. */
  lemma SortedNamesAreFiles(files: seq<string>, items: seq<(seq<int>, string)>)
    requires |items| == |files| && forall k | 0 <= k < |files| :: items[k].1 == files[k]
    ensures multiset(Names(SortByKey(items))) == multiset(files)
  {
    SortNames(items);
    assert Names(items) == files;
  }

  /** The assembled clips are the directory's `.mp4` files, each as often as it is listed. */
  lemma ClipsAreTheVideoFiles(listing: seq<string>)
    requires SortedClips(listing).Some?
    ensures var clips := SortedClips(listing).value;
      (forall k | 0 <= k < |clips| :: EndsWith(clips[k], ".mp4") && clips[k] in listing)
      && multiset(clips) == multiset(VideoFiles(listing))
  {
    var files := VideoFiles(listing);
    var clips := Names(SortByKey(Keyed(files, ClipKey).value));
    SortedNamesAreFiles(files, Keyed(files, ClipKey).value);
    forall k | 0 <= k < |clips| ensures clips[k] in files {
      assert clips[k] in multiset(clips);
    }
  }

  /** The assembled clips are in ascending order of their keys. */
  lemma ClipsInKeyOrder(listing: seq<string>)
    requires SortedClips(listing).Some?
    ensures var clips := SortedClips(listing).value;
      forall k | 0 <= k < |clips| :: ClipKey(clips[k]).Some?
    ensures var clips := SortedClips(listing).value;
      forall i, j | 0 <= i < j < |clips| :: LexLe(ClipKey(clips[i]).value, ClipKey(clips[j]).value)
  {
    var files := VideoFiles(listing);
    var items := Keyed(files, ClipKey).value;
    SortByKeySorted(items);
    SortingKeepsKeys(items, ClipKey);
  }

  /** Every sorted entry still carries its name's key. */
  lemma SortingKeepsKeys(items: seq<(seq<int>, string)>, key: string -> Option<seq<int>>)
    requires forall k | 0 <= k < |items| :: key(items[k].1) == Some(items[k].0)
    ensures var sorted := SortByKey(items);
      forall k | 0 <= k < |sorted| :: key(sorted[k].1) == Some(sorted[k].0)
  {
    var sorted := SortByKey(items);
    SortByKeySorted(items);
    forall k | 0 <= k < |sorted| ensures key(sorted[k].1) == Some(sorted[k].0) {
      assert sorted[k] in multiset(items);
      var m :| 0 <= m < |items| && items[m] == sorted[k];
    }
  }

  lemma NamesCons(x: (seq<int>, string), y: seq<(seq<int>, string)>)
    ensures Names([x] + y) == [x.1] + Names(y)
  {
  }

  /** Inserting a clip adds its name and nothing else. */
  lemma {:induction false} InsertNames(c: (seq<int>, string), s: seq<(seq<int>, string)>)
    ensures multiset(Names(Insert(c, s))) == multiset(Names(s)) + multiset{c.1}
    decreases |s|
  {
    if s == [] {
    } else if LexLe(c.0, s[0].0) {
      NamesCons(c, s);
    } else {
      InsertNames(c, s[1..]);
      NamesCons(s[0], Insert(c, s[1..]));
      NamesCons(s[0], s[1..]);
      assert s == [s[0]] + s[1..];
    }
  }

  /** Sorting rearranges the names without adding or dropping any. */
  lemma {:induction false} SortNames(items: seq<(seq<int>, string)>)
    ensures multiset(Names(SortByKey(items))) == multiset(Names(items))
    decreases |items|
  {
    if items != [] {
      SortNames(items[1..]);
      InsertNames(items[0], SortByKey(items[1..]));
      NamesCons(items[0], items[1..]);
      assert items == [items[0]] + items[1..];
    }
  }

  /** With no clips nothing is written and ffmpeg is not run. */
  lemma NoClipsNoWork(listing: seq<string>, clipsDir: string, outputFilename: string, ffmpeg: FfmpegOutcome)
    requires SortedClips(listing) == Some([])
    ensures Assemble(listing, clipsDir, outputFilename, ffmpeg) == Assembly([], None)
  {
  }

  /** With clips, the list file is written with one line per clip in sorted order, ffmpeg
      runs on it, and the list is removed last whatever ffmpeg's outcome; only an error
      other than a missing ffmpeg or a failed run escapes. */
  lemma ListRemovedWhateverFfmpeg(listing: seq<string>, clipsDir: string, outputFilename: string,
                                  ffmpeg: FfmpegOutcome, other: FfmpegOutcome)
    requires SortedClips(listing).Some? && SortedClips(listing).value != []
    ensures var a := Assemble(listing, clipsDir, outputFilename, ffmpeg);
      a.actions == Assemble(listing, clipsDir, outputFilename, other).actions
      && a.actions[0] == WriteFile(FileListPath(clipsDir), ClipList(SortedClips(listing).value))
      && a.actions[|a.actions| - 1] == RemoveFile(FileListPath(clipsDir))
      && (a.raised.Some? <==> ffmpeg.OtherError?)
  {
  }

  /** The list holds one line per clip, in order. */
  lemma {:induction false} ClipListAppend(a: seq<string>, b: seq<string>)
    ensures ClipList(a + b) == ClipList(a) + ClipList(b)
    decreases |b|
  {
    if b == [] {
      assert a + b == a;
    } else {
      var b' := b[..|b| - 1];
      var last := b[|b| - 1];
      assert (a + b)[..|a + b| - 1] == a + b' && (a + b)[|a + b| - 1] == last;
      ClipListAppend(a, b');
      SeqAssoc(ClipList(a), ClipList(b'), ClipLine(last));
    }
  }

  /** No separator starts before index `i` when none of the first `i` characters is one. */
  lemma NoSeparatorBefore(s: string, i: int)
    requires 0 <= i <= |s| && forall j | 0 <= j < i :: s[j] != '_'
    ensures forall j | 0 <= j < i :: !OccursAt(s, "_", j)
  {
    forall j | 0 <= j < i ensures !OccursAt(s, "_", j) {
      assert s[j..j + 1][0] == s[j];
    }
  }

  /** Splitting at the first separator, when the part before it holds none. */
  lemma SplitAtSeparator(x: string, y: string)
    requires NoChar(x, '_')
    ensures Split(x + "_" + y, "_") == [x] + Split(y, "_")
  {
    var s := x + "_" + y;
    assert s[..|x|] == x && s[|x| + 1..] == y;
    assert OccursAt(s, "_", |x|);
    NoSeparatorBefore(s, |x|);
    assert Find(s, "_") == Some(|x|);
  }

  lemma SplitWithoutSeparator(x: string)
    requires NoChar(x, '_')
    ensures Split(x, "_") == [x]
  {
    NoSeparatorBefore(x, |x|);
    assert Find(x, "_").None?;
  }

  lemma RemoveExtension(u: string)
    requires NoChar(u, '.')
    ensures RemoveAll(u + ".mp4", ".mp4") == u
  {
    forall i | 0 <= i < |u| ensures !OccursAt(u + ".mp4", ".mp4", i) {
      assert (u + ".mp4")[i] == u[i];
      if i + 4 <= |u| + 4 {
        assert (u + ".mp4")[i..i + 4][0] == u[i];
      }
    }
    RemoveAllBeforeSuffix(u, ".mp4");
  }

  /** "scene_<a>_shot_<b>" splits at its three separators when `a` and `b` hold none. */
  lemma SplitSceneShot(a: string, b: string)
    requires NoChar(a, '_') && NoChar(b, '_')
    ensures Split("scene_" + a + "_shot_" + b, "_") == ["scene", a, "shot", b]
  {
    var y := a + "_shot_" + b;
    assert "scene_" + a + "_shot_" + b == "scene" + "_" + y by {
      SeqAssoc("scene_", a, "_shot_");
      SeqAssoc("scene_", a + "_shot_", b);
    }
    assert Split("scene" + "_" + y, "_") == ["scene"] + Split(y, "_") by {
      WordsWithoutSeparator();
      SplitAtSeparator("scene", y);
    }
    assert Split(y, "_") == [a, "shot", b] by {
      SplitShotPart(a, b);
    }
    assert ["scene"] + [a, "shot", b] == ["scene", a, "shot", b];
  }

  lemma SplitShotPart(a: string, b: string)
    requires NoChar(a, '_') && NoChar(b, '_')
    ensures Split(a + "_shot_" + b, "_") == [a, "shot", b]
  {
    var z := "shot_" + b;
    ShotSeparators(a, b);
    SplitAtSeparator(a, z);
    SplitShotPrefix(b);
    assert [a] + ["shot", b] == [a, "shot", b];
  }

  lemma ShotSeparators(a: string, b: string)
    ensures a + "_shot_" + b == a + "_" + ("shot_" + b)
  {
    assert "_shot_" == "_" + "shot_";
    SeqAssoc("_", "shot_", b);
    SeqAssoc(a, "_", "shot_" + b);
    SeqAssoc(a, "_shot_", b);
  }

  lemma SplitShotPrefix(b: string)
    requires NoChar(b, '_')
    ensures Split("shot_" + b, "_") == ["shot", b]
  {
    WordsWithoutSeparator();
    assert "shot_" + b == "shot" + "_" + b;
    SplitAtSeparator("shot", b);
    SplitWithoutSeparator(b);
  }

  predicate NoChar(s: string, c: char) { forall j | 0 <= j < |s| :: s[j] != c }

  lemma WordsWithoutSeparator()
    ensures NoChar("scene", '_') && NoChar("shot", '_')
  {
  }

  lemma NoCharAppend(x: string, y: string, c: char)
    requires NoChar(x, c) && NoChar(y, c)
    ensures NoChar(x + y, c)
  {
    forall j | 0 <= j < |x + y| ensures (x + y)[j] != c {
      if j >= |x| {
        assert (x + y)[j] == y[j - |x|];
      }
    }
  }

  /** The key of a clip named after its scene and shot numbers is the pair of numbers. */
  lemma ClipKeyOfSceneShot(n: nat, m: nat)
    ensures ClipKey("scene_" + NatToString(n) + "_shot_" + NatToString(m) + ".mp4") == Some([n, m])
  {
    var a := NatToString(n);
    var b := NatToString(m);
    var u := "scene_" + a + "_shot_" + b;
    NoCharAppend("scene_", a, '.');
    NoCharAppend("scene_" + a, "_shot_", '.');
    NoCharAppend("scene_" + a + "_shot_", b, '.');
    RemoveExtension(u);
    SplitSceneShot(a, b);
    var parts := Split(u, "_");
    assert OddPositions(parts) == [a, b];
    ParseIntOfNatToString(n);
    ParseIntOfNatToString(m);
    ParseTwo(a, b, n, m);
  }

  lemma ParseTwo(a: string, b: string, n: int, m: int)
    requires ParseInt(a) == Some(n) && ParseInt(b) == Some(m)
    ensures ParseAll([a, b]) == Some([n, m])
  {
    var one := [b];
    assert one[0] == b && one[1..] == [];
    assert ParseAll(one[1..]) == Some([]);
    assert ParseInt(one[0]) == Some(m);
    assert [m] + [] == [m];
    assert ParseAll(one) == Some([m]);
    var two := [a, b];
    assert two[0] == a && two[1..] == one;
    assert [n] + [m] == [n, m];
  }

  /** Numeric, not textual, order: scene 2 comes before scene 10. */
  lemma SceneTwoBeforeSceneTen()
    ensures ClipKey("scene_2_shot_1.mp4") == Some([2, 1])
    ensures ClipKey("scene_10_shot_1.mp4") == Some([10, 1])
    ensures LexLe([2, 1], [10, 1]) && !LexLe([10, 1], [2, 1])
  {
    KeyOfSceneTwo();
    KeyOfSceneTen();
  }

  lemma KeyOfSceneTwo()
    ensures ClipKey("scene_2_shot_1.mp4") == Some([2, 1])
  {
    assert NatToString(2) == "2";
    assert "scene_2_shot_1.mp4" == "scene_" + "2" + "_shot_1.mp4";
    ClipNameLiteral(2, "2", "scene_2_shot_1.mp4");
  }

  lemma KeyOfSceneTen()
    ensures ClipKey("scene_10_shot_1.mp4") == Some([10, 1])
  {
    assert NatToString(10) == "10";
    assert "scene_10_shot_1.mp4" == "scene_" + "10" + "_shot_1.mp4";
    ClipNameLiteral(10, "10", "scene_10_shot_1.mp4");
  }

  lemma ClipNameLiteral(n: nat, digits: string, name: string)
    requires NatToString(n) == digits
    requires name == "scene_" + digits + "_shot_1.mp4"
    ensures ClipKey(name) == Some([n, 1])
  {
    ClipKeyOfSceneShot(n, 1);
    ShotOneName(digits);
  }

  lemma ShotOneName(digits: string)
    ensures "scene_" + digits + "_shot_" + NatToString(1) + ".mp4" == "scene_" + digits + "_shot_1.mp4"
  {
    assert NatToString(1) == "1";
    assert "scene_" + digits + "_shot_" + "1" + ".mp4" == "scene_" + digits + "_shot_1.mp4";
  }
}
