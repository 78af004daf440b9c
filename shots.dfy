/** The storyboard shot headers, as the pipeline's regular expressions find them. A shot is a
    header "SCENE <digits>, SHOT <digits>:" and a line break, then a description that runs up
    to, but not including, the next "\nSCENE" or the end of the text. Two spellings of the
    header occur: with single spaces (`src/utils.py`, `src/step4_video_synthesis.py`) and with
    any whitespace between the words (`pipeline.py`). The expressions are written out as
    hand-made parsers that scan the text the way `findall` does. */
module Shots {
  import opened Wrappers
  import opened PyText

  /** One match: the two digit groups and the description. */
  datatype Shot = Shot(scene: string, shot: string, description: string)

  /** The header spellings: `SCENE (\d+), SHOT (\d+):\n` and
      `SCENE\s+(\d+),\s*SHOT\s+(\d+):\n`. */
  datatype Pattern = SingleSpaced | AnySpaced

  /** A header found at the start of a text: the digit groups and the text after it. */
  datatype Header = Header(scene: string, shot: string, rest: string)

  /** What any header found satisfies: two non-empty digit groups, and text after it that is
      shorter than the text it was found in. */
  predicate Found(h: Header, s: string) {
    |h.scene| >= 1 && AllDigits(h.scene) && |h.shot| >= 1 && AllDigits(h.shot) && |h.rest| < |s|
  }

  const NEXT_SCENE := "\nSCENE"

  /** The length of the run of characters satisfying `IsDigit` at the start of `s`. */
  function DigitRun(s: string): (n: nat)
    ensures n <= |s| && AllDigits(s[..n]) && (n < |s| ==> !IsDigit(s[n]))
    decreases |s|
  {
    if s != [] && IsDigit(s[0]) then
      var n := DigitRun(s[1..]) + 1;
      assert s[..n] == [s[0]] + s[1..][..n - 1];
      n
    else 0
  }

  /** The length of the run of whitespace at the start of `s`. */
  function SpaceRun(s: string): (n: nat)
    ensures n <= |s| && (n < |s| ==> !IsSpace(s[n]))
    ensures forall j :: 0 <= j < n ==> IsSpace(s[j])
    decreases |s|
  {
    if s != [] && IsSpace(s[0]) then SpaceRun(s[1..]) + 1 else 0
  }

  /** `(\d+)`, then `tail` literally: the digits and what follows `tail`. */
  function DigitsThen(s: string, tail: string): (r: Option<(string, string)>)
    ensures r.Some? ==> |r.value.0| >= 1 && AllDigits(r.value.0) && s == r.value.0 + tail + r.value.1
  {
    var n := DigitRun(s);
    if n >= 1 && StartsWith(s[n..], tail) then
      assert s == s[..n] + tail + s[n + |tail|..];
      Some((s[..n], s[n + |tail|..]))
    else None
  }

  /** The single-spaced header at the start of `s`. */
  function SingleSpacedHeader(s: string): (r: Option<Header>)
    ensures r.Some? ==> Found(r.value, s)
  {
    if !StartsWith(s, "SCENE ") then None
    else
      match DigitsThen(s[6..], ", SHOT ")
      case None => None
      case Some((scene, afterScene)) =>
        match DigitsThen(afterScene, ":\n")
        case None => None
        case Some((shot, rest)) => Some(Header(scene, shot, rest))
  }

  /** The header with any whitespace between its words at the start of `s`. */
  function AnySpacedHeader(s: string): (r: Option<Header>)
    ensures r.Some? ==> Found(r.value, s)
  {
    if !StartsWith(s, "SCENE") then None
    else
      var gap := SpaceRun(s[5..]);
      if gap == 0 then None
      else
        match DigitsThen(s[5 + gap..], ",")
        case None => None
        case Some((scene, afterScene)) =>
          match ShotPart(afterScene)
          case None => None
          case Some((shot, rest)) => Some(Header(scene, shot, rest))
  }

  /** `\s*SHOT\s+(\d+):\n` at the start of `u`: the digits and the text after the header. */
  function ShotPart(u: string): (r: Option<(string, string)>)
    ensures r.Some? ==> |r.value.0| >= 1 && AllDigits(r.value.0) && |r.value.1| < |u|
  {
    var pad := SpaceRun(u);
    if !StartsWith(u[pad..], "SHOT") then None
    else
      var v := u[pad + 4..];
      var gap := SpaceRun(v);
      if gap == 0 then None else DigitsThen(v[gap..], ":\n")
  }

  function HeaderAt(p: Pattern, s: string): (r: Option<Header>)
    ensures r.Some? ==> Found(r.value, s)
  {
    match p
    case SingleSpaced => SingleSpacedHeader(s)
    case AnySpaced => AnySpacedHeader(s)
  }

  /** `(.*?)(?=\nSCENE|\Z)` with `re.DOTALL`: the shortest prefix that is followed by
      "\nSCENE" or ends the text. */
  function Description(rest: string): (d: string)
    ensures |d| <= |rest| && d == rest[..|d|]
    ensures !Contains(d, NEXT_SCENE)
    ensures |d| == |rest| || OccursAt(rest, NEXT_SCENE, |d|)
  {
    match Find(rest, NEXT_SCENE)
    case None =>
      NotFoundNotContained(rest, NEXT_SCENE);
      assert rest[..|rest|] == rest;
      rest
    case Some(j) =>
      PrefixBeforeFindNotContained(rest, NEXT_SCENE, j);
      rest[..j]
  }

  /** `pattern.findall(s)`: every match, scanning left to right, each search starting where
      the previous match ended. */
  function FindAll(p: Pattern, s: string): seq<Shot>
    decreases |s|
  {
    if s == [] then []
    else
      match HeaderAt(p, s)
      case None => FindAll(p, s[1..])
      case Some(h) =>
        var d := Description(h.rest);
        [Shot(h.scene, h.shot, d)] + FindAll(p, h.rest[|d|..])
  }

  // ---------------------------------------------------------------------------
  // What a shot looks like, and the round trip
  // ---------------------------------------------------------------------------

  /** A shot as a match can yield it: two non-empty digit groups and a description without
      "\nSCENE". */
  predicate WellFormed(sh: Shot) {
    |sh.scene| >= 1 && AllDigits(sh.scene) && |sh.shot| >= 1 && AllDigits(sh.shot)
    && !Contains(sh.description, NEXT_SCENE)
  }

  /** Every match is well formed: its groups are decimal numbers and its description stops
      before the next "\nSCENE". */
  lemma {:induction false} FoundShotsWellFormed(p: Pattern, s: string)
    ensures forall k | 0 <= k < |FindAll(p, s)| :: WellFormed(FindAll(p, s)[k])
    decreases |s|
  {
    if s != [] {
      var hd := HeaderAt(p, s);
      if hd.None? {
        FoundShotsWellFormed(p, s[1..]);
      } else {
        var h := hd.value;
        var d := Description(h.rest);
        var tl := FindAll(p, h.rest[|d|..]);
        FoundShotsWellFormed(p, h.rest[|d|..]);
        assert FindAll(p, s) == [Shot(h.scene, h.shot, d)] + tl;
        forall k | 0 <= k < |FindAll(p, s)| ensures WellFormed(FindAll(p, s)[k]) {
          if k > 0 {
            assert FindAll(p, s)[k] == tl[k - 1];
          }
        }
      }
    }
  }

  /** A shot written out as the storyboard format has it. */
  function Block(sh: Shot): string {
    "SCENE " + sh.scene + ", SHOT " + sh.shot + ":\n" + sh.description
  }

  /** A storyboard: the shots' blocks, one after the other, separated by line breaks. */
  function Render(shots: seq<Shot>): string
    decreases |shots|
  {
    if shots == [] then ""
    else if |shots| == 1 then Block(shots[0])
    else Block(shots[0]) + "\n" + Render(shots[1..])
  }

  /** Parsing a written-out storyboard gives its shots back, with either spelling of the
      header. */
  lemma {:induction false} RenderRoundTrip(p: Pattern, shots: seq<Shot>)
    requires forall k | 0 <= k < |shots| :: WellFormed(shots[k])
    ensures FindAll(p, Render(shots)) == shots
    decreases |shots|
  {
    if |shots| == 1 {
      RenderOne(p, shots);
    } else if shots != [] {
      RenderRoundTrip(p, shots[1..]);
      RenderStep(p, shots);
    }
  }

  lemma RenderOne(p: Pattern, shots: seq<Shot>)
    requires |shots| == 1 && WellFormed(shots[0])
    ensures FindAll(p, Render(shots)) == shots
  {
    var sh := shots[0];
    FindAllBlock(p, sh, "", []);
    assert Block(sh) + "" == Render(shots);
    assert [sh] + [] == shots;
  }

  /** The first block of a longer storyboard yields its shot, then the search goes on with
      the rest of the storyboard. */
  lemma RenderStep(p: Pattern, shots: seq<Shot>)
    requires |shots| >= 2 && WellFormed(shots[0])
    requires FindAll(p, Render(shots[1..])) == shots[1..]
    ensures FindAll(p, Render(shots)) == shots
  {
    var sh := shots[0];
    var tail := "\n" + Render(shots[1..]);
    FindAllBlock(p, sh, tail, shots[1..]);
    RenderCons(shots);
    SkipBreak(p, Render(shots[1..]));
    ConsTail(shots);
  }

  lemma RenderCons(shots: seq<Shot>)
    requires |shots| >= 2
    ensures Render(shots) == Block(shots[0]) + ("\n" + Render(shots[1..]))
  {
    SeqAssoc(Block(shots[0]), "\n", Render(shots[1..]));
  }

  lemma ConsTail<T>(s: seq<T>)
    requires s != []
    ensures [s[0]] + s[1..] == s
  {
  }

  /** The search passes over a line break. */
  lemma SkipBreak(p: Pattern, s: string)
    ensures FindAll(p, "\n" + s) == FindAll(p, s)
  {
    var t := "\n" + s;
    NoHeaderAtBreak(p, t);
    assert t[1..] == s;
  }

  /** The first match in a block followed by the rest of the storyboard is the block's own
      shot, and the search goes on at the line break after it. */
  lemma FindAllBlock(p: Pattern, sh: Shot, tail: string, more: seq<Shot>)
    requires WellFormed(sh)
    requires tail == "" || (|more| >= 1 && tail == "\n" + Render(more))
    ensures FindAll(p, Block(sh) + tail) == [sh] + FindAll(p, tail)
  {
    BlockHeader(p, sh, tail);
    var rest := sh.description + tail;
    DescriptionBeforeNext(sh.description, tail, more);
    assert rest[|sh.description|..] == tail;
  }

  /** The header of a block is recognised by both spellings. */
  lemma BlockHeader(p: Pattern, sh: Shot, tail: string)
    requires WellFormed(sh)
    ensures HeaderAt(p, Block(sh) + tail) == Some(Header(sh.scene, sh.shot, sh.description + tail))
  {
    var rest := sh.description + tail;
    var numbered := sh.shot + ":\n" + rest;
    DigitsThenOf(sh.shot, ":\n", rest);
    assert Block(sh) + tail == "SCENE " + sh.scene + ", SHOT " + numbered;
    match p
    case SingleSpaced => SingleSpacedBlock(sh.scene, sh.shot, rest, numbered);
    case AnySpaced => AnySpacedBlock(sh.scene, sh.shot, rest, numbered);
  }

  lemma SingleSpacedBlock(scene: string, shot: string, rest: string, numbered: string)
    requires |scene| >= 1 && AllDigits(scene)
    requires DigitsThen(numbered, ":\n") == Some((shot, rest))
    ensures SingleSpacedHeader("SCENE " + scene + ", SHOT " + numbered) == Some(Header(scene, shot, rest))
  {
    var s := "SCENE " + scene + ", SHOT " + numbered;
    assert s[..6] == "SCENE ";
    assert s[6..] == scene + ", SHOT " + numbered;
    DigitsThenOf(scene, ", SHOT ", numbered);
  }

  lemma AnySpacedBlock(scene: string, shot: string, rest: string, numbered: string)
    requires |scene| >= 1 && AllDigits(scene) && |shot| >= 1 && AllDigits(shot)
    requires numbered == shot + ":\n" + rest
    requires DigitsThen(numbered, ":\n") == Some((shot, rest))
    ensures AnySpacedHeader("SCENE " + scene + ", SHOT " + numbered) == Some(Header(scene, shot, rest))
  {
    var s := "SCENE " + scene + ", SHOT " + numbered;
    var x := scene + ", SHOT " + numbered;
    var y := " SHOT " + numbered;
    assert s[..5] == "SCENE";
    assert s[5..] == " " + x;
    assert x[0] == scene[0];
    SpaceRunOne(x);
    assert s[5 + 1..] == scene + "," + y;
    DigitsThenOf(scene, ",", y);
    ShotPartOf(shot, rest, numbered);
  }

  lemma ShotPartOf(shot: string, rest: string, numbered: string)
    requires |shot| >= 1 && AllDigits(shot)
    requires numbered == shot + ":\n" + rest
    requires DigitsThen(numbered, ":\n") == Some((shot, rest))
    ensures ShotPart(" SHOT " + numbered) == Some((shot, rest))
  {
    var y := " SHOT " + numbered;
    assert y == " " + ("SHOT " + numbered);
    SpaceRunOne("SHOT " + numbered);
    assert y[1..][..4] == "SHOT";
    assert y[1 + 4..] == " " + numbered;
    assert numbered[0] == shot[0];
    SpaceRunOne(numbered);
    assert y[1 + 4..][1..] == numbered;
  }

  /** A single space before a digit or a letter is a gap of width one. */
  lemma SpaceRunOne(t: string)
    requires t != [] && !IsSpace(t[0])
    ensures SpaceRun(" " + t) == 1
  {
    assert (" " + t)[1..] == t;
  }

  /** The digit group is read up to the first non-digit. */
  lemma DigitsThenOf(digits: string, tail: string, rest: string)
    requires |digits| >= 1 && AllDigits(digits) && tail != [] && !IsDigit(tail[0])
    ensures DigitsThen(digits + tail + rest, tail) == Some((digits, rest))
  {
    var s := digits + tail + rest;
    DigitRunOf(digits, tail + rest);
    assert s == digits + (tail + rest);
    assert s[|digits|..] == tail + rest;
    assert s[..|digits|] == digits;
    assert s[|digits| + |tail|..] == rest;
  }

  lemma {:induction false} DigitRunOf(digits: string, t: string)
    requires AllDigits(digits) && t != [] && !IsDigit(t[0])
    ensures DigitRun(digits + t) == |digits|
    decreases |digits|
  {
    if digits == [] {
      assert digits + t == t;
    } else {
      assert (digits + t)[1..] == digits[1..] + t;
      DigitRunOf(digits[1..], t);
    }
  }

  /** A description that holds no "\nSCENE" is read up to the line break that starts the
      next block, or to the end. */
  lemma DescriptionBeforeNext(d: string, tail: string, more: seq<Shot>)
    requires !Contains(d, NEXT_SCENE)
    requires tail == "" || (|more| >= 1 && tail == "\n" + Render(more))
    ensures Description(d + tail) == d
  {
    var rest := d + tail;
    assert rest[..|d|] == d;
    if tail == "" {
      assert rest == d;
      NoOccurrence(rest);
    } else {
      RenderStartsWithScene(more);
      SeamOccurrence(d, Render(more));
      forall j | 0 <= j < |d| ensures !OccursAt(rest, NEXT_SCENE, j) {
        NotBeforeSeam(d, tail, j);
      }
      FindIsFirst(rest, |d|);
    }
  }

  /** The line break before the next block starts an occurrence of "\nSCENE". */
  lemma SeamOccurrence(d: string, next: string)
    requires |next| >= 5 && next[..5] == "SCENE"
    ensures OccursAt(d + ("\n" + next), NEXT_SCENE, |d|)
  {
    var tail := "\n" + next;
    assert tail[..6] == "\n" + next[..5];
    assert (d + tail)[|d|..|d| + 6] == tail[..6];
  }

  /** The first occurrence is what `find` reports. */
  lemma FindIsFirst(s: string, i: nat)
    requires OccursAt(s, NEXT_SCENE, i)
    requires forall j | 0 <= j < i :: !OccursAt(s, NEXT_SCENE, j)
    ensures Find(s, NEXT_SCENE) == Some(i)
  {
  }

  /** An occurrence that starts inside `d` lies wholly in `d`, because the separator's line
      break can only be its first character. */
  lemma NotBeforeSeam(d: string, tail: string, j: nat)
    requires !Contains(d, NEXT_SCENE) && tail != [] && tail[0] == '\n' && j < |d|
    ensures !OccursAt(d + tail, NEXT_SCENE, j)
  {
    var rest := d + tail;
    if j + 6 <= |d| {
      assert d[j..j + 6] == rest[j..j + 6];
      assert OccursAt(rest, NEXT_SCENE, j) ==> OccursAt(d, NEXT_SCENE, j);
    } else if j + 6 <= |rest| {
      var q := |d| - j;
      assert rest[j..j + 6][q] == rest[|d|] == '\n';
      assert NEXT_SCENE[q] != '\n';
    }
  }

  /** No header starts at a line break. */
  lemma NoHeaderAtBreak(p: Pattern, s: string)
    requires s != [] && s[0] == '\n'
    ensures HeaderAt(p, s).None?
  {
    assert !StartsWith(s, "SCENE") by {
      if |s| >= 5 {
        assert s[..5][0] == s[0];
      }
    }
    assert !StartsWith(s, "SCENE ") by {
      if |s| >= 6 {
        assert s[..6][0] == s[0];
      }
    }
  }

  /** A string without "\nSCENE" is its own description. */
  lemma NoOccurrence(s: string)
    requires !Contains(s, NEXT_SCENE)
    ensures Description(s) == s
  {
  }

  /** A written-out storyboard with at least one shot starts with "SCENE". */
  lemma RenderStartsWithScene(shots: seq<Shot>)
    requires |shots| >= 1
    ensures |Render(shots)| >= 5 && Render(shots)[..5] == "SCENE"
  {
    var b := Block(shots[0]);
    assert b[..5] == "SCENE";
    if |shots| > 1 {
      assert Render(shots)[..5] == b[..5];
    }
  }
}
