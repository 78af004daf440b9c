/** The voiceover script of the `src` package. It splits the screenplay at '\\n' only and
    tests the unstripped line: all-uppercase lines that are not headings are character names,
    lines starting with '(' are parentheticals, and any other line that is not blank and not
    all-uppercase is kept, stripped. Headings are therefore kept unless they are all
    uppercase. */
module SrcVoiceover {
  import opened PyText
  import Voiceover

  /** The branch chain of the loop, for one unstripped line: whether it reaches `append`. */
  predicate Appends(line: string) {
    if IsUpper(line) && !StartsWith(line, "SCENE") && !StartsWith(line, "INT.") && !StartsWith(line, "EXT.") then false
    else if StartsWith(line, "(") then false
    else Strip(line) != "" && !IsUpper(line)
  }

  /** What one line contributes: itself, stripped, when it is appended, else nothing. */
  function Contribution(line: string): seq<string> {
    if Appends(line) then [Strip(line)] else []
  }

  /** The kept lines, stripped, in their original order. */
  function Kept(lines: seq<string>): seq<string>
    decreases |lines|
  {
    if lines == [] then [] else Contribution(lines[0]) + Kept(lines[1..])
  }

  /** One step of the scan: the line at `i` contributes before the rest. */
  lemma KeptStep(lines: seq<string>, raw: seq<string>, i: nat)
    requires i < |raw|
    ensures lines + Kept(raw[i..]) == lines + Contribution(raw[i]) + Kept(raw[i + 1..])
  {
    assert raw[i..][1..] == raw[i + 1..];
    SeqAssoc(lines, Contribution(raw[i]), Kept(raw[i + 1..]));
  }

  /** The extraction loop of `generate_voiceover` and the join after it. */
  method ExtractDialogue(screenplay: string) returns (dialogue: string)
    ensures dialogue == Join(" ", Kept(Split(screenplay, "\n")))
  {
    var raw := Split(screenplay, "\n");
    var lines: seq<string> := [];
    var i := 0;
    while i < |raw|
      invariant 0 <= i <= |raw|
      invariant lines + Kept(raw[i..]) == Kept(raw)
    {
      KeptStep(lines, raw, i);
      ghost var before := lines;
      var line := raw[i];
      if IsUpper(line) && !StartsWith(line, "SCENE") && !StartsWith(line, "INT.") && !StartsWith(line, "EXT.") {
      } else if StartsWith(line, "(") {
      } else if Strip(line) != "" && !IsUpper(line) {
        lines := lines + [Strip(line)];
      }
      assert lines == before + Contribution(raw[i]);
      i := i + 1;
    }
    assert Kept(raw[i..]) == [];
    assert lines + [] == lines;
    dialogue := Join(" ", lines);
  }

  /** The branch chain comes down to one test: a line is kept exactly when it is not all
      uppercase, does not start with '(' and is not blank; the heading tests never decide. */
  lemma AppendsExactly(line: string)
    ensures Appends(line) <==> !IsUpper(line) && !StartsWith(line, "(") && Strip(line) != ""
  {
  }

  /** Only whitespace lies outside the stripped line, and whitespace is not a letter, so
      stripping does not change whether a line is all uppercase. */
  lemma UpperOfStrip(line: string)
    ensures IsUpper(Strip(line)) <==> IsUpper(line)
  {
    var r := Strip(line);
    var i := |line| - |LStrip(line)|;
    assert IsStripOf(line, r, i);
    if IsUpper(line) {
      UpperOfStripForward(line, r, i);
    }
    if IsUpper(r) {
      UpperOfStripBackward(line, r, i);
    }
  }

  /** Whitespace is neither an upper- nor a lower-case ASCII letter. */
  lemma SpaceIsNoLetter(c: char)
    requires IsSpace(c)
    ensures !IsUpperAscii(c) && !IsLowerAscii(c)
  {
  }

  lemma UpperOfStripForward(line: string, r: string, i: int)
    requires IsStripOf(line, r, i) && IsUpper(line)
    ensures IsUpper(r)
  {
    var j :| 0 <= j < |line| && IsUpperAscii(line[j]);
    if j < i || j >= i + |r| {
      SpaceIsNoLetter(line[j]);
      assert false;
    }
    assert r[j - i] == line[j];
    forall t | 0 <= t < |r| ensures !IsLowerAscii(r[t]) {
      assert r[t] == line[i + t];
    }
  }

  lemma UpperOfStripBackward(line: string, r: string, i: int)
    requires IsStripOf(line, r, i) && IsUpper(r)
    ensures IsUpper(line)
  {
    var t :| 0 <= t < |r| && IsUpperAscii(r[t]);
    assert line[i + t] == r[t];
    forall j | 0 <= j < |line| ensures !IsLowerAscii(line[j]) {
      if i <= j < i + |r| {
        assert line[j] == r[j - i];
      } else {
        SpaceIsNoLetter(line[j]);
      }
    }
  }

  /** A line opening with '(' still opens with it once stripped. */
  lemma ParenOfStrip(line: string)
    requires StartsWith(line, "(")
    ensures StartsWith(Strip(line), "(")
  {
    var r := Strip(line);
    var i := |line| - |LStrip(line)|;
    assert IsStripOf(line, r, i);
    assert line[0] == '(' && !IsSpace(line[0]);
    assert i == 0;
    assert r[0] == line[0];
  }

  /** Every line the top-level extractor keeps, this one keeps too. */
  lemma KeptByTopLevel(line: string)
    requires Voiceover.IsDialogue(Strip(line))
    ensures Appends(line)
  {
    UpperOfStrip(line);
    if StartsWith(line, "(") {
      ParenOfStrip(line);
    }
  }

  /** A heading with lower-case letters is dropped by the top-level extractor and kept here. */
  lemma HeadingKeptHere()
    ensures Appends("INT. Kitchen") && !Voiceover.IsDialogue(Strip("INT. Kitchen"))
  {
    var h := "INT. Kitchen";
    assert IsLowerAscii(h[6]);
    assert Strip(h) == h by { assert !IsSpace(h[0]) && !IsSpace(h[|h| - 1]); StripOfTrimmed(h); }
    assert h[..4] == "INT.";
    assert h[..1] != "(";
  }

  /** An indented parenthetical is dropped by the top-level extractor and kept here. */
  lemma IndentedParentheticalKeptHere()
    ensures Appends("  (beat)") && Kept(["  (beat)"]) == ["(beat)"]
    ensures !Voiceover.IsDialogue(Strip("  (beat)"))
  {
    var l := "  (beat)";
    StripIndented();
    assert IsLowerAscii(l[3]);
    assert IsLowerAscii(Strip(l)[1]);
    assert l[..1] != "(";
    assert Strip(l)[..1] == "(";
    var one: seq<string> := [l];
    assert one[1..] == [];
    assert Kept(one) == Contribution(l);
  }

  lemma StripIndented()
    ensures Strip("  (beat)") == "(beat)"
  {
    var p := "(beat)";
    assert "  (beat)" == "  " + p;
    LStripOfSpacePrefix("  ", p);
    StripOfTrimmed(p);
  }
}
