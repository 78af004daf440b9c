/** The voiceover script at the top of the repository: the dialogue of a screenplay is its
    lines, stripped, without blank lines, all-uppercase lines (character names), headings
    ("SCENE", "INT.", "EXT.") and parentheticals, joined by single spaces. With no dialogue
    nothing is sent to speech synthesis and nothing is written. */
module Voiceover {
  import opened PyText

  /** Whether a stripped line is kept as dialogue. */
  predicate IsDialogue(line: string) {
    line != ""
    && !IsUpper(line)
    && !StartsWith(line, "SCENE") && !StartsWith(line, "INT.") && !StartsWith(line, "EXT.")
    && !StartsWith(line, "(")
  }

  /** What one line contributes: itself, stripped, when it is dialogue, else nothing. */
  function Contribution(line: string): seq<string> {
    if IsDialogue(Strip(line)) then [Strip(line)] else []
  }

  /** The kept lines, stripped, in their original order. */
  function Kept(lines: seq<string>): seq<string>
    decreases |lines|
  {
    if lines == [] then [] else Contribution(lines[0]) + Kept(lines[1..])
  }

  /** `extract_dialogue`: the loop over the screenplay's lines that collects the dialogue. */
  method ExtractDialogue(screenplay: string) returns (dialogue: string)
    ensures dialogue == Join(" ", Kept(SplitLines(screenplay)))
  {
    var raw := SplitLines(screenplay);
    var lines: seq<string> := [];
    var i := 0;
    while i < |raw|
      invariant 0 <= i <= |raw|
      invariant lines + Kept(raw[i..]) == Kept(raw)
    {
      KeptStep(lines, raw, i);
      ghost var before := lines;
      var line := Strip(raw[i]);
      if IsDialogue(line) {
        lines := lines + [line];
      }
      assert lines == before + Contribution(raw[i]);
      i := i + 1;
    }
    assert Kept(raw[i..]) == [];
    assert lines + [] == lines;
    dialogue := Join(" ", lines);
  }

  /** One step of the scan: the line at `i` contributes before the rest. */
  lemma KeptStep(lines: seq<string>, raw: seq<string>, i: nat)
    requires i < |raw|
    ensures lines + Kept(raw[i..]) == lines + Contribution(raw[i]) + Kept(raw[i + 1..])
  {
    assert raw[i..][1..] == raw[i + 1..];
    SeqAssoc(lines, Contribution(raw[i]), Kept(raw[i + 1..]));
  }

  /** Every kept line is a dialogue line: stripped, non-blank, not all-uppercase, neither a
      heading nor a parenthetical. */
  lemma {:induction false} KeptAreDialogue(lines: seq<string>)
    ensures forall k | 0 <= k < |Kept(lines)| :: IsDialogue(Kept(lines)[k])
    decreases |lines|
  {
    if lines != [] {
      KeptAreDialogue(lines[1..]);
      AllDialogueAppend(Contribution(lines[0]), Kept(lines[1..]));
    }
  }

  predicate AllDialogue(s: seq<string>) {
    forall k | 0 <= k < |s| :: IsDialogue(s[k])
  }

  lemma AllDialogueAppend(a: seq<string>, b: seq<string>)
    requires AllDialogue(a) && AllDialogue(b)
    ensures AllDialogue(a + b)
  {
    forall k | 0 <= k < |a + b| ensures IsDialogue((a + b)[k]) {
      if k >= |a| {
        assert (a + b)[k] == b[k - |a|];
      }
    }
  }

  /** Each line decides for itself: a line is kept, stripped, exactly when it is dialogue. */
  lemma KeptOne(line: string)
    ensures IsDialogue(Strip(line)) ==> Kept([line]) == [Strip(line)]
    ensures !IsDialogue(Strip(line)) ==> Kept([line]) == []
  {
    assert [line][1..] == [];
  }

  /** The extraction keeps the order of the screenplay: the dialogue of two pieces is the
      dialogue of the first followed by that of the second. */
  lemma {:induction false} KeptAppend(a: seq<string>, b: seq<string>)
    ensures Kept(a + b) == Kept(a) + Kept(b)
    decreases |a|
  {
    if a == [] {
      assert a + b == b;
    } else {
      var c := Contribution(a[0]);
      assert (a + b)[0] == a[0];
      assert (a + b)[1..] == a[1..] + b;
      assert Kept(a + b) == c + Kept(a[1..] + b);
      KeptAppend(a[1..], b);
      assert Kept(a + b) == c + (Kept(a[1..]) + Kept(b));
      assert Kept(a) == c + Kept(a[1..]);
      SeqAssoc(c, Kept(a[1..]), Kept(b));
    }
  }

  /** What `generate_voiceover` does with a screenplay: nothing when there is no dialogue,
      otherwise the dialogue is spoken and written to the output path. */
  datatype VoiceoverRun = NoDialogue | Spoken(text: string, outputPath: string)

  /** `generate_voiceover`; reading the screenplay, synthesis and the audio file are not
      modelled. */
  method GenerateVoiceover(screenplay: string, outputPath: string) returns (run: VoiceoverRun)
    ensures run.NoDialogue? <==> Kept(SplitLines(screenplay)) == []
    ensures run.Spoken? ==> run.text == Join(" ", Kept(SplitLines(screenplay))) && run.outputPath == outputPath
  {
    var dialogue := ExtractDialogue(screenplay);
    KeptAreDialogue(SplitLines(screenplay));
    JoinOfNonEmpty(" ", Kept(SplitLines(screenplay)));
    if dialogue == "" {
      return NoDialogue;
    }
    run := Spoken(dialogue, outputPath);
  }

  /** Joining non-empty pieces gives the empty string only when there are no pieces. */
  lemma JoinOfNonEmpty(sep: string, parts: seq<string>)
    requires forall k | 0 <= k < |parts| :: IsDialogue(parts[k])
    ensures Join(sep, parts) == "" <==> parts == []
  {
    if |parts| >= 2 {
      assert Join(sep, parts) == parts[0] + sep + Join(sep, parts[1..]);
      assert IsDialogue(parts[0]);
    } else if |parts| == 1 {
      assert IsDialogue(parts[0]);
    }
  }
}
