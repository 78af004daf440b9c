/** How the stages name the files they hand to each other: the narrative schema is named after
    the story file, and the project name and the screenplay and storyboard files are named
    after the schema file. The same expressions appear in the stage scripts and in both
    pipeline scripts. */
module Naming {
  import opened PyText

  const SCHEMA_SUFFIX: string := "_schema"
  const NARRATIVE_SCHEMA_DIR: string := "output/narrative_schema"

  /** `os.path.splitext(os.path.basename(path))[0]`. */
  function Stem(path: string): (r: string)
    ensures forall j :: 0 <= j < |r| ==> r[j] != '/'
  {
    var b := Basename(path);
    var r := SplitextRoot(b);
    assert forall j :: 0 <= j < |r| ==> r[j] == b[j];
    r
  }

  /** The narrative schema file name for a story file: its stem plus "_schema.json". */
  function SchemaFileName(storyPath: string): (r: string)
    ensures r == Stem(storyPath) + SCHEMA_SUFFIX + ".json"
  {
    Stem(storyPath) + "_schema.json"
  }

  /** The project name a schema file stands for: its stem with every "_schema" removed. */
  function ProjectNameFromSchema(schemaPath: string): (r: string)
    ensures |r| <= |Stem(schemaPath)|
    ensures !Contains(Stem(schemaPath), SCHEMA_SUFFIX) ==> r == Stem(schemaPath)
  {
    var s := Stem(schemaPath);
    if Contains(s, SCHEMA_SUFFIX) then RemoveAll(s, SCHEMA_SUFFIX)
    else RemoveAllAbsent(s, SCHEMA_SUFFIX); RemoveAll(s, SCHEMA_SUFFIX)
  }

  function ScreenplayFileName(projectName: string): string { projectName + "_screenplay.txt" }

  function StoryboardFileName(projectName: string): string { projectName + "_storyboard.txt" }

  /** Removing a string that does not occur changes nothing. */
  lemma {:induction false} RemoveAllAbsent(s: string, p: string)
    requires |p| > 0 && !Contains(s, p)
    ensures RemoveAll(s, p) == s
    decreases |s|
  {
    if |s| >= |p| {
      assert !OccursAt(s, p, 0);
      assert !Contains(s[1..], p) by {
        forall i | 0 <= i <= |s| - 1 - |p| ensures !OccursAt(s[1..], p, i) {
          OccursAtShift(s, p, i + 1);
        }
      }
      RemoveAllAbsent(s[1..], p);
      assert s == [s[0]] + s[1..];
    }
  }

  /** "_schema" cannot overlap itself, so in `u + "_schema"` it occurs before the seam only
      when it occurs in `u`. */
  lemma NoOccurrenceBeforeSeam(u: string)
    requires !Contains(u, SCHEMA_SUFFIX)
    ensures forall i :: 0 <= i < |u| ==> !OccursAt(u + SCHEMA_SUFFIX, SCHEMA_SUFFIX, i)
  {
    var w := u + SCHEMA_SUFFIX;
    forall i | 0 <= i < |u| ensures !OccursAt(w, SCHEMA_SUFFIX, i) {
      if i + 7 <= |u| {
        assert u[i..i + 7] == w[i..i + 7];
        assert !OccursAt(u, SCHEMA_SUFFIX, i);
      } else {
        var k := |u| - i;
        assert 1 <= k < 7 && SCHEMA_SUFFIX[k] != '_';
        assert w[|u|] == '_';
        assert w[i..i + 7][k] == w[|u|];
      }
    }
  }

  /** The stem of a schema file name is the story's stem plus "_schema". */
  lemma StemOfSchemaFileName(storyPath: string)
    ensures SplitextRoot(SchemaFileName(storyPath)) == Stem(storyPath) + SCHEMA_SUFFIX
  {
    var stem := Stem(storyPath);
    var base := stem + SCHEMA_SUFFIX;
    forall i | 0 <= i < |base| ensures base[i] != '/' {
      if i < |stem| { assert base[i] == stem[i]; }
    }
    assert base[|stem|] == '_';
    SplitextRootOfExtension(base, "json", |stem|);
    assert SchemaFileName(storyPath) == base + "." + "json";
  }

  /** The project name derived from a story's schema file, wherever the schema is stored, is
      the story's stem, unless the stem itself contains "_schema". */
  lemma SchemaNameRoundTrip(dir: string, storyPath: string)
    requires !Contains(Stem(storyPath), SCHEMA_SUFFIX)
    ensures ProjectNameFromSchema(PathJoin(dir, SchemaFileName(storyPath))) == Stem(storyPath)
  {
    var stem := Stem(storyPath);
    var w := SchemaFileName(storyPath);
    forall j | 0 <= j < |w| ensures w[j] != '/' {
      if j < |stem| { assert w[j] == stem[j]; }
    }
    BasenameOfJoin(dir, w);
    StemOfSchemaFileName(storyPath);
    NoOccurrenceBeforeSeam(stem);
    RemoveAllBeforeSuffix(stem, SCHEMA_SUFFIX);
  }
}
