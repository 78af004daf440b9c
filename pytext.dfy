/** The parts of Python's `str` and `os.path` (POSIX) behaviour that the pipeline relies on,
    written out as functions on `string`. Only ASCII letters are cased (see README). */
module PyText {
  import opened Wrappers

  // ---------------------------------------------------------------------------
  // Character classes
  // ---------------------------------------------------------------------------

  /** The characters for which Python's `str.isspace()` is true; `strip()` and the `\s`
      class of `re` use the same set. */
  predicate IsSpace(c: char) {
    c == ' ' || ('\t' <= c <= '\r') || ('\U{001c}' <= c <= '\U{001f}') ||
    c == '\U{0085}' || c == '\U{00a0}' || c == '\U{1680}' ||
    ('\U{2000}' <= c <= '\U{200a}') || c == '\U{2028}' || c == '\U{2029}' ||
    c == '\U{202f}' || c == '\U{205f}' || c == '\U{3000}'
  }

  predicate IsDigit(c: char) { '0' <= c <= '9' }

  predicate IsLowerAscii(c: char) { 'a' <= c <= 'z' }

  predicate IsUpperAscii(c: char) { 'A' <= c <= 'Z' }

  /** The characters at which `str.splitlines()` ends a line. */
  predicate IsLineBreak(c: char) {
    c == '\n' || c == '\r' || c == '\U{000b}' || c == '\U{000c}' ||
    ('\U{001c}' <= c <= '\U{001e}') || c == '\U{0085}' || c == '\U{2028}' || c == '\U{2029}'
  }

  // ---------------------------------------------------------------------------
  // Prefixes, suffixes, substrings
  // ---------------------------------------------------------------------------

  predicate StartsWith(s: string, p: string) { |p| <= |s| && s[..|p|] == p }

  predicate EndsWith(s: string, p: string) { |p| <= |s| && s[|s| - |p|..] == p }

  /** `p` occurs in `s` starting at index `i`. */
  predicate OccursAt(s: string, p: string, i: int) {
    0 <= i <= |s| - |p| && s[i..i + |p|] == p
  }

  /** Python's `p in s` for two strings. */
  predicate Contains(s: string, p: string) {
    exists i | 0 <= i <= |s| - |p| :: OccursAt(s, p, i)
  }

  lemma OccursAtShift(s: string, p: string, j: int)
    requires |s| > 0 && 1 <= j
    ensures OccursAt(s, p, j) <==> OccursAt(s[1..], p, j - 1)
  {
    if 1 <= j <= |s| - |p| {
      assert s[j..j + |p|] == s[1..][j - 1..j - 1 + |p|];
    }
  }

  /** `s.find(p)`: the first index at which `p` occurs in `s`. */
  function Find(s: string, p: string): (r: Option<nat>)
    ensures r.Some? ==> OccursAt(s, p, r.value)
    ensures r.Some? ==> forall j :: 0 <= j < r.value ==> !OccursAt(s, p, j)
    ensures r.None? ==> forall j :: !OccursAt(s, p, j)
    decreases |s|
  {
    if |s| < |p| then None
    else if s[..|p|] == p then Some(0)
    else
      var rest := Find(s[1..], p);
      assert forall j :: 1 <= j ==> (OccursAt(s, p, j) <==> OccursAt(s[1..], p, j - 1)) by {
        forall j | 1 <= j ensures OccursAt(s, p, j) <==> OccursAt(s[1..], p, j - 1) {
          OccursAtShift(s, p, j);
        }
      }
      if rest.Some? then Some(rest.value + 1) else None
  }

  // ---------------------------------------------------------------------------
  // strip, lower, isupper
  // ---------------------------------------------------------------------------

  function LStrip(s: string): (r: string)
    ensures |r| <= |s| && r == s[|s| - |r|..]
    ensures r == [] || !IsSpace(r[0])
    ensures forall i :: 0 <= i < |s| - |r| ==> IsSpace(s[i])
    decreases |s|
  {
    if s != [] && IsSpace(s[0]) then LStrip(s[1..]) else s
  }

  function RStrip(s: string): (r: string)
    ensures |r| <= |s| && r == s[..|r|]
    ensures r == [] || !IsSpace(r[|r| - 1])
    ensures forall i :: |r| <= i < |s| ==> IsSpace(s[i])
    decreases |s|
  {
    if s != [] && IsSpace(s[|s| - 1]) then RStrip(s[..|s| - 1]) else s
  }

  /** `r` is `s[i..]` cut to `|r|` characters, and everything of `s` outside it is
      whitespace. */
  predicate IsStripOf(s: string, r: string, i: int) {
    0 <= i <= |s| - |r| && r == s[i..i + |r|] &&
    (forall j :: 0 <= j < i ==> IsSpace(s[j])) &&
    (forall j :: i + |r| <= j < |s| ==> IsSpace(s[j]))
  }

  /** `s.strip()`: `s` without its leading and trailing whitespace. */
  function Strip(s: string): (r: string)
    ensures IsStripOf(s, r, |s| - |LStrip(s)|)
    ensures r == [] || (!IsSpace(r[0]) && !IsSpace(r[|r| - 1]))
  {
    var l := LStrip(s);
    var r := RStrip(l);
    TrimmedSlice(s, l, r);
    r
  }

  /** A prefix `r` of a suffix `l` of `s`, where `r` and `l` are cut from `s` at
      whitespace only, is the slice of `s` that the two cuts leave. */
  lemma TrimmedSlice(s: string, l: string, r: string)
    requires |l| <= |s| && l == s[|s| - |l|..]
    requires |r| <= |l| && r == l[..|r|]
    requires forall j :: |r| <= j < |l| ==> IsSpace(l[j])
    requires r == [] || (l != [] && !IsSpace(l[0]) && !IsSpace(r[|r| - 1]))
    requires forall j :: 0 <= j < |s| - |l| ==> IsSpace(s[j])
    ensures IsStripOf(s, r, |s| - |l|)
    ensures r == [] || (!IsSpace(r[0]) && !IsSpace(r[|r| - 1]))
  {
    var i := |s| - |l|;
    assert r == s[i..i + |r|];
    forall j | i + |r| <= j < |s| ensures IsSpace(s[j]) {
      assert s[j] == l[j - i];
    }
    if r != [] {
      assert r[0] == l[0];
    }
  }

  /** Trimming leaves a string alone when neither end is whitespace. */
  lemma StripOfTrimmed(s: string)
    requires s == [] || (!IsSpace(s[0]) && !IsSpace(s[|s| - 1]))
    ensures Strip(s) == s
  {
    assert LStrip(s) == s;
    assert RStrip(s) == s;
  }

  /** Leading whitespace is exactly what `lstrip` removes. */
  lemma {:induction false} LStripOfSpacePrefix(ws: string, t: string)
    requires forall i :: 0 <= i < |ws| ==> IsSpace(ws[i])
    requires t == [] || !IsSpace(t[0])
    ensures LStrip(ws + t) == t
    decreases |ws|
  {
    if ws != [] {
      assert (ws + t)[0] == ws[0];
      assert (ws + t)[1..] == ws[1..] + t;
      LStripOfSpacePrefix(ws[1..], t);
    } else {
      assert ws + t == t;
    }
  }

  /** Trailing whitespace is exactly what `rstrip` removes. */
  lemma {:induction false} RStripOfSpaceSuffix(t: string, ws: string)
    requires forall i :: 0 <= i < |ws| ==> IsSpace(ws[i])
    requires t == [] || !IsSpace(t[|t| - 1])
    ensures RStrip(t + ws) == t
    decreases |ws|
  {
    if ws != [] {
      var w := t + ws;
      assert w[|w| - 1] == ws[|ws| - 1];
      assert w[..|w| - 1] == t + ws[..|ws| - 1];
      RStripOfSpaceSuffix(t, ws[..|ws| - 1]);
    } else {
      assert t + ws == t;
    }
  }

  function LowerChar(c: char): char {
    if IsUpperAscii(c) then (c as int + 32) as char else c
  }

  /** `s.lower()` (ASCII letters only). */
  function Lower(s: string): (r: string)
    ensures |r| == |s| && forall i :: 0 <= i < |s| ==> r[i] == LowerChar(s[i])
  {
    seq(|s|, i requires 0 <= i < |s| => LowerChar(s[i]))
  }

  /** `s.isupper()`: at least one cased character and no lower-case one. */
  predicate IsUpper(s: string) {
    (exists i :: 0 <= i < |s| && IsUpperAscii(s[i])) &&
    (forall i :: 0 <= i < |s| ==> !IsLowerAscii(s[i]))
  }

  // ---------------------------------------------------------------------------
  // replace, split, join, splitlines
  // ---------------------------------------------------------------------------

  /** `s.replace(a, b)` for single characters. */
  function ReplaceChar(s: string, a: char, b: char): (r: string)
    ensures |r| == |s| && forall i :: 0 <= i < |s| ==> r[i] == (if s[i] == a then b else s[i])
  {
    seq(|s|, i requires 0 <= i < |s| => if s[i] == a then b else s[i])
  }

  /** `s.replace(p, "")`: every non-overlapping occurrence of `p`, scanning left to right,
      removed. */
  function RemoveAll(s: string, p: string): (r: string)
    requires |p| > 0
    ensures |r| <= |s|
    decreases |s|
  {
    if |s| < |p| then s
    else if s[..|p|] == p then RemoveAll(s[|p|..], p)
    else [s[0]] + RemoveAll(s[1..], p)
  }

  /** Removing `p` from `u + p` gives `u` back when `p` first occurs at the seam. */
  lemma {:induction false} RemoveAllBeforeSuffix(u: string, p: string)
    requires |p| > 0
    requires forall i :: 0 <= i < |u| ==> !OccursAt(u + p, p, i)
    ensures RemoveAll(u + p, p) == u
    decreases |u|
  {
    var w := u + p;
    if u == [] {
      assert w == p && w[..|p|] == p && w[|p|..] == [];
    } else {
      assert !OccursAt(w, p, 0);
      assert w[1..] == u[1..] + p;
      forall i | 0 <= i < |u| - 1 ensures !OccursAt(u[1..] + p, p, i) {
        OccursAtShift(w, p, i + 1);
      }
      RemoveAllBeforeSuffix(u[1..], p);
      assert u == [u[0]] + u[1..];
    }
  }

  /** Concatenation regroups freely. */
  lemma SeqAssoc<T>(a: seq<T>, b: seq<T>, c: seq<T>)
    ensures a + b + c == a + (b + c)
  {
  }

  lemma SplitAt<T>(s: seq<T>, i: nat)
    requires i <= |s|
    ensures s[..i] + s[i..] == s
  {
  }

  /** Taking every element gives the whole sequence. */
  lemma TakeAll<T>(s: seq<T>)
    ensures s[..|s|] == s
  {
  }

  /** The prefix before the last element keeps the elements it holds. */
  lemma InitIndex<T>(s: seq<T>, k: nat)
    requires k < |s| - 1
    ensures s[..|s| - 1][k] == s[k]
  {
  }

  /** An element of a concatenation is an element of one of its parts. */
  lemma InConcat<T>(x: T, s: seq<T>, t: seq<T>)
    ensures x in s + t <==> x in s || x in t
  {
  }

  /** A non-empty sequence is its prefix before the last element, then that element. */
  lemma InitLast<T>(s: seq<T>)
    requires s != []
    ensures s == s[..|s| - 1] + [s[|s| - 1]]
  {
  }

  /** A sequence is its three pieces cut at `i` and `j`, put back together. */
  lemma Cut3<T>(s: seq<T>, i: nat, j: nat)
    requires i <= j <= |s|
    ensures s == s[..i] + s[i..j] + s[j..]
  {
  }

  /** A sequence built from its head and tail gives both back. */
  lemma HeadTail<T>(x: T, t: seq<T>)
    ensures ([x] + t)[0] == x && ([x] + t)[1..] == t && |[x] + t| == |t| + 1
  {
  }

  /** Taking one element more appends that element. */
  lemma TakeSnoc<T>(s: seq<T>, i: nat)
    requires i < |s|
    ensures s[..i + 1] == s[..i] + [s[i]]
  {
  }

  /** A concatenation starts with its first part and ends with its second. */
  lemma ConcatAffixes(a: string, b: string)
    ensures StartsWith(a + b, a) && EndsWith(a + b, b)
  {
    assert (a + b)[..|a|] == a;
    assert (a + b)[|a + b| - |b|..] == b;
  }

  /** `sep.join(parts)`. */
  function Join(sep: string, parts: seq<string>): string
    decreases |parts|
  {
    if parts == [] then ""
    else if |parts| == 1 then parts[0]
    else parts[0] + sep + Join(sep, parts[1..])
  }

  /** `s.split(sep)` for a non-empty separator. */
  function Split(s: string, sep: string): (r: seq<string>)
    requires |sep| > 0
    ensures |r| >= 1
    decreases |s|
  {
    match Find(s, sep)
    case None => [s]
    case Some(i) => [s[..i]] + Split(s[i + |sep|..], sep)
  }

  /** Splitting and re-joining with the same separator gives the string back, and no piece
      holds the separator. */
  lemma SplitJoin(s: string, sep: string)
    requires |sep| > 0
    ensures Join(sep, Split(s, sep)) == s
    ensures forall k :: 0 <= k < |Split(s, sep)| ==> !Contains(Split(s, sep)[k], sep)
  {
    SplitRejoin(s, sep);
    SplitPiecesFree(s, sep);
  }

  lemma {:induction false} SplitRejoin(s: string, sep: string)
    requires |sep| > 0
    ensures Join(sep, Split(s, sep)) == s
    decreases |s|
  {
    var f := Find(s, sep);
    if f.Some? {
      var i := f.value;
      var rest := s[i + |sep|..];
      var tail := Split(rest, sep);
      SplitRejoin(rest, sep);
      var r := Split(s, sep);
      assert r == [s[..i]] + tail;
      HeadTail(s[..i], tail);
      assert Join(sep, r) == s[..i] + sep + Join(sep, tail);
      Cut3(s, i, i + |sep|);
      assert s[i..i + |sep|] == sep;
    }
  }

  lemma {:induction false} SplitPiecesFree(s: string, sep: string)
    requires |sep| > 0
    ensures forall k :: 0 <= k < |Split(s, sep)| ==> !Contains(Split(s, sep)[k], sep)
    decreases |s|
  {
    var f := Find(s, sep);
    if f.None? {
      NotFoundNotContained(s, sep);
    } else {
      var i := f.value;
      var rest := s[i + |sep|..];
      var tail := Split(rest, sep);
      SplitPiecesFree(rest, sep);
      var r := Split(s, sep);
      assert r == [s[..i]] + tail;
      PrefixBeforeFindNotContained(s, sep, i);
      forall k | 0 <= k < |r| ensures !Contains(r[k], sep) {
        if k > 0 {
          assert r[k] == tail[k - 1];
        }
      }
    }
  }

  lemma NotFoundNotContained(s: string, p: string)
    requires Find(s, p).None?
    ensures !Contains(s, p)
  {
  }

  lemma PrefixBeforeFindNotContained(s: string, p: string, i: nat)
    requires |p| > 0 && Find(s, p) == Some(i)
    ensures !Contains(s[..i], p)
  {
    forall j | 0 <= j <= i - |p| ensures !OccursAt(s[..i], p, j) {
      OccursInPrefix(s, p, i, j);
    }
  }

  /** An occurrence inside a prefix is an occurrence in the whole string. */
  lemma OccursInPrefix(s: string, p: string, i: nat, j: int)
    requires i <= |s| && 0 <= j <= i - |p|
    ensures OccursAt(s[..i], p, j) <==> OccursAt(s, p, j)
  {
    assert s[..i][j..j + |p|] == s[j..j + |p|];
  }

  /** The index of the first line break in `s`, or `|s|`. */
  function FirstBreak(s: string): (i: nat)
    ensures i <= |s| && (i < |s| ==> IsLineBreak(s[i]))
    ensures forall j :: 0 <= j < i ==> !IsLineBreak(s[j])
  {
    if s == [] then 0
    else if IsLineBreak(s[0]) then 0
    else FirstBreak(s[1..]) + 1
  }

  /** `s.splitlines()`: lines end at any line-break character, `\r\n` counts as one break,
      and a final break does not start an empty last line. */
  function SplitLines(s: string): (r: seq<string>)
    ensures forall k, j :: 0 <= k < |r| && 0 <= j < |r[k]| ==> !IsLineBreak(r[k][j])
    decreases |s|
  {
    if s == [] then []
    else
      var i := FirstBreak(s);
      if i == |s| then [s]
      else
        var w := if s[i] == '\r' && i + 1 < |s| && s[i + 1] == '\n' then 2 else 1;
        [s[..i]] + SplitLines(s[i + w..])
  }

  // ---------------------------------------------------------------------------
  // os.path (POSIX)
  // ---------------------------------------------------------------------------

  /** `s.rfind(c)` for one character: the last index of `c`, or -1. */
  function RFind(s: string, c: char): (r: int)
    ensures -1 <= r < |s|
    ensures r >= 0 ==> s[r] == c
    ensures forall j :: r < j < |s| ==> s[j] != c
    decreases |s|
  {
    if s == [] then -1
    else if s[|s| - 1] == c then |s| - 1
    else RFind(s[..|s| - 1], c)
  }

  /** Appending characters other than `c` does not move the last `c`. */
  lemma {:induction false} RFindAppend(x: string, y: string, c: char)
    requires forall j :: 0 <= j < |y| ==> y[j] != c
    ensures RFind(x + y, c) == RFind(x, c)
    decreases |y|
  {
    if y != [] {
      var w := x + y;
      assert w[|w| - 1] == y[|y| - 1];
      assert w[..|w| - 1] == x + y[..|y| - 1];
      RFindAppend(x, y[..|y| - 1], c);
    } else {
      assert x + y == x;
    }
  }

  /** `os.path.basename(p)`: what follows the last `/`. */
  function Basename(p: string): (r: string)
    ensures EndsWith(p, r) && forall j :: 0 <= j < |r| ==> r[j] != '/'
  {
    var i := RFind(p, '/');
    var r := p[i + 1..];
    forall j | 0 <= j < |r| ensures r[j] != '/' {
      assert r[j] == p[i + 1 + j];
    }
    r
  }

  /** `os.path.splitext(p)[0]`: `p` without its extension. The extension starts at the last
      `.` after the last `/`, and only when some character other than `.` precedes that dot
      within the last component (so `.bashrc` has no extension). */
  function SplitextRoot(p: string): (r: string)
    ensures StartsWith(p, r)
  {
    var sep := RFind(p, '/');
    var dot := RFind(p, '.');
    if dot > sep && exists j :: sep + 1 <= j < dot && p[j] != '.' then p[..dot] else p
  }

  /** A slash-free name whose last dot is followed by `ext` splits at that dot, provided
      something other than a dot comes before it. */
  lemma SplitextRootOfExtension(base: string, ext: string, j: nat)
    requires forall i :: 0 <= i < |base| ==> base[i] != '/'
    requires forall i :: 0 <= i < |ext| ==> ext[i] != '/' && ext[i] != '.'
    requires j < |base| && base[j] != '.'
    ensures SplitextRoot(base + "." + ext) == base
  {
    var w := base + "." + ext;
    assert w == (base + ".") + ext;
    RFindAppend(base + ".", ext, '.');
    assert (base + ".")[|base|] == '.';
    assert RFind(w, '.') == |base|;
    forall i | 0 <= i < |w| ensures w[i] != '/' {
      if i < |base| { assert w[i] == base[i]; }
      else if i > |base| { assert w[i] == ext[i - |base| - 1]; }
    }
    RFindAppend([], w, '/');
    assert [] + w == w;
    assert w[j] == base[j];
    assert w[..|base|] == base;
  }

  /** `os.path.join(a, b)` for two components. */
  function PathJoin(a: string, b: string): string {
    if StartsWith(b, "/") then b
    else if a == "" || EndsWith(a, "/") then a + b
    else a + "/" + b
  }

  /** The base name of a file joined under a directory is the file name itself. */
  lemma BasenameOfJoin(dir: string, name: string)
    requires name != [] && forall j :: 0 <= j < |name| ==> name[j] != '/'
    ensures Basename(PathJoin(dir, name)) == name
  {
    assert name[..1][0] == name[0];
    assert !StartsWith(name, "/");
    if dir == "" || EndsWith(dir, "/") {
      RFindAppend(dir, name, '/');
      if dir != "" {
        assert RFind(dir, '/') == |dir| - 1;
      }
      assert (dir + name)[RFind(dir, '/') + 1..] == name;
    } else {
      RFindAppend(dir + "/", name, '/');
      assert (dir + "/")[|dir|] == '/';
      assert dir + "/" + name == (dir + "/") + name;
      assert (dir + "/" + name)[|dir| + 1..] == name;
    }
  }

  /** Two file names joined under the same directory give the same path only when they are
      the same name. */
  lemma PathJoinInjective(dir: string, a: string, b: string)
    requires a != [] && b != [] && a[0] != '/' && b[0] != '/'
    ensures PathJoin(dir, a) == PathJoin(dir, b) ==> a == b
  {
    assert a[..1][0] == a[0] && b[..1][0] == b[0];
    assert !StartsWith(a, "/") && !StartsWith(b, "/");
    var p := if dir == "" || EndsWith(dir, "/") then dir else dir + "/";
    assert PathJoin(dir, a) == p + a && PathJoin(dir, b) == p + b;
    if p + a == p + b {
      assert a == (p + a)[|p|..] && b == (p + b)[|p|..];
    }
  }

  /** A run of digits followed by a separator: two such strings whose separators differ are
      different strings. */
  lemma DigitsThenSeparator(d1: string, r1: string, d2: string, r2: string)
    requires AllDigits(d1) && AllDigits(d2)
    requires r1 != [] && r2 != [] && !IsDigit(r1[0]) && !IsDigit(r2[0]) && r1[0] != r2[0]
    ensures d1 + r1 != d2 + r2
  {
    if |d1| <= |d2| {
      assert (d1 + r1)[|d1|] == r1[0];
      if |d1| < |d2| {
        assert (d2 + r2)[|d1|] == d2[|d1|];
      } else {
        assert (d2 + r2)[|d1|] == r2[0];
      }
    } else {
      assert (d2 + r2)[|d2|] == r2[0];
      assert (d1 + r1)[|d2|] == d1[|d2|];
    }
  }

  // ---------------------------------------------------------------------------
  // Integers and their decimal forms
  // ---------------------------------------------------------------------------

  function DigitChar(d: nat): char
    requires d < 10
  {
    ('0' as int + d) as char
  }

  /** `str(n)` for a non-negative integer. */
  function NatToString(n: nat): (r: string)
    ensures |r| >= 1 && forall j :: 0 <= j < |r| ==> IsDigit(r[j])
    ensures n >= 10 ==> |r| >= 2
    ensures n >= 100 ==> |r| >= 3
    decreases n
  {
    if n < 10 then [DigitChar(n)] else NatToString(n / 10) + [DigitChar(n % 10)]
  }

  /** `f"{n:03d}"`: at least three digits, padded with zeros on the left. */
  function Pad3(n: nat): (r: string)
    ensures |r| >= 3 && forall j :: 0 <= j < |r| ==> IsDigit(r[j])
  {
    if n < 10 then "00" + NatToString(n)
    else if n < 100 then "0" + NatToString(n)
    else NatToString(n)
  }

  predicate AllDigits(s: string) { forall j :: 0 <= j < |s| ==> IsDigit(s[j]) }

  /** The value of a string of decimal digits. */
  function DigitsValue(s: string): nat
    requires AllDigits(s)
    decreases |s|
  {
    if s == [] then 0 else DigitsValue(s[..|s| - 1]) * 10 + (s[|s| - 1] as int - '0' as int)
  }

  lemma {:induction false} DigitsValueOfNatToString(n: nat)
    ensures DigitsValue(NatToString(n)) == n
    decreases n
  {
    var s := NatToString(n);
    if n >= 10 {
      DigitsValueOfNatToString(n / 10);
      assert s[..|s| - 1] == NatToString(n / 10);
    }
  }

  /** A leading zero does not change the value. */
  lemma {:induction false} LeadingZero(s: string)
    requires AllDigits(s)
    ensures AllDigits("0" + s) && DigitsValue("0" + s) == DigitsValue(s)
    decreases |s|
  {
    if s != [] {
      var init := s[..|s| - 1];
      LeadingZero(init);
      assert ("0" + s)[..|"0" + s| - 1] == "0" + init;
    }
  }

  /** `f"{n:03d}"` reads back as `n`, so different numbers are padded differently. */
  lemma Pad3Value(n: nat)
    ensures DigitsValue(Pad3(n)) == n
  {
    DigitsValueOfNatToString(n);
    if n < 100 {
      LeadingZero(NatToString(n));
      if n < 10 {
        LeadingZero("0" + NatToString(n));
        assert "00" + NatToString(n) == "0" + ("0" + NatToString(n));
      }
    }
  }

  lemma Pad3Injective(a: nat, b: nat)
    ensures Pad3(a) == Pad3(b) ==> a == b
  {
    Pad3Value(a);
    Pad3Value(b);
  }

  lemma NatToStringInjective(a: nat, b: nat)
    ensures NatToString(a) == NatToString(b) ==> a == b
  {
    DigitsValueOfNatToString(a);
    DigitsValueOfNatToString(b);
  }

  /** `int(s)` on a string: surrounding whitespace, an optional sign and at least one ASCII
      digit; anything else raises `ValueError`, modelled as `None`. */
  function ParseInt(s: string): (r: Option<int>)
  {
    var t := Strip(s);
    if t != [] && (t[0] == '+' || t[0] == '-') then
      var d := t[1..];
      if d != [] && AllDigits(d) then
        var v: int := DigitsValue(d);
        Some(if t[0] == '-' then -v else v)
      else None
    else if t != [] && AllDigits(t) then Some(DigitsValue(t))
    else None
  }

  lemma ParseIntOfNatToString(n: nat)
    ensures ParseInt(NatToString(n)) == Some(n)
  {
    var s := NatToString(n);
    assert IsDigit(s[0]) && IsDigit(s[|s| - 1]);
    StripOfTrimmed(s);
    DigitsValueOfNatToString(n);
  }
}
