/** The clean-up applied to generated JSON before it is parsed or saved: the text is trimmed,
    then a leading "```json" and a trailing "```" are cut off, each only when present. The
    same three statements appear in the narrative deconstructor and in both pipeline
    scripts, so they are modelled once here. */
module Fences {
  import opened PyText

  const OPEN_FENCE: string := "```json"
  const CLOSE_FENCE: string := "```"

  /** The text with the opening fence, if present after trimming, removed. */
  function DropOpen(s: string): (r: string)
    ensures StartsWith(s, OPEN_FENCE) ==> s == OPEN_FENCE + r
    ensures !StartsWith(s, OPEN_FENCE) ==> r == s
  {
    if StartsWith(s, OPEN_FENCE) then s[7..] else s
  }

  /** The text with the closing fence, if present, removed. */
  function DropClose(s: string): (r: string)
    ensures EndsWith(s, CLOSE_FENCE) ==> s == r + CLOSE_FENCE
    ensures !EndsWith(s, CLOSE_FENCE) ==> r == s
  {
    if EndsWith(s, CLOSE_FENCE) then s[..|s| - 3] else s
  }

  /** The fence stripping: trim, then drop the opening fence, then drop the closing one. */
  function StripFences(text: string): (r: string)
    ensures exists pre, post ::
      pre in {"", OPEN_FENCE} && post in {"", CLOSE_FENCE} && Strip(text) == pre + r + post
  {
    Unfence(Strip(text))
  }

  /** Dropping both fences from trimmed text `t` leaves what lay between them. */
  function Unfence(t: string): (r: string)
    ensures exists pre, post ::
      pre in {"", OPEN_FENCE} && post in {"", CLOSE_FENCE} && t == pre + r + post
  {
    var a := DropOpen(t);
    var r := DropClose(a);
    var pre := if StartsWith(t, OPEN_FENCE) then OPEN_FENCE else "";
    var post := if EndsWith(a, CLOSE_FENCE) then CLOSE_FENCE else "";
    Enclosed(t, pre, a, r, post);
    assert pre in {"", OPEN_FENCE} && post in {"", CLOSE_FENCE};
    r
  }

  lemma Enclosed(t: string, pre: string, a: string, r: string, post: string)
    requires t == pre + a && a == r + post
    ensures t == pre + r + post
  {
    SeqAssoc(pre, r, post);
  }

  /** A body wrapped in a ```json fence comes back exactly, whatever it holds. */
  lemma {:induction false} FencedRoundTrip(body: string)
    ensures StripFences(OPEN_FENCE + body + CLOSE_FENCE) == body
  {
    var w := OPEN_FENCE + body + CLOSE_FENCE;
    StripOfTrimmed(w);
    assert w[..7] == OPEN_FENCE;
    assert DropOpen(w) == body + CLOSE_FENCE by {
      assert w[7..] == body + CLOSE_FENCE;
    }
    var a := body + CLOSE_FENCE;
    assert a[|a| - 3..] == CLOSE_FENCE;
    assert a[..|a| - 3] == body;
  }

  /** Text that, after trimming, neither opens nor closes with a fence is only trimmed. */
  lemma UnfencedIsTrimmed(text: string)
    requires !StartsWith(Strip(text), OPEN_FENCE) && !EndsWith(Strip(text), CLOSE_FENCE)
    ensures StripFences(text) == Strip(text)
  {
  }

  /** Surrounding whitespace never reaches the result of fence stripping. */
  lemma SurroundingSpaceIgnored(text: string, ws1: string, ws2: string)
    requires forall i :: 0 <= i < |ws1| ==> IsSpace(ws1[i])
    requires forall i :: 0 <= i < |ws2| ==> IsSpace(ws2[i])
    requires text != [] && !IsSpace(text[0]) && !IsSpace(text[|text| - 1])
    ensures StripFences(ws1 + text + ws2) == StripFences(text)
  {
    StripOfTrimmed(text);
    assert ws1 + text + ws2 == ws1 + (text + ws2);
    LStripOfSpacePrefix(ws1, text + ws2);
    RStripOfSpaceSuffix(text, ws2);
  }
}
