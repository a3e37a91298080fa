/**
 * The clean-up applied to every LLM answer in PublicOpinionDataResolver: an absent answer
 * becomes empty text, and a Markdown fence around an HTML answer is removed — the opening
 * `^\s*```html\s*\n?` and the closing `\n?\s*```\s*$`.
 */
module OpinionText {
  import opened Wrappers
  import opened JsText

  const OpenFence: string := "```html"
  const CloseFence: string := "```"

  predicate StartsWith(s: string, p: string) {
    |p| <= |s| && s[..|p|] == p
  }

  predicate EndsWith(s: string, p: string) {
    |p| <= |s| && s[|s| - |p|..] == p
  }

  /** The first replace. The pattern is anchored at the start; its greedy `\s*` after the fence
      takes every following white-space character, newlines included, so `\n?` matches nothing. */
  function StripOpening(s: string): (r: string)
    ensures StartsWith(TrimStart(s), OpenFence) ==> r == TrimStart(TrimStart(s)[|OpenFence|..])
    ensures !StartsWith(TrimStart(s), OpenFence) ==> r == s
  {
    var t := TrimStart(s);
    if StartsWith(t, OpenFence) then TrimStart(t[|OpenFence|..]) else s
  }

  /** The second replace. `$` is the end of the text, so the match is the last three non-space
      characters when they are a fence, together with the white space on both sides of it. */
  function StripClosing(s: string): (r: string)
    ensures EndsWith(TrimEnd(s), CloseFence) ==> r == TrimEnd(TrimEnd(s)[..|TrimEnd(s)| - |CloseFence|])
    ensures !EndsWith(TrimEnd(s), CloseFence) ==> r == s
  {
    var t := TrimEnd(s);
    if EndsWith(t, CloseFence) then TrimEnd(t[..|t| - |CloseFence|]) else s
  }

  /** trim: `""` for an absent answer, otherwise both fences removed. */
  function StripFences(answer: Option<string>): (r: string)
    ensures answer.None? ==> r == ""
    ensures answer.Some? ==> |r| <= |answer.value|
  {
    match answer
    case None => ""
    case Some(s) => StripClosing(StripOpening(s))
  }

  /** Text with neither fence comes back unchanged. */
  lemma NoFenceUnchanged(s: string)
    requires !StartsWith(TrimStart(s), OpenFence)
    requires !EndsWith(TrimEnd(s), CloseFence)
    ensures StripFences(Some(s)) == s
  {
  }

  /** Fencing a body that neither starts nor ends with white space, and stripping the fences,
      gives the body back. */
  lemma FenceRoundTrip(body: string)
    requires body != [] && !IsSpace(body[0]) && !IsSpace(body[|body| - 1])
    ensures StripFences(Some(OpenFence + "\n" + body + "\n" + CloseFence)) == body
  {
    var s := OpenFence + "\n" + body + "\n" + CloseFence;
    assert TrimStart(s) == s;
    assert StartsWith(s, OpenFence) by { assert s[..|OpenFence|] == OpenFence; }
    var afterOpen := s[|OpenFence|..];
    assert afterOpen == "\n" + (body + "\n" + CloseFence);
    assert TrimStart(afterOpen) == TrimStart(body + "\n" + CloseFence) by {
      assert afterOpen[1..] == body + "\n" + CloseFence;
    }
    var m := body + "\n" + CloseFence;
    assert TrimStart(m) == m;
    assert StripOpening(s) == m;
    assert TrimEnd(m) == m;
    assert EndsWith(m, CloseFence) by { assert m[|m| - 3..] == CloseFence; }
    var cut := m[..|m| - |CloseFence|];
    assert cut == body + "\n";
    assert TrimEnd(cut) == TrimEnd(body) by { assert cut[..|cut| - 1] == body; }
    assert TrimEnd(body) == body;
  }
}
