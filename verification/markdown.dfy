/**
  Fenced code blocks and first-level headings, as the repository's Markdown
  scanners track them line by line. A trimmed line that starts with three
  backticks or three tildes is a fence line: it opens a fence when none is
  open and closes the open fence only when it uses the same character.
  The scanners trim every line before looking at it, so the definitions
  below take the trimmed lines (`TrimAll`).
*/
module Markdown {
  import opened Wrappers
  import opened Text

  const BACKTICK_FENCE := "```"
  const TILDE_FENCE := "~~~"
  const H1_PREFIX := "# "

  /** A trimmed line that opens or closes a fence. */
  predicate IsFence(t: string) {
    StartsWith(t, BACKTICK_FENCE) || StartsWith(t, TILDE_FENCE)
  }

  /** The fence left open after the trimmed line `t`, given the one open before it. */
  function FenceAfter(open: Option<char>, t: string): Option<char> {
    if !IsFence(t) then open
    else if open.None? then Some(t[0])
    else if t[0] == open.value then None
    else open
  }

  /** The fence open just before trimmed line `k`. */
  function FenceBefore(ts: seq<string>, k: nat): Option<char>
    requires k <= |ts|
  {
    if k == 0 then None else FenceAfter(FenceBefore(ts, k - 1), ts[k - 1])
  }

  /** An open fence is a backtick fence or a tilde fence. */
  lemma {:induction false} FenceKinds(ts: seq<string>, k: nat)
    requires k <= |ts|
    ensures FenceBefore(ts, k) == None || FenceBefore(ts, k) == Some('`') || FenceBefore(ts, k) == Some('~')
  {
    if k > 0 {
      FenceKinds(ts, k - 1);
      var t := ts[k - 1];
      if IsFence(t) {
        assert t[0] == t[..3][0];
      }
    }
  }

  /** A fence closes only on a fence line of its own character; any other line leaves it open. */
  lemma {:induction false} FenceClosesOnlyOnSameChar(ts: seq<string>, k: nat)
    requires k < |ts| && FenceBefore(ts, k).Some?
    ensures FenceBefore(ts, k + 1).None? <==> IsFence(ts[k]) && ts[k][0] == FenceBefore(ts, k).value
    ensures FenceBefore(ts, k + 1).Some? ==> FenceBefore(ts, k + 1) == FenceBefore(ts, k)
  {
  }

  /** Trimmed line `k` is a first-level heading outside any fence. */
  predicate H1At(ts: seq<string>, k: nat)
    requires k < |ts|
  {
    FenceBefore(ts, k).None? && !IsFence(ts[k]) && StartsWith(ts[k], H1_PREFIX)
  }

  /** The index of the first heading at or after `from`, or `|ts|` (see `FirstH1IndexStops`). */
  function FirstH1Index(ts: seq<string>, from: nat): (k: nat)
    requires from <= |ts|
    ensures from <= k <= |ts|
    ensures k < |ts| ==> H1At(ts, k)
    decreases |ts| - from
  {
    if from == |ts| || H1At(ts, from) then from else FirstH1Index(ts, from + 1)
  }

  /** `FirstH1Index` passes no heading. */
  lemma {:induction false} FirstH1IndexStops(ts: seq<string>, from: nat, k: nat)
    requires from <= k < |ts| && H1At(ts, k)
    ensures FirstH1Index(ts, from) <= k
    decreases k - from
  {
    if from < k && !H1At(ts, from) {
      FirstH1IndexStops(ts, from + 1, k);
    }
  }

  /** The text of a trimmed heading line: the prefix taken off and the rest trimmed. */
  function HeadingText(t: string): string
    requires StartsWith(t, H1_PREFIX)
  {
    Trim(t[|H1_PREFIX|..])
  }

  /** The text of the first heading outside fences, if any. */
  function FirstH1(ls: seq<string>): Option<string> {
    var ts := TrimAll(ls);
    var k := FirstH1Index(ts, 0);
    if k == |ts| then None else Some(HeadingText(ts[k]))
  }

  /**
    `FirstH1` finds a heading exactly when one exists outside the fences, and
    it is the text of the earliest one.
  */
  lemma {:induction false} FirstH1Found(ls: seq<string>)
    ensures FirstH1(ls).None? ==> forall k :: 0 <= k < |ls| ==> !H1At(TrimAll(ls), k)
    ensures (forall k :: 0 <= k < |ls| ==> !H1At(TrimAll(ls), k)) ==> FirstH1(ls).None?
    ensures FirstH1(ls).Some? ==>
              exists k :: 0 <= k < |ls| && H1At(TrimAll(ls), k) && FirstH1(ls).value == HeadingText(TrimAll(ls)[k])
                          && forall j :: 0 <= j < k ==> !H1At(TrimAll(ls), j)
  {
    var ts := TrimAll(ls);
    var k := FirstH1Index(ts, 0);
    NoH1Before(ts, k);
    if k < |ls| {
      assert FirstH1(ls) == Some(HeadingText(ts[k]));
      assert H1At(ts, k);
    }
  }

  /** No heading comes before the one `FirstH1Index` finds. */
  lemma {:induction false} NoH1Before(ts: seq<string>, k: nat)
    requires k == FirstH1Index(ts, 0)
    ensures forall j :: 0 <= j < k ==> !H1At(ts, j)
  {
    forall j | 0 <= j < k ensures !H1At(ts, j) {
      if H1At(ts, j) {
        FirstH1IndexStops(ts, 0, j);
      }
    }
  }

  /** A heading inside a fence, even one never closed, is never the result. */
  lemma {:induction false} FencedHeadingIgnored(ts: seq<string>, k: nat)
    requires k < |ts| && FenceBefore(ts, k).Some?
    ensures !H1At(ts, k)
    ensures FirstH1Index(ts, 0) != k
  {
  }

  /** The scanning loop that both heading extractors run: returns the first heading's text, if any. */
  method ScanH1(ls: seq<string>) returns (r: Option<string>)
    ensures r == FirstH1(ls)
  {
    ghost var ts := TrimAll(ls);
    var fence: Option<char> := None;
    var k := 0;
    while k < |ls|
      invariant k <= |ls|
      invariant fence == FenceBefore(ts, k)
      invariant FirstH1Index(ts, 0) >= k
    {
      var t := Trim(ls[k]);
      TrimAllAt(ls, k);
      if StartsWith(t, BACKTICK_FENCE) || StartsWith(t, TILDE_FENCE) {
        var ch := t[0];
        if fence.Some? {
          if ch == fence.value {
            fence := None;
          }
        } else {
          fence := Some(ch);
        }
        k := k + 1;
        continue;
      }
      if fence.Some? {
        k := k + 1;
        continue;
      }
      var rest := StripPrefix(t, H1_PREFIX);
      if rest.Some? {
        FirstH1IndexStops(ts, 0, k);
        return Some(Trim(rest.value));
      }
      k := k + 1;
    }
    return None;
  }
}
