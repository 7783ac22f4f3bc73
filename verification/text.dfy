/**
  String primitives shared by the text scanners: whitespace trimming, prefix and
  suffix tests, substring search, line splitting and joining. They follow the
  Rust `str` methods of the same names (`trim`, `starts_with`, `find`, `rfind`,
  `lines`, ...). Python's `str.strip` and `str.splitlines`, which the
  pre-commit script uses, differ from them: `strip` also removes `\x1c`-`\x1f`,
  and `splitlines` also breaks at `\r`, `\v`, `\f`, `\x1c`-`\x1e`, `\x85`,
  `\u2028` and `\u2029`.
*/
module Text {
  import opened Wrappers

  /** `char::is_whitespace`: the Unicode White_Space property. */
  predicate IsSpace(c: char) {
    ('\U{0009}' <= c <= '\U{000D}') || c == ' ' || c == '\U{0085}' || c == '\U{00A0}'
    || c == '\U{1680}' || ('\U{2000}' <= c <= '\U{200A}') || c == '\U{2028}' || c == '\U{2029}'
    || c == '\U{202F}' || c == '\U{205F}' || c == '\U{3000}'
  }

  predicate IsAsciiDigit(c: char) { '0' <= c <= '9' }

  predicate AllSpace(s: string) {
    forall i :: 0 <= i < |s| ==> IsSpace(s[i])
  }

  /** Number of leading whitespace characters. */
  function LeadingSpace(s: string): (n: nat)
    ensures n <= |s|
  {
    if s == [] || !IsSpace(s[0]) then 0 else 1 + LeadingSpace(s[1..])
  }

  /** Number of trailing whitespace characters. */
  function TrailingSpace(s: string): (n: nat)
    ensures n <= |s|
  {
    if s == [] || !IsSpace(s[|s| - 1]) then 0 else 1 + TrailingSpace(s[..|s| - 1])
  }

  lemma {:induction false} LeadingSpaceIsSpace(s: string)
    ensures AllSpace(s[..LeadingSpace(s)])
    ensures LeadingSpace(s) < |s| ==> !IsSpace(s[LeadingSpace(s)])
  {
    if s != [] && IsSpace(s[0]) {
      LeadingSpaceIsSpace(s[1..]);
      assert s[..LeadingSpace(s)] == [s[0]] + s[1..][..LeadingSpace(s[1..])];
    }
  }

  lemma {:induction false} TrailingSpaceIsSpace(s: string)
    ensures AllSpace(s[|s| - TrailingSpace(s)..])
    ensures TrailingSpace(s) < |s| ==> !IsSpace(s[|s| - TrailingSpace(s) - 1])
  {
    if s != [] && IsSpace(s[|s| - 1]) {
      var t := s[..|s| - 1];
      TrailingSpaceIsSpace(t);
      assert s[|s| - TrailingSpace(s)..] == t[|t| - TrailingSpace(t)..] + [s[|s| - 1]];
    }
  }

  /** `str::trim_start`. */
  function TrimStart(s: string): (r: string)
    ensures |r| <= |s|
  {
    s[LeadingSpace(s)..]
  }

  /** `str::trim_end`. */
  function TrimEnd(s: string): (r: string)
    ensures |r| <= |s|
  {
    s[..|s| - TrailingSpace(s)]
  }

  /** `str::trim` (Python's `str.strip()`). */
  function Trim(s: string): (r: string)
    ensures |r| <= |s|
  {
    TrimEnd(TrimStart(s))
  }

  /** The leading run covers the whole text exactly when the text is all whitespace. */
  lemma {:induction false} LeadingSpaceAll(s: string)
    ensures LeadingSpace(s) == |s| <==> AllSpace(s)
  {
    if s != [] {
      LeadingSpaceAll(s[1..]);
      assert forall i :: 0 < i < |s| ==> s[i] == s[1..][i - 1];
    }
  }

  /** The trailing run covers the whole text exactly when the text is all whitespace. */
  lemma {:induction false} TrailingSpaceAll(s: string)
    ensures TrailingSpace(s) == |s| <==> AllSpace(s)
  {
    if s != [] {
      TrailingSpaceAll(s[..|s| - 1]);
      assert forall i :: 0 <= i < |s| - 1 ==> s[i] == s[..|s| - 1][i];
    }
  }

  /** Nothing is left to trim at the front of a text trimmed at the front. */
  lemma {:induction false} TrimStartHasNoLeadingSpace(s: string)
    ensures LeadingSpace(TrimStart(s)) == 0
  {
    LeadingSpaceIsSpace(s);
    var t := TrimStart(s);
    if t != [] {
      assert t[0] == s[LeadingSpace(s)];
    }
  }

  /** What trimming leaves is the middle slice of the text that starts after its leading whitespace. */
  lemma {:induction false} TrimSlice(s: string)
    ensures LeadingSpace(s) + |Trim(s)| <= |s| && Trim(s) == s[LeadingSpace(s)..LeadingSpace(s) + |Trim(s)|]
  {
  }

  /** What trimming leaves has no whitespace at either end. */
  lemma {:induction false} TrimEnds(s: string)
    ensures Trim(s) != [] ==> !IsSpace(Trim(s)[0]) && !IsSpace(Trim(s)[|Trim(s)| - 1])
  {
    var t := TrimStart(s);
    LeadingSpaceIsSpace(s);
    TrailingSpaceIsSpace(t);
    var r := Trim(s);
    if r != [] {
      assert r[0] == t[0];
    }
  }

  /** Trimming leaves nothing exactly when the text is all whitespace. */
  lemma {:induction false} TrimEmpty(s: string)
    ensures Trim(s) == [] <==> AllSpace(s)
  {
    var t := TrimStart(s);
    LeadingSpaceIsSpace(s);
    TrailingSpaceAll(t);
    TrimStartHasNoLeadingSpace(s);
    LeadingSpaceAll(t);
    LeadingSpaceAll(s);
  }

  /** What trimming leaves: a middle slice of the text, without whitespace at either end, empty exactly when the text is all whitespace. */
  lemma {:induction false} TrimBounds(s: string)
    ensures LeadingSpace(s) + |Trim(s)| <= |s| && Trim(s) == s[LeadingSpace(s)..LeadingSpace(s) + |Trim(s)|]
    ensures Trim(s) != [] ==> !IsSpace(Trim(s)[0]) && !IsSpace(Trim(s)[|Trim(s)| - 1])
    ensures Trim(s) == [] <==> AllSpace(s)
  {
    TrimSlice(s);
    TrimEnds(s);
    TrimEmpty(s);
  }

  /** A text without whitespace at either end is its own trim. */
  lemma {:induction false} TrimmedAlready(s: string)
    requires s != [] && !IsSpace(s[0]) && !IsSpace(s[|s| - 1])
    ensures Trim(s) == s
  {
    assert LeadingSpace(s) == 0;
    assert TrimStart(s) == s;
    assert TrailingSpace(s) == 0;
  }

  /** A text that starts with a non-space character keeps that character at the front when trimmed. */
  lemma {:induction false} TrimKeepsFirst(s: string)
    requires s != [] && !IsSpace(s[0])
    ensures Trim(s) != [] && Trim(s)[0] == s[0]
  {
    TrailingSpaceIsSpace(s);
  }

  /** Trimming twice trims nothing more. */
  lemma {:induction false} TrimIdempotent(s: string)
    ensures Trim(Trim(s)) == Trim(s)
  {
    TrimBounds(s);
    var r := Trim(s);
    if r != [] {
      TrailingSpaceIsSpace(r);
      assert TrailingSpace(r) == 0;
    }
  }

  predicate StartsWith(s: string, prefix: string) {
    |prefix| <= |s| && s[..|prefix|] == prefix
  }

  predicate EndsWith(s: string, suffix: string) {
    |suffix| <= |s| && s[|s| - |suffix|..] == suffix
  }

  /** `str::strip_prefix`. */
  function StripPrefix(s: string, prefix: string): (r: Option<string>)
    ensures r.Some? <==> StartsWith(s, prefix)
    ensures r.Some? ==> s == prefix + r.value
  {
    if StartsWith(s, prefix) then
      assert s == prefix + s[|prefix|..];
      Some(s[|prefix|..])
    else None
  }

  predicate OccursAt(s: string, pat: string, i: nat) {
    i + |pat| <= |s| && s[i..i + |pat|] == pat
  }

  /** `str::find`: the first index at which `pat` occurs (`FindIsFirst`). */
  function Find(s: string, pat: string): (r: Option<nat>)
    ensures r.Some? ==> OccursAt(s, pat, r.value)
    decreases |s|
  {
    if |pat| > |s| then None
    else if s[..|pat|] == pat then Some(0)
    else
      match Find(s[1..], pat)
      case None => None
      case Some(k) =>
        assert s[k + 1..k + 1 + |pat|] == s[1..][k..k + |pat|];
        Some(k + 1)
  }

  lemma {:induction false} FindIsFirst(s: string, pat: string)
    ensures Find(s, pat).Some? ==> forall j :: 0 <= j < Find(s, pat).value ==> !OccursAt(s, pat, j)
    ensures Find(s, pat).None? ==> forall j :: 0 <= j ==> !OccursAt(s, pat, j)
    decreases |s|
  {
    if |pat| <= |s| && s[..|pat|] != pat {
      FindIsFirst(s[1..], pat);
      forall j | 1 <= j && OccursAt(s, pat, j) ensures OccursAt(s[1..], pat, j - 1) {
        assert s[j..j + |pat|] == s[1..][j - 1..j - 1 + |pat|];
      }
    }
  }

  /** `str::rfind`: the last index at which `pat` occurs (`RFindIsLast`). */
  function RFind(s: string, pat: string): (r: Option<nat>)
    ensures r.Some? ==> OccursAt(s, pat, r.value)
    decreases |s|
  {
    if |pat| > |s| then None
    else if s[|s| - |pat|..] == pat then Some(|s| - |pat|)
    else
      match RFind(s[..|s| - 1], pat)
      case None => None
      case Some(k) =>
        assert s[k..k + |pat|] == s[..|s| - 1][k..k + |pat|];
        Some(k)
  }

  lemma {:induction false} RFindIsLast(s: string, pat: string)
    ensures RFind(s, pat).Some? ==> forall j :: RFind(s, pat).value < j ==> !OccursAt(s, pat, j)
    ensures RFind(s, pat).None? ==> forall j :: 0 <= j ==> !OccursAt(s, pat, j)
    decreases |s|
  {
    if |pat| <= |s| && s[|s| - |pat|..] != pat {
      RFindIsLast(s[..|s| - 1], pat);
      forall j: nat | OccursAt(s, pat, j) ensures OccursAt(s[..|s| - 1], pat, j) {
        assert j + |pat| != |s|;
        assert s[j..j + |pat|] == s[..|s| - 1][j..j + |pat|];
      }
    }
  }

  /** `str::contains`. */
  predicate Contains(s: string, pat: string) {
    Find(s, pat).Some?
  }

  lemma {:induction false} ContainsAt(s: string, pat: string, i: nat)
    requires OccursAt(s, pat, i)
    ensures Contains(s, pat)
  {
    FindIsFirst(s, pat);
  }

  /** Nothing before the first occurrence of a non-empty pattern contains it. */
  lemma {:induction false} NothingBeforeFind(s: string, pat: string, p: nat)
    requires |pat| > 0 && Find(s, pat) == Some(p)
    ensures !Contains(s[..p], pat)
  {
    var q := Find(s[..p], pat);
    assert q.Some? ==> s[..p][q.value..q.value + |pat|] == s[q.value..q.value + |pat|];
    assert q.Some? ==> OccursAt(s, pat, q.value) && q.value < p;
    FindIsFirst(s, pat);
  }

  /** The occurrence after which no other follows is the one `RFind` reports. */
  lemma {:induction false} RFindAt(s: string, pat: string, i: nat)
    requires OccursAt(s, pat, i) && forall j :: i < j ==> !OccursAt(s, pat, j)
    ensures RFind(s, pat) == Some(i)
  {
    RFindIsLast(s, pat);
  }

  lemma {:induction false} StartsWithAppend(p: string, s: string, x: string)
    requires StartsWith(s, x)
    ensures StartsWith(p + s, p + x)
  {
    assert (p + s)[..|p + x|] == p + s[..|x|];
  }

  /** An occurrence inside the second part of a concatenation is an occurrence in that part. */
  lemma {:induction false} OccursInSecond(a: string, b: string, pat: string, j: nat)
    requires |a| <= j && OccursAt(a + b, pat, j)
    ensures OccursAt(b, pat, j - |a|)
  {
    assert (a + b)[j..j + |pat|] == b[j - |a|..j - |a| + |pat|];
  }

  /** Index of the first `c` in `s`, or `|s|` when there is none. */
  function IndexOf(s: string, c: char): (i: nat)
    ensures i <= |s|
    ensures i < |s| ==> s[i] == c
    ensures forall j :: 0 <= j < i ==> s[j] != c
  {
    if s == [] then 0
    else if s[0] == c then 0
    else 1 + IndexOf(s[1..], c)
  }

  predicate NoNewline(s: string) {
    forall i :: 0 <= i < |s| ==> s[i] != '\n'
  }

  /** Drops one trailing carriage return. */
  function StripCr(s: string): (r: string)
    ensures r == s || (s == r + ['\r'])
  {
    if s != [] && s[|s| - 1] == '\r' then s[..|s| - 1] else s
  }

  /**
    `str::lines`: splits at `\n`, removes the `\r` of a `\r\n` terminator and
    yields no empty line after a final terminator.
  */
  function Lines(s: string): (ls: seq<string>)
    ensures forall k :: 0 <= k < |ls| ==> NoNewline(ls[k])
    ensures s == [] <==> ls == []
    decreases |s|
  {
    if s == [] then []
    else
      var i := IndexOf(s, '\n');
      if i == |s| then [s]
      else [StripCr(s[..i])] + Lines(s[i + 1..])
  }

  /** `[..].join(sep)` (Rust `slice::join`, Python `str.join`). */
  function Join(parts: seq<string>, sep: string): (r: string)
    ensures |parts| == 1 ==> r == parts[0]
    decreases |parts|
  {
    if parts == [] then []
    else if |parts| == 1 then parts[0]
    else parts[0] + sep + Join(parts[1..], sep)
  }

  /** Every line trimmed, in order. */
  function TrimAll(ls: seq<string>): (ts: seq<string>)
    ensures |ts| == |ls|
  {
    if ls == [] then [] else TrimAll(ls[..|ls| - 1]) + [Trim(ls[|ls| - 1])]
  }

  /** Line `i` of `TrimAll(ls)` is line `i` of `ls` trimmed. */
  lemma {:induction false} TrimAllAt(ls: seq<string>, i: nat)
    requires i < |ls|
    ensures TrimAll(ls)[i] == Trim(ls[i])
  {
    if i < |ls| - 1 {
      TrimAllAt(ls[..|ls| - 1], i);
    }
  }

  /** `str::trim_matches(c)` for a single character. */
  function TrimMatches(s: string, c: char): (r: string)
    ensures |r| <= |s|
    ensures r != [] ==> r[0] != c && r[|r| - 1] != c
    decreases |s|
  {
    if s == [] then s
    else if s[0] == c then TrimMatches(s[1..], c)
    else if s[|s| - 1] == c then TrimMatches(s[..|s| - 1], c)
    else s
  }

  /** `split_whitespace().next().unwrap_or("")`: the first whitespace-free word. */
  function FirstWord(s: string): (w: string)
    ensures forall i :: 0 <= i < |w| ==> !IsSpace(w[i])
  {
    var t := TrimStart(s);
    t[..WordLength(t)]
  }

  function WordLength(s: string): (n: nat)
    ensures n <= |s|
    ensures forall i :: 0 <= i < n ==> !IsSpace(s[i])
    ensures n < |s| ==> IsSpace(s[n])
  {
    if s == [] || IsSpace(s[0]) then 0 else 1 + WordLength(s[1..])
  }
}
