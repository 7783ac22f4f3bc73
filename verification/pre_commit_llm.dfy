/**
  The skill-index generator of the repository's pre-commit hook: the title
  and the first paragraph of a skill guide, the truncation of its
  description, and the index page built from them.
*/
module PreCommitLlm {
  import opened Wrappers
  import opened Text
  import opened Markdown

  // ── Titles ─────────────────────────────────────────────────────────

  const UNTITLED := "(Untitled)"

  /** The title of a guide: its first heading outside fences, or the placeholder. */
  function Title(text: string): string {
    var h := FirstH1(Lines(text));
    if h.Some? then h.value else UNTITLED
  }

  /**
    The title is the placeholder when no heading outside fences exists;
    otherwise it is the text of the earliest heading outside fences.
  */
  lemma {:induction false} TitleFound(text: string)
    ensures (forall k :: 0 <= k < |Lines(text)| ==> !H1At(TrimAll(Lines(text)), k)) ==> Title(text) == UNTITLED
    ensures (exists k :: 0 <= k < |Lines(text)| && H1At(TrimAll(Lines(text)), k)) ==>
              exists k :: 0 <= k < |Lines(text)| && H1At(TrimAll(Lines(text)), k)
                          && Title(text) == HeadingText(TrimAll(Lines(text))[k])
                          && forall j :: 0 <= j < k ==> !H1At(TrimAll(Lines(text)), j)
  {
    FirstH1Found(Lines(text));
  }

  /** `extract_title`. */
  method ExtractTitle(text: string) returns (title: string)
    ensures title == Title(text)
  {
    var h := ScanH1(Lines(text));
    if h.Some? {
      return h.value;
    }
    return UNTITLED;
  }

  // ── The first paragraph ────────────────────────────────────────────

  /** A trimmed line that can belong to a paragraph: not a fence line, not a heading, not blank. */
  predicate IsContentLine(t: string) {
    !IsFence(t) && !StartsWith(t, "#") && t != []
  }

  /** Trimmed line `k` is paragraph content: a content line outside any fence. */
  predicate ContentAt(ts: seq<string>, k: nat)
    requires k < |ts|
  {
    FenceBefore(ts, k).None? && IsContentLine(ts[k])
  }

  /** The first content line at or after `from`, or `|ts|` (see `FirstContentStops`). */
  function FirstContent(ts: seq<string>, from: nat): (k: nat)
    requires from <= |ts|
    ensures from <= k <= |ts|
    ensures k < |ts| ==> ContentAt(ts, k)
    decreases |ts| - from
  {
    if from == |ts| || ContentAt(ts, from) then from else FirstContent(ts, from + 1)
  }

  /** `FirstContent` passes no content line. */
  lemma {:induction false} FirstContentStops(ts: seq<string>, from: nat, k: nat)
    requires from <= k < |ts| && ContentAt(ts, k)
    ensures FirstContent(ts, from) <= k
    decreases k - from
  {
    if from < k && !ContentAt(ts, from) {
      FirstContentStops(ts, from + 1, k);
    }
  }

  /** The first line at or after `from` that is not content, or `|ts|` (see `RunEndStops`). */
  function RunEnd(ts: seq<string>, from: nat): (k: nat)
    requires from <= |ts|
    ensures from <= k <= |ts|
    ensures k < |ts| ==> !ContentAt(ts, k)
    decreases |ts| - from
  {
    if from == |ts| || !ContentAt(ts, from) then from else RunEnd(ts, from + 1)
  }

  /** `RunEnd` passes only content lines. */
  lemma {:induction false} RunEndStops(ts: seq<string>, from: nat, k: nat)
    requires from <= k < |ts| && !ContentAt(ts, k)
    ensures RunEnd(ts, from) <= k
    decreases k - from
  {
    if from < k && ContentAt(ts, from) {
      RunEndStops(ts, from + 1, k);
    }
  }

  /** The trimmed lines of the first paragraph: from the first content line up to the next line that is not content. */
  function ParagraphBounds(ts: seq<string>): (b: (nat, nat))
    ensures b.0 <= b.1 <= |ts|
  {
    var s := FirstContent(ts, 0);
    if s == |ts| then (s, s) else (s, RunEnd(ts, s + 1))
  }

  /** The first paragraph: its lines trimmed and joined by single spaces. */
  function FirstParagraph(text: string): string {
    var ts := TrimAll(Lines(text));
    var b := ParagraphBounds(ts);
    Trim(Join(ts[b.0..b.1], " "))
  }

  /**
    The paragraph is made of consecutive content lines: none comes before
    its first line, and the line after its last, if any, is not content.
  */
  lemma {:induction false} ParagraphShape(ts: seq<string>)
    ensures var b := ParagraphBounds(ts);
            (forall j :: 0 <= j < b.0 ==> !ContentAt(ts, j))
            && (forall j :: b.0 <= j < b.1 ==> ContentAt(ts, j))
            && (b.0 < |ts| <==> b.0 < b.1)
            && (b.1 < |ts| && b.0 < b.1 ==> !ContentAt(ts, b.1))
  {
    var b := ParagraphBounds(ts);
    forall j | 0 <= j < b.0 ensures !ContentAt(ts, j) {
      if ContentAt(ts, j) {
        FirstContentStops(ts, 0, j);
      }
    }
    forall j | b.0 <= j < b.1 ensures ContentAt(ts, j) {
      if j > b.0 && !ContentAt(ts, j) {
        RunEndStops(ts, b.0 + 1, j);
      }
    }
  }

  /** A joined sequence of parts whose first part is non-empty starts with that part's first character. */
  lemma {:induction false} JoinStartsWithFirst(parts: seq<string>, sep: string)
    requires parts != [] && parts[0] != []
    ensures Join(parts, sep) != [] && Join(parts, sep)[0] == parts[0][0]
  {
  }

  /** The paragraph is empty exactly when the text holds no content line outside fences. */
  lemma {:induction false} ParagraphEmptyIffNoContent(text: string)
    ensures FirstParagraph(text) == [] ==> forall k :: 0 <= k < |Lines(text)| ==> !ContentAt(TrimAll(Lines(text)), k)
    ensures (forall k :: 0 <= k < |Lines(text)| ==> !ContentAt(TrimAll(Lines(text)), k)) ==> FirstParagraph(text) == []
  {
    var ls := Lines(text);
    var ts := TrimAll(ls);
    var b := ParagraphBounds(ts);
    ParagraphShape(ts);
    if b.0 < |ts| {
      var t := ts[b.0];
      TrimAllAt(ls, b.0);
      TrimBounds(ls[b.0]);
      assert t != [] && !IsSpace(t[0]);
      JoinStartsWithFirst(ts[b.0..b.1], " ");
      TrimKeepsFirst(Join(ts[b.0..b.1], " "));
    }
  }

  /** `extract_first_paragraph`. */
  method ExtractFirstParagraph(text: string) returns (r: string)
    ensures r == FirstParagraph(text)
  {
    var paragraphLines := ScanParagraph(Lines(text));
    r := Trim(Join(paragraphLines, " "));
  }

  /** The loop of `extract_first_paragraph`: collects the paragraph's lines, trimmed. */
  method ScanParagraph(ls: seq<string>) returns (paragraphLines: seq<string>)
    ensures var ts := TrimAll(ls); var b := ParagraphBounds(ts); paragraphLines == ts[b.0..b.1]
  {
    ghost var ts := TrimAll(ls);
    ghost var first := FirstContent(ts, 0);
    var inParagraph := false;
    var fence: Option<char> := None;
    paragraphLines := [];
    var k := 0;
    while k < |ls|
      invariant k <= |ls|
      invariant fence == FenceBefore(ts, k)
      invariant !inParagraph ==> paragraphLines == [] && first >= k
      invariant inParagraph ==> fence.None? && first < k <= RunEnd(ts, first + 1)
                                && paragraphLines == ts[first..k]
    {
      var stripped := Trim(ls[k]);
      TrimAllAt(ls, k);
      if StartsWith(stripped, BACKTICK_FENCE) || StartsWith(stripped, TILDE_FENCE) {
        var ch := stripped[0];
        if fence.Some? {
          if ch == fence.value {
            fence := None;
          }
        } else {
          fence := Some(ch);
          if inParagraph {
            RunEndStops(ts, first + 1, k);
            break;
          }
        }
      } else if fence.Some? {
      } else if StartsWith(stripped, "#") || stripped == [] {
        if inParagraph {
          RunEndStops(ts, first + 1, k);
          break;
        }
      } else {
        if !inParagraph {
          FirstContentStops(ts, 0, k);
        }
        assert ts[first..k + 1] == ts[first..k] + [stripped];
        inParagraph := true;
        paragraphLines := paragraphLines + [stripped];
      }
      k := k + 1;
    }
    if inParagraph {
      assert RunEnd(ts, first + 1) == k;
      assert ParagraphBounds(ts) == (first, k);
    } else {
      assert first == |ts|;
    }
  }

  // ── The index page ─────────────────────────────────────────────────

  /** Descriptions longer than this are cut. */
  const MAX_DESCRIPTION := 120

  /** A description over the limit keeps its first 117 characters and gains an ellipsis. */
  function Truncated(d: string): (r: string)
    ensures |r| <= MAX_DESCRIPTION || r == d
  {
    if |d| > MAX_DESCRIPTION then d[..MAX_DESCRIPTION - 3] + "..." else d
  }

  /**
    Truncation never yields more than 120 characters, leaves a description
    within the limit untouched, and otherwise keeps its first 117 characters
    followed by `...`.
  */
  lemma {:induction false} TruncatedBounds(d: string)
    ensures |Truncated(d)| <= MAX_DESCRIPTION
    ensures |d| <= MAX_DESCRIPTION ==> Truncated(d) == d
    ensures |d| > MAX_DESCRIPTION ==> |Truncated(d)| == MAX_DESCRIPTION
                                      && Truncated(d) == d[..MAX_DESCRIPTION - 3] + "..."
    ensures Truncated(d) == [] <==> d == []
  {
  }

  /** A skill guide: its path relative to the skills directory, and its text, `None` when reading it raised `OSError`. */
  datatype Skill = Skill(rel: string, text: Option<string>)

  const INDEX_HEADER: seq<string> := [
    "# Skills Index",
    "",
    "> **AUTO-GENERATED** — Do not edit this file manually.",
    "> It is regenerated by `scripts/pre-commit-llm.py` on every commit.",
    "",
    "This index lists all skill reference guides available in `.llm/skills/`.",
    "Each skill is a focused, practical guide for a specific topic in this codebase.",
    "",
    "## Available Skills",
    ""
  ]

  const INDEX_FOOTER: seq<string> := [
    "---",
    "",
    "*Generated by `scripts/pre-commit-llm.py`. Run `bash scripts/install-hooks.sh` to install the pre-commit hook.*",
    ""
  ]

  /** The heading line of a skill's entry. */
  function EntryHeading(title: string, rel: string): string {
    "### [" + title + "](" + rel + ")"
  }

  /** The lines a skill adds: its heading and a blank line, then its description and a blank line when it has one. */
  function EntryLines(title: string, rel: string, description: string): seq<string> {
    [EntryHeading(title, rel), ""] + (if description != [] then [description, ""] else [])
  }

  /** The lines one skill adds: none when it could not be read, otherwise its title and its truncated first paragraph. */
  function EntryOf(skill: Skill): seq<string> {
    if skill.text.None? then []
    else EntryLines(Title(skill.text.value), skill.rel, Truncated(FirstParagraph(skill.text.value)))
  }

  /** The lines the skills add, in order. */
  function Entries(skills: seq<Skill>): seq<string> {
    if skills == [] then [] else Entries(skills[..|skills| - 1]) + EntryOf(skills[|skills| - 1])
  }

  /** The entries of a prefix one skill longer gain that skill's lines at the end. */
  lemma {:induction false} EntriesSnoc(skills: seq<Skill>, i: nat)
    requires i < |skills|
    ensures Entries(skills[..i + 1]) == Entries(skills[..i]) + EntryOf(skills[i])
  {
    assert skills[..i + 1][..i] == skills[..i];
  }

  /** The lines of the index page. */
  function IndexLines(skills: seq<Skill>): seq<string> {
    INDEX_HEADER + Entries(skills) + INDEX_FOOTER
  }

  /** Skills that could not be read leave the index as if they were absent. */
  lemma {:induction false} UnreadableSkillsIgnored(skills: seq<Skill>, rel: string)
    ensures Entries(skills + [Skill(rel, None)]) == Entries(skills)
  {
    assert (skills + [Skill(rel, None)])[..|skills|] == skills;
  }

  /** An entry whose description is within the limit has only its heading line over it. */
  lemma {:induction false} EntryLinesWithin(title: string, rel: string, description: string)
    requires |description| <= MAX_DESCRIPTION
    ensures forall line :: line in EntryLines(title, rel, description) ==> |line| <= MAX_DESCRIPTION || StartsWith(line, "### [")
  {
    assert StartsWith(EntryHeading(title, rel), "### [");
  }

  /** Every line of one skill's entry is its heading line or at most 120 characters long. */
  lemma {:induction false} EntryOfBounded(skill: Skill)
    ensures forall line :: line in EntryOf(skill) ==> |line| <= MAX_DESCRIPTION || StartsWith(line, "### [")
  {
    if skill.text.Some? {
      var text := skill.text.value;
      var d := FirstParagraph(text);
      TruncatedBounds(d);
      EntryLinesWithin(Title(text), skill.rel, Truncated(d));
    }
  }

  /**
    Every line of the entries is a heading line or at most 120 characters
    long: each entry is a heading line followed by a blank line and, when
    present, a description of at most 120 characters and a blank line.
  */
  lemma {:induction false} EntryLinesBounded(skills: seq<Skill>)
    ensures forall line :: line in Entries(skills) ==> |line| <= MAX_DESCRIPTION || StartsWith(line, "### [")
  {
    if skills != [] {
      EntryLinesBounded(skills[..|skills| - 1]);
      EntryOfBounded(skills[|skills| - 1]);
    }
  }

  /** One skill's lines, as the loop of `generate_index` appends them. */
  method SkillEntry(skill: Skill) returns (entry: seq<string>)
    ensures entry == EntryOf(skill)
  {
    if skill.text.None? {
      return [];
    }
    var title := ExtractTitle(skill.text.value);
    var description := ExtractFirstParagraph(skill.text.value);
    if |description| > MAX_DESCRIPTION {
      description := description[..MAX_DESCRIPTION - 3] + "...";
    }
    entry := [EntryHeading(title, skill.rel), ""];
    if description != [] {
      entry := entry + [description, ""];
    }
  }

  /** `generate_index`: the header, each readable skill's entry in order, then the footer, joined by newlines. */
  method GenerateIndex(skills: seq<Skill>) returns (page: string)
    ensures page == Join(IndexLines(skills), "\n")
  {
    var lines := INDEX_HEADER;
    for i := 0 to |skills|
      invariant lines == INDEX_HEADER + Entries(skills[..i])
    {
      EntriesSnoc(skills, i);
      var entry := SkillEntry(skills[i]);
      lines := lines + entry;
    }
    assert skills[..|skills|] == skills;
    lines := lines + INDEX_FOOTER;
    page := Join(lines, "\n");
  }
}
