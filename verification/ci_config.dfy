/**
  The text scanners of the repository's CI-configuration tests: the job
  blocks of a workflow file, the MSRV toolchain step, the `shellcheck`
  directive style, the `nav:` section of the documentation site, Markdown
  heading and list-item lines, first-level headings and navigation cards.
*/
module CiConfig {
  import opened Wrappers
  import opened Text
  import opened Search
  import Markdown

  // ── Job blocks ─────────────────────────────────────────────────────

  /** The line that opens a job: two spaces, the job's name and a colon. */
  function JobHeader(jobName: string): string {
    "  " + jobName + ":"
  }

  /** A line that opens the next job: indented by exactly two spaces and ending, before trailing whitespace, in a colon. */
  predicate IsNextJob(line: string) {
    StartsWith(line, "  ") && !StartsWith(line, "    ") && EndsWith(TrimEnd(line), ":")
  }

  /** Which lines are the header. */
  function HeaderLines(ls: seq<string>, header: string): (bs: seq<bool>)
    ensures |bs| == |ls|
  {
    if ls == [] then [] else [TrimEnd(ls[0]) == header] + HeaderLines(ls[1..], header)
  }

  /** Verdict `i` is line `i`'s. */
  lemma {:induction false} HeaderLinesAt(ls: seq<string>, header: string, i: nat)
    requires i < |ls|
    ensures HeaderLines(ls, header)[i] == (TrimEnd(ls[i]) == header)
  {
    if i > 0 {
      HeaderLinesAt(ls[1..], header, i - 1);
    }
  }

  /** Which lines open a job. */
  function NextJobLines(ls: seq<string>): (bs: seq<bool>)
    ensures |bs| == |ls|
  {
    if ls == [] then [] else [IsNextJob(ls[0])] + NextJobLines(ls[1..])
  }

  /** Verdict `i` is line `i`'s. */
  lemma {:induction false} NextJobLinesAt(ls: seq<string>, i: nat)
    requires i < |ls|
    ensures NextJobLines(ls)[i] == IsNextJob(ls[i])
  {
    if i > 0 {
      NextJobLinesAt(ls[1..], i - 1);
    }
  }

  /** The first header line, or `|ls|`. */
  function HeaderIndex(ls: seq<string>, header: string): (h: nat)
    ensures h <= |ls|
  {
    FirstTrue(HeaderLines(ls, header), 0)
  }

  /** The first line after the header line `h` that opens a job, or `|ls|`. */
  function NextJobIndex(ls: seq<string>, h: nat): (e: nat)
    requires h < |ls|
    ensures h < e <= |ls|
  {
    FirstTrue(NextJobLines(ls), h + 1)
  }

  /** The block that opens with `header` in `ls`: the header line and the lines up to the next job, joined by newlines. */
  function BlockIn(ls: seq<string>, header: string): Option<string> {
    var h := HeaderIndex(ls, header);
    if h == |ls| then None else Some(Join(ls[h..NextJobIndex(ls, h)], "\n"))
  }

  /** The block of job `jobName` in a workflow file. */
  function JobBlock(contents: string, jobName: string): Option<string> {
    BlockIn(Lines(contents), JobHeader(jobName))
  }

  /** There is a block exactly when some line is the header. */
  lemma {:induction false} BlockFound(ls: seq<string>, header: string)
    ensures BlockIn(ls, header).None? ==> forall k :: 0 <= k < |ls| ==> TrimEnd(ls[k]) != header
    ensures (forall k :: 0 <= k < |ls| ==> TrimEnd(ls[k]) != header) ==> BlockIn(ls, header).None?
  {
    var hs := HeaderLines(ls, header);
    forall k | 0 <= k < |ls| && TrimEnd(ls[k]) == header ensures BlockIn(ls, header).Some? {
      HeaderLinesAt(ls, header, k);
      FirstTrueStops(hs, 0, k);
    }
    var h := HeaderIndex(ls, header);
    if h < |ls| {
      HeaderLinesAt(ls, header, h);
    }
  }

  /**
    The block runs from the first header line up to, not including, the
    first later line that opens another job (or to the end).
  */
  lemma {:induction false} BlockBounds(ls: seq<string>, header: string)
    ensures var h := HeaderIndex(ls, header);
            h < |ls| ==> TrimEnd(ls[h]) == header && forall j :: 0 <= j < h ==> TrimEnd(ls[j]) != header
    ensures var h := HeaderIndex(ls, header);
            h < |ls| ==> var e := NextJobIndex(ls, h);
                         BlockIn(ls, header) == Some(Join(ls[h..e], "\n"))
                         && (forall j :: h < j < e ==> !IsNextJob(ls[j]))
                         && (e < |ls| ==> IsNextJob(ls[e]))
  {
    var hs := HeaderLines(ls, header);
    var h := HeaderIndex(ls, header);
    NoTrueBefore(hs, 0);
    forall j | 0 <= j < h ensures TrimEnd(ls[j]) != header {
      HeaderLinesAt(ls, header, j);
    }
    if h < |ls| {
      HeaderLinesAt(ls, header, h);
      var ns := NextJobLines(ls);
      var e := NextJobIndex(ls, h);
      NoTrueBefore(ns, h + 1);
      forall j | h < j < e ensures !IsNextJob(ls[j]) {
        NextJobLinesAt(ls, j);
      }
      if e < |ls| {
        NextJobLinesAt(ls, e);
      }
    }
  }

  /** `extract_job_block`. */
  method ExtractJobBlock(contents: string, jobName: string) returns (r: Option<string>)
    ensures r == JobBlock(contents, jobName)
  {
    var jobLines := ScanJobLines(Lines(contents), JobHeader(jobName));
    if jobLines == [] {
      return None;
    }
    return Some(Join(jobLines, "\n"));
  }

  /** The loop of `extract_job_block`: the lines of the block, or none when no line is the header. */
  method ScanJobLines(ls: seq<string>, header: string) returns (jobLines: seq<string>)
    ensures var h := HeaderIndex(ls, header);
            jobLines == if h == |ls| then [] else ls[h..NextJobIndex(ls, h)]
  {
    ghost var hs := HeaderLines(ls, header);
    ghost var ns := NextJobLines(ls);
    ghost var h := FirstTrue(hs, 0);
    var inJob := false;
    jobLines := [];
    var k := 0;
    while k < |ls|
      invariant k <= |ls|
      invariant !inJob ==> jobLines == [] && h >= k
      invariant inJob ==> h < k && h < |ls| && FirstTrue(ns, h + 1) >= k && jobLines == ls[h..k]
    {
      var line := ls[k];
      if !inJob {
        HeaderLinesAt(ls, header, k);
        if TrimEnd(line) == header {
          FirstTrueStops(hs, 0, k);
          assert ls[h..k + 1] == [line];
          inJob := true;
          jobLines := [line];
        }
        k := k + 1;
        continue;
      }
      NextJobLinesAt(ls, k);
      if IsNextJob(line) {
        FirstTrueStops(ns, h + 1, k);
        break;
      }
      assert ls[h..k + 1] == ls[h..k] + [line];
      jobLines := jobLines + [line];
      k := k + 1;
    }
    if inJob {
      assert FirstTrue(ns, h + 1) == k;
    } else {
      assert h == |ls|;
    }
  }

  // ── The MSRV toolchain step ────────────────────────────────────────

  function AllDigitsOrDots(s: string): (b: bool)
    ensures b <==> forall i :: 0 <= i < |s| ==> IsAsciiDigit(s[i]) || s[i] == '.'
  {
    if s == [] then true
    else (IsAsciiDigit(s[0]) || s[0] == '.') && AllDigitsOrDots(s[1..])
  }

  function AnyDigit(s: string): (b: bool)
    ensures b <==> exists i :: 0 <= i < |s| && IsAsciiDigit(s[i])
  {
    if s == [] then false
    else IsAsciiDigit(s[0]) || (assert forall i :: 1 <= i < |s| ==> s[i] == s[1..][i - 1]; AnyDigit(s[1..]))
  }

  /** `is_semver_like_dtolnay_ref`: a non-empty ref of digits and dots holding at least one digit. */
  predicate IsSemverLikeRef(reference: string) {
    reference != [] && AllDigitsOrDots(reference) && AnyDigit(reference)
  }

  /** A version number is semver-like; a branch name or a commit hash starting with a digit is not. */
  lemma {:induction false} SemverLikeRefExamples()
    ensures IsSemverLikeRef("1.85.0")
    ensures !IsSemverLikeRef("stable") && !IsSemverLikeRef("1a2b") && !IsSemverLikeRef("...") && !IsSemverLikeRef("")
  {
    assert !AllDigitsOrDots("1a2b") by { assert !IsAsciiDigit("1a2b"[1]); }
    assert !AnyDigit("...") by { assert forall i :: 0 <= i < 3 ==> "..."[i] == '.'; }
    assert IsAsciiDigit("1.85.0"[0]);
  }

  const USES_STEP_PREFIX := "- uses: dtolnay/rust-toolchain@"
  const USES_PREFIX := "uses: dtolnay/rust-toolchain@"
  const STABLE_USES := "uses: dtolnay/rust-toolchain@stable"
  const TOOLCHAIN_KEY := "toolchain:"

  /** `s` with the quotes of either kind around it removed (`trim_matches('"').trim_matches('\'')`). */
  function Unquoted(s: string): string {
    TrimMatches(TrimMatches(s, '"'), '\'')
  }

  /** The ref a `dtolnay/rust-toolchain` step line names: its first word after the `@`, unquoted. */
  function ToolchainRef(line: string): Option<string> {
    var t := Trim(line);
    var rest := if StartsWith(t, USES_STEP_PREFIX) then StripPrefix(t, USES_STEP_PREFIX) else StripPrefix(t, USES_PREFIX);
    if rest.None? then None else Some(Unquoted(FirstWord(rest.value)))
  }

  /** The value of a `toolchain:` line, trimmed and unquoted. */
  function ToolchainValue(line: string): Option<string> {
    var rest := StripPrefix(Trim(line), TOOLCHAIN_KEY);
    if rest.None? then None else Some(Unquoted(Trim(rest.value)))
  }

  predicate SemverLikeRefLine(line: string) {
    ToolchainRef(line).Some? && IsSemverLikeRef(ToolchainRef(line).value)
  }

  /** Whether any line names a semver-like ref (`lines().any(..)`; see `AnySemverLikeRefExact`). */
  function AnySemverLikeRef(ls: seq<string>): bool {
    if ls == [] then false else SemverLikeRefLine(ls[0]) || AnySemverLikeRef(ls[1..])
  }

  lemma {:induction false} AnySemverLikeRefExact(ls: seq<string>)
    ensures AnySemverLikeRef(ls) <==> exists k :: 0 <= k < |ls| && SemverLikeRefLine(ls[k])
  {
    if ls != [] {
      AnySemverLikeRefExact(ls[1..]);
      assert forall k :: 1 <= k < |ls| ==> ls[k] == ls[1..][k - 1];
    }
  }

  /** Which lines have a `toolchain:` value. */
  function ToolchainLines(ls: seq<string>): (bs: seq<bool>)
    ensures |bs| == |ls|
  {
    if ls == [] then [] else [ToolchainValue(ls[0]).Some?] + ToolchainLines(ls[1..])
  }

  /** Verdict `i` is line `i`'s. */
  lemma {:induction false} ToolchainLinesAt(ls: seq<string>, i: nat)
    requires i < |ls|
    ensures ToolchainLines(ls)[i] == ToolchainValue(ls[i]).Some?
  {
    if i > 0 {
      ToolchainLinesAt(ls[1..], i - 1);
    }
  }

  /** The value of the first `toolchain:` line (`lines().find_map(..)`). */
  function FirstToolchain(ls: seq<string>): Option<string> {
    var k := FirstTrue(ToolchainLines(ls), 0);
    if k == |ls| then None else ToolchainValue(ls[k])
  }

  /** A line with a value, after none that has one, is the line `FirstToolchain` reads. */
  lemma {:induction false} FirstToolchainAt(ls: seq<string>, k: nat)
    requires k < |ls| && ToolchainValue(ls[k]).Some?
    requires forall j :: 0 <= j < k ==> ToolchainValue(ls[j]).None?
    ensures FirstToolchain(ls) == ToolchainValue(ls[k])
  {
    var bs := ToolchainLines(ls);
    ToolchainLinesAt(ls, k);
    forall j | 0 <= j < k ensures !bs[j] {
      ToolchainLinesAt(ls, j);
    }
    FirstTrueAt(bs, 0, k);
  }

  const SEMVER_REF_MESSAGE := "MSRV job uses a semver-like dtolnay/rust-toolchain ref (digits/dots only). Use @stable with explicit with.toolchain instead."
  const MISSING_STABLE_MESSAGE := "MSRV job is missing 'uses: dtolnay/rust-toolchain@stable'."

  function MissingToolchainMessage(version: string): string {
    "MSRV job is missing explicit 'toolchain: " + version + "' (quoted or unquoted) in the rust-toolchain step."
  }

  /**
    `validate_msrv_toolchain_step`: no step may pin the toolchain action to a
    version ref, some step must use the `@stable` ref, and the first
    `toolchain:` value must be the expected version; checked in that order.
  */
  function ValidateMsrvToolchainStep(block: string, version: string): (r: Result<(), string>)
    ensures r.Err? ==> r.error == SEMVER_REF_MESSAGE || r.error == MISSING_STABLE_MESSAGE || r.error == MissingToolchainMessage(version)
  {
    var ls := Lines(block);
    if AnySemverLikeRef(ls) then Err(SEMVER_REF_MESSAGE)
    else if !Contains(block, STABLE_USES) then Err(MISSING_STABLE_MESSAGE)
    else if FirstToolchain(ls) != Some(version) then Err(MissingToolchainMessage(version))
    else Ok(())
  }

  /** The three verdicts are told apart by their text. */
  lemma {:induction false} MsrvMessagesDistinct(version: string)
    ensures SEMVER_REF_MESSAGE != MISSING_STABLE_MESSAGE
    ensures MissingToolchainMessage(version) != SEMVER_REF_MESSAGE
    ensures MissingToolchainMessage(version) != MISSING_STABLE_MESSAGE
  {
    var m := MissingToolchainMessage(version);
    assert SEMVER_REF_MESSAGE[|SEMVER_REF_MESSAGE| - 2] == 'd';
    assert MISSING_STABLE_MESSAGE[|MISSING_STABLE_MESSAGE| - 2] == '\'';
    assert m[|m| - 2] == 'p';
  }

  /** A version ref on any line is reported first, whatever else the block holds. */
  lemma {:induction false} MsrvSemverRefRejected(block: string, version: string)
    ensures ValidateMsrvToolchainStep(block, version) == Err(SEMVER_REF_MESSAGE) ==>
              exists k :: 0 <= k < |Lines(block)| && SemverLikeRefLine(Lines(block)[k])
    ensures (exists k :: 0 <= k < |Lines(block)| && SemverLikeRefLine(Lines(block)[k])) ==>
              ValidateMsrvToolchainStep(block, version) == Err(SEMVER_REF_MESSAGE)
  {
    AnySemverLikeRefExact(Lines(block));
    MsrvMessagesDistinct(version);
  }

  /** Without a version ref, a block that never uses the `@stable` ref is reported as missing it. */
  lemma {:induction false} MsrvStableRequired(block: string, version: string)
    ensures ValidateMsrvToolchainStep(block, version) == Err(MISSING_STABLE_MESSAGE) ==>
              (forall k :: 0 <= k < |Lines(block)| ==> !SemverLikeRefLine(Lines(block)[k])) && !Contains(block, STABLE_USES)
    ensures (forall k :: 0 <= k < |Lines(block)| ==> !SemverLikeRefLine(Lines(block)[k])) && !Contains(block, STABLE_USES) ==>
              ValidateMsrvToolchainStep(block, version) == Err(MISSING_STABLE_MESSAGE)
  {
    var ls := Lines(block);
    AnySemverLikeRefExact(ls);
    MsrvMessagesDistinct(version);
    assert (forall k :: 0 <= k < |ls| ==> !SemverLikeRefLine(ls[k])) <==> !AnySemverLikeRef(ls);
  }

  /**
    A block passes exactly when no line names a version ref, the `@stable`
    ref occurs, and the first line with a `toolchain:` value gives the
    expected version.
  */
  lemma {:induction false} MsrvAccepted(block: string, version: string)
    ensures ValidateMsrvToolchainStep(block, version).Ok? <==>
              (forall k :: 0 <= k < |Lines(block)| ==> !SemverLikeRefLine(Lines(block)[k]))
              && Contains(block, STABLE_USES)
              && exists k :: 0 <= k < |Lines(block)| && ToolchainValue(Lines(block)[k]) == Some(version)
                             && forall j :: 0 <= j < k ==> ToolchainValue(Lines(block)[j]).None?
  {
    var ls := Lines(block);
    AnySemverLikeRefExact(ls);
    MsrvMessagesDistinct(version);
    assert (forall k :: 0 <= k < |ls| ==> !SemverLikeRefLine(ls[k])) <==> !AnySemverLikeRef(ls);
    assert ValidateMsrvToolchainStep(block, version).Ok? <==>
             !AnySemverLikeRef(ls) && Contains(block, STABLE_USES) && FirstToolchain(ls) == Some(version);
    var bs := ToolchainLines(ls);
    var i := FirstTrue(bs, 0);
    if i < |ls| {
      ToolchainLinesAt(ls, i);
      NoTrueBefore(bs, 0);
      forall j | 0 <= j < i ensures ToolchainValue(ls[j]).None? {
        ToolchainLinesAt(ls, j);
      }
    }
    forall k | 0 <= k < |ls| && ToolchainValue(ls[k]) == Some(version) && forall j :: 0 <= j < k ==> ToolchainValue(ls[j]).None?
      ensures FirstToolchain(ls) == Some(version)
    {
      FirstToolchainAt(ls, k);
    }
    assert FirstToolchain(ls) == Some(version) ==> i < |ls| && ToolchainValue(ls[i]) == Some(version);
  }

  // ── The SC2317 directive ───────────────────────────────────────────

  const SC2317_PREFIX := "# shellcheck disable=SC2317"
  /** The separators a rationale must not use: a double hyphen, an em dash and an en dash, each between spaces. */
  const FORBIDDEN_SEPARATORS: seq<string> := [" -- ", " — ", " – "]
  const RATIONALE_MARKER := "  # "

  /** The decimal digits of `n`. */
  function Decimal(n: nat): (s: string)
    ensures s != []
    ensures forall i :: 0 <= i < |s| ==> IsAsciiDigit(s[i])
  {
    if n < 10 then [('0' as int + n) as char] else Decimal(n / 10) + [('0' as int + n % 10) as char]
  }

  /** The number a string of decimal digits denotes, read left to right. */
  function DigitsValue(s: string): nat
    requires forall i :: 0 <= i < |s| ==> IsAsciiDigit(s[i])
  {
    if s == [] then 0
    else
      assert IsAsciiDigit(s[|s| - 1]);
      10 * DigitsValue(s[..|s| - 1]) + (s[|s| - 1] as int - '0' as int)
  }

  /** `Decimal(n)` denotes `n`, and has no leading zero unless it is `"0"`. */
  lemma {:induction false} DecimalValue(n: nat)
    ensures DigitsValue(Decimal(n)) == n
    ensures Decimal(n)[0] == '0' <==> n == 0
    ensures n == 0 ==> Decimal(n) == "0"
  {
    if n >= 10 {
      var d := Decimal(n);
      DecimalValue(n / 10);
      assert d[..|d| - 1] == Decimal(n / 10);
      assert d[0] == Decimal(n / 10)[0];
    }
  }

  function Located(path: string, lineNumber: nat, message: string, line: string): string {
    path + ":" + Decimal(lineNumber) + ": " + message + "; got: " + line
  }

  /** The first forbidden separator, in the order they are checked, that the line contains. */
  function FirstForbidden(line: string, i: nat): (r: Option<string>)
    requires i <= |FORBIDDEN_SEPARATORS|
    ensures r.Some? ==> r.value in FORBIDDEN_SEPARATORS[i..] && Contains(line, r.value)
    ensures r.None? ==> forall k :: i <= k < |FORBIDDEN_SEPARATORS| ==> !Contains(line, FORBIDDEN_SEPARATORS[k])
    ensures r.Some? ==> exists j :: i <= j < |FORBIDDEN_SEPARATORS| && r.value == FORBIDDEN_SEPARATORS[j]
                                    && forall k :: i <= k < j ==> !Contains(line, FORBIDDEN_SEPARATORS[k])
    decreases |FORBIDDEN_SEPARATORS| - i
  {
    if i == |FORBIDDEN_SEPARATORS| then None
    else if Contains(line, FORBIDDEN_SEPARATORS[i]) then Some(FORBIDDEN_SEPARATORS[i])
    else FirstForbidden(line, i + 1)
  }

  /**
    `validate_sc2317_directive_line`: the line starts with the directive, uses
    none of the dash separators, and introduces any trailing rationale with
    two spaces and a `#`.
  */
  function ValidateSc2317DirectiveLine(path: string, lineNumber: nat, line: string): (r: Result<(), string>)
    ensures r.Ok? <==> StartsWith(line, SC2317_PREFIX)
                       && (forall k :: 0 <= k < |FORBIDDEN_SEPARATORS| ==> !Contains(line, FORBIDDEN_SEPARATORS[k]))
                       && (Trim(line[|SC2317_PREFIX|..]) == [] || Contains(line, RATIONALE_MARKER))
    ensures r.Err? ==> StartsWith(r.error, path + ":" + Decimal(lineNumber) + ": ")
    ensures !StartsWith(line, SC2317_PREFIX) ==>
              r == Err(Located(path, lineNumber, "directive must start with '" + SC2317_PREFIX + "'", line))
    ensures forall j :: 0 <= j < |FORBIDDEN_SEPARATORS| && StartsWith(line, SC2317_PREFIX)
                        && Contains(line, FORBIDDEN_SEPARATORS[j])
                        && (forall k :: 0 <= k < j ==> !Contains(line, FORBIDDEN_SEPARATORS[k])) ==>
              r == Err(Located(path, lineNumber, "directive must not contain '" + FORBIDDEN_SEPARATORS[j] + "'", line))
    ensures StartsWith(line, SC2317_PREFIX)
            && (forall k :: 0 <= k < |FORBIDDEN_SEPARATORS| ==> !Contains(line, FORBIDDEN_SEPARATORS[k]))
            && Trim(line[|SC2317_PREFIX|..]) != [] && !Contains(line, RATIONALE_MARKER) ==>
              r == Err(Located(path, lineNumber, "directive rationale must use '" + RATIONALE_MARKER + "'", line))
  {
    if !StartsWith(line, SC2317_PREFIX) then
      Err(Located(path, lineNumber, "directive must start with '" + SC2317_PREFIX + "'", line))
    else
      match FirstForbidden(line, 0)
      case Some(sep) =>
        Err(Located(path, lineNumber, "directive must not contain '" + sep + "'", line))
      case None =>
        var trailing := Trim(StripPrefix(line, SC2317_PREFIX).value);
        if trailing != [] && !Contains(line, RATIONALE_MARKER) then
          Err(Located(path, lineNumber, "directive rationale must use '" + RATIONALE_MARKER + "'", line))
        else Ok(())
  }

  // ── Headings and list items ────────────────────────────────────────

  /** Number of leading `#` characters. */
  function HashRun(t: string): (n: nat)
    ensures n <= |t|
    ensures forall i :: 0 <= i < n ==> t[i] == '#'
    ensures n < |t| ==> t[n] != '#'
  {
    if t == [] || t[0] != '#' then 0 else 1 + HashRun(t[1..])
  }

  /** `is_heading_line`: after leading whitespace, one to six `#` and a space. */
  predicate IsHeadingLine(line: string) {
    var t := TrimStart(line);
    var n := HashRun(t);
    0 < n <= 6 && n < |t| && t[n] == ' '
  }

  /** A heading line is exactly one whose text, after leading whitespace, is `n` hashes and a space for some `n` from 1 to 6. */
  lemma {:induction false} HeadingLineShape(line: string)
    ensures IsHeadingLine(line) <==>
              exists n :: 1 <= n <= 6 && n < |TrimStart(line)| && (forall i :: 0 <= i < n ==> TrimStart(line)[i] == '#')
                          && TrimStart(line)[n] == ' '
  {
    var t := TrimStart(line);
    if exists n :: 1 <= n <= 6 && n < |t| && (forall i :: 0 <= i < n ==> t[i] == '#') && t[n] == ' ' {
      var n :| 1 <= n <= 6 && n < |t| && (forall i :: 0 <= i < n ==> t[i] == '#') && t[n] == ' ';
      assert HashRun(t) == n;
    }
  }

  predicate IsBullet(t: string) {
    StartsWith(t, "- ") || StartsWith(t, "* ") || StartsWith(t, "+ ")
  }

  function AllDigits(s: string): (b: bool)
    ensures b <==> forall i :: 0 <= i < |s| ==> IsAsciiDigit(s[i])
  {
    if s == [] then true else IsAsciiDigit(s[0]) && AllDigits(s[1..])
  }

  /** `is_list_item_line`: a bullet, or a number, a dot and a space (`split_once('.')`). */
  predicate IsListItemLine(line: string) {
    var t := TrimStart(line);
    if IsBullet(t) then true
    else
      var d := IndexOf(t, '.');
      d < |t| && d > 0 && AllDigits(t[..d]) && StartsWith(t[d + 1..], " ")
  }

  /** `t` opens with a non-empty run of digits ending at `e`, then a dot and a space. */
  predicate NumberedAt(t: string, e: nat) {
    0 < e && e + 1 < |t| && (forall i :: 0 <= i < e ==> IsAsciiDigit(t[i])) && t[e] == '.' && t[e + 1] == ' '
  }

  /** A list item is a bullet, or some non-empty run of digits followed by a dot and a space. */
  lemma {:induction false} ListItemShape(line: string)
    ensures IsListItemLine(line) <==> IsBullet(TrimStart(line)) || exists e :: NumberedAt(TrimStart(line), e)
  {
    var t := TrimStart(line);
    var d := IndexOf(t, '.');
    assert forall i :: 0 <= i < d ==> t[..d][i] == t[i];
    assert d + 1 < |t| ==> t[d + 1..][..1] == [t[d + 1]];
    forall e | NumberedAt(t, e) ensures e == d {
    }
    assert IsListItemLine(line) && !IsBullet(t) ==> NumberedAt(t, d);
    assert (exists e :: NumberedAt(t, e)) ==> NumberedAt(t, d);
  }

  // ── The documentation site's navigation ────────────────────────────

  const NAV_KEY := "nav:"

  /**
    The file a `nav:` entry line names: `- Label: file.md` names what follows
    the last `": "`, `- file.md` names itself; only Markdown files count.
  */
  function NavEntry(line: string): (r: Option<string>)
    ensures r.Some? ==> EndsWith(r.value, ".md")
  {
    var t := Trim(line);
    if !StartsWith(t, "- ") then None
    else
      var pos := t[2..];
      match RFind(pos, ": ")
      case Some(c) =>
        var file := Trim(pos[c + 2..]);
        if EndsWith(file, ".md") then Some(file) else None
      case None =>
        if EndsWith(Trim(pos), ".md") then Some(Trim(pos)) else None
  }

  /** What a line of the site configuration is to the `nav:` scanner, in the order it asks. */
  datatype NavLine = NavKeyLine | TopLevelKey | Entry(file: Option<string>)

  function ClassifyNavLine(line: string): NavLine {
    if Trim(line) == NAV_KEY then NavKeyLine
    else if line != [] && line[0] != ' ' && line[0] != '#' then TopLevelKey
    else Entry(NavEntry(line))
  }

  /** The classification of every line (see `ClassifiedAt`). */
  function ClassifyNavLines(ls: seq<string>): (cs: seq<NavLine>)
    ensures |cs| == |ls|
  {
    if ls == [] then [] else ClassifyNavLines(ls[..|ls| - 1]) + [ClassifyNavLine(ls[|ls| - 1])]
  }

  lemma {:induction false} ClassifiedAt(ls: seq<string>, i: nat)
    requires i < |ls|
    ensures ClassifyNavLines(ls)[i] == ClassifyNavLine(ls[i])
  {
    if i < |ls| - 1 {
      ClassifiedAt(ls[..|ls| - 1], i);
    }
  }

  /** The first `nav:` line at or after `from`, or `|cs|`. */
  function NavStart(cs: seq<NavLine>, from: nat): (k: nat)
    requires from <= |cs|
    ensures from <= k <= |cs|
    ensures forall j :: from <= j < k ==> cs[j] != NavKeyLine
    ensures k < |cs| ==> cs[k] == NavKeyLine
    decreases |cs| - from
  {
    if from == |cs| || cs[from] == NavKeyLine then from else NavStart(cs, from + 1)
  }

  /** The first top-level key at or after `from`, or `|cs|`. */
  function NavEnd(cs: seq<NavLine>, from: nat): (k: nat)
    requires from <= |cs|
    ensures from <= k <= |cs|
    ensures forall j :: from <= j < k ==> cs[j] != TopLevelKey
    ensures k < |cs| ==> cs[k] == TopLevelKey
    decreases |cs| - from
  {
    if from == |cs| || cs[from] == TopLevelKey then from else NavEnd(cs, from + 1)
  }

  /** The files named on lines `lo` up to `hi`, each with its 1-based line number. */
  function Numbered(cs: seq<NavLine>, lo: nat, hi: nat): seq<(nat, string)>
    requires lo <= hi <= |cs|
    decreases hi
  {
    if hi == lo then []
    else Numbered(cs, lo, hi - 1) + (if cs[hi - 1].Entry? && cs[hi - 1].file.Some? then [(hi, cs[hi - 1].file.value)] else [])
  }

  /** The entries between the first `nav:` line and the next top-level key. */
  function NavReferencesIn(cs: seq<NavLine>): seq<(nat, string)> {
    var s := NavStart(cs, 0);
    if s == |cs| then [] else Numbered(cs, s + 1, NavEnd(cs, s + 1))
  }

  /** `extract_nav_file_references`, as a value. */
  function NavFileReferences(content: string): seq<(nat, string)> {
    NavReferencesIn(ClassifyNavLines(Lines(content)))
  }

  /** Exactly the entry lines in the range that name a file are reported, in line order, numbered from 1. */
  lemma {:induction false} NumberedExact(cs: seq<NavLine>, lo: nat, hi: nat)
    requires lo <= hi <= |cs|
    ensures forall n, f :: (n, f) in Numbered(cs, lo, hi) <==> lo < n <= hi && cs[n - 1] == Entry(Some(f))
    ensures forall i, j :: 0 <= i < j < |Numbered(cs, lo, hi)| ==> Numbered(cs, lo, hi)[i].0 < Numbered(cs, lo, hi)[j].0
    ensures forall i :: 0 <= i < |Numbered(cs, lo, hi)| ==> lo < Numbered(cs, lo, hi)[i].0 <= hi
  {
    NumberedMembers(cs, lo, hi);
    NumberedOrdered(cs, lo, hi);
  }

  lemma {:induction false} NumberedMembers(cs: seq<NavLine>, lo: nat, hi: nat)
    requires lo <= hi <= |cs|
    ensures forall n, f :: (n, f) in Numbered(cs, lo, hi) <==> lo < n <= hi && cs[n - 1] == Entry(Some(f))
    decreases hi
  {
    if hi > lo {
      NumberedMembers(cs, lo, hi - 1);
      var p := Numbered(cs, lo, hi - 1);
      var t := if cs[hi - 1].Entry? && cs[hi - 1].file.Some? then [(hi, cs[hi - 1].file.value)] else [];
      assert Numbered(cs, lo, hi) == p + t;
      forall n, f
        ensures (n, f) in p + t <==> lo < n <= hi && cs[n - 1] == Entry(Some(f))
      {
        assert (n, f) in p + t <==> (n, f) in p || (n, f) in t;
      }
    }
  }

  lemma {:induction false} NumberedOrdered(cs: seq<NavLine>, lo: nat, hi: nat)
    requires lo <= hi <= |cs|
    ensures forall i, j :: 0 <= i < j < |Numbered(cs, lo, hi)| ==> Numbered(cs, lo, hi)[i].0 < Numbered(cs, lo, hi)[j].0
    ensures forall i :: 0 <= i < |Numbered(cs, lo, hi)| ==> lo < Numbered(cs, lo, hi)[i].0 <= hi
    decreases hi
  {
    if hi > lo {
      NumberedOrdered(cs, lo, hi - 1);
      var p := Numbered(cs, lo, hi - 1);
      var t := if cs[hi - 1].Entry? && cs[hi - 1].file.Some? then [(hi, cs[hi - 1].file.value)] else [];
      assert Numbered(cs, lo, hi) == p + t;
    }
  }

  /**
    A reference is reported exactly when its line lies after the first `nav:`
    line and before the top-level key that ends the section, and holds an
    entry naming a file; line numbers increase.
  */
  lemma {:induction false} NavReferencesExact(cs: seq<NavLine>)
    ensures NavStart(cs, 0) == |cs| ==> NavReferencesIn(cs) == []
    ensures NavStart(cs, 0) < |cs| ==>
              forall n, f :: (n, f) in NavReferencesIn(cs) <==>
                NavStart(cs, 0) + 1 < n <= NavEnd(cs, NavStart(cs, 0) + 1) && cs[n - 1] == Entry(Some(f))
    ensures forall i :: 0 <= i < |NavReferencesIn(cs)| ==> 1 <= NavReferencesIn(cs)[i].0 <= |cs|
    ensures forall i, j :: 0 <= i < j < |NavReferencesIn(cs)| ==> NavReferencesIn(cs)[i].0 < NavReferencesIn(cs)[j].0
  {
    var s := NavStart(cs, 0);
    if s < |cs| {
      NumberedExact(cs, s + 1, NavEnd(cs, s + 1));
    }
  }

  /** A line reads as an entry naming `f` exactly when it is neither the `nav:` key nor a top-level key and `NavEntry` finds `f` on it. */
  lemma {:induction false} EntryLine(ls: seq<string>, i: nat, f: string)
    requires i < |ls|
    ensures ClassifyNavLines(ls)[i] == Entry(Some(f)) <==>
              Trim(ls[i]) != NAV_KEY && !(ls[i] != [] && ls[i][0] != ' ' && ls[i][0] != '#') && NavEntry(ls[i]) == Some(f)
  {
    ClassifiedAt(ls, i);
  }

  /** Every reported reference names a Markdown file. */
  lemma {:induction false} NavReferencesAreMarkdown(content: string)
    ensures forall i :: 0 <= i < |NavFileReferences(content)| ==> EndsWith(NavFileReferences(content)[i].1, ".md")
  {
    var ls := Lines(content);
    var cs := ClassifyNavLines(ls);
    var refs := NavReferencesIn(cs);
    NavReferencesExact(cs);
    forall i | 0 <= i < |refs| ensures EndsWith(refs[i].1, ".md") {
      assert refs[i] in refs;
      ClassifiedAt(ls, refs[i].0 - 1);
    }
  }

  /** A `": "` after the title's own lies inside the file. */
  lemma {:induction false} SeparatorInFile(title: string, file: string, j: nat)
    requires |title| < j && OccursAt(title + ": " + file, ": ", j)
    ensures |title| + 2 <= j && OccursAt(file, ": ", j - |title| - 2)
  {
    var pos := title + ": " + file;
    assert pos[j] == pos[j..j + 2][0];
    assert pos[|title| + 1] == ' ';
    assert pos == (title + ": ") + file;
    OccursInSecond(title + ": ", file, ": ", j);
  }

  lemma {:induction false} NoSeparatorAfter(title: string, file: string, j: nat)
    requires !Contains(file, ": ") && |title| < j
    ensures !OccursAt(title + ": " + file, ": ", j)
  {
    FindIsFirst(file, ": ");
    if OccursAt(title + ": " + file, ": ", j) {
      SeparatorInFile(title, file, j);
    }
  }

  /** The last `": "` of `title + ": " + file` is the one after the title when the file holds none. */
  lemma {:induction false} LastSeparator(title: string, file: string)
    requires !Contains(file, ": ")
    ensures RFind(title + ": " + file, ": ") == Some(|title|)
  {
    var pos := title + ": " + file;
    var c := |title|;
    assert pos[c..c + 2] == ": ";
    forall j | c < j ensures !OccursAt(pos, ": ", j) {
      NoSeparatorAfter(title, file, j);
    }
    RFindAt(pos, ": ", c);
  }

  /**
    A labelled entry names the file after the last `": "`, so a title may
    itself hold `": "`.
  */
  lemma {:induction false} LabelledEntry(title: string, file: string)
    requires Trim(file) == file && EndsWith(file, ".md") && !Contains(file, ": ")
    ensures NavEntry("- " + title + ": " + file) == Some(file)
  {
    var t := "- " + title + ": " + file;
    assert t[0] == '-' && t[|t| - 1] == file[|file| - 1] == 'd';
    TrimmedAlready(t);
    var pos := t[2..];
    assert pos == title + ": " + file;
    LastSeparator(title, file);
    assert pos[|title| + 2..] == file;
  }

  /** `extract_nav_file_references`. */
  method ExtractNavFileReferences(content: string) returns (results: seq<(nat, string)>)
    ensures results == NavFileReferences(content)
  {
    results := ScanNav(ClassifyNavLines(Lines(content)));
  }

  /** The loop of `extract_nav_file_references`, over the lines as classified. */
  method ScanNav(cs: seq<NavLine>) returns (results: seq<(nat, string)>)
    ensures results == NavReferencesIn(cs)
  {
    results := [];
    var inNav := false;
    var k := 0;
    while k < |cs|
      invariant k <= |cs|
      invariant !inNav ==> results == [] && NavStart(cs, 0) >= k
      invariant inNav ==> NavStart(cs, 0) < k <= NavEnd(cs, NavStart(cs, 0) + 1)
                          && results == Numbered(cs, NavStart(cs, 0) + 1, k)
    {
      match cs[k] {
        case NavKeyLine =>
          inNav := true;
        case TopLevelKey =>
          if inNav {
            break;
          }
        case Entry(entry) =>
          if inNav && entry.Some? {
            results := results + [(k + 1, entry.value)];
          }
      }
      k := k + 1;
    }
  }

  // ── First-level headings and navigation cards ──────────────────────

  /** `extract_h1`: the text of the first `# ` heading outside fenced code blocks. */
  method ExtractH1(content: string) returns (r: Option<string>)
    ensures r == Markdown.FirstH1(Lines(content))
  {
    r := Markdown.ScanH1(Lines(content));
  }

  const CARD_PREFIX := "[:octicons-arrow-right-24: "

  /**
    The title and target of what follows the card prefix: the title runs up
    to the first `](`, the target up to the next `)`, and only a local
    Markdown target counts.
  */
  function CardTarget(rest: string): (r: Option<(string, string)>)
    ensures r.Some? ==> StartsWith(rest, r.value.0 + "](") && !Contains(r.value.0, "](")
    ensures r.Some? ==> EndsWith(r.value.1, ".md") && !StartsWith(r.value.1, "http") && !Contains(r.value.1, ")")
  {
    var bracket := Find(rest, "](");
    if bracket.None? then None
    else
      var b := bracket.value;
      var after := rest[b + 2..];
      var paren := Find(after, ")");
      if paren.None? then None
      else
        var title := rest[..b];
        var filename := after[..paren.value];
        if EndsWith(filename, ".md") && !StartsWith(filename, "http") then
          NothingBeforeFind(rest, "](", b);
          NothingBeforeFind(after, ")", paren.value);
          assert rest[..b + 2] == title + "](";
          Some((title, filename))
        else None
  }

  /** The title and target of a navigation card line, when the target is a local Markdown file. */
  function CardLink(line: string): (r: Option<(string, string)>)
    ensures r.Some? ==> StartsWith(Trim(line), CARD_PREFIX + r.value.0 + "](") && !Contains(r.value.0, "](")
    ensures r.Some? ==> EndsWith(r.value.1, ".md") && !StartsWith(r.value.1, "http") && !Contains(r.value.1, ")")
  {
    var rest := StripPrefix(Trim(line), CARD_PREFIX);
    if rest.None? then None
    else
      var r := CardTarget(rest.value);
      if r.None? then None
      else
        StartsWithAppend(CARD_PREFIX, rest.value, r.value.0 + "](");
        assert CARD_PREFIX + (r.value.0 + "](") == CARD_PREFIX + r.value.0 + "](";
        r
  }

  /** The card link of every line, in line order (see `CardLinkAt`). */
  function CardLinksOf(ls: seq<string>): (links: seq<Option<(string, string)>>)
    ensures |links| == |ls|
  {
    if ls == [] then [] else CardLinksOf(ls[..|ls| - 1]) + [CardLink(ls[|ls| - 1])]
  }

  lemma {:induction false} CardLinkAt(ls: seq<string>, i: nat)
    requires i < |ls|
    ensures CardLinksOf(ls)[i] == CardLink(ls[i])
  {
    if i < |ls| - 1 {
      CardLinkAt(ls[..|ls| - 1], i);
    }
  }

  /** The values present in `xs`, in order. */
  function Present<T>(xs: seq<Option<T>>): seq<T> {
    if xs == [] then []
    else Present(xs[..|xs| - 1]) + (if xs[|xs| - 1].Some? then [xs[|xs| - 1].value] else [])
  }

  /** A value is kept exactly when some element holds it. */
  lemma {:induction false} PresentExact<T>(xs: seq<Option<T>>)
    ensures forall x :: x in Present(xs) <==> Some(x) in xs
  {
    if xs != [] {
      var init := xs[..|xs| - 1];
      PresentExact(init);
      assert xs == init + [xs[|xs| - 1]];
    }
  }

  /** The links `extract_nav_card_links` reports: exactly the card links of the content's lines. */
  lemma {:induction false} CardLinksExact(content: string)
    ensures forall title, file :: (title, file) in Present(CardLinksOf(Lines(content))) <==>
              exists k :: 0 <= k < |Lines(content)| && CardLink(Lines(content)[k]) == Some((title, file))
  {
    var ls := Lines(content);
    var links := CardLinksOf(ls);
    PresentExact(links);
    forall k | 0 <= k < |ls| ensures links[k] == CardLink(ls[k]) {
      CardLinkAt(ls, k);
    }
  }

  /** `extract_nav_card_links`. */
  method ExtractNavCardLinks(content: string) returns (results: seq<(string, string)>)
    ensures results == Present(CardLinksOf(Lines(content)))
  {
    var ls := Lines(content);
    results := [];
    for k := 0 to |ls|
      invariant results == Present(CardLinksOf(ls[..k]))
    {
      var link := CardLink(ls[k]);
      assert ls[..k + 1][..k] == ls[..k];
      if link.Some? {
        results := results + [link.value];
      }
    }
    assert ls[..|ls|] == ls;
  }
}
