/** The strict unified-diff grammar checker of backend/src/services/patchValidator.js.

    The checker looks at the shape of the text only: a `diff --git` first line, header lines,
    hunk headers `@@ -N[,M] +N[,M] @@`, and `+`/`-`/space lines inside hunks. It never reads
    the file the diff is meant for. */
module PatchValidator {
  import opened Wrappers
  import opened Strings

  /** `{ ok: true }` or `{ ok: false, error }`. */
  datatype Verdict = Valid | Invalid(error: string)

  /** The loop's variables: `inHunk`, the declared counts of the open hunk and what was seen. */
  datatype ScanState = ScanState(inHunk: bool, expectedOld: nat, expectedNew: nat, oldSeen: nat, newSeen: nat)

  const Initial := ScanState(false, 0, 0, 0, 0)

  /** The trimmed text must have at least this many characters. */
  const MinTrimmedLength := 10

  const EmptyError := "Empty or invalid diff"
  const HeaderError := "Missing diff header"
  const HunkHeaderError := "Malformed hunk header"

  const InsidePrefix := "Invalid diff line inside hunk: \""
  const OutsidePrefix := "Unexpected line outside hunk: \""

  function InsideHunkError(line: string): string {
    InsidePrefix + line + "\""
  }

  function OutsideHunkError(line: string): string {
    OutsidePrefix + line + "\""
  }

  const OldCountPrefix := "Hunk old_count mismatch: expected "
  const NewCountPrefix := "Hunk new_count mismatch: expected "

  function OldCountError(expected: nat, seen: nat): string {
    OldCountPrefix + NatToString(expected) + ", saw " + NatToString(seen)
  }

  function NewCountError(expected: nat, seen: nat): string {
    NewCountPrefix + NatToString(expected) + ", saw " + NatToString(seen)
  }

  // ---------------------------------------------------------------------------
  // The hunk header pattern /^@@ -(\d+),?(\d*) \+(\d+),?(\d*) @@/
  // ---------------------------------------------------------------------------

  datatype HunkCounts = HunkCounts(oldCount: nat, newCount: nat)

  /** One `(\d+),?(\d*)` range: the start digits are required, the comma is optional and an
      empty count means 1 (`Number(match[k] || 1)`). Gives the count and what follows.
      Every digit run is maximal: the pattern cannot match by giving digits back. */
  function ParseRange(s: string): Option<(nat, string)> {
    var n := DigitRun(s);
    if n == 0 then None else Some(ParseCount(s[n..]))
  }

  /** The `,?(\d*)` part of a range: the count (1 when empty) and what follows. */
  function ParseCount(t: string): (nat, string) {
    var u := if |t| > 0 && t[0] == ',' then t[1..] else t;
    var m := DigitRun(u);
    (if m == 0 then 1 else DecimalValue(u[..m]), u[m..])
  }

  /** The declared counts of a hunk header line, or None when the pattern does not match.
      Text after the closing `@@` is allowed. */
  function ParseHunkHeader(line: string): Option<HunkCounts> {
    if !StartsWith(line, "@@ -") then None
    else
      match ParseRange(line[4..])
      case None => None
      case Some((oldCount, rest)) =>
        if !StartsWith(rest, " +") then None
        else
          match ParseRange(rest[2..])
          case None => None
          case Some((newCount, tail)) =>
            if StartsWith(tail, " @@") then Some(HunkCounts(oldCount, newCount)) else None
  }

  // ---------------------------------------------------------------------------
  // The scan, one line at a time
  // ---------------------------------------------------------------------------

  datatype Step = Next(st: ScanState) | Stop(error: string)

  /** What the loop body does with one line, branch for branch in the order of the source:
      headers first (so `--- `, `+++ ` and `diff --git` lines are accepted inside a hunk
      too), then hunk headers, then hunk lines, then the lines allowed outside a hunk. */
  function StepLine(st: ScanState, line: string): Step {
    if StartsWith(line, "diff --git") then Next(st.(inHunk := false))
    else if StartsWith(line, "--- ") then Next(st)
    else if StartsWith(line, "+++ ") then Next(st)
    else if StartsWith(line, "@@") then
      match ParseHunkHeader(line)
      case None => Stop(HunkHeaderError)
      case Some(h) => Next(ScanState(true, h.oldCount, h.newCount, 0, 0))
    else if st.inHunk then
      if StartsWith(line, "+") && !StartsWith(line, "+++") then Next(st.(newSeen := st.newSeen + 1))
      else if StartsWith(line, "-") && !StartsWith(line, "---") then Next(st.(oldSeen := st.oldSeen + 1))
      else if StartsWith(line, " ") then Next(st.(oldSeen := st.oldSeen + 1, newSeen := st.newSeen + 1))
      else if line == "+" then Next(st.(newSeen := st.newSeen + 1))
      else Stop(InsideHunkError(line))
    else if |Trim(line)| == 0 then Next(st)
    else if StartsWith(line, "index ") then Next(st)
    else if StartsWith(line, "new file mode") then Next(st)
    else if StartsWith(line, "deleted file mode") then Next(st)
    else Stop(OutsideHunkError(line))
  }

  function ScanLines(lines: seq<string>, st: ScanState): Step
    decreases |lines|
  {
    if |lines| == 0 then Next(st)
    else
      match StepLine(st, lines[0])
      case Stop(e) => Stop(e)
      case Next(st') => ScanLines(lines[1..], st')
  }

  /** The count check after the loop: only the hunk still open, only shortfalls, a declared
      count of 0 is not checked, and the old count is checked first. */
  function FinalCheck(st: ScanState): Verdict {
    if st.inHunk && st.expectedOld != 0 && st.oldSeen < st.expectedOld then
      Invalid(OldCountError(st.expectedOld, st.oldSeen))
    else if st.inHunk && st.expectedNew != 0 && st.newSeen < st.expectedNew then
      Invalid(NewCountError(st.expectedNew, st.newSeen))
    else Valid
  }

  /** The verdict on a diff; `None` stands for a value that is not a string. */
  function Validate(diff: Option<string>): Verdict {
    if diff.None? || |Trim(diff.value)| < MinTrimmedLength then Invalid(EmptyError)
    else
      var lines := SplitLines(diff.value);
      if !StartsWith(lines[0], "diff --git") then Invalid(HeaderError)
      else ScanVerdict(lines)
  }

  /** The verdict of the loop and the count check after it. */
  function ScanVerdict(lines: seq<string>): Verdict {
    match ScanLines(lines, Initial)
    case Stop(e) => Invalid(e)
    case Next(st) => FinalCheck(st)
  }

  /** The body of the loop of `validateUnifiedDiff` on one line, with its `continue`s and
      its early return: the line's step is `StepLine`'s. */
  method ScanLine(st: ScanState, line: string) returns (step: Step)
    ensures step == StepLine(st, line)
  {
    if StartsWith(line, "diff --git") {
      return Next(st.(inHunk := false));
    }
    if StartsWith(line, "--- ") { return Next(st); }
    if StartsWith(line, "+++ ") { return Next(st); }
    if StartsWith(line, "@@") {
      var header := ParseHunkHeader(line);
      if header.None? {
        return Stop(HunkHeaderError);
      }
      return Next(ScanState(true, header.value.oldCount, header.value.newCount, 0, 0));
    }
    if st.inHunk {
      if StartsWith(line, "+") && !StartsWith(line, "+++") {
        return Next(st.(newSeen := st.newSeen + 1));
      }
      if StartsWith(line, "-") && !StartsWith(line, "---") {
        return Next(st.(oldSeen := st.oldSeen + 1));
      }
      if StartsWith(line, " ") {
        return Next(st.(oldSeen := st.oldSeen + 1, newSeen := st.newSeen + 1));
      }
      if line == "+" {
        // a lone `+` has already been counted by the first test
        assert false;
      }
      return Stop(InsideHunkError(line));
    }
    if |Trim(line)| == 0 { return Next(st); }
    if StartsWith(line, "index ") { return Next(st); }
    if StartsWith(line, "new file mode") { return Next(st); }
    if StartsWith(line, "deleted file mode") { return Next(st); }
    return Stop(OutsideHunkError(line));
  }

  /** `validateUnifiedDiff(diff, originalFile)`: the loop over the lines with its early
      returns. The verdict is `Validate(diff)`, whatever `originalFile` is. */
  method ValidateUnifiedDiff(diff: Option<string>, originalFile: string) returns (v: Verdict)
    ensures v == Validate(diff)
  {
    if diff.None? || |Trim(diff.value)| < MinTrimmedLength {
      return Invalid(EmptyError);
    }
    var lines := SplitLines(diff.value);
    if !StartsWith(lines[0], "diff --git") {
      return Invalid(HeaderError);
    }
    // `inHunk`, the two expected counts and the two seen counts
    var st := Initial;
    for i := 0 to |lines|
      invariant ScanLines(lines, Initial) == ScanLines(lines[i..], st)
    {
      assert lines[i..][0] == lines[i] && lines[i..][1..] == lines[i + 1..];
      var step := ScanLine(st, lines[i]);
      if step.Stop? {
        return Invalid(step.error);
      }
      st := step.st;
    }
    if st.inHunk {
      if st.expectedOld != 0 && st.oldSeen < st.expectedOld {
        return Invalid(OldCountError(st.expectedOld, st.oldSeen));
      }
      if st.expectedNew != 0 && st.newSeen < st.expectedNew {
        return Invalid(NewCountError(st.expectedNew, st.newSeen));
      }
    }
    return Valid;
  }


  // ---------------------------------------------------------------------------
  // Properties of the verdict
  // ---------------------------------------------------------------------------

  /** The errors the scan and the count check can produce. */
  predicate ScanError(e: string) {
    e == HunkHeaderError || StartsWith(e, InsidePrefix) || StartsWith(e, OutsidePrefix)
    || StartsWith(e, OldCountPrefix) || StartsWith(e, NewCountPrefix)
  }

  lemma StepErrorIsScanError(st: ScanState, line: string)
    ensures StepLine(st, line).Stop? ==> ScanError(StepLine(st, line).error)
  {
    StartsWithConcat(InsidePrefix, line + "\"");
    assert InsideHunkError(line) == InsidePrefix + (line + "\"");
    StartsWithConcat(OutsidePrefix, line + "\"");
    assert OutsideHunkError(line) == OutsidePrefix + (line + "\"");
  }

  lemma {:induction false} ScanErrorsAreScanErrors(lines: seq<string>, st: ScanState)
    ensures ScanLines(lines, st).Stop? ==> ScanError(ScanLines(lines, st).error)
    decreases |lines|
  {
    if |lines| > 0 {
      StepErrorIsScanError(st, lines[0]);
      match StepLine(st, lines[0])
      case Stop(e) =>
      case Next(st') => ScanErrorsAreScanErrors(lines[1..], st');
    }
  }

  lemma FinalErrorIsScanError(st: ScanState)
    ensures FinalCheck(st).Invalid? ==> ScanError(FinalCheck(st).error)
  {
    var o := NatToString(st.expectedOld) + ", saw " + NatToString(st.oldSeen);
    StartsWithConcat(OldCountPrefix, o);
    assert OldCountError(st.expectedOld, st.oldSeen) == OldCountPrefix + o;
    var n := NatToString(st.expectedNew) + ", saw " + NatToString(st.newSeen);
    StartsWithConcat(NewCountPrefix, n);
    assert NewCountError(st.expectedNew, st.newSeen) == NewCountPrefix + n;
  }

  /** The loop and the count check report only scan errors. */
  lemma ScanVerdictErrors(lines: seq<string>)
    ensures ScanVerdict(lines) == Valid || ScanError(ScanVerdict(lines).error)
  {
    ScanErrorsAreScanErrors(lines, Initial);
    if ScanLines(lines, Initial).Next? {
      FinalErrorIsScanError(ScanLines(lines, Initial).st);
    }
  }

  lemma FixedErrorsDistinct()
    ensures !ScanError(EmptyError) && !ScanError(HeaderError) && EmptyError != HeaderError
  {
    assert EmptyError[0] == 'E' && HeaderError[0] == 'M' && HeaderError[1] == 'i';
    assert HunkHeaderError[1] == 'a';
    assert |EmptyError| < |InsidePrefix| && |EmptyError| < |OutsidePrefix|;
    assert |HeaderError| < |InsidePrefix| && |HeaderError| < |OutsidePrefix|;
    assert |EmptyError| < |OldCountPrefix| && |EmptyError| < |NewCountPrefix|;
    assert |HeaderError| < |OldCountPrefix| && |HeaderError| < |NewCountPrefix|;
  }

  /** "Empty or invalid diff" exactly when the input is not a string or its trimmed text is
      shorter than 10 characters; every other error is "Missing diff header" or a scan error. */
  lemma EmptyInputRejected(diff: Option<string>)
    ensures Validate(diff) == Invalid(EmptyError)
        <==> diff.None? || |Trim(diff.value)| < MinTrimmedLength
    ensures Validate(diff) == Valid || Validate(diff).error == EmptyError
         || Validate(diff).error == HeaderError || ScanError(Validate(diff).error)
  {
    FixedErrorsDistinct();
    if diff.Some? && |Trim(diff.value)| >= MinTrimmedLength {
      ScanVerdictErrors(SplitLines(diff.value));
    }
  }

  /** "Missing diff header" exactly when the input passes the length check and the text
      before the first line feed does not start with `diff --git`; no other line matters. */
  lemma MissingHeaderRejected(d: string, k: nat)
    requires k <= |d| && (k == |d| || d[k] == '\n')
    requires forall i :: 0 <= i < k ==> d[i] != '\n'
    ensures Validate(Some(d)) == Invalid(HeaderError)
        <==> |Trim(d)| >= MinTrimmedLength && !StartsWith(d[..k], "diff --git")
  {
    SplitLinesFirst(d, k);
    FixedErrorsDistinct();
    if |Trim(d)| >= MinTrimmedLength {
      ScanVerdictErrors(SplitLines(d));
    }
  }

  /** The count forms a hunk header range can take: `N`, `N,` and `N,M`. */
  datatype CountForm = Omitted | EmptyCount | Given(n: nat)

  function CountText(c: CountForm): string {
    match c
    case Omitted => ""
    case EmptyCount => ","
    case Given(n) => "," + NatToString(n)
  }

  /** The count a form declares: an omitted or empty count means 1. */
  function CountValue(c: CountForm): nat {
    match c
    case Given(n) => n
    case _ => 1
  }

  /** One `N[,M]` range as a header writes it. */
  function RangeText(start: nat, c: CountForm): string {
    NatToString(start) + CountText(c)
  }

  function HunkHeaderText(oldStart: nat, oldCount: CountForm, newStart: nat, newCount: CountForm): string {
    "@@ -" + RangeText(oldStart, oldCount) + " +" + RangeText(newStart, newCount) + " @@"
  }

  lemma DropPrefix(p: string, x: string)
    ensures StartsWith(p + x, p) && (p + x)[|p|..] == x
  {
    assert (p + x)[..|p|] == p;
  }

  lemma ParseRangeOfDigits(d: string, rest: string)
    requires |d| > 0 && AllDigits(d)
    requires rest == [] || !IsDigit(rest[0])
    ensures ParseRange(d + rest) == Some(ParseCount(rest))
  {
    DigitRunOfDigits(d, rest);
    assert (d + rest)[|d|..] == rest;
  }

  lemma ParseCountRendered(c: CountForm, t: string)
    requires |t| > 0 && t[0] == ' '
    ensures ParseCount(CountText(c) + t) == (CountValue(c), t)
  {
    match c
    case Omitted =>
      assert CountText(c) + t == t;
      assert t[0..] == t;
    case EmptyCount =>
      ParseEmptyCount(t);
    case Given(n) =>
      ParseGivenCount(n, t);
  }

  /** A comma followed by no digit declares the default count. */
  lemma ParseEmptyCount(t: string)
    requires |t| > 0 && !IsDigit(t[0])
    ensures ParseCount("," + t) == (1, t)
  {
    var s := "," + t;
    assert s[0] == ',' && s[1..] == t;
    assert t[0..] == t;
  }

  /** A comma and the digits of `n`, then a text that does not start with a digit. */
  lemma ParseGivenCount(n: nat, t: string)
    requires |t| > 0 && !IsDigit(t[0])
    ensures ParseCount(("," + NatToString(n)) + t) == (n, t)
  {
    var m := NatToString(n);
    var s := ("," + m) + t;
    DecimalRoundTrip(n);
    assert s[0] == ',' && s[1..] == m + t;
    DigitRunOfDigits(m, t);
    assert (m + t)[..|m|] == m;
    assert (m + t)[|m|..] == t;
  }

  lemma ParseRangeRendered(start: nat, c: CountForm, t: string)
    requires |t| > 0 && t[0] == ' '
    ensures ParseRange(RangeText(start, c) + t) == Some((CountValue(c), t))
  {
    DecimalRoundTrip(start);
    assert RangeText(start, c) + t == NatToString(start) + (CountText(c) + t);
    assert (CountText(c) + t)[0] == if c.Omitted? then ' ' else ',';
    ParseRangeOfDigits(NatToString(start), CountText(c) + t);
    ParseCountRendered(c, t);
  }

  /** The pattern matches `@@ -`, a range, ` +`, a range and ` @@`, in that order. */
  lemma ParseHunkHeaderParts(a: string, b: string, trailing: string, oc: nat, nc: nat)
    requires ParseRange(a + (" +" + (b + (" @@" + trailing)))) == Some((oc, " +" + (b + (" @@" + trailing))))
    requires ParseRange(b + (" @@" + trailing)) == Some((nc, " @@" + trailing))
    ensures ParseHunkHeader("@@ -" + (a + (" +" + (b + (" @@" + trailing))))) == Some(HunkCounts(oc, nc))
  {
    DropPrefix("@@ -", a + (" +" + (b + (" @@" + trailing))));
    DropPrefix(" +", b + (" @@" + trailing));
    DropPrefix(" @@", trailing);
  }

  /** A header written in any of the three count forms, followed by any text, parses to the
      counts it declares. */
  lemma HunkHeaderRoundTrip(oldStart: nat, oldCount: CountForm, newStart: nat, newCount: CountForm, trailing: string)
    ensures ParseHunkHeader(HunkHeaderText(oldStart, oldCount, newStart, newCount) + trailing)
         == Some(HunkCounts(CountValue(oldCount), CountValue(newCount)))
  {
    var a, b := RangeText(oldStart, oldCount), RangeText(newStart, newCount);
    var tail := " @@" + trailing;
    var rest := " +" + (b + tail);
    assert HunkHeaderText(oldStart, oldCount, newStart, newCount) + trailing == "@@ -" + (a + rest);
    ParseRangeRendered(oldStart, oldCount, rest);
    ParseRangeRendered(newStart, newCount, tail);
    ParseHunkHeaderParts(a, b, trailing, CountValue(oldCount), CountValue(newCount));
  }

  /** A line that starts with `@@` opens a new hunk with fresh counters when it matches the
      pattern (the previous hunk is not checked) and is "Malformed hunk header" otherwise. */
  lemma HunkHeaderLine(st: ScanState, line: string)
    requires StartsWith(line, "@@")
    ensures StepLine(st, line) == match ParseHunkHeader(line)
      case None => Stop(HunkHeaderError)
      case Some(h) => Next(ScanState(true, h.oldCount, h.newCount, 0, 0))
  {
    assert line[0] == '@';
  }

  /** The lines allowed outside a hunk. */
  predicate AcceptedOutsideHunk(line: string) {
    AllWhitespace(line) || StartsWith(line, "diff --git") || StartsWith(line, "--- ")
    || StartsWith(line, "+++ ") || StartsWith(line, "index ")
    || StartsWith(line, "new file mode") || StartsWith(line, "deleted file mode")
  }

  /** Outside a hunk, a line that is not a hunk header is accepted, leaving the state as it
      is, exactly when it is blank or one of the header lines; any other line is rejected
      with the line quoted. */
  lemma OutsideHunkLine(st: ScanState, line: string)
    requires !st.inHunk && !StartsWith(line, "@@")
    ensures StepLine(st, line) == if AcceptedOutsideHunk(line) then Next(st) else Stop(OutsideHunkError(line))
  {
    TrimEmptyIffWhitespace(line);
  }

  /** Inside a hunk, a line that is neither a file header nor a hunk header counts as new
      (`+`), old (`-`) or both (a leading space); anything else, the empty line included,
      is rejected with the line quoted. A lone `+` is an addition. */
  lemma InsideHunkLine(st: ScanState, line: string)
    requires st.inHunk
    requires !StartsWith(line, "diff --git") && !StartsWith(line, "--- ") && !StartsWith(line, "+++ ")
    requires !StartsWith(line, "@@")
    ensures StepLine(st, line) ==
      if StartsWith(line, "+") && !StartsWith(line, "+++") then Next(st.(newSeen := st.newSeen + 1))
      else if StartsWith(line, "-") && !StartsWith(line, "---") then Next(st.(oldSeen := st.oldSeen + 1))
      else if StartsWith(line, " ") then Next(st.(oldSeen := st.oldSeen + 1, newSeen := st.newSeen + 1))
      else Stop(InsideHunkError(line))
    ensures line == "+" ==> StepLine(st, line) == Next(st.(newSeen := st.newSeen + 1))
  {
  }

  /** The count check passes exactly when no hunk is open or neither declared non-zero count
      is short; when both are short, the old count is reported. */
  lemma FinalCheckShortfallOnly(st: ScanState)
    ensures FinalCheck(st) == Valid <==>
      !st.inHunk || ((st.expectedOld == 0 || st.oldSeen >= st.expectedOld)
                     && (st.expectedNew == 0 || st.newSeen >= st.expectedNew))
    ensures st.inHunk && 0 != st.expectedOld && st.oldSeen < st.expectedOld ==>
      FinalCheck(st) == Invalid(OldCountError(st.expectedOld, st.oldSeen))
  {
  }

  lemma {:induction false} ScanAppend(xs: seq<string>, ys: seq<string>, st: ScanState)
    ensures ScanLines(xs + ys, st) == match ScanLines(xs, st)
      case Stop(e) => Stop(e)
      case Next(s) => ScanLines(ys, s)
    decreases |xs|
  {
    if |xs| == 0 {
      assert xs + ys == ys;
    } else {
      assert (xs + ys)[0] == xs[0];
      assert (xs + ys)[1..] == xs[1..] + ys;
      match StepLine(st, xs[0])
      case Stop(e) =>
      case Next(s) => ScanAppend(xs[1..], ys, s);
    }
  }

  // ---------------------------------------------------------------------------
  // Diffs written out line by line
  // ---------------------------------------------------------------------------

  /** A hunk body line: an addition, a deletion or an unchanged context line. */
  datatype HunkLine = Added(text: string) | Deleted(text: string) | Context(text: string)

  datatype Hunk = Hunk(oldStart: nat, oldCount: CountForm, newStart: nat, newCount: CountForm, body: seq<HunkLine>)

  /** The hunks of one file, under a `diff --git a/<path> b/<path>` header. */
  datatype FileDiff = FileDiff(path: string, hunks: seq<Hunk>)

  function RenderLine(l: HunkLine): string {
    match l
    case Added(t) => "+" + t
    case Deleted(t) => "-" + t
    case Context(t) => " " + t
  }

  /** A body line that reads back as itself: no line feed, and an addition or a deletion
      whose marker is not part of a `+++`/`---` run. */
  predicate WellFormedLine(l: HunkLine) {
    NoLineFeed(l.text)
    && (l.Added? ==> !StartsWith(l.text, "++"))
    && (l.Deleted? ==> !StartsWith(l.text, "--"))
  }

  predicate WellFormedFile(f: FileDiff) {
    NoLineFeed(f.path) && forall h <- f.hunks :: forall l <- h.body :: WellFormedLine(l)
  }

  /** The lines a hunk body has on the old side (deletions and context). */
  function OldLines(body: seq<HunkLine>): nat {
    if |body| == 0 then 0 else (if body[0].Added? then 0 else 1) + OldLines(body[1..])
  }

  /** The lines a hunk body has on the new side (additions and context). */
  function NewLines(body: seq<HunkLine>): nat {
    if |body| == 0 then 0 else (if body[0].Deleted? then 0 else 1) + NewLines(body[1..])
  }

  /** A hunk whose header declares the counts its body has. */
  predicate ExactCounts(h: Hunk) {
    CountValue(h.oldCount) == OldLines(h.body) && CountValue(h.newCount) == NewLines(h.body)
  }

  function BodyLines(body: seq<HunkLine>): seq<string> {
    if |body| == 0 then [] else [RenderLine(body[0])] + BodyLines(body[1..])
  }

  function HunkLines(h: Hunk): seq<string> {
    [HunkHeaderText(h.oldStart, h.oldCount, h.newStart, h.newCount)] + BodyLines(h.body)
  }

  function HunksLines(hs: seq<Hunk>): seq<string> {
    if |hs| == 0 then [] else HunkLines(hs[0]) + HunksLines(hs[1..])
  }

  function DiffHeader(path: string): string {
    "diff --git a/" + path + " b/" + path
  }

  function FileLines(f: FileDiff): seq<string> {
    [DiffHeader(f.path), "--- a/" + f.path, "+++ b/" + f.path] + HunksLines(f.hunks)
  }

  function DiffLines(files: seq<FileDiff>): seq<string> {
    if |files| == 0 then [] else FileLines(files[0]) + DiffLines(files[1..])
  }

  /** The text `git diff` would print for these files. */
  function RenderDiff(files: seq<FileDiff>): string {
    Join(DiffLines(files), "\n")
  }

  /** The state the scan is in at the end of a hunk. */
  function HunkEnd(h: Hunk): ScanState {
    ScanState(true, CountValue(h.oldCount), CountValue(h.newCount), OldLines(h.body), NewLines(h.body))
  }

  /** What the checker decides on a well-formed diff: only the last hunk of the last file
      has its counts checked, and a last file without hunks is never checked. */
  function ExpectedVerdict(files: seq<FileDiff>): Verdict
    requires |files| > 0
  {
    var f := files[|files| - 1];
    if |f.hunks| == 0 then Valid else FinalCheck(HunkEnd(f.hunks[|f.hunks| - 1]))
  }

  lemma StartsWithCons(c: char, t: string, q: string)
    ensures StartsWith([c] + t, [c] + q) <==> StartsWith(t, q)
  {
    if |q| <= |t| {
      assert ([c] + t)[..|q| + 1] == [c] + t[..|q|];
      assert ([c] + t[..|q|])[1..] == t[..|q|] && ([c] + q)[1..] == q;
    }
  }

  /** The file and hunk header prefixes that a line starting with `c` cannot have. */
  lemma NoHeaderPrefix(line: string)
    requires |line| > 0 && line[0] != 'd' && line[0] != '-' && line[0] != '+' && line[0] != '@'
    ensures !StartsWith(line, "diff --git") && !StartsWith(line, "--- ") && !StartsWith(line, "+++ ")
    ensures !StartsWith(line, "@@") && !StartsWith(line, "+") && !StartsWith(line, "-")
  {
    NotStartsWith(line, "diff --git");
    NotStartsWith(line, "--- ");
    NotStartsWith(line, "+++ ");
    NotStartsWith(line, "@@");
    NotStartsWith(line, "+");
    NotStartsWith(line, "-");
  }

  lemma StepAdded(st: ScanState, t: string)
    requires st.inHunk && !StartsWith(t, "++")
    ensures StepLine(st, "+" + t) == Next(st.(newSeen := st.newSeen + 1))
  {
    var line := "+" + t;
    assert line[0] == '+';
    NotStartsWith(line, "diff --git");
    NotStartsWith(line, "--- ");
    NotStartsWith(line, "@@");
    NotStartsWith(line, "-");
    StartsWithConcat("+", t);
    StartsWithCons('+', t, "++");
    StartsWithCons('+', t, "++ ");
    if StartsWith(t, "++ ") {
      StartsWithTrans(t, "++ ", "++");
    }
    InsideHunkLine(st, line);
  }

  lemma StepDeleted(st: ScanState, t: string)
    requires st.inHunk && !StartsWith(t, "--")
    ensures StepLine(st, "-" + t) == Next(st.(oldSeen := st.oldSeen + 1))
  {
    var line := "-" + t;
    assert line[0] == '-';
    NotStartsWith(line, "diff --git");
    NotStartsWith(line, "+++ ");
    NotStartsWith(line, "@@");
    NotStartsWith(line, "+");
    StartsWithConcat("-", t);
    StartsWithCons('-', t, "--");
    StartsWithCons('-', t, "-- ");
    if StartsWith(t, "-- ") {
      StartsWithTrans(t, "-- ", "--");
    }
    InsideHunkLine(st, line);
  }

  lemma StepContext(st: ScanState, t: string)
    requires st.inHunk
    ensures StepLine(st, " " + t) == Next(st.(oldSeen := st.oldSeen + 1, newSeen := st.newSeen + 1))
  {
    var line := " " + t;
    assert line[0] == ' ';
    NoHeaderPrefix(line);
    StartsWithConcat(" ", t);
    InsideHunkLine(st, line);
  }

  lemma StepBodyLine(st: ScanState, l: HunkLine)
    requires st.inHunk && WellFormedLine(l)
    ensures StepLine(st, RenderLine(l)) == Next(st.(oldSeen := st.oldSeen + (if l.Added? then 0 else 1),
                                                    newSeen := st.newSeen + (if l.Deleted? then 0 else 1)))
  {
    match l
    case Added(t) => StepAdded(st, t);
    case Deleted(t) => StepDeleted(st, t);
    case Context(t) => StepContext(st, t);
  }

  lemma {:induction false} ScanBody(body: seq<HunkLine>, st: ScanState)
    requires st.inHunk && forall l <- body :: WellFormedLine(l)
    ensures ScanLines(BodyLines(body), st)
         == Next(st.(oldSeen := st.oldSeen + OldLines(body), newSeen := st.newSeen + NewLines(body)))
    decreases |body|
  {
    if |body| > 0 {
      assert body[0] in body;
      StepBodyLine(st, body[0]);
      var st' := st.(oldSeen := st.oldSeen + (if body[0].Added? then 0 else 1),
                     newSeen := st.newSeen + (if body[0].Deleted? then 0 else 1));
      assert forall l <- body[1..] :: l in body;
      ScanBody(body[1..], st');
      ScanCons(RenderLine(body[0]), BodyLines(body[1..]), st);
    }
  }

  /** A rendered hunk header is a well-formed `@@` line declaring the header's counts. */
  lemma HeaderTextFacts(h: Hunk)
    ensures var text := HunkHeaderText(h.oldStart, h.oldCount, h.newStart, h.newCount);
      StartsWith(text, "@@") && !StartsWith(text, "diff --git")
      && !StartsWith(text, "--- ") && !StartsWith(text, "+++ ")
      && ParseHunkHeader(text) == Some(HunkCounts(CountValue(h.oldCount), CountValue(h.newCount)))
  {
    var text := HunkHeaderText(h.oldStart, h.oldCount, h.newStart, h.newCount);
    var rest := RangeText(h.oldStart, h.oldCount) + " +" + RangeText(h.newStart, h.newCount) + " @@";
    assert text == "@@ -" + rest;
    StartsWithConcat("@@ -", rest);
    assert StartsWith("@@ -", "@@");
    StartsWithTrans(text, "@@ -", "@@");
    assert text[0] == '@';
    NotStartsWith(text, "diff --git");
    NotStartsWith(text, "--- ");
    NotStartsWith(text, "+++ ");
    HunkHeaderRoundTrip(h.oldStart, h.oldCount, h.newStart, h.newCount, "");
    assert text + "" == text;
  }

  /** Scanning a line followed by more lines. */
  lemma ScanCons(x: string, rest: seq<string>, st: ScanState)
    ensures StepLine(st, x).Stop? ==> ScanLines([x] + rest, st) == StepLine(st, x)
    ensures StepLine(st, x).Next? ==> ScanLines([x] + rest, st) == ScanLines(rest, StepLine(st, x).st)
  {
    assert ([x] + rest)[0] == x && ([x] + rest)[1..] == rest;
  }

  /** A hunk header line declaring `oc` and `nc`, followed by body lines. */
  lemma ScanHeaderAndBody(header: string, body: seq<HunkLine>, st: ScanState, oc: nat, nc: nat)
    requires StartsWith(header, "@@") && !StartsWith(header, "diff --git")
    requires !StartsWith(header, "--- ") && !StartsWith(header, "+++ ")
    requires ParseHunkHeader(header) == Some(HunkCounts(oc, nc))
    requires forall l <- body :: WellFormedLine(l)
    ensures ScanLines([header] + BodyLines(body), st) == Next(ScanState(true, oc, nc, OldLines(body), NewLines(body)))
  {
    HunkHeaderLine(st, header);
    ScanBody(body, ScanState(true, oc, nc, 0, 0));
    ScanCons(header, BodyLines(body), st);
  }

  lemma ScanHunk(h: Hunk, st: ScanState)
    requires forall l <- h.body :: WellFormedLine(l)
    ensures ScanLines(HunkLines(h), st) == Next(HunkEnd(h))
  {
    HeaderTextFacts(h);
    ScanHeaderAndBody(HunkHeaderText(h.oldStart, h.oldCount, h.newStart, h.newCount), h.body, st,
                      CountValue(h.oldCount), CountValue(h.newCount));
  }

  lemma {:induction false} ScanHunks(hs: seq<Hunk>, st: ScanState)
    requires forall h <- hs :: forall l <- h.body :: WellFormedLine(l)
    ensures ScanLines(HunksLines(hs), st) == Next(if |hs| == 0 then st else HunkEnd(hs[|hs| - 1]))
    decreases |hs|
  {
    if |hs| > 0 {
      assert hs[0] in hs;
      ScanHunk(hs[0], st);
      assert forall h <- hs[1..] :: h in hs;
      ScanHunks(hs[1..], HunkEnd(hs[0]));
      ScanAppend(HunkLines(hs[0]), HunksLines(hs[1..]), st);
      if |hs| > 1 {
        assert hs[1..][|hs| - 2] == hs[|hs| - 1];
      }
    }
  }

  lemma ScanFileHeader(st: ScanState, path: string)
    ensures ScanLines([DiffHeader(path), "--- a/" + path, "+++ b/" + path], st) == Next(st.(inHunk := false))
  {
    var a, b, c := DiffHeader(path), "--- a/" + path, "+++ b/" + path;
    assert a == "diff --git" + (" a/" + path + " b/" + path);
    StartsWithConcat("diff --git", " a/" + path + " b/" + path);
    assert b == "--- " + ("a/" + path) && b[0] == '-';
    StartsWithConcat("--- ", "a/" + path);
    assert c == "+++ " + ("b/" + path) && c[0] == '+';
    StartsWithConcat("+++ ", "b/" + path);
    var st' := st.(inHunk := false);
    assert StepLine(st, a) == Next(st');
    assert StepLine(st', b) == Next(st');
    assert StepLine(st', c) == Next(st');
    assert [a, b, c][1..] == [b, c] && [b, c][1..] == [c];
    assert ScanLines([c], st') == Next(st');
    assert ScanLines([b, c], st') == Next(st');
  }

  /** The state after a file: its last hunk, or closed when it has none. */
  function FileEnd(f: FileDiff, st: ScanState): ScanState {
    if |f.hunks| == 0 then st.(inHunk := false) else HunkEnd(f.hunks[|f.hunks| - 1])
  }

  lemma ScanFile(f: FileDiff, st: ScanState)
    requires WellFormedFile(f)
    ensures ScanLines(FileLines(f), st) == Next(FileEnd(f, st))
  {
    ScanFileHeader(st, f.path);
    ScanHunks(f.hunks, st.(inHunk := false));
    ScanAppendNext([DiffHeader(f.path), "--- a/" + f.path, "+++ b/" + f.path], HunksLines(f.hunks), st, st.(inHunk := false));
  }

  lemma ScanAppendNext(xs: seq<string>, ys: seq<string>, st: ScanState, mid: ScanState)
    requires ScanLines(xs, st) == Next(mid)
    ensures ScanLines(xs + ys, st) == ScanLines(ys, mid)
  {
    ScanAppend(xs, ys, st);
  }

  /** The state after a sequence of files. */
  function DiffEnd(files: seq<FileDiff>, st: ScanState): ScanState
    decreases |files|
  {
    if |files| == 0 then st else DiffEnd(files[1..], FileEnd(files[0], st))
  }

  lemma {:induction false} ScanDiff(files: seq<FileDiff>, st: ScanState)
    requires forall f <- files :: WellFormedFile(f)
    ensures ScanLines(DiffLines(files), st) == Next(DiffEnd(files, st))
    decreases |files|
  {
    if |files| > 0 {
      var f := files[0];
      assert f in files;
      var mid := FileEnd(f, st);
      ScanFile(f, st);
      ScanAppendNext(FileLines(f), DiffLines(files[1..]), st, mid);
      assert forall g <- files[1..] :: g in files;
      ScanDiff(files[1..], mid);
    }
  }

  /** Only the last file decides where the scan ends up: in its last hunk, or outside
      any hunk when it has none. */
  lemma {:induction false} DiffEndLast(files: seq<FileDiff>, st: ScanState)
    requires |files| > 0
    ensures FinalCheck(DiffEnd(files, st)) == ExpectedVerdict(files)
    ensures DiffEnd(files, st).inHunk <==> |files[|files| - 1].hunks| > 0
    decreases |files|
  {
    if |files| == 1 {
      assert DiffEnd(files[1..], FileEnd(files[0], st)) == FileEnd(files[0], st);
    } else {
      DiffEndLast(files[1..], FileEnd(files[0], st));
      assert files[1..][|files| - 2] == files[|files| - 1];
    }
  }

  // ---------------------------------------------------------------------------
  // The verdict on a rendered diff
  // ---------------------------------------------------------------------------

  lemma RenderLineNoLineFeed(l: HunkLine)
    requires NoLineFeed(l.text)
    ensures NoLineFeed(RenderLine(l))
  {
    NoLineFeedNotIn(l.text);
    NoLineFeedNotIn(RenderLine(l));
  }

  lemma RangeTextNoLineFeed(start: nat, c: CountForm)
    ensures NoLineFeed(RangeText(start, c))
  {
    DecimalRoundTrip(start);
    DigitsNoLineFeed(NatToString(start));
    if c.Given? {
      DecimalRoundTrip(c.n);
      DigitsNoLineFeed(NatToString(c.n));
      NoLineFeedConcat(",", NatToString(c.n));
    }
    NoLineFeedConcat(NatToString(start), CountText(c));
  }

  lemma HeaderTextNoLineFeed(h: Hunk)
    ensures NoLineFeed(HunkHeaderText(h.oldStart, h.oldCount, h.newStart, h.newCount))
  {
    var a, b := RangeText(h.oldStart, h.oldCount), RangeText(h.newStart, h.newCount);
    RangeTextNoLineFeed(h.oldStart, h.oldCount);
    RangeTextNoLineFeed(h.newStart, h.newCount);
    NoLineFeedConcat("@@ -", a);
    NoLineFeedConcat("@@ -" + a, " +");
    NoLineFeedConcat("@@ -" + a + " +", b);
    NoLineFeedConcat("@@ -" + a + " +" + b, " @@");
  }

  lemma {:induction false} BodyLinesNoLineFeed(body: seq<HunkLine>)
    requires forall l <- body :: WellFormedLine(l)
    ensures LinesWithoutLineFeed(BodyLines(body))
    decreases |body|
  {
    if |body| > 0 {
      assert body[0] in body;
      RenderLineNoLineFeed(body[0]);
      assert forall l <- body[1..] :: l in body;
      BodyLinesNoLineFeed(body[1..]);
      LinesConcat([RenderLine(body[0])], BodyLines(body[1..]));
    }
  }

  lemma {:induction false} HunksLinesNoLineFeed(hs: seq<Hunk>)
    requires forall h <- hs :: forall l <- h.body :: WellFormedLine(l)
    ensures LinesWithoutLineFeed(HunksLines(hs))
    decreases |hs|
  {
    if |hs| > 0 {
      var h := hs[0];
      assert h in hs;
      HeaderTextNoLineFeed(h);
      BodyLinesNoLineFeed(h.body);
      LinesConcat([HunkHeaderText(h.oldStart, h.oldCount, h.newStart, h.newCount)], BodyLines(h.body));
      assert forall g <- hs[1..] :: g in hs;
      HunksLinesNoLineFeed(hs[1..]);
      LinesConcat(HunkLines(h), HunksLines(hs[1..]));
    }
  }

  lemma {:induction false} DiffLinesNoLineFeed(files: seq<FileDiff>)
    requires forall f <- files :: WellFormedFile(f)
    ensures LinesWithoutLineFeed(DiffLines(files))
    decreases |files|
  {
    if |files| > 0 {
      var f := files[0];
      assert f in files;
      NoLineFeedNotIn(f.path);
      NoLineFeedNotIn(DiffHeader(f.path));
      NoLineFeedNotIn("--- a/" + f.path);
      NoLineFeedNotIn("+++ b/" + f.path);
      HunksLinesNoLineFeed(f.hunks);
      LinesConcat([DiffHeader(f.path), "--- a/" + f.path, "+++ b/" + f.path], HunksLines(f.hunks));
      assert forall g <- files[1..] :: g in files;
      DiffLinesNoLineFeed(files[1..]);
      LinesConcat(FileLines(f), DiffLines(files[1..]));
    }
  }

  /** A text that starts with `diff --git` passes the length check. */
  lemma HeaderPassesLengthCheck(s: string)
    requires StartsWith(s, "diff --git")
    ensures |Trim(s)| >= MinTrimmedLength
  {
    assert s[..10] == "diff --git";
    assert s[0] == 'd' && s[9] == 't';
    TrimKeeps(s, 10);
  }

  lemma StartsWithExtend(s: string, p: string, suffix: string)
    requires StartsWith(s, p)
    ensures StartsWith(s + suffix, p)
  {
    assert (s + suffix)[..|p|] == s[..|p|];
  }

  /** A rendered diff starts with its `diff --git` line. */
  lemma RenderedDiffOpening(files: seq<FileDiff>)
    requires |files| > 0
    ensures StartsWith(RenderDiff(files), "diff --git")
    ensures |DiffLines(files)| > 0 && StartsWith(DiffLines(files)[0], "diff --git")
  {
    var lines := DiffLines(files);
    var p := files[0].path;
    assert lines[0] == DiffHeader(p);
    StartsWithConcat("diff --git", " a/" + p + " b/" + p);
    assert DiffHeader(p) == "diff --git" + (" a/" + p + " b/" + p);
    JoinStartsWith(lines, "diff --git");
  }

  /** A text that passes the length check and whose first line is a `diff --git` line is
      judged by the scan alone. */
  lemma ValidateScans(d: string)
    requires |Trim(d)| >= MinTrimmedLength && StartsWith(SplitLines(d)[0], "diff --git")
    ensures Validate(Some(d)) == ScanVerdict(SplitLines(d))
  {
  }

  /** The verdict on any diff written out from well-formed files: the scan accepts every
      line, and the result is the count check of the last file's last hunk. */
  lemma RenderedDiffVerdict(files: seq<FileDiff>)
    requires |files| > 0 && forall f <- files :: WellFormedFile(f)
    ensures Validate(Some(RenderDiff(files))) == ExpectedVerdict(files)
  {
    var lines := DiffLines(files);
    DiffLinesNoLineFeed(files);
    RenderedDiffOpening(files);
    HeaderPassesLengthCheck(RenderDiff(files));
    SplitJoinLines(lines);
    ValidateScans(RenderDiff(files));
    ScanDiff(files, Initial);
    DiffEndLast(files, Initial);
  }

  /** A well-formed diff whose hunk headers declare the counts their bodies have is valid. */
  lemma ExactCountsValid(files: seq<FileDiff>)
    requires |files| > 0 && forall f <- files :: WellFormedFile(f) && forall h <- f.hunks :: ExactCounts(h)
    ensures Validate(Some(RenderDiff(files))) == Valid
  {
    RenderedDiffVerdict(files);
    var f := files[|files| - 1];
    assert f in files;
    if |f.hunks| > 0 {
      assert f.hunks[|f.hunks| - 1] in f.hunks;
    }
  }

  /** The empty line is rejected inside a hunk and skipped outside one. */
  lemma EmptyLineStep(st: ScanState)
    ensures ScanLines([""], st) == if st.inHunk then Stop(InsideHunkError("")) else Next(st)
  {
    TrimEmptyIffWhitespace("");
  }

  /** A well-formed diff that ends in a line feed, as `git diff` prints it, is rejected
      by the empty last line when its last file has a hunk, and is valid otherwise. */
  lemma TrailingLineFeedVerdict(files: seq<FileDiff>)
    requires |files| > 0 && forall f <- files :: WellFormedFile(f)
    ensures Validate(Some(RenderDiff(files) + "\n"))
         == if |files[|files| - 1].hunks| > 0 then Invalid(InsideHunkError("")) else Valid
  {
    var lines := DiffLines(files);
    var d := RenderDiff(files) + "\n";
    DiffLinesNoLineFeed(files);
    RenderedDiffOpening(files);
    StartsWithExtend(RenderDiff(files), "diff --git", "\n");
    HeaderPassesLengthCheck(d);
    SplitJoinLines(lines);
    SplitLinesTrailing(RenderDiff(files));
    assert SplitLines(d) == lines + [""];
    ValidateScans(d);
    ScanDiff(files, Initial);
    DiffEndLast(files, Initial);
    var st := DiffEnd(files, Initial);
    ScanAppend(lines, [""], Initial);
    EmptyLineStep(st);
    assert ScanVerdict(lines + [""]) == if st.inHunk then Invalid(InsideHunkError("")) else FinalCheck(st);
  }

  /** The diff `diff --git a/x b/x`, `--- a/x`, `+++ b/x`, `@@ -1,2 +1,3 @@`, ` line1`,
      `+line2`: a hunk that declares two old lines and has one. */
  const ShortHunkExample := [FileDiff("x", [Hunk(1, Given(2), 1, Given(3), [Context("line1"), Added("line2")])])]

  lemma ShortHunkExampleWellFormed()
    ensures forall f <- ShortHunkExample :: WellFormedFile(f)
    ensures OldLines(ShortHunkExample[0].hunks[0].body) == 1
  {
    var body := ShortHunkExample[0].hunks[0].body;
    assert "line2"[0] == 'l';
    assert WellFormedLine(body[0]) && WellFormedLine(body[1]);
    assert body[1..][1..] == [];
  }

  /** Without a final line feed the diff above is reported one old line short; with the
      final line feed the empty last line is reported instead. */
  lemma ShortHunkExampleVerdicts()
    ensures Validate(Some(RenderDiff(ShortHunkExample))) == Invalid(OldCountError(2, 1))
    ensures Validate(Some(RenderDiff(ShortHunkExample) + "\n")) == Invalid(InsideHunkError(""))
  {
    ShortHunkExampleWellFormed();
    RenderedDiffVerdict(ShortHunkExample);
    TrailingLineFeedVerdict(ShortHunkExample);
  }
}
