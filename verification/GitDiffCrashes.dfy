/**
 * Exactly when the parser leaves with an exception that is not its own refusal: a hunk count that
 * int() does not convert, or a change whose path is `.`, reached before anything is refused.
 */
module GitDiffCrashes {
  import opened Basics
  import opened GitDiff
  import opened GitDiffPaths
  import opened GitDiffRoundTrip

  // ----- hunk counts --------------------------------------------------------------------------------------

  /** A well-formed hunk header with a count of more digits than int() converts. */
  predicate Oversized(hunk: seq<string>) {
    && hunk != [] && HunkRanges(hunk[0]).Some?
    && (|HunkRanges(hunk[0]).value.0| > MAX_INT_DIGITS || |HunkRanges(hunk[0]).value.1| > MAX_INT_DIGITS)
  }

  /** Some element is a `hit`, and every element before it is a `pass`. */
  predicate ComesFirst<T>(xs: seq<T>, hit: T -> bool, pass: T -> bool) {
    exists i :: 0 <= i < |xs| && hit(xs[i]) && forall k :: 0 <= k < i ==> pass(xs[k])
  }

  lemma ComesFirstStep<T>(xs: seq<T>, hit: T -> bool, pass: T -> bool)
    requires xs != []
    ensures ComesFirst(xs, hit, pass) <==> hit(xs[0]) || (pass(xs[0]) && ComesFirst(xs[1..], hit, pass))
  {
    var rest := xs[1..];
    if pass(xs[0]) && ComesFirst(rest, hit, pass) {
      var i :| 0 <= i < |rest| && hit(rest[i]) && forall k :: 0 <= k < i ==> pass(rest[k]);
      assert hit(xs[i + 1]);
      forall k | 0 <= k < i + 1 ensures pass(xs[k]) {
        assert k > 0 ==> rest[k - 1] == xs[k];
      }
    }
    if ComesFirst(xs, hit, pass) && !hit(xs[0]) {
      var i :| 0 <= i < |xs| && hit(xs[i]) && forall k :: 0 <= k < i ==> pass(xs[k]);
      assert hit(rest[i - 1]) && pass(xs[0]);
      forall k: nat | k < i - 1 ensures pass(rest[k]) {
        assert rest[k] == xs[k + 1];
      }
    }
  }

  predicate Checks(hunk: seq<string>) {
    HunkChecked(hunk).None?
  }

  /** Some hunk has an oversized count, and every hunk before it checks. */
  predicate OversizedFirst(hunks: seq<seq<string>>) {
    ComesFirst(hunks, Oversized, Checks)
  }

  lemma OversizedIsCrash(hunk: seq<string>)
    ensures Oversized(hunk) <==> HunkChecked(hunk) == Some(Crashed)
  {
  }

  lemma {:induction false} HunksCrashIff(hunks: seq<seq<string>>)
    ensures AllChecked(hunks) == Err(Crashed) <==> OversizedFirst(hunks)
  {
    if hunks != [] {
      HunksCrashIff(hunks[1..]);
      ComesFirstStep(hunks, Oversized, Checks);
      OversizedIsCrash(hunks[0]);
    }
  }

  lemma HunkPartCrashesIff(part: seq<string>)
    ensures HunkCount(part) == Err(Crashed) <==> OversizedFirst(Segments(part, HunkHead()))
  {
    HunksCrashIff(Segments(part, HunkHead()));
  }

  // ----- one section ----------------------------------------------------------------------------------------

  /** The metadata of a section whose header and metadata lines are accepted. */
  function SectionMetadata(split: Shell, section: seq<string>): Option<((string, string), Metadata)> {
    if section == [] || HeaderPaths(split, section[0]).Err? then None
    else
      var paths := HeaderPaths(split, section[0]).value;
      var m := AllNoted(split, FreshMetadata(paths), section[1..][..UntilHead(section[1..], HunkHead())]);
      if m.Err? then None else Some((paths, m.value))
  }

  function ReportedPath(paths: (string, string), m: Metadata): string {
    if StatusOf(m) == Deleted then paths.0 else paths.1
  }

  /** Header, metadata and hunks are consistent, and the path to report is `.`. */
  predicate ReportsDot(section: seq<string>, paths: (string, string), m: Metadata)
    requires section != []
  {
    var hunks := HunkCount(HunkPart(section));
    && hunks.Ok? && Consistent(paths.0, paths.1, m, hunks.value, UntilHead(section[1..], HunkHead()))
    && ReportedPath(paths, m) == "."
  }

  predicate CrashingSection(split: Shell, section: seq<string>) {
    var noted := SectionMetadata(split, section);
    && section != [] && noted.Some?
    && (OversizedFirst(Segments(HunkPart(section), HunkHead())) || ReportsDot(section, noted.value.0, noted.value.1))
  }

  lemma ConcludedCrashesIff(split: Shell, line: string, lines: seq<string>, m: Metadata, hunks: nat, metadata: nat)
    requires HeaderPaths(split, line).Ok?
    ensures var paths := HeaderPaths(split, line).value;
            Concluded(lines, paths.0, paths.1, m, hunks, metadata) == Err(Crashed)
            <==> Consistent(paths.0, paths.1, m, hunks, metadata) && ReportedPath(paths, m) == "."
  {
    HeaderPathsAreReal(split, line);
    DotHasNoParts();
  }

  // A section crashes the parser if and only if its header and metadata lines are accepted and then
  // either an oversized count comes before any bad hunk, or everything is in order and the path is `.`.
  lemma SectionCrashesIff(split: Shell, section: seq<string>)
    requires section != []
    ensures SectionParsed(split, section) == Err(Crashed) <==> CrashingSection(split, section)
  {
    if HeaderPaths(split, section[0]).Ok? {
      var paths := HeaderPaths(split, section[0]).value;
      var first := UntilHead(section[1..], HunkHead());
      var m := AllNoted(split, FreshMetadata(paths), section[1..][..first]);
      NotingNeverCrashes(split, FreshMetadata(paths), section[1..][..first]);
      HunkPartCrashesIff(HunkPart(section));
      if m.Ok? && HunkCount(HunkPart(section)).Ok? {
        ConcludedCrashesIff(split, section[0], section, m.value, HunkCount(HunkPart(section)).value, first);
      }
    }
  }

  // ----- the whole diff -------------------------------------------------------------------------------------

  function Crashing(split: Shell): seq<string> -> bool {
    section => CrashingSection(split, section)
  }

  function Accepted(split: Shell): seq<string> -> bool {
    section => SectionParsed(split, section).Ok?
  }

  /** The first section that is not accepted is one that crashes. */
  predicate CrashesFirst(split: Shell, sections: seq<seq<string>>) {
    ComesFirst(sections, Crashing(split), Accepted(split))
  }

  lemma {:induction false} SectionsCrashIff(split: Shell, sections: seq<seq<string>>)
    requires forall k :: 0 <= k < |sections| ==> sections[k] != []
    ensures AllParsed(split, sections) == Err(Crashed) <==> CrashesFirst(split, sections)
  {
    if sections != [] {
      var first, rest := sections[0], sections[1..];
      forall k | 0 <= k < |rest| ensures rest[k] != [] {
        assert rest[k] == sections[k + 1];
      }
      SectionsCrashIff(split, rest);
      ComesFirstStep(sections, Crashing(split), Accepted(split));
      SectionCrashesIff(split, first);
      ParseStep(split, first, rest, sections);
    }
  }

  // The parser leaves a diff by another exception if and only if the text is readable and the first
  // section it does not accept is a crashing one.
  lemma DiffCrashesIff(split: Shell, raw: string)
    ensures DiffParsed(split, raw) == Err(Crashed)
            <==> Readable(raw) && CrashesFirst(split, Segments(SplitLines(Unix(raw)), DiffHead()))
  {
    if Readable(raw) {
      var sections := Segments(SplitLines(Unix(raw)), DiffHead());
      SegmentsPartition(SplitLines(Unix(raw)), DiffHead());
      forall k | 0 <= k < |sections| ensures sections[k] != [] {
        assert IsSegment(sections[k], DiffHead());
      }
      SectionsCrashIff(split, sections);
    }
  }

  // ----- inputs that crash ------------------------------------------------------------------------------------

  function OversizedHeader(digits: string): string {
    "@@ -" + ("1," + digits + (" +" + ("1,1" + " @@")))
  }

  lemma OversizedHeaderReads(digits: string)
    requires AllDigits(digits)
    ensures HunkRanges(OversizedHeader(digits)) == Some((digits, "1"))
    ensures HunkHead()(OversizedHeader(digits))
  {
    var right := "1,1" + " @@";
    var left := "1," + digits + (" +" + right);
    AfterPrefix("@@ -", left);
    assert "1," == "1" + ",";
    RangeOf("1", digits, " +" + right);
    AfterPrefix(" +", right);
    assert "1,1" == "1" + "," + "1";
    RangeOf("1", "1", " @@");
    HunkEndReads();
    assert OversizedHeader(digits)[0] == '@' && OversizedHeader(digits)[1] == '@';
  }

  /** One header line and one hunk header whose old count has too many digits. */
  lemma OversizedCountCrashesSection(split: Shell, header: string, digits: string)
    requires HeaderPaths(split, header).Ok? && AllDigits(digits) && |digits| > MAX_INT_DIGITS
    ensures SectionParsed(split, [header, OversizedHeader(digits)]) == Err(Crashed)
  {
    var section, hunk := [header, OversizedHeader(digits)], [OversizedHeader(digits)];
    OversizedHeaderReads(digits);
    assert section[1..] == hunk;
    UntilHeadIs(hunk, HunkHead(), 0);
    assert hunk[..0] == [] && hunk[0..] == hunk;
    OversizedSegment(OversizedHeader(digits), digits);
    SectionCrashesIff(split, section);
  }

  lemma OneLineIsOneSegment(line: string, head: LineTest)
    ensures Segments([line], head) == [[line]]
  {
    assert [line][1..] == [];
    SegmentsCons([line], head, 0, [line], []);
  }

  lemma OversizedSegment(line: string, digits: string)
    requires HunkRanges(line) == Some((digits, "1")) && |digits| > MAX_INT_DIGITS
    ensures OversizedFirst(Segments([line], HunkHead()))
  {
    OneLineIsOneSegment(line, HunkHead());
    ComesFirstStep([[line]], Oversized, Checks);
  }

  /** 4301 digits: the shortest run that is too long. */
  function ManyDigits(): (s: string)
    ensures AllDigits(s) && |s| == MAX_INT_DIGITS + 1
  {
    seq(MAX_INT_DIGITS + 1, i => '1')
  }

  function OversizedDiff(path: string): string {
    Text([HeaderLine(path, path), OversizedHeader(ManyDigits())])
  }

  lemma OversizedIsReadable(path: string) returns (lines: seq<string>)
    requires SimplePath(path)
    ensures lines == [HeaderLine(path, path), OversizedHeader(ManyDigits())]
    ensures Readable(OversizedDiff(path)) && SplitLines(Unix(OversizedDiff(path))) == lines
    ensures Segments(lines, DiffHead()) == [lines]
  {
    var header, hunk := HeaderLine(path, path), OversizedHeader(ManyDigits());
    lines := [header, hunk];
    HeaderIsHead(path, path);
    LinesAreClean(path);
    TextSplitsBack(lines);
    TextIsClean(lines);
    UnixOf(Text(lines));
    assert lines[1..] == [hunk];
    assert !DiffHead()(hunk) by {
      assert hunk[0] == '@' && "diff --git "[0] == 'd';
    }
    UntilHeadIs([hunk], DiffHead(), 1);
    SegmentsCons(lines, DiffHead(), 1, lines, []);
    TwoLines(header, hunk);
  }

  lemma TwoLines(a: string, b: string)
    ensures Text([a, b]) == a + "\n" + (b + "\n")
  {
    assert [a, b][1..] == [b] && [b][1..] == [];
    assert Text([b]) == b + "\n" + "";
  }

  lemma LinesAreClean(path: string)
    requires SimplePath(path)
    ensures OneLine(HeaderLine(path, path)) && |HeaderLine(path, path)| <= 2 * MAX_PATH_CHARS + 16
    ensures OneLine(OversizedHeader(ManyDigits())) && |OversizedHeader(ManyDigits())| <= MAX_INT_DIGITS + 20
  {
    var tail := HeaderShape(path, path);
  }

  // A whole diff on which the parser leaves by ValueError, for every path and POSIX shell.
  lemma OversizedCountCrashes(split: Shell, path: string)
    requires GoodShell(split) && SimplePath(path)
    ensures DiffParsed(split, OversizedDiff(path)) == Err(Crashed)
  {
    var lines := OversizedIsReadable(path);
    HeaderReads(split, path, path);
    OversizedCountCrashesSection(split, HeaderLine(path, path), ManyDigits());
    ParseStep(split, lines, [], [lines]);
  }
}
