/**
 * The unified-diff parser (git_gate.py): text to lines, lines to file sections, sections to hunks.
 * Each loop of the parser is a method proved to compute the function beside it; the functions cut
 * the list of lines into segments, so that what is accepted can be read off them.
 */
module GitDiff {
  import opened Basics
  import opened Json
  import opened Matching
  import opened Approval

  const MAX_DIFF_CHARS := 2 * 1024 * 1024
  const MAX_DIFF_LINES := 20_000
  const MAX_DIFF_LINE_CHARS := 64 * 1024
  const MAX_DIFF_FILES := 500
  const MAX_PATH_CHARS := 512
  /** int() refuses longer digit strings with an exception of its own. */
  const MAX_INT_DIGITS := 4300

  /** An InputError, or another exception that leaves the parser. */
  datatype Refusal = Refused | Crashed

  /** shlex.split(value, posix=True): the words, or nothing on invalid quoting. */
  type Shell = string -> Option<seq<string>>

  // ----- text to lines ------------------------------------------------------------------------------------

  function Unix(s: string): string {
    if s == "" then ""
    else if |s| > 1 && s[0] == '\r' && s[1] == '\n' then ['\n'] + Unix(s[2..])
    else [s[0]] + Unix(s[1..])
  }

  // ----- segments -----------------------------------------------------------------------------------------

  type LineTest = string -> bool

  function DiffHead(): LineTest {
    (line: string) => "diff --git " <= line
  }

  function HunkHead(): LineTest {
    (line: string) => "@@" <= line
  }

  /** How many lines stand before the next head. */
  function UntilHead(lines: seq<string>, head: LineTest): (n: nat)
    ensures n <= |lines| && (n < |lines| ==> head(lines[n])) && forall i :: 0 <= i < n ==> !head(lines[i])
  {
    if lines == [] || head(lines[0]) then 0 else 1 + UntilHead(lines[1..], head)
  }

  /** The lines cut before every head. */
  function Segments(lines: seq<string>, head: LineTest): seq<seq<string>>
    decreases |lines|
  {
    if lines == [] then []
    else
      var n := 1 + UntilHead(lines[1..], head);
      [lines[..n]] + Segments(lines[n..], head)
  }

  function Concat(segments: seq<seq<string>>): seq<string> {
    if segments == [] then [] else segments[0] + Concat(segments[1..])
  }

  /** One head, at the front. */
  predicate IsSegment(segment: seq<string>, head: LineTest) {
    segment != [] && head(segment[0]) && forall i :: 0 < i < |segment| ==> !head(segment[i])
  }

  /** Cutting loses nothing: the segments, in order, are the lines, and each has exactly its own head. */
  lemma {:induction false} SegmentsPartition(lines: seq<string>, head: LineTest)
    requires lines == [] || head(lines[0])
    ensures Concat(Segments(lines, head)) == lines
    ensures forall k :: 0 <= k < |Segments(lines, head)| ==> IsSegment(Segments(lines, head)[k], head)
    decreases |lines|
  {
    if lines != [] {
      var n := 1 + UntilHead(lines[1..], head);
      assert lines == lines[..n] + lines[n..];
      assert forall i :: 0 < i < n ==> lines[i] == lines[1..][i - 1];
      SegmentsPartition(lines[n..], head);
      assert IsSegment(lines[..n], head);
      var rest := Segments(lines[n..], head);
      forall k | 0 <= k < |Segments(lines, head)|
        ensures IsSegment(Segments(lines, head)[k], head)
      {
        if k > 0 {
          assert Segments(lines, head)[k] == rest[k - 1];
        }
      }
    }
  }

  /** The positions of all heads, in order. */
  predicate AreHeads(lines: seq<string>, head: LineTest, starts: seq<nat>) {
    && (forall k :: 0 <= k < |starts| ==> starts[k] < |lines| && head(lines[starts[k]]))
    && (forall j, k :: 0 <= j < k < |starts| ==> starts[j] < starts[k])
    && (forall i :: 0 <= i < |lines| && head(lines[i]) ==> i in starts)
  }

  method CollectHeads(lines: seq<string>, head: LineTest) returns (starts: seq<nat>)
    ensures AreHeads(lines, head, starts)
  {
    starts := [];
    for i := 0 to |lines|
      invariant forall k :: 0 <= k < |starts| ==> starts[k] < i && head(lines[starts[k]])
      invariant forall j, k :: 0 <= j < k < |starts| ==> starts[j] < starts[k]
      invariant forall m :: 0 <= m < i && head(lines[m]) ==> m in starts
    {
      if head(lines[i]) {
        starts := starts + [i];
      }
    }
  }

  function EndOf(lines: seq<string>, starts: seq<nat>, k: nat): nat
    requires k < |starts|
  {
    if k + 1 < |starts| then starts[k + 1] else |lines|
  }

  lemma {:induction false} UntilHeadIs(lines: seq<string>, head: LineTest, n: nat)
    requires n <= |lines| && (forall i :: 0 <= i < n ==> !head(lines[i])) && (n < |lines| ==> head(lines[n]))
    ensures UntilHead(lines, head) == n
  {
  }

  /** Between two neighbouring heads there is no third. */
  lemma NoHeadBetween(lines: seq<string>, head: LineTest, starts: seq<nat>, k: nat, i: nat)
    requires AreHeads(lines, head, starts) && k < |starts| && starts[k] < i < EndOf(lines, starts, k) && i < |lines|
    ensures !head(lines[i])
  {
    forall m | 0 <= m < |starts|
      ensures starts[m] != i
    {
      if m < k {
        assert starts[m] < starts[k];
      } else if m > k + 1 {
        assert starts[k + 1] < starts[m];
      }
    }
  }

  lemma UntilNext(lines: seq<string>, head: LineTest, starts: seq<nat>, k: nat) returns (tail: seq<string>)
    requires AreHeads(lines, head, starts) && k < |starts|
    ensures starts[k] < EndOf(lines, starts, k) <= |lines| && tail == lines[starts[k] + 1..]
    ensures UntilHead(tail, head) == EndOf(lines, starts, k) - starts[k] - 1
  {
    tail := lines[starts[k] + 1..];
    var n := EndOf(lines, starts, k) - starts[k] - 1;
    forall i | 0 <= i < n
      ensures !head(tail[i])
    {
      NoHeadBetween(lines, head, starts, k, starts[k] + 1 + i);
    }
    UntilHeadIs(tail, head, n);
  }

  lemma SegmentsCons(lines: seq<string>, head: LineTest, n: nat, first: seq<string>, rest: seq<string>)
    requires lines != [] && n == UntilHead(lines[1..], head) && first == lines[..n + 1] && rest == lines[n + 1..]
    ensures Segments(lines, head) == [first] + Segments(rest, head)
  {
  }

  /** The slice between two neighbouring heads is the next segment. */
  lemma SliceIsSegment(lines: seq<string>, head: LineTest, starts: seq<nat>, k: nat)
    requires AreHeads(lines, head, starts) && k < |starts|
    ensures starts[k] < EndOf(lines, starts, k) <= |lines|
    ensures Segments(lines[starts[k]..], head)
            == [lines[starts[k]..EndOf(lines, starts, k)]] + Segments(lines[EndOf(lines, starts, k)..], head)
  {
    var tail := UntilNext(lines, head, starts, k);
    var start, end := starts[k], EndOf(lines, starts, k);
    assert lines[start..][1..] == tail;
    assert lines[start..][..end - start] == lines[start..end];
    assert lines[start..][end - start..] == lines[end..];
    SegmentsCons(lines[start..], head, end - start - 1, lines[start..end], lines[end..]);
  }

  lemma FirstHead(lines: seq<string>, head: LineTest, starts: seq<nat>)
    requires lines != [] && head(lines[0]) && AreHeads(lines, head, starts)
    ensures starts != [] && starts[0] == 0 && lines[starts[0]..] == lines
  {
    var k :| 0 <= k < |starts| && starts[k] == 0;
  }

  // ----- hunks ------------------------------------------------------------------------------------------------

  function DigitRun(s: string): (n: nat)
    ensures n <= |s| && (forall i :: 0 <= i < n ==> IsDigit(s[i])) && (n < |s| ==> !IsDigit(s[n]))
  {
    if s == "" || !IsDigit(s[0]) then 0 else 1 + DigitRun(s[1..])
  }

  /** `\d+(?:,(\d+))?` at the front: the digits of the count, "1" when there is none, and what follows. */
  function RangeAt(s: string): Option<(string, string)> {
    var n := DigitRun(s);
    if n == 0 then None
    else if n < |s| && s[n] == ',' then
      var m := DigitRun(s[n + 1..]);
      if m == 0 then None else Some((s[n + 1..n + 1 + m], s[n + 1 + m..]))
    else Some(("1", s[n..]))
  }

  function After(s: string, prefix: string): Option<string> {
    if prefix <= s then Some(s[|prefix|..]) else None
  }

  /** The count digits of a hunk header `@@ -l[,n] +l[,n] @@[ text]`. */
  function HunkRanges(line: string): Option<(string, string)> {
    var start := After(line, "@@ -");
    if start.None? then None
    else
      var olds := RangeAt(start.value);
      if olds.None? || After(olds.value.1, " +").None? then None
      else
        var news := RangeAt(After(olds.value.1, " +").value);
        if news.None? || After(news.value.1, " @@").None? then None
        else
          var rest := After(news.value.1, " @@").value;
          if rest == "" || rest[0] == ' ' then Some((olds.value.0, news.value.0)) else None
  }

  predicate NoNewlineMark(line: string) {
    "\\ No newline at end of file" <= line
  }

  function OldSide(): LineTest {
    (line: string) => line != "" && (line[0] == ' ' || line[0] == '-')
  }

  function NewSide(): LineTest {
    (line: string) => line != "" && (line[0] == ' ' || line[0] == '+')
  }

  predicate BodyLine(line: string) {
    NoNewlineMark(line) || (line != "" && line[0] in {' ', '-', '+'})
  }

  /** Every body line is one of the four kinds, and the old and new sides are as long as declared. */
  predicate GoodBody(body: seq<string>, olds: int, news: int) {
    && (forall line :: line in body ==> BodyLine(line))
    && |Filter(body, OldSide())| == olds && |Filter(body, NewSide())| == news
  }

  function HunkChecked(hunk: seq<string>): Option<Refusal> {
    var ranges := if hunk == [] then None else HunkRanges(hunk[0]);
    if ranges.None? then Some(Refused)
    else if |ranges.value.0| > MAX_INT_DIGITS || |ranges.value.1| > MAX_INT_DIGITS then Some(Crashed)
    else if GoodBody(hunk[1..], DigitValue(ranges.value.0), DigitValue(ranges.value.1)) then None
    else Some(Refused)
  }

  /** The number of hunks, or the first refusal. */
  function AllChecked(hunks: seq<seq<string>>): Result<nat, Refusal> {
    if hunks == [] then Ok(0)
    else if HunkChecked(hunks[0]).Some? then Err(HunkChecked(hunks[0]).value)
    else Plus(1, AllChecked(hunks[1..]))
  }

  function Plus(n: nat, r: Result<nat, Refusal>): Result<nat, Refusal> {
    if r.Ok? then Ok(n + r.value) else r
  }

  lemma {:induction false} AllCheckedIff(hunks: seq<seq<string>>)
    ensures AllChecked(hunks).Ok? <==> forall k :: 0 <= k < |hunks| ==> HunkChecked(hunks[k]).None?
    ensures AllChecked(hunks).Ok? ==> AllChecked(hunks).value == |hunks|
  {
    if hunks != [] {
      AllCheckedIff(hunks[1..]);
      assert forall k :: 0 < k < |hunks| ==> hunks[k] == hunks[1..][k - 1];
    }
  }

  method CheckBody(body: seq<string>, olds: int, news: int) returns (ok: bool)
    ensures ok == GoodBody(body, olds, news)
  {
    var oldSeen, newSeen := 0, 0;
    for i := 0 to |body|
      invariant oldSeen == |Filter(body[..i], OldSide())| && newSeen == |Filter(body[..i], NewSide())|
      invariant forall line :: line in body[..i] ==> BodyLine(line)
    {
      var line := body[i];
      assert body[..i + 1] == body[..i] + [line];
      FilterAppend(body[..i], [line], OldSide());
      FilterAppend(body[..i], [line], NewSide());
      if NoNewlineMark(line) {
        continue;
      }
      if line == "" || line[0] !in {' ', '-', '+'} {
        assert line in body && !BodyLine(line);
        return false;
      }
      if line[0] == ' ' {
        oldSeen, newSeen := oldSeen + 1, newSeen + 1;
      } else if line[0] == '-' {
        oldSeen := oldSeen + 1;
      } else {
        newSeen := newSeen + 1;
      }
    }
    assert body[..|body|] == body;
    ok := oldSeen == olds && newSeen == news;
  }

  method CheckHunk(hunk: seq<string>) returns (r: Option<Refusal>)
    requires hunk != []
    ensures r == HunkChecked(hunk)
  {
    var ranges := HunkRanges(hunk[0]);
    if ranges.None? {
      return Some(Refused);
    }
    if |ranges.value.0| > MAX_INT_DIGITS || |ranges.value.1| > MAX_INT_DIGITS {
      return Some(Crashed);
    }
    var ok := CheckBody(hunk[1..], DigitValue(ranges.value.0), DigitValue(ranges.value.1));
    r := if ok then None else Some(Refused);
  }

  lemma CheckStep(hunk: seq<string>, rest: seq<seq<string>>, hunks: seq<seq<string>>)
    requires hunks == [hunk] + rest
    ensures HunkChecked(hunk).Some? ==> AllChecked(hunks) == Err(HunkChecked(hunk).value)
    ensures HunkChecked(hunk).None? ==> AllChecked(hunks) == Plus(1, AllChecked(rest))
  {
    assert hunks[1..] == rest;
  }

  /** The segments from head `k` on; none when there is no head `k`. */
  function SegmentsFrom(lines: seq<string>, head: LineTest, starts: seq<nat>, k: nat): seq<seq<string>>
    requires k < |starts| ==> starts[k] <= |lines|
  {
    if k < |starts| then Segments(lines[starts[k]..], head) else []
  }

  lemma SegmentsFromStep(lines: seq<string>, head: LineTest, starts: seq<nat>, k: nat)
    requires AreHeads(lines, head, starts) && k < |starts|
    ensures SegmentsFrom(lines, head, starts, k) == [Slice(lines, starts, k)] + SegmentsFrom(lines, head, starts, k + 1)
  {
    SliceIsSegment(lines, head, starts, k);
    assert lines[|lines|..] == [];
  }

  /** The lines from head `i` to the next. */
  function Slice(lines: seq<string>, starts: seq<nat>, i: nat): seq<string>
    requires i < |starts|
  {
    if starts[i] <= EndOf(lines, starts, i) <= |lines| then lines[starts[i]..EndOf(lines, starts, i)] else []
  }

  /** The slices that start at heads `k`, `k + 1`, ... */
  function SlicesFrom(lines: seq<string>, starts: seq<nat>, k: nat): (r: seq<seq<string>>)
    ensures k <= |starts| ==> |r| == |starts| - k
    decreases |starts| - k
  {
    if k >= |starts| then [] else [Slice(lines, starts, k)] + SlicesFrom(lines, starts, k + 1)
  }

  lemma {:induction false} SegmentsAreSlicesFrom(lines: seq<string>, head: LineTest, starts: seq<nat>, k: nat)
    returns (segments: seq<seq<string>>)
    requires AreHeads(lines, head, starts) && k <= |starts|
    ensures segments == SlicesFrom(lines, starts, k) && segments == SegmentsFrom(lines, head, starts, k)
    decreases |starts| - k
  {
    if k == |starts| {
      segments := [];
    } else {
      var rest := SegmentsAreSlicesFrom(lines, head, starts, k + 1);
      segments := FirstSlice(lines, head, starts, k, rest);
    }
  }

  lemma FirstSlice(lines: seq<string>, head: LineTest, starts: seq<nat>, k: nat, rest: seq<seq<string>>)
    returns (segments: seq<seq<string>>)
    requires AreHeads(lines, head, starts) && k < |starts|
    requires rest == SlicesFrom(lines, starts, k + 1) && rest == SegmentsFrom(lines, head, starts, k + 1)
    ensures segments == SlicesFrom(lines, starts, k) && segments == SegmentsFrom(lines, head, starts, k)
  {
    SegmentsFromStep(lines, head, starts, k);
    segments := [Slice(lines, starts, k)] + rest;
  }

  /** Cutting before every head is slicing between the collected positions. */
  lemma SegmentsAreSlices(lines: seq<string>, head: LineTest, starts: seq<nat>)
    requires AreHeads(lines, head, starts) && (lines == [] || head(lines[0]))
    ensures Segments(lines, head) == SlicesFrom(lines, starts, 0)
    ensures |Segments(lines, head)| == |starts|
  {
    var segments := SegmentsAreSlicesFrom(lines, head, starts, 0);
    if lines != [] {
      FirstHead(lines, head, starts);
    }
  }

  /** The hunk at one position, and what it adds to the check of the hunks from there on. */
  method CheckAt(lines: seq<string>, starts: seq<nat>, k: nat) returns (verdict: Option<Refusal>, ghost next: Result<nat, Refusal>)
    requires AreHeads(lines, HunkHead(), starts) && k < |starts|
    ensures next == AllChecked(SlicesFrom(lines, starts, k + 1))
    ensures AllChecked(SlicesFrom(lines, starts, k)) == if verdict.Some? then Err(verdict.value) else Plus(1, next)
  {
    var hunk := lines[starts[k]..EndOf(lines, starts, k)];
    next := AllChecked(SlicesFrom(lines, starts, k + 1));
    CheckStep(hunk, SlicesFrom(lines, starts, k + 1), SlicesFrom(lines, starts, k));
    verdict := CheckHunk(hunk);
  }

  /** The loop over the hunk positions. */
  method CheckSlices(lines: seq<string>, starts: seq<nat>) returns (r: Result<nat, Refusal>)
    requires AreHeads(lines, HunkHead(), starts)
    ensures r == AllChecked(SlicesFrom(lines, starts, 0))
  {
    ghost var left := AllChecked(SlicesFrom(lines, starts, 0));
    ghost var all := left;
    for position := 0 to |starts|
      invariant left == AllChecked(SlicesFrom(lines, starts, position))
      invariant all == Plus(position, left)
    {
      var verdict;
      ghost var next;
      verdict, next := CheckAt(lines, starts, position);
      if verdict.Some? {
        return Err(verdict.value);
      }
      PlusOne(position, next);
      left := next;
    }
    assert left == Ok(0);
    r := Ok(|starts|);
  }

  lemma PlusOne(n: nat, r: Result<nat, Refusal>)
    ensures Plus(n, Plus(1, r)) == Plus(n + 1, r)
  {
  }

  /** The lines from the first hunk head on, hunk by hunk. */
  method ValidateHunks(lines: seq<string>) returns (r: Result<nat, Refusal>)
    requires lines != [] && HunkHead()(lines[0])
    ensures r == AllChecked(Segments(lines, HunkHead()))
  {
    var starts := CollectHeads(lines, HunkHead());
    SegmentsAreSlices(lines, HunkHead(), starts);
    r := CheckSlices(lines, starts);
  }

  // ----- paths ------------------------------------------------------------------------------------------------

  /** The pieces between slashes; one empty piece for the empty text. */
  function SplitOn(s: string, c: char): (r: seq<string>)
    ensures r != []
  {
    if s == "" then [""]
    else
      var rest := SplitOn(s[1..], c);
      if s[0] == c then [""] + rest else [[s[0]] + rest[0]] + rest[1..]
  }

  function JoinWith(pieces: seq<string>, c: char): string
    requires pieces != []
  {
    if |pieces| == 1 then pieces[0] else pieces[0] + [c] + JoinWith(pieces[1..], c)
  }

  /** PurePosixPath(value).parts of a relative path: empty and `.` pieces vanish. */
  function Parts(value: string): seq<string> {
    Filter(SplitOn(value, '/'), RealPiece())
  }

  function RealPiece(): string -> bool {
    (piece: string) => piece != "" && piece != "."
  }

  function Posix(value: string): string {
    if Parts(value) == [] then "." else JoinWith(Parts(value), '/')
  }

  predicate HasDoubleSlash(s: string) {
    exists i :: 0 <= i < |s| - 1 && s[i] == '/' && s[i + 1] == '/'
  }

  predicate Stripped(s: string) {
    s == "" || (!IsSpace(s[0]) && !IsSpace(s[|s| - 1]))
  }

  /** A relative path without traversal, alternative separators, drive letters or outer blanks. */
  predicate PathIsSafe(value: string) {
    && value != "" && |value| <= MAX_PATH_CHARS
    && 0 as char !in value && '\\' !in value && ':' !in value
    && !HasDoubleSlash(value) && !("./" <= value) && Stripped(value)
    && value[0] != '/' && ".." !in Parts(value)
  }

  function SafePath(value: string, prefix: string): Result<string, Refusal> {
    if prefix <= value && PathIsSafe(value[|prefix|..]) then Ok(Posix(value[|prefix|..])) else Err(Refused)
  }

  function OneWord(split: Shell, text: string): Result<string, Refusal> {
    var words := split(text);
    if words.Some? && |words.value| == 1 then Ok(words.value[0]) else Err(Refused)
  }

  /** The path of a `---` or `+++` line; none for /dev/null. */
  function FilePath(split: Shell, text: string, prefix: string): Result<Option<string>, Refusal> {
    var word := OneWord(split, Strip(text));
    if word.Err? then Err(word.error)
    else if word.value == "/dev/null" then Ok(None)
    else
      var path := SafePath(word.value, prefix);
      if path.Ok? then Ok(Some(path.value)) else Err(path.error)
  }

  function RenamePath(split: Shell, text: string): Result<Option<string>, Refusal> {
    var word := OneWord(split, text);
    if word.Err? then Err(word.error)
    else
      var path := SafePath(word.value, "");
      if path.Ok? then Ok(Some(path.value)) else Err(path.error)
  }

  // ----- metadata lines ---------------------------------------------------------------------------------------

  datatype LineKind = OldFile(text: string) | NewFile(text: string) | RenameFrom(text: string) | RenameTo(text: string)
                    | BinaryMark | Known | Blank | Unknown

  predicate KnownMetadata(line: string) {
    "index " <= line || "new file mode " <= line || "deleted file mode " <= line || "old mode " <= line
    || "new mode " <= line || "similarity index " <= line || "dissimilarity index " <= line
  }

  function KindOf(line: string): LineKind {
    if "--- " <= line then OldFile(line[4..])
    else if "+++ " <= line then NewFile(line[4..])
    else if "rename from " <= line then RenameFrom(line[12..])
    else if "rename to " <= line then RenameTo(line[10..])
    else if "Binary files " <= line || line == "GIT binary patch" then BinaryMark
    else if KnownMetadata(line) then Known
    else if line == "" then Blank
    else Unknown
  }

  /** The variables of the metadata loop. */
  datatype Metadata = Metadata(
    oldPath: Option<string>, newPath: Option<string>, renameFrom: Option<string>, renameTo: Option<string>,
    binary: bool, unknown: bool, oldSeen: bool, newSeen: bool)

  function Noted(split: Shell, m: Metadata, kind: LineKind): Result<Metadata, Refusal> {
    match kind
    case OldFile(text) =>
      var path := FilePath(split, text, "a/");
      if path.Err? then Err(path.error) else Ok(m.(oldPath := path.value, oldSeen := true))
    case NewFile(text) =>
      var path := FilePath(split, text, "b/");
      if path.Err? then Err(path.error) else Ok(m.(newPath := path.value, newSeen := true))
    case RenameFrom(text) =>
      var path := RenamePath(split, text);
      if path.Err? then Err(path.error) else Ok(m.(renameFrom := path.value))
    case RenameTo(text) =>
      var path := RenamePath(split, text);
      if path.Err? then Err(path.error) else Ok(m.(renameTo := path.value))
    case BinaryMark => Ok(m.(binary := true))
    case Unknown => Ok(m.(unknown := true))
    case _ => Ok(m)
  }

  function AllNoted(split: Shell, m: Metadata, lines: seq<string>): Result<Metadata, Refusal>
    decreases |lines|
  {
    if lines == [] then Ok(m)
    else
      var next := Noted(split, m, KindOf(lines[0]));
      if next.Err? then next else AllNoted(split, next.value, lines[1..])
  }

  method NoteMetadata(split: Shell, m0: Metadata, lines: seq<string>) returns (r: Result<Metadata, Refusal>)
    ensures r == AllNoted(split, m0, lines)
  {
    var m := m0;
    for i := 0 to |lines|
      invariant AllNoted(split, m0, lines) == AllNoted(split, m, lines[i..])
    {
      assert lines[i..][1..] == lines[i + 1..];
      var next := Noted(split, m, KindOf(lines[i]));
      if next.Err? {
        return next;
      }
      m := next.value;
    }
    assert lines[|lines|..] == [];
    r := Ok(m);
  }

  // ----- one file section -------------------------------------------------------------------------------------

  datatype ChangeStatus = Added | Deleted | Modified | Renamed | Binary

  datatype Category = McpConfig | PolicyFile | Fixture | Other

  datatype Change = Change(
    path: string, oldPath: Option<string>, status: ChangeStatus, category: Category, fingerprint: Json, unknownMetadata: bool)

  /** The suffix of a file name: from its last dot on, unless that is its first or last character. */
  function Suffix(name: string): string {
    var pieces := SplitOn(name, '.');
    var last := pieces[|pieces| - 1];
    if |pieces| == 1 || last == "" || |last| + 1 == |name| then "" else "." + last
  }

  predicate DefaultConfigName(name: string) {
    name == ".mcp.json" || name == "mcp.json" || name == "mcp-config.json" || name == "claude_desktop_config.json"
  }

  function CategoryOf(path: string): Category
    requires Parts(path) != []
  {
    var parts := Parts(Lower(path));
    if parts == [] then Other
    else
      var name := parts[|parts| - 1];
      if DefaultConfigName(name) then McpConfig
      else if (Suffix(name) == ".yaml" || Suffix(name) == ".yml") && ("policies" in parts || Contains(name, "policy") || name == ".policylatch.yaml")
      then PolicyFile
      else if parts[0] == "examples" || "fixtures" in parts then Fixture
      else Other
  }

  function StatusOf(m: Metadata): ChangeStatus {
    if m.binary then Binary
    else if m.renameFrom.Some? then Renamed
    else if m.oldPath.None? then Added
    else if m.newPath.None? then Deleted
    else Modified
  }

  /** The checks across header, metadata and hunks. */
  predicate Consistent(older: string, newer: string, m: Metadata, hunks: nat, metadata: nat) {
    && (m.oldSeen || m.newSeen ==> m.oldSeen && m.newSeen && hunks > 0)
    && (hunks > 0 ==> (m.oldPath.None? || m.oldPath == Some(older)) && (m.newPath.None? || m.newPath == Some(newer)))
    && m.renameFrom.None? == m.renameTo.None?
    && (m.renameFrom.Some? ==> m.renameFrom == Some(older) && m.renameTo == Some(newer))
    && (m.binary || hunks > 0 || m.renameFrom.Some? || metadata > 0)
  }

  function Concluded(lines: seq<string>, older: string, newer: string, m: Metadata, hunks: nat, metadata: nat): Result<Change, Refusal> {
    if !Consistent(older, newer, m, hunks, metadata) then Err(Refused)
    else
      var status := StatusOf(m);
      var path := if status == Deleted then older else newer;
      // The category is taken from the last part of the path; the path "." has none.
      if Parts(path) == [] then Err(Crashed)
      else Ok(Change(path, if status == Renamed then Some(older) else None, status, CategoryOf(path),
                     Fingerprint("git-diff-section-v1", Strings(lines)), m.unknown))
  }

  /** The two paths of a `diff --git` line. */
  function HeaderPaths(split: Shell, line: string): Result<(string, string), Refusal> {
    var words := split(line);
    if words.None? || |words.value| != 4 || words.value[0] != "diff" || words.value[1] != "--git" then Err(Refused)
    else
      var older, newer := SafePath(words.value[2], "a/"), SafePath(words.value[3], "b/");
      if older.Err? || newer.Err? then Err(Refused) else Ok((older.value, newer.value))
  }

  function HunkCount(lines: seq<string>): Result<nat, Refusal> {
    if lines == [] then Ok(0) else AllChecked(Segments(lines, HunkHead()))
  }

  function FreshMetadata(paths: (string, string)): Metadata {
    Metadata(Some(paths.0), Some(paths.1), None, None, false, false, false, false)
  }

  function SectionParsed(split: Shell, lines: seq<string>): Result<Change, Refusal> {
    if lines == [] then Err(Crashed)
    else if HeaderPaths(split, lines[0]).Err? then Err(HeaderPaths(split, lines[0]).error)
    else
      var paths := HeaderPaths(split, lines[0]);
      var first := UntilHead(lines[1..], HunkHead());
      var m := AllNoted(split, FreshMetadata(paths.value), lines[1..][..first]);
      if m.Err? then Err(m.error)
      else
        var hunks := HunkCount(lines[1..][first..]);
        if hunks.Err? then Err(hunks.error)
        else Concluded(lines, paths.value.0, paths.value.1, m.value, hunks.value, first)
  }

  method ParseSection(split: Shell, lines: seq<string>) returns (r: Result<Change, Refusal>)
    requires lines != []
    ensures r == SectionParsed(split, lines)
  {
    var paths := HeaderPaths(split, lines[0]);
    if paths.Err? {
      return Err(paths.error);
    }
    var first := UntilHead(lines[1..], HunkHead());
    var m := NoteMetadata(split, FreshMetadata(paths.value), lines[1..][..first]);
    if m.Err? {
      return Err(m.error);
    }
    var hunks: Result<nat, Refusal> := Ok(0);
    if first < |lines[1..]| {
      hunks := ValidateHunks(lines[1..][first..]);
      if hunks.Err? {
        return Err(hunks.error);
      }
    }
    r := Concluded(lines, paths.value.0, paths.value.1, m.value, hunks.value, first);
  }

  // ----- the whole diff -----------------------------------------------------------------------------------------

  /** The changes of all sections, or the first refusal. */
  function AllParsed(split: Shell, sections: seq<seq<string>>): Result<seq<Change>, Refusal> {
    if sections == [] then Ok([])
    else
      var first := SectionParsed(split, sections[0]);
      if first.Err? then Err(first.error) else Prepend([first.value], AllParsed(split, sections[1..]))
  }

  function Prepend(changes: seq<Change>, r: Result<seq<Change>, Refusal>): Result<seq<Change>, Refusal> {
    if r.Ok? then Ok(changes + r.value) else r
  }

  predicate LinesWithinLimits(lines: seq<string>) {
    && |lines| <= MAX_DIFF_LINES
    && forall line :: line in lines ==> |line| <= MAX_DIFF_LINE_CHARS
  }

  /** The text is a bounded list of lines that begins with a file header. */
  predicate Readable(raw: string) {
    var text := Unix(raw);
    && 0 < |raw| <= MAX_DIFF_CHARS && '\r' !in text && 0 as char !in text
    && LinesWithinLimits(SplitLines(text))
    && SplitLines(text) != [] && DiffHead()(SplitLines(text)[0])
    && |Segments(SplitLines(text), DiffHead())| <= MAX_DIFF_FILES
  }

  function DiffParsed(split: Shell, raw: string): Result<seq<Change>, Refusal> {
    if !Readable(raw) then Err(Refused) else AllParsed(split, Segments(SplitLines(Unix(raw)), DiffHead()))
  }

  lemma ParseStep(split: Shell, section: seq<string>, rest: seq<seq<string>>, sections: seq<seq<string>>)
    requires sections == [section] + rest
    ensures var first := SectionParsed(split, section);
            AllParsed(split, sections) == if first.Err? then Err(first.error) else Prepend([first.value], AllParsed(split, rest))
  {
    assert sections[1..] == rest;
  }

  /** The loop over the section positions. */
  method ParseSlices(split: Shell, lines: seq<string>, starts: seq<nat>) returns (r: Result<seq<Change>, Refusal>)
    requires AreHeads(lines, DiffHead(), starts)
    ensures r == AllParsed(split, SlicesFrom(lines, starts, 0))
  {
    var changes: seq<Change> := [];
    ghost var all := AllParsed(split, SlicesFrom(lines, starts, 0));
    PrependNothing(all);
    for position := 0 to |starts|
      invariant all == Prepend(changes, AllParsed(split, SlicesFrom(lines, starts, position)))
    {
      var change := ParseSection(split, lines[starts[position]..EndOf(lines, starts, position)]);
      ghost var next := AllParsed(split, SlicesFrom(lines, starts, position + 1));
      ParseStep(split, Slice(lines, starts, position), SlicesFrom(lines, starts, position + 1),
                SlicesFrom(lines, starts, position));
      if change.Err? {
        return Err(change.error);
      }
      PrependOne(changes, change.value, next);
      changes := changes + [change.value];
    }
    assert changes + [] == changes;
    r := Ok(changes);
  }

  lemma PrependNothing(r: Result<seq<Change>, Refusal>)
    ensures Prepend([], r) == r
  {
    if r.Ok? {
      assert [] + r.value == r.value;
    }
  }

  lemma PrependOne(changes: seq<Change>, change: Change, r: Result<seq<Change>, Refusal>)
    ensures Prepend(changes, Prepend([change], r)) == Prepend(changes + [change], r)
  {
    if r.Ok? {
      assert changes + ([change] + r.value) == changes + [change] + r.value;
    }
  }

  method ParseUnifiedDiff(split: Shell, raw: string) returns (r: Result<seq<Change>, Refusal>)
    ensures r == DiffParsed(split, raw)
  {
    if raw == "" || |raw| > MAX_DIFF_CHARS {
      return Err(Refused);
    }
    var text := Unix(raw);
    if '\r' in text || 0 as char in text {
      return Err(Refused);
    }
    var lines := SplitLines(text);
    if !LinesWithinLimits(lines) {
      return Err(Refused);
    }
    var starts := CollectHeads(lines, DiffHead());
    if starts == [] || starts[0] != 0 {
      HeadsStartAtZero(lines, DiffHead(), starts);
      return Err(Refused);
    }
    SegmentsAreSlices(lines, DiffHead(), starts);
    if |starts| > MAX_DIFF_FILES {
      return Err(Refused);
    }
    r := ParseSlices(split, lines, starts);
  }

  lemma HeadsStartAtZero(lines: seq<string>, head: LineTest, starts: seq<nat>)
    requires AreHeads(lines, head, starts) && (starts == [] || starts[0] != 0)
    ensures lines == [] || !head(lines[0])
  {
    if lines != [] && head(lines[0]) {
      FirstHead(lines, head, starts);
    }
  }

  // ----- what acceptance means --------------------------------------------------------------------------------

  /** The part of a section from its first hunk on. */
  function HunkPart(section: seq<string>): seq<string>
    requires section != []
  {
    section[1..][UntilHead(section[1..], HunkHead())..]
  }

  /** A hunk with a well-formed header whose body has exactly the declared old and new lines. */
  predicate ExactHunk(hunk: seq<string>) {
    && IsSegment(hunk, HunkHead()) && HunkRanges(hunk[0]).Some?
    && (forall line :: line in hunk[1..] ==> BodyLine(line))
    && |Filter(hunk[1..], OldSide())| == DigitValue(HunkRanges(hunk[0]).value.0)
    && |Filter(hunk[1..], NewSide())| == DigitValue(HunkRanges(hunk[0]).value.1)
  }

  /** After its metadata a section is nothing but exact hunks. */
  predicate ExactSection(section: seq<string>) {
    && IsSegment(section, DiffHead())
    && Concat(Segments(HunkPart(section), HunkHead())) == HunkPart(section)
    && forall k :: 0 <= k < |Segments(HunkPart(section), HunkHead())| ==> ExactHunk(Segments(HunkPart(section), HunkHead())[k])
  }

  lemma CheckedHunkIsExact(hunk: seq<string>)
    requires IsSegment(hunk, HunkHead()) && HunkChecked(hunk).None?
    ensures ExactHunk(hunk)
  {
  }

  lemma CheckedHunksAreExact(part: seq<string>) returns (hunks: seq<seq<string>>)
    requires HunkCount(part).Ok? && (part == [] || HunkHead()(part[0]))
    ensures hunks == Segments(part, HunkHead()) && Concat(hunks) == part
    ensures forall k :: 0 <= k < |hunks| ==> ExactHunk(hunks[k])
  {
    hunks := Segments(part, HunkHead());
    SegmentsPartition(part, HunkHead());
    AllCheckedIff(hunks);
    forall k | 0 <= k < |hunks|
      ensures ExactHunk(hunks[k])
    {
      CheckedHunkIsExact(hunks[k]);
    }
  }

  lemma ParsedSectionIsExact(split: Shell, section: seq<string>)
    requires IsSegment(section, DiffHead()) && SectionParsed(split, section).Ok?
    ensures ExactSection(section)
  {
    var hunks := CheckedHunksAreExact(HunkPart(section));
  }

  lemma {:induction false} AllParsedIff(split: Shell, sections: seq<seq<string>>)
    ensures AllParsed(split, sections).Ok? <==> forall k :: 0 <= k < |sections| ==> SectionParsed(split, sections[k]).Ok?
    ensures AllParsed(split, sections).Ok? ==>
      |AllParsed(split, sections).value| == |sections|
      && forall k :: 0 <= k < |sections| ==> SectionParsed(split, sections[k]) == Ok(AllParsed(split, sections).value[k])
  {
    if sections != [] {
      AllParsedIff(split, sections[1..]);
      ParseStep(split, sections[0], sections[1..], sections);
      assert forall k :: 0 < k < |sections| ==> sections[k] == sections[1..][k - 1];
    }
  }

  /**
   * Acceptance: the lines are, in order and without remainder, one section for each `diff --git` line,
   * one change comes out of each section, and every hunk holds exactly its declared line counts.
   */
  lemma AcceptedDiffIsExact(split: Shell, raw: string)
    requires DiffParsed(split, raw).Ok?
    ensures var lines, changes := SplitLines(Unix(raw)), DiffParsed(split, raw).value;
            var sections := Segments(lines, DiffHead());
            && Concat(sections) == lines && |changes| == |sections|
            && forall k :: 0 <= k < |sections| ==>
                 ExactSection(sections[k]) && SectionParsed(split, sections[k]) == Ok(changes[k])
  {
    var sections := Segments(SplitLines(Unix(raw)), DiffHead());
    SegmentsPartition(SplitLines(Unix(raw)), DiffHead());
    AllParsedIff(split, sections);
    forall k | 0 <= k < |sections|
      ensures ExactSection(sections[k])
    {
      ParsedSectionIsExact(split, sections[k]);
    }
  }
}
